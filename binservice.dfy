/** The bin service: the subscriber registry, the push-channel connection
    state, the start/stop lifecycle of the push subscription and of the poll
    timer, and the poll channel's per-bin deduplication table. Rows of the
    backing table and channel events arrive as parameters; the service's
    outbound effects (removing a channel, clearing a timer, calling the
    subscribers) are recorded as values. */
module Services {
  import opened Types

  /** A registered callback, identified by reference. */
  type Subscriber = nat
  /** The handle of a realtime channel returned by the backing store's client. */
  type ChannelId = nat
  /** A timer handle as returned by `setInterval`: always positive, so truthy. */
  type TimerId = t: int | t > 0 witness 1

  datatype ConnectionStatus = Connected | Disconnected | Connecting

  /** The statuses the backing store reports to a channel's subscribe callback. */
  datatype ChannelStatus = Subscribed | Closed | TimedOut | ChannelError

  /** A row of the `bin_updates` table; times in milliseconds. */
  datatype BinUpdateRow = BinUpdateRow(
    binId: int,
    fillLevel: int,
    batteryLevel: Option<int>,
    status: Option<Status>,
    createdAt: int,
    updatedAt: int)

  /** The three outcomes of the poll query: an error result, a thrown
      exception, or the rows (a null data set is the empty sequence). */
  datatype FetchResult = FetchError | FetchThrew | Fetched(rows: seq<BinUpdateRow>)

  /** One call of one subscriber with one update; `raised` records whether
      that callback threw (the throw is caught and logged). */
  datatype Delivery = Delivery(subscriber: Subscriber, data: BinUpdateData, raised: bool)

  /** The poll query asks for at most this many rows, newest first. */
  const PollBatchLimit: int := 20

  // ---------------------------------------------------------------------
  // Normalization of rows into updates
  // ---------------------------------------------------------------------

  /** An inserted row (push INSERT event or poll result), stamped with its
      creation time. */
  function FromInsert(row: BinUpdateRow): (d: BinUpdateData)
    ensures d.binId == row.binId && d.fillLevel == row.fillLevel && d.timestamp == row.createdAt
    ensures d.batteryLevel == row.batteryLevel && d.status == row.status
  {
    BinUpdateData(row.binId, row.fillLevel, row.batteryLevel, row.status, row.createdAt)
  }

  /** An updated row (push UPDATE event), stamped with its update time. */
  function FromUpdate(row: BinUpdateRow): (d: BinUpdateData)
    ensures d.binId == row.binId && d.fillLevel == row.fillLevel && d.timestamp == row.updatedAt
    ensures d.batteryLevel == row.batteryLevel && d.status == row.status
  {
    BinUpdateData(row.binId, row.fillLevel, row.batteryLevel, row.status, row.updatedAt)
  }

  /** The update built by the manual trigger: status from the fill
      thresholds, battery 100 when absent or 0, stamped `now`. */
  function SimulatedRecord(binId: int, fill: int, battery: Option<int>, now: int): (d: BinUpdateData)
    ensures d.binId == binId && d.fillLevel == fill && d.timestamp == now
    ensures d.status.Some? && d.status.value == DeriveStatus(fill)
    ensures d.status.value == Critical <==> fill >= 80
    ensures d.status.value == Warning <==> 50 <= fill < 80
    ensures d.batteryLevel.Some?
    ensures d.batteryLevel.value == (if battery.None? || battery.value == 0 then 100 else battery.value)
  {
    BinUpdateData(binId, fill, Some(OrIfFalsy(battery, 100)), Some(DeriveStatus(fill)), now)
  }

  // ---------------------------------------------------------------------
  // Subscriber registry
  // ---------------------------------------------------------------------

  /** `s` with the first occurrence of `x` removed, if any. */
  function RemoveFirst(s: seq<Subscriber>, x: Subscriber): seq<Subscriber>
  {
    if s == [] then []
    else if s[0] == x then s[1..]
    else [s[0]] + RemoveFirst(s[1..], x)
  }

  /** Removing splits the registry at the first occurrence of `x`, keeping
      the order of everything else; an absent `x` leaves it unchanged. */
  lemma {:induction false} RemoveFirstAt(s: seq<Subscriber>, x: Subscriber, i: int)
    requires 0 <= i < |s| && s[i] == x && x !in s[..i]
    ensures RemoveFirst(s, x) == s[..i] + s[i + 1..]
  {
    if i > 0 {
      assert s[0] != x by { assert s[0] == s[..i][0]; }
      assert s[1..][..i - 1] == s[..i][1..];
      RemoveFirstAt(s[1..], x, i - 1);
      assert s[..i] == [s[0]] + s[1..][..i - 1];
      assert s[i + 1..] == s[1..][i..];
    }
  }

  lemma {:induction false} RemoveFirstAbsent(s: seq<Subscriber>, x: Subscriber)
    requires x !in s
    ensures RemoveFirst(s, x) == s
  {
    if s != [] {
      assert x !in s[1..] by { forall y | y in s[1..] ensures y in s { } }
      RemoveFirstAbsent(s[1..], x);
    }
  }

  /** Unsubscribing removes exactly one registration of `x` when there is
      one, and none otherwise. */
  lemma {:induction false} RemoveFirstMultiset(s: seq<Subscriber>, x: Subscriber)
    ensures multiset(RemoveFirst(s, x)) == multiset(s) - multiset{x}
  {
    if s != [] {
      assert s == [s[0]] + s[1..];
      RemoveFirstMultiset(s[1..], x);
    }
  }

  /** Subscribing a fresh callback and then unsubscribing it restores the
      registry; a second unsubscribe is then a no-op. */
  lemma SubscribeUnsubscribeRoundTrip(s: seq<Subscriber>, x: Subscriber)
    requires x !in s
    ensures RemoveFirst(s + [x], x) == s
    ensures RemoveFirst(RemoveFirst(s + [x], x), x) == s
  {
    assert (s + [x])[|s|] == x && (s + [x])[..|s|] == s;
    RemoveFirstAt(s + [x], x, |s|);
    assert (s + [x])[|s| + 1..] == [];
    RemoveFirstAbsent(s, x);
  }

  /** A second unsubscribe of a callback registered at most once does nothing. */
  lemma UnsubscribeTwice(s: seq<Subscriber>, x: Subscriber)
    requires multiset(s)[x] <= 1
    ensures RemoveFirst(RemoveFirst(s, x), x) == RemoveFirst(s, x)
  {
    RemoveFirstMultiset(s, x);
    assert x !in RemoveFirst(s, x) by {
      assert multiset(RemoveFirst(s, x))[x] == 0;
    }
    RemoveFirstAbsent(RemoveFirst(s, x), x);
  }

  /** `Array.prototype.indexOf`: the first position of `x`, or -1. */
  method IndexOf(s: seq<Subscriber>, x: Subscriber) returns (index: int)
    ensures -1 <= index < |s|
    ensures index == -1 <==> x !in s
    ensures 0 <= index ==> s[index] == x && x !in s[..index]
  {
    index := 0;
    while index < |s|
      invariant 0 <= index <= |s|
      invariant x !in s[..index]
    {
      if s[index] == x {
        return;
      }
      assert s[..index + 1] == s[..index] + [s[index]];
      index := index + 1;
    }
    assert s[..index] == s;
    index := -1;
  }

  /** The calls made by one notification: every subscriber, in registration
      order, with the same update. */
  function Broadcast(callbacks: seq<Subscriber>, data: BinUpdateData, faulty: set<Subscriber>): (log: seq<Delivery>)
    ensures |log| == |callbacks|
    ensures forall i :: 0 <= i < |log| ==> log[i].subscriber == callbacks[i] && log[i].data == data
  {
    seq(|callbacks|, i requires 0 <= i < |callbacks| => Delivery(callbacks[i], data, callbacks[i] in faulty))
  }

  /** The calls made by a sequence of notifications, one after the other. */
  function BroadcastAll(callbacks: seq<Subscriber>, records: seq<BinUpdateData>, faulty: set<Subscriber>): seq<Delivery>
  {
    if records == [] then []
    else BroadcastAll(callbacks, records[..|records| - 1], faulty) + Broadcast(callbacks, records[|records| - 1], faulty)
  }

  /** A sequence of notifications makes one call per record per subscriber. */
  lemma {:induction false} BroadcastAllLength(callbacks: seq<Subscriber>, records: seq<BinUpdateData>, faulty: set<Subscriber>)
    ensures |BroadcastAll(callbacks, records, faulty)| == |records| * |callbacks|
  {
    if records != [] {
      var n := |records| - 1;
      BroadcastAllLength(callbacks, records[..n], faulty);
      assert |records| * |callbacks| == n * |callbacks| + |callbacks|;
    }
  }

  // ---------------------------------------------------------------------
  // Poll deduplication
  // ---------------------------------------------------------------------

  /** The recorded time of bin `b`; a bin never seen counts as 0. */
  function Lookup(table: map<int, int>, b: int): (t: int)
    ensures b !in table ==> t == 0
    ensures b in table ==> t == table[b]
  {
    if b in table then table[b] else 0
  }

  /** A row passes the gate iff it is strictly newer than the recorded time. */
  predicate Accepts(table: map<int, int>, row: BinUpdateRow)
    ensures row.binId !in table ==> (Accepts(table, row) <==> row.createdAt > 0)
    ensures row.binId in table ==> (Accepts(table, row) <==> row.createdAt > table[row.binId])
  {
    row.createdAt > Lookup(table, row.binId)
  }

  /** The table after the rows have gone through the gate in order: each
      accepted row records its time, each rejected row leaves it unchanged. */
  function PollTable(table: map<int, int>, rows: seq<BinUpdateRow>): (r: map<int, int>)
    ensures table.Keys <= r.Keys
  {
    if rows == [] then table
    else
      var before := PollTable(table, rows[..|rows| - 1]);
      var row := rows[|rows| - 1];
      if Accepts(before, row) then before[row.binId := row.createdAt] else before
  }

  /** Whether row `i` of the batch is forwarded, given the rows before it. */
  predicate Accepted(table: map<int, int>, rows: seq<BinUpdateRow>, i: int)
    requires 0 <= i < |rows|
  {
    Accepts(PollTable(table, rows[..i]), rows[i])
  }

  /** The positions of the forwarded rows, in increasing order. */
  function AcceptedIndices(table: map<int, int>, rows: seq<BinUpdateRow>): (idx: seq<int>)
    ensures |idx| <= |rows|
    ensures forall k :: 0 <= k < |idx| ==> 0 <= idx[k] < |rows| && Accepted(table, rows, idx[k])
    ensures forall k, l :: 0 <= k < l < |idx| ==> idx[k] < idx[l]
    ensures forall i :: 0 <= i < |rows| && Accepted(table, rows, i) ==> i in idx
  {
    if rows == [] then []
    else
      var n := |rows| - 1;
      AcceptedInPrefix(table, rows, n);
      AcceptedIndices(table, rows[..n]) + (if Accepted(table, rows, n) then [n] else [])
  }

  /** The gate's verdict on a row does not depend on the rows after it. */
  lemma AcceptedInPrefix(table: map<int, int>, rows: seq<BinUpdateRow>, n: int)
    requires 0 <= n <= |rows|
    ensures forall i :: 0 <= i < n ==> (Accepted(table, rows[..n], i) <==> Accepted(table, rows, i))
  {
    forall i | 0 <= i < n
      ensures Accepted(table, rows[..n], i) <==> Accepted(table, rows, i)
    {
      assert rows[..n][..i] == rows[..i] && rows[..n][i] == rows[i];
    }
  }

  /** The updates the poll forwards to the subscribers, in batch order. */
  function Forwarded(table: map<int, int>, rows: seq<BinUpdateRow>): (fwd: seq<BinUpdateData>)
    ensures |fwd| <= |rows|
  {
    var idx := AcceptedIndices(table, rows);
    seq(|idx|, k requires 0 <= k < |idx| => FromInsert(rows[idx[k]]))
  }

  /** Extending the batch by one row forwards that row iff it passes the gate. */
  lemma ForwardedSnoc(table: map<int, int>, rows: seq<BinUpdateRow>, i: int)
    requires 0 <= i < |rows|
    ensures PollTable(table, rows[..i + 1]) ==
      (var before := PollTable(table, rows[..i]);
       if Accepts(before, rows[i]) then before[rows[i].binId := rows[i].createdAt] else before)
    ensures Forwarded(table, rows[..i + 1]) ==
      Forwarded(table, rows[..i]) + (if Accepts(PollTable(table, rows[..i]), rows[i]) then [FromInsert(rows[i])] else [])
  {
    var p := rows[..i + 1];
    assert p[..i] == rows[..i] && p[i] == rows[i];
    ForwardedLast(table, p);
  }

  lemma ForwardedLast(table: map<int, int>, rows: seq<BinUpdateRow>)
    requires |rows| > 0
    ensures var n := |rows| - 1;
      Forwarded(table, rows) == Forwarded(table, rows[..n]) + (if Accepted(table, rows, n) then [FromInsert(rows[n])] else [])
  {
    var n := |rows| - 1;
    var idx0 := AcceptedIndices(table, rows[..n]);
    var idx := AcceptedIndices(table, rows);
    assert idx == idx0 + (if Accepted(table, rows, n) then [n] else []);
    var fwd := Forwarded(table, rows);
    var fwd0 := Forwarded(table, rows[..n]);
    forall k | 0 <= k < |fwd0|
      ensures fwd[k] == fwd0[k]
    {
      assert idx[k] == idx0[k];
      assert rows[..n][idx0[k]] == rows[idx0[k]];
    }
  }

  /** One row of the poll loop: the table and the calls made so far grow
      by that row's effect, decided by the table built from the rows before it. */
  lemma PollStep(table: map<int, int>, rows: seq<BinUpdateRow>, i: int, callbacks: seq<Subscriber>, faulty: set<Subscriber>)
    requires 0 <= i < |rows|
    ensures var before := PollTable(table, rows[..i]);
      var row := rows[i];
      var accepted := row.createdAt > (if row.binId in before then before[row.binId] else 0);
      && PollTable(table, rows[..i + 1]) == (if accepted then before[row.binId := row.createdAt] else before)
      && BroadcastAll(callbacks, Forwarded(table, rows[..i + 1]), faulty) ==
         BroadcastAll(callbacks, Forwarded(table, rows[..i]), faulty)
         + (if accepted then Broadcast(callbacks, FromInsert(row), faulty) else [])
  {
    ForwardedSnoc(table, rows, i);
    var fwd := Forwarded(table, rows[..i]);
    if Accepts(PollTable(table, rows[..i]), rows[i]) {
      BroadcastAllSnoc(callbacks, fwd, FromInsert(rows[i]), faulty);
    } else {
      assert fwd + [] == fwd;
    }
  }

  lemma BroadcastAllSnoc(callbacks: seq<Subscriber>, records: seq<BinUpdateData>, d: BinUpdateData, faulty: set<Subscriber>)
    ensures BroadcastAll(callbacks, records + [d], faulty) == BroadcastAll(callbacks, records, faulty) + Broadcast(callbacks, d, faulty)
  {
    assert (records + [d])[..|records|] == records;
  }

  /** The query returns at most `PollBatchLimit` rows, so one poll calls
      each subscriber at most that many times. */
  lemma PollDeliveryBound(table: map<int, int>, rows: seq<BinUpdateRow>, callbacks: seq<Subscriber>, faulty: set<Subscriber>)
    requires |rows| <= PollBatchLimit
    ensures |BroadcastAll(callbacks, Forwarded(table, rows), faulty)| <= PollBatchLimit * |callbacks|
  {
    var fwd := Forwarded(table, rows);
    BroadcastAllLength(callbacks, fwd, faulty);
    MulMonotone(|fwd|, PollBatchLimit, |callbacks|);
  }

  lemma {:induction false} MulMonotone(a: nat, b: nat, c: nat)
    requires a <= b
    ensures a * c <= b * c
  {
    if c > 0 {
      MulMonotone(a, b, c - 1);
      assert a * c == a * (c - 1) + a && b * c == b * (c - 1) + b;
    }
  }

  /** The bins a batch holds rows for. */
  function BinIds(rows: seq<BinUpdateRow>): set<int>
  {
    set j | 0 <= j < |rows| :: rows[j].binId
  }

  /** A poll touches only the entries of bins it fetched rows for. */
  lemma {:induction false} PollTableOtherBins(table: map<int, int>, rows: seq<BinUpdateRow>, b: int)
    requires b !in BinIds(rows)
    ensures b in PollTable(table, rows) <==> b in table
    ensures Lookup(PollTable(table, rows), b) == Lookup(table, b)
  {
    if rows != [] {
      var n := |rows| - 1;
      assert rows[n].binId in BinIds(rows);
      assert b !in BinIds(rows[..n]) by {
        forall j | 0 <= j < n ensures rows[..n][j].binId != b {
          assert rows[..n][j] == rows[j];
          assert rows[j].binId in BinIds(rows);
        }
      }
      PollTableOtherBins(table, rows[..n], b);
    }
  }

  /** Recorded times never decrease. */
  lemma {:induction false} PollTableMonotone(table: map<int, int>, rows: seq<BinUpdateRow>, b: int)
    ensures Lookup(table, b) <= Lookup(PollTable(table, rows), b)
  {
    if rows != [] {
      PollTableMonotone(table, rows[..|rows| - 1], b);
    }
  }

  /** After the batch, each bin's recorded time is at least every time the
      batch holds for it. */
  lemma {:induction false} PollTableCovers(table: map<int, int>, rows: seq<BinUpdateRow>, j: int)
    requires 0 <= j < |rows|
    ensures rows[j].createdAt <= Lookup(PollTable(table, rows), rows[j].binId)
  {
    var n := |rows| - 1;
    if j < n {
      assert rows[..n][j] == rows[j];
      PollTableCovers(table, rows[..n], j);
      var before := PollTable(table, rows[..n]);
      if Accepts(before, rows[n]) && rows[n].binId == rows[j].binId {
      }
    }
  }

  /** A time above the recorded one and above every time of the batch for
      bin `b` stays above the recorded time after the batch. */
  lemma {:induction false} PollTableBound(table: map<int, int>, rows: seq<BinUpdateRow>, b: int, x: int)
    requires x > Lookup(table, b)
    requires forall j :: 0 <= j < |rows| && rows[j].binId == b ==> x > rows[j].createdAt
    ensures x > Lookup(PollTable(table, rows), b)
  {
    if rows != [] {
      var n := |rows| - 1;
      assert forall j :: 0 <= j < n ==> rows[..n][j] == rows[j];
      PollTableBound(table, rows[..n], b, x);
    }
  }

  /** The gate in closed form: a row is forwarded iff it is strictly newer
      than the bin's time before the poll and than every earlier row of the
      same bin in the batch. */
  lemma AcceptedIff(table: map<int, int>, rows: seq<BinUpdateRow>, i: int)
    requires 0 <= i < |rows|
    ensures Accepted(table, rows, i) <==>
      (rows[i].createdAt > Lookup(table, rows[i].binId)
       && forall j :: 0 <= j < i && rows[j].binId == rows[i].binId ==> rows[i].createdAt > rows[j].createdAt)
  {
    var pre := rows[..i];
    var b := rows[i].binId;
    var x := rows[i].createdAt;
    assert forall j :: 0 <= j < i ==> pre[j] == rows[j];
    if Accepted(table, rows, i) {
      PollTableMonotone(table, pre, b);
      forall j | 0 <= j < i && rows[j].binId == b
        ensures x > rows[j].createdAt
      {
        PollTableCovers(table, pre, j);
      }
    } else if x > Lookup(table, b) && forall j :: 0 <= j < i && rows[j].binId == b ==> x > rows[j].createdAt {
      PollTableBound(table, pre, b, x);
    }
  }

  /** A batch in which nothing passes the gate changes nothing and forwards nothing. */
  lemma {:induction false} NothingAccepted(table: map<int, int>, rows: seq<BinUpdateRow>)
    requires forall i :: 0 <= i < |rows| ==> !Accepted(table, rows, i)
    ensures PollTable(table, rows) == table
    ensures Forwarded(table, rows) == []
  {
    if rows != [] {
      var n := |rows| - 1;
      forall i | 0 <= i < n
        ensures !Accepted(table, rows[..n], i)
      {
        assert rows[..n][..i] == rows[..i] && rows[..n][i] == rows[i];
        assert !Accepted(table, rows, i);
      }
      NothingAccepted(table, rows[..n]);
      assert !Accepted(table, rows, n);
    }
  }

  /** Redelivery: polling the same batch again forwards nothing and leaves
      the table as it is, so every record is forwarded at most once. */
  lemma RepollForwardsNothing(table: map<int, int>, rows: seq<BinUpdateRow>)
    ensures PollTable(PollTable(table, rows), rows) == PollTable(table, rows)
    ensures Forwarded(PollTable(table, rows), rows) == []
  {
    var after := PollTable(table, rows);
    forall i | 0 <= i < |rows|
      ensures !Accepted(after, rows, i)
    {
      PollTableCovers(table, rows, i);
      AcceptedIff(after, rows, i);
    }
    NothingAccepted(after, rows);
  }

  /** One record: forwarded iff strictly newer than the recorded time (an
      absent entry counts as 0); on acceptance the entry becomes its time,
      on rejection the table is unchanged; the identical record then fails. */
  lemma SingleRecordGate(table: map<int, int>, row: BinUpdateRow)
    ensures PollTable(table, [row]) ==
      if row.createdAt > Lookup(table, row.binId) then table[row.binId := row.createdAt] else table
    ensures Forwarded(table, [row]) ==
      if row.createdAt > Lookup(table, row.binId) then [FromInsert(row)] else []
    ensures Forwarded(PollTable(table, [row]), [row]) == []
  {
    assert [row][..0] == [];
    assert Accepted(table, [row], 0) <==> Accepts(table, row);
    RepollForwardsNothing(table, [row]);
  }

  /** The query orders rows by creation time, newest first. */
  predicate NewestFirst(rows: seq<BinUpdateRow>)
  {
    forall i, j :: 0 <= i < j < |rows| ==> rows[i].createdAt >= rows[j].createdAt
  }

  /** Row `i` is the first, hence newest, row of its bin in the batch. */
  predicate FirstOfBin(rows: seq<BinUpdateRow>, i: int)
    requires 0 <= i < |rows|
  {
    forall j :: 0 <= j < i ==> rows[j].binId != rows[i].binId
  }

  /** With a newest-first batch, a row is forwarded iff it is its bin's first
      row in the batch and newer than the recorded time; so at most one
      update per bin is forwarded, and it carries that bin's newest time. */
  lemma NewestFirstForwardsNewest(table: map<int, int>, rows: seq<BinUpdateRow>)
    requires NewestFirst(rows)
    ensures forall i :: 0 <= i < |rows| ==>
      (Accepted(table, rows, i) <==> FirstOfBin(rows, i) && rows[i].createdAt > Lookup(table, rows[i].binId))
    ensures var fwd := Forwarded(table, rows);
      && (forall k, l :: 0 <= k < l < |fwd| ==> fwd[k].binId != fwd[l].binId)
      && (forall k, j :: 0 <= k < |fwd| && 0 <= j < |rows| && rows[j].binId == fwd[k].binId ==>
            rows[j].createdAt <= fwd[k].timestamp)
  {
    forall i | 0 <= i < |rows|
      ensures Accepted(table, rows, i) <==> FirstOfBin(rows, i) && rows[i].createdAt > Lookup(table, rows[i].binId)
    {
      AcceptedIff(table, rows, i);
    }
    var idx := AcceptedIndices(table, rows);
    var fwd := Forwarded(table, rows);
    forall k, l | 0 <= k < l < |fwd|
      ensures fwd[k].binId != fwd[l].binId
    {
      assert FirstOfBin(rows, idx[l]) && idx[k] < idx[l];
    }
    forall k, j | 0 <= k < |fwd| && 0 <= j < |rows| && rows[j].binId == fwd[k].binId
      ensures rows[j].createdAt <= fwd[k].timestamp
    {
      assert FirstOfBin(rows, idx[k]);
    }
  }

  // ---------------------------------------------------------------------
  // Connection state machine
  // ---------------------------------------------------------------------

  /** The subscribe callback: an error disconnects whatever the status,
      SUBSCRIBED connects, CLOSED disconnects, any other status keeps the state. */
  function NextConnectionStatus(current: ConnectionStatus, status: ChannelStatus, hasError: bool): (next: ConnectionStatus)
    ensures next == Connecting ==> current == Connecting
    ensures next != current ==> hasError || status == Subscribed || status == Closed
    ensures !hasError && status == Subscribed ==> next == Connected
    ensures !hasError && status == Closed ==> next == Disconnected
  {
    if hasError then Disconnected
    else if status == Subscribed then Connected
    else if status == Closed then Disconnected
    else current
  }

  lemma ConnectionTransitions(current: ConnectionStatus, status: ChannelStatus, hasError: bool)
    ensures hasError ==> NextConnectionStatus(current, status, hasError) == Disconnected
    ensures NextConnectionStatus(current, status, hasError) == Connected <==>
      !hasError && (status == Subscribed || (current == Connected && status != Closed))
    ensures !hasError && status != Subscribed && status != Closed ==>
      NextConnectionStatus(current, status, hasError) == current
    ensures !hasError && status == Closed ==> NextConnectionStatus(current, status, hasError) == Disconnected
  {
  }

  // ---------------------------------------------------------------------
  // The service object
  // ---------------------------------------------------------------------

  class BinService {
    var updateCallbacks: seq<Subscriber>
    var pollingInterval: Option<TimerId>
    var lastUpdateTime: map<int, int>
    var realtimeSubscription: Option<ChannelId>
    var connectionStatus: ConnectionStatus
    /** The channels handed back to the client's `removeChannel`, in order. */
    var removedChannels: seq<ChannelId>
    /** The timers passed to `clearInterval`, in order. */
    var clearedTimers: seq<TimerId>

    constructor ()
      ensures updateCallbacks == [] && pollingInterval == None && lastUpdateTime == map[]
      ensures realtimeSubscription == None && connectionStatus == Disconnected
      ensures removedChannels == [] && clearedTimers == []
    {
      updateCallbacks := [];
      pollingInterval := None;
      lastUpdateTime := map[];
      realtimeSubscription := None;
      connectionStatus := Disconnected;
      removedChannels := [];
      clearedTimers := [];
    }

    /** Registers a callback at the end of the registry. */
    method OnBinUpdate(callback: Subscriber)
      modifies this`updateCallbacks
      ensures updateCallbacks == old(updateCallbacks) + [callback]
    {
      updateCallbacks := updateCallbacks + [callback];
    }

    /** The unsubscribe function returned by `OnBinUpdate`: removes the first
        registration of the callback, if there is one. */
    method Unsubscribe(callback: Subscriber)
      modifies this`updateCallbacks
      ensures updateCallbacks == RemoveFirst(old(updateCallbacks), callback)
    {
      var index := IndexOf(updateCallbacks, callback);
      if index > -1 {
        RemoveFirstAt(updateCallbacks, callback, index);
        updateCallbacks := updateCallbacks[..index] + updateCallbacks[index + 1..];
      } else {
        RemoveFirstAbsent(updateCallbacks, callback);
      }
    }

    /** Calls every registered callback with `data`, in order; a callback
        that throws (one in `faulty`) does not stop the ones after it. */
    method NotifyUpdate(data: BinUpdateData, faulty: set<Subscriber>) returns (log: seq<Delivery>)
      ensures |log| == |updateCallbacks|
      ensures forall i :: 0 <= i < |log| ==>
        log[i] == Delivery(updateCallbacks[i], data, updateCallbacks[i] in faulty)
      ensures log == Broadcast(updateCallbacks, data, faulty)
    {
      log := [];
      var i := 0;
      while i < |updateCallbacks|
        invariant 0 <= i <= |updateCallbacks|
        invariant |log| == i
        invariant forall k :: 0 <= k < i ==> log[k] == Delivery(updateCallbacks[k], data, updateCallbacks[k] in faulty)
      {
        var callback := updateCallbacks[i];
        var raised := callback in faulty;
        log := log + [Delivery(callback, data, raised)];
        i := i + 1;
      }
    }

    /** Opens the push subscription on `channel`, first stopping an existing
        one, and enters `connecting`. */
    method StartRealtimeSubscription(channel: ChannelId)
      modifies this`realtimeSubscription, this`connectionStatus, this`removedChannels
      ensures realtimeSubscription == Some(channel) && connectionStatus == Connecting
      ensures removedChannels == old(removedChannels) +
        (if old(realtimeSubscription).Some? then [old(realtimeSubscription).value] else [])
    {
      if realtimeSubscription.Some? {
        StopRealtimeSubscription();
      }
      connectionStatus := Connecting;
      realtimeSubscription := Some(channel);
    }

    /** The subscribe-status callback of the channel. */
    method OnSubscribeStatus(status: ChannelStatus, hasError: bool)
      modifies this`connectionStatus
      ensures connectionStatus == NextConnectionStatus(old(connectionStatus), status, hasError)
    {
      if hasError {
        connectionStatus := Disconnected;
      } else if status == Subscribed {
        connectionStatus := Connected;
      } else if status == Closed {
        connectionStatus := Disconnected;
      }
    }

    /** The push INSERT handler: notifies every subscriber at once, without
        consulting or touching the deduplication table. */
    method OnInsertEvent(row: BinUpdateRow, faulty: set<Subscriber>) returns (log: seq<Delivery>)
      ensures log == Broadcast(updateCallbacks, FromInsert(row), faulty)
      ensures |log| == |updateCallbacks| && forall i :: 0 <= i < |log| ==> log[i].data.timestamp == row.createdAt
    {
      log := NotifyUpdate(FromInsert(row), faulty);
    }

    /** The push UPDATE handler: as the INSERT handler, stamped with the
        row's update time. */
    method OnUpdateEvent(row: BinUpdateRow, faulty: set<Subscriber>) returns (log: seq<Delivery>)
      ensures log == Broadcast(updateCallbacks, FromUpdate(row), faulty)
      ensures |log| == |updateCallbacks| && forall i :: 0 <= i < |log| ==> log[i].data.timestamp == row.updatedAt
    {
      log := NotifyUpdate(FromUpdate(row), faulty);
    }

    /** Closes the push subscription; a no-op when there is none, hence idempotent. */
    method StopRealtimeSubscription()
      modifies this`realtimeSubscription, this`connectionStatus, this`removedChannels
      ensures old(realtimeSubscription).None? ==>
        realtimeSubscription == None && connectionStatus == old(connectionStatus) && removedChannels == old(removedChannels)
      ensures old(realtimeSubscription).Some? ==>
        realtimeSubscription == None && connectionStatus == Disconnected
        && removedChannels == old(removedChannels) + [old(realtimeSubscription).value]
    {
      if realtimeSubscription.Some? {
        removedChannels := removedChannels + [realtimeSubscription.value];
        realtimeSubscription := None;
        connectionStatus := Disconnected;
      }
    }

    /** Starts the poll timer `timer`, first stopping a running one. */
    method StartPolling(timer: TimerId)
      modifies this`pollingInterval, this`clearedTimers
      ensures pollingInterval == Some(timer)
      ensures clearedTimers == old(clearedTimers) +
        (if old(pollingInterval).Some? then [old(pollingInterval).value] else [])
    {
      if pollingInterval.Some? {
        StopPolling();
      }
      pollingInterval := Some(timer);
    }

    /** Clears the poll timer; a no-op when none runs, hence idempotent. */
    method StopPolling()
      modifies this`pollingInterval, this`clearedTimers
      ensures pollingInterval == None
      ensures clearedTimers == old(clearedTimers) +
        (if old(pollingInterval).Some? then [old(pollingInterval).value] else [])
    {
      if pollingInterval.Some? {
        clearedTimers := clearedTimers + [pollingInterval.value];
        pollingInterval := None;
      }
    }

    /** One poll tick. Each fetched row passes the gate in batch order;
        an accepted row records its time and is sent to every subscriber.
        An error, an exception or an empty result changes nothing. */
    method CheckForUpdates(fetch: FetchResult, faulty: set<Subscriber>) returns (log: seq<Delivery>)
      modifies this`lastUpdateTime
      ensures !fetch.Fetched? ==> lastUpdateTime == old(lastUpdateTime) && log == []
      ensures fetch.Fetched? ==>
        && lastUpdateTime == PollTable(old(lastUpdateTime), fetch.rows)
        && log == BroadcastAll(updateCallbacks, Forwarded(old(lastUpdateTime), fetch.rows), faulty)
    {
      log := [];
      if fetch.FetchError? || fetch.FetchThrew? {
        return;
      }
      var rows := fetch.rows;
      if |rows| > 0 {
        ghost var table0 := lastUpdateTime;
        var i := 0;
        while i < |rows|
          invariant 0 <= i <= |rows|
          invariant lastUpdateTime == PollTable(table0, rows[..i])
          invariant log == BroadcastAll(updateCallbacks, Forwarded(table0, rows[..i]), faulty)
        {
          var row := rows[i];
          var lastKnownTime := if row.binId in lastUpdateTime then lastUpdateTime[row.binId] else 0;
          PollStep(table0, rows, i, updateCallbacks, faulty);
          if row.createdAt > lastKnownTime {
            lastUpdateTime := lastUpdateTime[row.binId := row.createdAt];
            var sent := NotifyUpdate(FromInsert(row), faulty);
            log := log + sent;
          }
          i := i + 1;
        }
        assert rows[..i] == rows;
      }
    }

    /** The manual trigger: notifies every subscriber of a synthesized
        update, bypassing the deduplication table. */
    method SimulateUpdate(binId: int, fill: int, battery: Option<int>, now: int, faulty: set<Subscriber>)
      returns (log: seq<Delivery>)
      ensures log == Broadcast(updateCallbacks, SimulatedRecord(binId, fill, battery, now), faulty)
    {
      var status := Normal;
      if fill >= 80 {
        status := Critical;
      } else if fill >= 50 {
        status := Warning;
      }
      var data := BinUpdateData(binId, fill, Some(if battery.Some? && battery.value != 0 then battery.value else 100), Some(status), now);
      log := NotifyUpdate(data, faulty);
    }

    /** The current state of the push channel. */
    function GetConnectionStatus(): (s: ConnectionStatus)
      reads this
      ensures s == connectionStatus
    {
      connectionStatus
    }
  }
}
