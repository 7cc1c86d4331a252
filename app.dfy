/** The application's write side over the list of dustbins: applying one
    normalized update, the liveness monitor of the sensor-fed bin 1001, the
    synthetic random walk of every other bin, the manual refresh, and the
    statistics recomputed after every change of the list. */
module App {
  import opened Types
  import opened Dustbins
  import Services

  /** A bin whose last accepted update is older than this is considered silent. */
  const LivenessTimeoutMs: int := 120000

  // ---------------------------------------------------------------------
  // Applying one update
  // ---------------------------------------------------------------------

  /** The status an update gives its bin: its own, or else the fill thresholds. */
  function ResolvedStatus(data: BinUpdateData): (s: Status)
    ensures data.status.Some? ==> s == data.status.value
    ensures data.status.None? ==> s != Servicing
    ensures data.status.None? ==> (s == Critical <==> data.fillLevel >= 80)
    ensures data.status.None? ==> (s == Normal <==> data.fillLevel < 50)
  {
    if data.status.Some? then data.status.value else DeriveStatus(data.fillLevel)
  }

  /** Replaces the bin whose id is `data.binId` by the updated record: fill
      taken verbatim (no clamping), battery kept when the update has none or
      0, status resolved, stamped `now`. Every other bin is left alone. */
  function ApplyUpdate(bins: seq<Dustbin>, data: BinUpdateData, now: int): (r: seq<Dustbin>)
    ensures |r| == |bins|
    ensures forall i :: 0 <= i < |bins| ==>
      r[i].id == bins[i].id && r[i].location == bins[i].location
      && r[i].capacity == bins[i].capacity && r[i].kind == bins[i].kind
    ensures forall i :: 0 <= i < |bins| && bins[i].id != data.binId ==> r[i] == bins[i]
    ensures forall i :: 0 <= i < |bins| && bins[i].id == data.binId ==>
      && r[i].fillLevel == data.fillLevel
      && r[i].lastUpdated == now
      && r[i].batteryLevel == (if data.batteryLevel.Some? && data.batteryLevel.value != 0
                               then data.batteryLevel.value else bins[i].batteryLevel)
      && (data.status.Some? ==> r[i].status == data.status.value)
      && (data.status.None? ==> r[i].status == DeriveStatus(data.fillLevel))
  {
    seq(|bins|, i requires 0 <= i < |bins| =>
      if bins[i].id == data.binId
      then bins[i].(fillLevel := data.fillLevel,
                    batteryLevel := OrIfFalsy(data.batteryLevel, bins[i].batteryLevel),
                    status := ResolvedStatus(data),
                    lastUpdated := now)
      else bins[i])
  }

  /** An update for an id the list does not hold (such as the 9999 probe)
      leaves the list unchanged. */
  lemma UnknownIdLeavesListUnchanged(bins: seq<Dustbin>, data: BinUpdateData, now: int)
    requires forall i :: 0 <= i < |bins| ==> bins[i].id != data.binId
    ensures ApplyUpdate(bins, data, now) == bins
  {
  }

  /** Delivering the same update twice at the same receipt time is the same
      as delivering it once. */
  lemma ApplyUpdateIdempotent(bins: seq<Dustbin>, data: BinUpdateData, now: int)
    ensures ApplyUpdate(ApplyUpdate(bins, data, now), data, now) == ApplyUpdate(bins, data, now)
  {
    var once := ApplyUpdate(bins, data, now);
    var twice := ApplyUpdate(once, data, now);
    forall i | 0 <= i < |bins|
      ensures twice[i] == once[i]
    {
    }
  }

  /** A second delivery of an update, at its own receipt time `t2`, gives the
      bin the same fill, battery and status again and restamps it with `t2`:
      the result is as if only the second delivery had happened. */
  lemma ApplyUpdateAgain(bins: seq<Dustbin>, data: BinUpdateData, t1: int, t2: int)
    ensures ApplyUpdate(ApplyUpdate(bins, data, t1), data, t2) == ApplyUpdate(bins, data, t2)
  {
    var once := ApplyUpdate(bins, data, t1);
    var twice := ApplyUpdate(once, data, t2);
    var direct := ApplyUpdate(bins, data, t2);
    forall i | 0 <= i < |bins|
      ensures twice[i] == direct[i]
    {
    }
  }

  /** The updates applied one after the other, all received at `now`. */
  function ApplyAll(bins: seq<Dustbin>, updates: seq<BinUpdateData>, now: int): (r: seq<Dustbin>)
    ensures |r| == |bins|
    ensures forall i :: 0 <= i < |bins| ==> r[i].id == bins[i].id
  {
    if updates == [] then bins
    else ApplyUpdate(ApplyAll(bins, updates[..|updates| - 1], now), updates[|updates| - 1], now)
  }

  /** The last update of the sequence addressed to `id`, if any. */
  function LastFor(updates: seq<BinUpdateData>, id: int): Option<BinUpdateData>
  {
    if updates == [] then None
    else if updates[|updates| - 1].binId == id then Some(updates[|updates| - 1])
    else LastFor(updates[..|updates| - 1], id)
  }

  /** No lost update: after a sequence of updates each bin shows the fill and
      status of the last update addressed to it, or is untouched if none was. */
  lemma {:induction false} LastUpdateWins(bins: seq<Dustbin>, updates: seq<BinUpdateData>, now: int, i: int)
    requires 0 <= i < |bins|
    ensures var r := ApplyAll(bins, updates, now);
      match LastFor(updates, bins[i].id)
      case None => r[i] == bins[i]
      case Some(d) => r[i].fillLevel == d.fillLevel && r[i].status == ResolvedStatus(d)
  {
    if updates != [] {
      LastUpdateWins(bins, updates[..|updates| - 1], now, i);
    }
  }

  // ---------------------------------------------------------------------
  // Liveness monitor
  // ---------------------------------------------------------------------

  /** Bin 1001 forced to the idle default: fill 0, status normal, stamped
      `now`; its battery and every other bin are untouched. */
  function ResetLiveBin(bins: seq<Dustbin>, now: int): (r: seq<Dustbin>)
    ensures |r| == |bins|
    ensures forall i :: 0 <= i < |bins| && bins[i].id != LiveBinId ==> r[i] == bins[i]
    ensures forall i :: 0 <= i < |bins| && bins[i].id == LiveBinId ==>
      r[i].fillLevel == 0 && r[i].status == Normal && r[i].lastUpdated == now
      && r[i].batteryLevel == bins[i].batteryLevel && r[i].id == bins[i].id
      && r[i].location == bins[i].location && r[i].capacity == bins[i].capacity && r[i].kind == bins[i].kind
  {
    seq(|bins|, i requires 0 <= i < |bins| =>
      if bins[i].id == LiveBinId then bins[i].(fillLevel := 0, status := Normal, lastUpdated := now)
      else bins[i])
  }

  /** What the liveness check reads and writes. */
  datatype LiveView = LiveView(bins: seq<Dustbin>, connected: bool, lastUpdate: Option<int>)

  /** The check acts only on a live bin whose last update is strictly more
      than the timeout ago. */
  predicate Expired(v: LiveView, now: int)
  {
    v.lastUpdate.Some? && now - v.lastUpdate.value > LivenessTimeoutMs && v.connected
  }

  /** One liveness check. */
  function CheckConnection(v: LiveView, now: int): (r: LiveView)
    ensures !Expired(v, now) ==> r == v
    ensures Expired(v, now) ==>
      r.bins == ResetLiveBin(v.bins, now) && !r.connected && r.lastUpdate == v.lastUpdate
  {
    if Expired(v, now) then LiveView(ResetLiveBin(v.bins, now), false, v.lastUpdate) else v
  }

  /** 119 s and exactly 120 s after the last update nothing happens; at
      121 s bin 1001 is reset and the flag cleared. */
  lemma LivenessWindow(v: LiveView, t: int)
    requires v.connected && v.lastUpdate == Some(t)
    ensures CheckConnection(v, t + 119000) == v
    ensures CheckConnection(v, t + 120000) == v
    ensures CheckConnection(v, t + 121000) == LiveView(ResetLiveBin(v.bins, t + 121000), false, v.lastUpdate)
  {
  }

  /** Checks at the given times, with no update in between. */
  function CheckAll(v: LiveView, nows: seq<int>): LiveView
    decreases nows
  {
    if nows == [] then v else CheckAll(CheckConnection(v, nows[0]), nows[1..])
  }

  /** Once the flag is down, checks change nothing. */
  lemma {:induction false} SilentIsFixpoint(v: LiveView, nows: seq<int>)
    requires !v.connected
    ensures CheckAll(v, nows) == v
  {
    if nows != [] {
      SilentIsFixpoint(v, nows[1..]);
    }
  }

  /** Repeated late checks reset bin 1001 at most once: the result is either
      the unchanged state or the state after one single check. */
  lemma {:induction false} ChecksResetAtMostOnce(v: LiveView, nows: seq<int>)
    ensures CheckAll(v, nows) == v
      || exists k :: 0 <= k < |nows| && Expired(v, nows[k]) && CheckAll(v, nows) == CheckConnection(v, nows[k])
  {
    if nows != [] {
      var first := CheckConnection(v, nows[0]);
      if Expired(v, nows[0]) {
        SilentIsFixpoint(first, nows[1..]);
        assert CheckAll(v, nows) == CheckConnection(v, nows[0]);
      } else {
        ChecksResetAtMostOnce(v, nows[1..]);
        if CheckAll(v, nows) != v {
          var k :| 0 <= k < |nows[1..]| && Expired(v, nows[1..][k]) && CheckAll(v, nows[1..]) == CheckConnection(v, nows[1..][k]);
          assert nows[k + 1] == nows[1..][k];
        }
      }
    }
  }

  // ---------------------------------------------------------------------
  // Synthetic random walk
  // ---------------------------------------------------------------------

  /** The random draws of one bin in one tick: whether it changes at all
      (probability 0.3), the fill change `floor(random * 8) - 2`, the
      servicing event (0.02) and the battery drain (0.2). */
  datatype Roll = Roll(selected: bool, fillChange: int, servicing: bool, drain: bool)

  /** The fill change the generator can draw. */
  predicate ValidRoll(r: Roll)
  {
    -2 <= r.fillChange <= 5
  }

  function Max(a: int, b: int): int
  {
    if a >= b then a else b
  }

  /** The generator's own threshold test: below 50 normal, below 80 warning,
      otherwise critical. */
  function StepStatus(fill: int): (s: Status)
    ensures s != Servicing
    ensures s == Normal <==> fill < 50
  {
    if fill < 50 then Normal
    else if fill < 80 then Warning
    else Critical
  }

  /** The generator's thresholds and the update path's thresholds agree. */
  lemma StepStatusIsDeriveStatus(fill: int)
    ensures StepStatus(fill) == DeriveStatus(fill)
  {
  }

  /** One synthetic step of one bin. */
  function SyntheticBin(bin: Dustbin, roll: Roll, now: int): (r: Dustbin)
    ensures !roll.selected ==> r == bin
    ensures roll.selected ==>
      && r.id == bin.id && r.location == bin.location && r.capacity == bin.capacity && r.kind == bin.kind
      && r.lastUpdated == now
      && 0 <= r.fillLevel <= 100
      && r.batteryLevel == Max(0, bin.batteryLevel - (if roll.drain then 1 else 0))
      && (!roll.servicing ==> r.fillLevel == Max(0, Min(100, bin.fillLevel + roll.fillChange))
                              && r.status == DeriveStatus(r.fillLevel))
      && (roll.servicing ==> r.status == Servicing
                             && r.fillLevel == Max(0, Max(0, Min(100, bin.fillLevel + roll.fillChange)) - 20))
  {
    if !roll.selected then bin
    else
      var clamped := Max(0, Min(100, bin.fillLevel + roll.fillChange));
      var fill := if roll.servicing then Max(0, clamped - 20) else clamped;
      var status := if roll.servicing then Servicing else StepStatus(clamped);
      bin.(fillLevel := fill,
           status := status,
           lastUpdated := now,
           batteryLevel := Max(0, bin.batteryLevel - (if roll.drain then 1 else 0)))
  }

  /** The bounds the random walk keeps: fill always in [0, 100]; a step
      without servicing moves an in-range fill by at most -2..+5; the
      battery never goes below 0, and from a non-negative level it drops by
      at most 1 and never rises. */
  lemma SyntheticBounds(bin: Dustbin, roll: Roll, now: int)
    requires roll.selected
    ensures var r := SyntheticBin(bin, roll, now);
      && 0 <= r.fillLevel <= 100
      && 0 <= r.batteryLevel
      && (ValidRoll(roll) && !roll.servicing && 0 <= bin.fillLevel <= 100 ==>
            bin.fillLevel - 2 <= r.fillLevel <= bin.fillLevel + 5)
      && (0 <= bin.batteryLevel ==> bin.batteryLevel - 1 <= r.batteryLevel <= bin.batteryLevel)
  {
  }

  /** One tick of the generator over the whole list: a copy of the list in
      which every selected bin other than 1001 takes its synthetic step. */
  method SyntheticTick(bins: seq<Dustbin>, rolls: seq<Roll>, now: int) returns (updated: seq<Dustbin>)
    requires |rolls| == |bins|
    ensures |updated| == |bins|
    ensures forall i :: 0 <= i < |bins| ==>
      updated[i] == if bins[i].id == LiveBinId then bins[i] else SyntheticBin(bins[i], rolls[i], now)
    ensures forall i :: 0 <= i < |bins| && (bins[i].id == LiveBinId || !rolls[i].selected) ==> updated[i] == bins[i]
    ensures forall i :: 0 <= i < |bins| && bins[i].id != LiveBinId && rolls[i].selected ==>
      0 <= updated[i].fillLevel <= 100 && 0 <= updated[i].batteryLevel
  {
    var a := new Dustbin[|bins|](i requires 0 <= i < |bins| => bins[i]);
    var index := 0;
    while index < a.Length
      invariant 0 <= index <= a.Length == |bins|
      invariant forall k :: 0 <= k < index ==>
        a[k] == if bins[k].id == LiveBinId then bins[k] else SyntheticBin(bins[k], rolls[k], now)
      invariant forall k :: index <= k < a.Length ==> a[k] == bins[k]
    {
      var bin := a[index];
      var roll := rolls[index];
      if bin.id != LiveBinId && roll.selected {
        var newFillLevel := bin.fillLevel + roll.fillChange;
        newFillLevel := Max(0, Min(100, newFillLevel));
        var newStatus := bin.status;
        if newFillLevel < 50 {
          newStatus := Normal;
        } else if newFillLevel < 80 {
          newStatus := Warning;
        } else {
          newStatus := Critical;
        }
        if roll.servicing {
          newStatus := Servicing;
          newFillLevel := Max(0, newFillLevel - 20);
        }
        var batteryChange := if roll.drain then -1 else 0;
        var newBatteryLevel := Max(0, bin.batteryLevel + batteryChange);
        a[index] := bin.(fillLevel := newFillLevel, status := newStatus, lastUpdated := now,
                         batteryLevel := newBatteryLevel);
      }
      index := index + 1;
    }
    updated := a[..];
  }

  // ---------------------------------------------------------------------
  // Manual refresh
  // ---------------------------------------------------------------------

  /** Restamps every bin except 1001 with `now`; nothing else changes. */
  method RefreshTimestamps(bins: seq<Dustbin>, now: int) returns (updated: seq<Dustbin>)
    ensures |updated| == |bins|
    ensures forall i :: 0 <= i < |bins| && bins[i].id == LiveBinId ==> updated[i] == bins[i]
    ensures forall i :: 0 <= i < |bins| && bins[i].id != LiveBinId ==> updated[i] == bins[i].(lastUpdated := now)
    ensures forall i :: 0 <= i < |bins| ==>
      updated[i].fillLevel == bins[i].fillLevel && updated[i].status == bins[i].status
      && updated[i].batteryLevel == bins[i].batteryLevel && updated[i].id == bins[i].id
  {
    var a := new Dustbin[|bins|](i requires 0 <= i < |bins| => bins[i]);
    var index := 0;
    while index < a.Length
      invariant 0 <= index <= a.Length == |bins|
      invariant forall k :: 0 <= k < index ==>
        a[k] == if bins[k].id == LiveBinId then bins[k] else bins[k].(lastUpdated := now)
      invariant forall k :: index <= k < a.Length ==> a[k] == bins[k]
    {
      if a[index].id != LiveBinId {
        a[index] := a[index].(lastUpdated := now);
      }
      index := index + 1;
    }
    updated := a[..];
  }

  // ---------------------------------------------------------------------
  // Application state
  // ---------------------------------------------------------------------

  /** The recorded statistics are those of the current list, for the
      collection count they were drawn with. */
  predicate StatsCurrent(stats: DustbinStats, bins: seq<Dustbin>)
  {
    |bins| > 0 && 15 <= stats.totalCollections <= 19
    && stats == CalculateStats(bins, stats.totalCollections - 15)
  }

  /** The updates a log of deliveries hands to `me`, in order. */
  function RecordsFor(log: seq<Services.Delivery>, me: Services.Subscriber): seq<BinUpdateData>
  {
    if log == [] then []
    else
      var last := log[|log| - 1];
      RecordsFor(log[..|log| - 1], me) + (if last.subscriber == me then [last.data] else [])
  }

  /** Whether some update of the sequence is addressed to bin 1001. */
  function HasLive(updates: seq<BinUpdateData>): bool
  {
    if updates == [] then false
    else HasLive(updates[..|updates| - 1]) || updates[|updates| - 1].binId == LiveBinId
  }

  lemma {:induction false} HasLiveIff(updates: seq<BinUpdateData>)
    ensures HasLive(updates) <==> exists k :: 0 <= k < |updates| && updates[k].binId == LiveBinId
  {
    if updates != [] {
      var n := |updates| - 1;
      HasLiveIff(updates[..n]);
      if HasLive(updates[..n]) {
        var k :| 0 <= k < n && updates[..n][k].binId == LiveBinId;
        assert updates[k].binId == LiveBinId;
      }
      if exists k :: 0 <= k < |updates| && updates[k].binId == LiveBinId {
        var k :| 0 <= k < |updates| && updates[k].binId == LiveBinId;
        if k < n {
          assert updates[..n][k].binId == LiveBinId;
        }
      }
    }
  }

  lemma HasLiveSnoc(updates: seq<BinUpdateData>, d: BinUpdateData)
    ensures HasLive(updates + [d]) == (HasLive(updates) || d.binId == LiveBinId)
  {
    assert (updates + [d])[..|updates|] == updates;
  }

  lemma RecordsForStep(log: seq<Services.Delivery>, me: Services.Subscriber, i: int)
    requires 0 <= i < |log|
    ensures RecordsFor(log[..i + 1], me) ==
      RecordsFor(log[..i], me) + (if log[i].subscriber == me then [log[i].data] else [])
  {
    assert log[..i + 1][..i] == log[..i];
  }

  lemma ApplyAllSnoc(bins: seq<Dustbin>, updates: seq<BinUpdateData>, d: BinUpdateData, now: int)
    ensures ApplyAll(bins, updates + [d], now) == ApplyUpdate(ApplyAll(bins, updates, now), d, now)
  {
    assert (updates + [d])[..|updates|] == updates;
  }

  class AppState {
    var dustbins: seq<Dustbin>
    var stats: DustbinStats
    var esp32Connected: bool
    var lastEsp32Update: Option<int>

    /** The list keeps the eight seed ids in order and the statistics match it. */
    ghost predicate Valid()
      reads this
    {
      && |dustbins| == 8
      && (forall i :: 0 <= i < 8 ==> dustbins[i].id == 1001 + i)
      && StatsCurrent(stats, dustbins)
    }

    function View(): LiveView
      reads this
    {
      LiveView(dustbins, esp32Connected, lastEsp32Update)
    }

    constructor (now: int, draw: int)
      requires 0 <= draw < 5
      ensures Valid()
      ensures dustbins == InitialDustbins(now) && stats == CalculateStats(dustbins, draw)
      ensures !esp32Connected && lastEsp32Update == None
    {
      SeedFleet(now);
      dustbins := InitialDustbins(now);
      stats := CalculateStats(InitialDustbins(now), draw);
      esp32Connected := false;
      lastEsp32Update := None;
    }

    /** The subscriber callback: an update for bin 1001 marks the sensor live
        at `now`; the list is updated and the statistics recomputed. */
    method UpdateBinData(data: BinUpdateData, now: int, draw: int)
      requires Valid() && 0 <= draw < 5
      modifies this
      ensures Valid()
      ensures dustbins == ApplyUpdate(old(dustbins), data, now)
      ensures stats == CalculateStats(dustbins, draw)
      ensures data.binId == LiveBinId ==> esp32Connected && lastEsp32Update == Some(now)
      ensures data.binId != LiveBinId ==>
        esp32Connected == old(esp32Connected) && lastEsp32Update == old(lastEsp32Update)
    {
      if data.binId == LiveBinId {
        esp32Connected := true;
        lastEsp32Update := Some(now);
      }
      dustbins := ApplyUpdate(dustbins, data, now);
      stats := CalculateStats(dustbins, draw);
    }

    /** The periodic liveness check. The list, and so the statistics, change
        only when it resets bin 1001. */
    method CheckConnectionStatus(now: int, draw: int)
      requires Valid() && 0 <= draw < 5
      modifies this
      ensures Valid()
      ensures View() == CheckConnection(old(View()), now)
      ensures Expired(old(View()), now) ==> stats == CalculateStats(dustbins, draw)
      ensures !Expired(old(View()), now) ==> stats == old(stats)
    {
      if lastEsp32Update.Some? {
        var timeSinceLastUpdate := now - lastEsp32Update.value;
        if timeSinceLastUpdate > LivenessTimeoutMs {
          if esp32Connected {
            esp32Connected := false;
            dustbins := ResetLiveBin(dustbins, now);
            stats := CalculateStats(dustbins, draw);
          }
        }
      }
    }

    /** One tick of the synthetic generator. */
    method UpdateDustbins(rolls: seq<Roll>, now: int, draw: int)
      requires Valid() && 0 <= draw < 5 && |rolls| == |dustbins|
      modifies this
      ensures Valid()
      ensures forall i :: 0 <= i < |dustbins| ==>
        dustbins[i] == if old(dustbins)[i].id == LiveBinId then old(dustbins)[i]
                       else SyntheticBin(old(dustbins)[i], rolls[i], now)
      ensures stats == CalculateStats(dustbins, draw)
      ensures esp32Connected == old(esp32Connected) && lastEsp32Update == old(lastEsp32Update)
    {
      var updated := SyntheticTick(dustbins, rolls, now);
      dustbins := updated;
      stats := CalculateStats(dustbins, draw);
    }

    /** The manual refresh: restamps every bin but 1001. */
    method RefreshData(now: int, draw: int)
      requires Valid() && 0 <= draw < 5
      modifies this
      ensures Valid()
      ensures forall i :: 0 <= i < |dustbins| ==>
        dustbins[i] == if old(dustbins)[i].id == LiveBinId then old(dustbins)[i]
                       else old(dustbins)[i].(lastUpdated := now)
      ensures stats == CalculateStats(dustbins, draw)
      ensures esp32Connected == old(esp32Connected) && lastEsp32Update == old(lastEsp32Update)
    {
      var updated := RefreshTimestamps(dustbins, now);
      dustbins := updated;
      stats := CalculateStats(dustbins, draw);
    }

    /** The subscription wiring: every delivery addressed to `me` runs the
        update callback, in order. */
    method OnDeliveries(log: seq<Services.Delivery>, me: Services.Subscriber, now: int, draw: int)
      requires Valid() && 0 <= draw < 5
      modifies this
      ensures Valid()
      ensures dustbins == ApplyAll(old(dustbins), RecordsFor(log, me), now)
      ensures esp32Connected == (old(esp32Connected) || HasLive(RecordsFor(log, me)))
      ensures lastEsp32Update == if HasLive(RecordsFor(log, me)) then Some(now) else old(lastEsp32Update)
      ensures RecordsFor(log, me) == [] ==> stats == old(stats)
      ensures RecordsFor(log, me) != [] ==> stats == CalculateStats(dustbins, draw)
    {
      ghost var start := dustbins;
      ghost var connected0 := esp32Connected;
      ghost var update0 := lastEsp32Update;
      ghost var stats0 := stats;
      var i := 0;
      while i < |log|
        invariant 0 <= i <= |log|
        invariant Valid()
        invariant dustbins == ApplyAll(start, RecordsFor(log[..i], me), now)
        invariant esp32Connected == (connected0 || HasLive(RecordsFor(log[..i], me)))
        invariant lastEsp32Update == if HasLive(RecordsFor(log[..i], me)) then Some(now) else update0
        invariant RecordsFor(log[..i], me) == [] ==> stats == stats0
        invariant RecordsFor(log[..i], me) != [] ==> stats == CalculateStats(dustbins, draw)
      {
        RecordsForStep(log, me, i);
        ghost var before := RecordsFor(log[..i], me);
        var delivery := log[i];
        if delivery.subscriber == me {
          ApplyAllSnoc(start, before, delivery.data, now);
          HasLiveSnoc(before, delivery.data);
          assert RecordsFor(log[..i + 1], me) == before + [delivery.data];
          UpdateBinData(delivery.data, now, draw);
        } else {
          assert RecordsFor(log[..i + 1], me) == before;
        }
        i := i + 1;
      }
      assert log[..i] == log;
    }
  }
}
