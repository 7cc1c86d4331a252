/** The wiring of the bin service into the application: the subscription
    effect that registers the update callback and starts both channels, its
    cleanup, one poll tick carried through to the list of dustbins, and the
    difference between the two channels when they deliver the same records. */
module Reconcile {
  import opened Types
  import opened Dustbins
  import opened Services
  import opened App

  /** `k` copies of `d`. */
  function Repeat(d: BinUpdateData, k: nat): (r: seq<BinUpdateData>)
    ensures |r| == k && forall i :: 0 <= i < k ==> r[i] == d
  {
    seq(k, _ => d)
  }

  lemma {:induction false} RecordsForAppend(a: seq<Delivery>, b: seq<Delivery>, me: Subscriber)
    ensures RecordsFor(a + b, me) == RecordsFor(a, me) + RecordsFor(b, me)
  {
    if b == [] {
      assert a + b == a;
    } else {
      var n := |b| - 1;
      var last := if b[n].subscriber == me then [b[n].data] else [];
      assert (a + b)[..|a + b| - 1] == a + b[..n];
      assert (a + b)[|a + b| - 1] == b[n];
      assert RecordsFor(a + b, me) == RecordsFor(a + b[..n], me) + last;
      RecordsForAppend(a, b[..n], me);
      assert RecordsFor(b, me) == RecordsFor(b[..n], me) + last;
    }
  }

  /** A subscriber registered `k` times receives each notification `k` times. */
  lemma {:induction false} RecordsForBroadcast(callbacks: seq<Subscriber>, d: BinUpdateData, faulty: set<Subscriber>, me: Subscriber)
    ensures RecordsFor(Broadcast(callbacks, d, faulty), me) == Repeat(d, multiset(callbacks)[me])
  {
    if callbacks != [] {
      var n := |callbacks| - 1;
      var init: seq<Subscriber> := callbacks[..n];
      var k := multiset(init)[me];
      assert callbacks == init + [callbacks[n]];
      assert Broadcast(callbacks, d, faulty)[..n] == Broadcast(init, d, faulty);
      RecordsForBroadcast(init, d, faulty, me);
      assert Broadcast(callbacks, d, faulty)[n].subscriber == callbacks[n];
      if callbacks[n] == me {
        assert Repeat(d, k) + [d] == Repeat(d, k + 1);
      }
    } else {
      assert Broadcast(callbacks, d, faulty) == [];
    }
  }

  /** A subscriber registered exactly once receives the notified updates
      exactly once each, in order. */
  lemma {:induction false} RecordsForBroadcastAll(callbacks: seq<Subscriber>, records: seq<BinUpdateData>, faulty: set<Subscriber>, me: Subscriber)
    requires multiset(callbacks)[me] == 1
    ensures RecordsFor(BroadcastAll(callbacks, records, faulty), me) == records
  {
    if records != [] {
      var n := |records| - 1;
      RecordsForBroadcastAll(callbacks, records[..n], faulty, me);
      RecordsForAppend(BroadcastAll(callbacks, records[..n], faulty), Broadcast(callbacks, records[n], faulty), me);
      RecordsForBroadcast(callbacks, records[n], faulty, me);
      assert records == records[..n] + [records[n]];
    }
  }

  /** The subscription effect on mount: register the update callback, start
      the push subscription, then start polling. */
  method Mount(svc: BinService, me: Subscriber, channel: ChannelId, timer: TimerId)
    modifies svc`updateCallbacks, svc`realtimeSubscription, svc`connectionStatus,
             svc`removedChannels, svc`pollingInterval, svc`clearedTimers
    ensures svc.updateCallbacks == old(svc.updateCallbacks) + [me]
    ensures svc.realtimeSubscription == Some(channel) && svc.connectionStatus == Connecting
    ensures svc.pollingInterval == Some(timer)
    ensures svc.removedChannels == old(svc.removedChannels) +
      (if old(svc.realtimeSubscription).Some? then [old(svc.realtimeSubscription).value] else [])
    ensures svc.clearedTimers == old(svc.clearedTimers) +
      (if old(svc.pollingInterval).Some? then [old(svc.pollingInterval).value] else [])
    ensures svc.lastUpdateTime == old(svc.lastUpdateTime)
  {
    svc.OnBinUpdate(me);
    svc.StartRealtimeSubscription(channel);
    svc.StartPolling(timer);
  }

  /** The effect's cleanup: unsubscribe, stop the push subscription, stop
      polling. The deduplication table is kept. */
  method Unmount(svc: BinService, me: Subscriber)
    modifies svc`updateCallbacks, svc`realtimeSubscription, svc`connectionStatus,
             svc`removedChannels, svc`pollingInterval, svc`clearedTimers
    ensures svc.updateCallbacks == RemoveFirst(old(svc.updateCallbacks), me)
    ensures svc.realtimeSubscription == None && svc.pollingInterval == None
    ensures old(svc.realtimeSubscription).Some? ==> svc.connectionStatus == Disconnected
    ensures old(svc.realtimeSubscription).None? ==> svc.connectionStatus == old(svc.connectionStatus)
    ensures svc.removedChannels == old(svc.removedChannels) +
      (if old(svc.realtimeSubscription).Some? then [old(svc.realtimeSubscription).value] else [])
    ensures svc.clearedTimers == old(svc.clearedTimers) +
      (if old(svc.pollingInterval).Some? then [old(svc.pollingInterval).value] else [])
    ensures svc.lastUpdateTime == old(svc.lastUpdateTime)
  {
    svc.Unsubscribe(me);
    svc.StopRealtimeSubscription();
    svc.StopPolling();
  }

  /** One poll tick carried to the application, subscribed once as `me`:
      the list receives exactly the forwarded updates, in batch order; a
      forwarded update for bin 1001 marks the sensor live at `now`. */
  method PollTick(svc: BinService, app: AppState, me: Subscriber, fetch: FetchResult,
                  faulty: set<Subscriber>, now: int, draw: int)
    requires app.Valid() && 0 <= draw < 5
    requires multiset(svc.updateCallbacks)[me] == 1
    modifies svc`lastUpdateTime, app
    ensures app.Valid()
    ensures fetch.Fetched? ==>
      && svc.lastUpdateTime == PollTable(old(svc.lastUpdateTime), fetch.rows)
      && app.dustbins == ApplyAll(old(app.dustbins), Forwarded(old(svc.lastUpdateTime), fetch.rows), now)
      && app.esp32Connected == (old(app.esp32Connected) || HasLive(Forwarded(old(svc.lastUpdateTime), fetch.rows)))
      && app.lastEsp32Update == if HasLive(Forwarded(old(svc.lastUpdateTime), fetch.rows)) then Some(now)
                                else old(app.lastEsp32Update)
    ensures fetch.Fetched? && Forwarded(old(svc.lastUpdateTime), fetch.rows) == [] ==> app.stats == old(app.stats)
    ensures !fetch.Fetched? ==>
      && svc.lastUpdateTime == old(svc.lastUpdateTime) && app.dustbins == old(app.dustbins)
      && app.esp32Connected == old(app.esp32Connected) && app.lastEsp32Update == old(app.lastEsp32Update)
      && app.stats == old(app.stats)
  {
    var log := svc.CheckForUpdates(fetch, faulty);
    if fetch.Fetched? {
      RecordsForBroadcastAll(svc.updateCallbacks, Forwarded(old(svc.lastUpdateTime), fetch.rows), faulty, me);
    }
    app.OnDeliveries(log, me, now, draw);
  }

  /** The poll and push channels disagree on older records. Starting from
      the seed fleet, the poll forwards a record for bin 1001 at time 100
      (fill 45), received at `tPoll`. The push handler delivers the same
      record again, received at `tPush`: bin 1001 gets the same fill, status
      and battery once more and is restamped with `tPush`, as if only the
      push had happened. An older record (time 90, fill 10) is rejected by
      the poll gate, but the push handler forwards it and bin 1001 drops to 10. */
  lemma PushBypassesDedup(tPoll: int, tPush: int)
    ensures
      var seed := InitialDustbins(tPoll);
      var newer := BinUpdateRow(1001, 45, Some(100), Some(Normal), 100, 100);
      var older := BinUpdateRow(1001, 10, Some(100), Some(Normal), 90, 90);
      var polled := ApplyAll(seed, Forwarded(map[], [newer]), tPoll);
      var pushedAgain := ApplyUpdate(polled, FromInsert(newer), tPush);
      && Forwarded(map[], [newer]) == [FromInsert(newer)]
      && polled[0].id == 1001 && polled[0].fillLevel == 45 && polled[0].lastUpdated == tPoll
      && pushedAgain == ApplyUpdate(seed, FromInsert(newer), tPush)
      && pushedAgain[0].fillLevel == polled[0].fillLevel && pushedAgain[0].status == polled[0].status
      && pushedAgain[0].batteryLevel == polled[0].batteryLevel && pushedAgain[0].lastUpdated == tPush
      && (forall i :: 1 <= i < |polled| ==> pushedAgain[i] == polled[i])
      && Forwarded(PollTable(map[], [newer]), [older]) == []
      && ApplyUpdate(pushedAgain, FromInsert(older), tPush)[0].fillLevel == 10
  {
    var seed := InitialDustbins(tPoll);
    var newer := BinUpdateRow(1001, 45, Some(100), Some(Normal), 100, 100);
    var older := BinUpdateRow(1001, 10, Some(100), Some(Normal), 90, 90);
    SeedFleet(tPoll);
    SingleRecordGate(map[], newer);
    SingleRecordGate(PollTable(map[], [newer]), older);
    ApplyAllSnoc(seed, [], FromInsert(newer), tPoll);
    assert [] + [FromInsert(newer)] == [FromInsert(newer)];
    ApplyUpdateAgain(seed, FromInsert(newer), tPoll, tPush);
  }
}
