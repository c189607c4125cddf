/** The bulk path arms a second consumer of MsgChan, so Update can handle a worker's
    messages out of order. This is exactly what separates the runs that end quiet
    from those that can end with a worker slot stuck on a finished file, and the
    destinations whose data bar never overruns from those whose bar can. */
module PoolBulk {
  import opened Transfer
  import opened Reducer
  import opened WorkerPool
  import opened PoolModes
  import opened PoolSchedule
  import opened PoolStreams
  import opened Sums

  ghost predicate Quiet(env: Env, t: State) {
    && t.queue == [] && t.held == []
    && forall w: nat :: w < |t.ui.slots| ==> t.ui.slots[w] == IDLE_SLOT
  }

  /** The last item: Checking and Skipped are both received, one by each consumer. */
  lemma HoldBoth(env: Env, s: State, k: nat) returns (t: State)
    requires env.Valid() && CleanAfter(env, s, k) && k < |env.items| && Reachable(env, s)
    ensures Reachable(env, t) && t.stage.Running? && t.ui == s.ui
    ensures t.held == [StatusMsg(0, Checking, env.items[k], k), StatusMsg(0, Skipped, env.items[k], 0)]
  {
    var s1 := TakeItem(env, s);
    var s2 := SendOff(env, s1, 0);
    var s3 := Ask(env, s2, StatAnswer(true, env.items[k].size));
    t := SendOff(env, s3, 0);
  }

  /** Handled in the other order, the last file is counted before it is shown. */
  lemma HandleSwapped(env: Env, s: State, item: Item, k: nat) returns (t: State)
    requires s.held == [StatusMsg(0, Checking, item, k), StatusMsg(0, Skipped, item, 0)] && Reachable(env, s)
    requires |s.ui.slots| > 0 && s.ui.totalFiles == Finished(s.ui) + 1
    ensures Reachable(env, t) && t.stage == s.stage && t.ui.phase.StateDone?
    ensures |t.ui.slots| == |s.ui.slots|
    ensures t.ui.slots[0].status.Checking? && t.ui.slots[0].file == item.path
  {
    HandleEnd(s.ui, s.held[1]);
    DeliverEffect(env, s, 1);
    ReachStep(env, s, Deliver(1));
    var s2 := Apply(env, s, Deliver(1));
    assert s2.held == [s.held[0]];
    HandleShown(s2.ui, s2.held[0]);
    HandleChecking(s2.ui, s2.held[0]);
    DeliverEffect(env, s2, 0);
    ReachStep(env, s2, Deliver(0));
    t := Apply(env, s2, Deliver(0));
  }

  /** With two consumers the last file's Skipped can be handled before its Checking:
      the run is Done while the worker's slot still shows that file. */
  lemma BulkCanEndStuck(env: Env) returns (t: State)
    requires env.Valid() && env.ListsFirst()
    ensures Reachable(env, t) && t.stage.Running? && t.ui.phase.StateDone?
    ensures |t.ui.slots| == env.jobs && t.ui.slots[0].status.Checking?
    ensures t.ui.slots[0].file == env.items[|env.items| - 1].path
  {
    var k := |env.items| - 1;
    var s := ReachClean(env, k);
    var s1 := HoldBoth(env, s, k);
    t := HandleSwapped(env, s1, env.items[k], k);
  }

  /** Exactly the configurations that do not list the destination first always end
      with an empty channel and idle slots. */
  lemma QuietEndIffOneConsumer(env: Env)
    requires env.Valid()
    ensures (forall t :: Reachable(env, t) && t.stage.Running? && t.ui.phase.StateDone? ==> Quiet(env, t))
            <==> !env.ListsFirst()
  {
    if env.ListsFirst() {
      var t := BulkCanEndStuck(env);
      assert t.ui.slots[0] != IDLE_SLOT;
    } else {
      forall t | Reachable(env, t) && t.stage.Running? && t.ui.phase.StateDone? ensures Quiet(env, t) {
        DoneIsQuiet(env, t);
      }
    }
  }

  // ---- stale progress ----

  /** A large file's progress report is still held by one consumer while the file is
      counted and the same worker starts a smaller one; then it is handled. */
  lemma HoldProgress(env: Env, s: State, k: nat) returns (t: State)
    requires env.Valid() && !ReadOnly(env) && CleanAfter(env, s, k) && k + 1 < |env.items| && Reachable(env, s)
    ensures Reachable(env, t) && Lone(env, t) && t.armed == 1 && t.next == k + 1 && t.sem == 0
    ensures t.held == [ProgressMsg(0, env.items[k], 0, env.items[k].size, 0)] && t.pcs[0] == Sending(k, Done)
    ensures OnlyShown(s.ui, t.ui)
  {
    var s1 := TakeItem(env, s);
    HandleShown(s1.ui, Said(env, s1));
    var s2 := Say(env, s1, 0);
    var s3 := StartPut(env, s2, 1);
    var report := Callback(0, 0, env.items[k].size, 0);
    ReachStep(env, s3, report);
    var s4 := Apply(env, s3, report);
    assert s4.queue == [ProgressMsg(0, env.items[k], 0, env.items[k].size, 0)];
    ReachStep(env, s4, Receive);
    t := EndPut(env, Apply(env, s4, Receive));
  }

  /** The file is counted and the next one is on its way. */
  lemma NextPut(env: Env, s: State, k: nat) returns (t: State)
    requires env.Valid() && !ReadOnly(env) && Lone(env, s) && Reachable(env, s) && s.sem == 0
    requires s.pcs[0] == Sending(k, Done) && s.next == k + 1 < |env.items|
    requires Finished(s.ui) + 1 < s.ui.totalFiles
    ensures Reachable(env, t) && Lone(env, t) && t.held == s.held && t.armed == s.armed
    ensures t.ui.completedBytes == s.ui.completedBytes + env.items[k].size && t.ui.skippedBytes == s.ui.skippedBytes
    ensures t.ui.totalBytes == s.ui.totalBytes
    ensures t.ui.slots[0] == Slot(Uploading, env.items[k + 1].path, env.items[k + 1].size, 0, 0, 0)
    ensures forall w: nat :: 0 < w < env.jobs ==> t.ui.slots[w] == s.ui.slots[w]
  {
    HandleEnd(s.ui, Said(env, s));
    var s1 := Say(env, s, 0);
    var s2 := TakeItem(env, s1);
    HandleShown(s2.ui, Said(env, s2));
    var s3 := Say(env, s2, 0);
    t := StartPut(env, s3, 0);
  }

  /** Only the first slot is uploading. */
  lemma {:induction false} LiveOfFirst(ui: Ui, k: nat)
    requires 1 <= k <= |ui.slots| && ui.slots[0].status.Uploading?
    requires forall w: nat :: 0 < w < |ui.slots| ==> ui.slots[w] == IDLE_SLOT
    ensures SumTo(LiveOf(ui), k) == ui.slots[0].uploaded
  {
    if k > 1 { LiveOfFirst(ui, k - 1); }
  }

  /** The stale report lands in the slot of the file that is uploading now. */
  lemma HandleStale(ui: Ui, m: Msg)
    requires m.ProgressMsg? && m.worker == 0 < |ui.slots| && ui.slots[0].status.Uploading?
    requires forall w: nat :: 0 < w < |ui.slots| ==> ui.slots[w] == IDLE_SLOT
    ensures LiveTransferred(Reduce(ui, m)) == ui.completedBytes + m.uploaded
    ensures Reduce(ui, m).skippedBytes == ui.skippedBytes && Reduce(ui, m).totalBytes == ui.totalBytes
  {
    var r := Reduce(ui, m);
    assert r.slots == ui.slots[0 := ApplySlot(ui.slots[0], m)];
    LiveOfFirst(r, |r.slots|);
  }

  ghost predicate WithinTotal(ui: Ui) { LiveTransferred(ui) + ui.skippedBytes <= ui.totalBytes }

  /** All files but the last are counted, the last is uploading, and the report of the one
      before is still held. */
  lemma StaleReport(env: Env, k: nat) returns (t: State)
    requires env.Valid() && env.ListsFirst() && !ReadOnly(env) && k + 2 == |env.items|
    ensures Reachable(env, t) && t.stage.Running? && |t.ui.slots| == env.jobs
    ensures t.held == [ProgressMsg(0, env.items[k], 0, env.items[k].size, 0)]
    ensures t.ui.slots[0].status.Uploading? && forall w: nat :: 0 < w < env.jobs ==> t.ui.slots[w] == IDLE_SLOT
    ensures t.ui.totalBytes == SumSizes(env.items)
    ensures t.ui.completedBytes == env.items[k].size && t.ui.skippedBytes == SumSizes(env.items[..k])
  {
    var s := ReachClean(env, k);
    var s1 := HoldProgress(env, s, k);
    t := NextPut(env, s1, k);
  }

  lemma LastTwo(items: seq<Item>, k: nat)
    requires k + 2 == |items|
    ensures SumSizes(items) == SumSizes(items[..k]) + items[k].size + items[k + 1].size
  {
    SumSizesNext(items, k);
    SumSizesNext(items, k + 1);
    assert items[..k + 2] == items;
  }

  /** So the data bar can overrun although every report is honest: for every listing run
      whose last file but one is larger than the last. */
  lemma BulkCanOverrun(env: Env) returns (t: State)
    requires env.Valid() && env.ListsFirst() && !ReadOnly(env)
    requires env.items[|env.items| - 2].size > env.items[|env.items| - 1].size
    ensures Reachable(env, t) && t.stage.Running? && !WithinTotal(t.ui)
  {
    var k := |env.items| - 2;
    var s := StaleReport(env, k);
    DeliverEffect(env, s, 0);
    ReachStep(env, s, Deliver(0));
    t := Apply(env, s, Deliver(0));
    HandleStale(s.ui, s.held[0]);
    LastTwo(env.items, k);
  }

  ghost predicate NeverOverruns(env: Env) {
    forall t :: Reachable(env, t) && t.stage.Running? ==> WithinTotal(t.ui)
  }

  /** Threshold many files, of which only the last but one has any bytes. */
  function Path(k: nat): string { seq(k, _ => 'a') }

  function OneLarge(): seq<Item> {
    seq(BULK_STAT_THRESHOLD, k requires 0 <= k => Item(Path(k), if k == BULK_STAT_THRESHOLD - 2 then 1 else 0))
  }

  lemma OneLargeIsScan()
    ensures forall i, j :: 0 <= i < j < |OneLarge()| ==> OneLarge()[i].path != OneLarge()[j].path
  {
    forall i, j | 0 <= i < j < |OneLarge()| ensures OneLarge()[i].path != OneLarge()[j].path {
      assert |Path(i)| == i && |Path(j)| == j;
    }
  }

  /** With honest backends the bar stays within the total, whatever is scanned, for exactly
      the destinations that are not listed. */
  lemma BoundIffOneConsumer(env: Env)
    requires env.jobs >= 1 && env.capacity >= 1 && env.honest && !ReadOnly(env)
    ensures (forall items :: env.(items := items).Valid() ==> NeverOverruns(env.(items := items))) <==> !env.bulk
  {
    if env.bulk {
      OneLargeIsScan();
      var e := env.(items := OneLarge());
      var t := BulkCanOverrun(e);
      assert e.Valid() && !NeverOverruns(e);
    } else {
      forall items | env.(items := items).Valid() ensures NeverOverruns(env.(items := items)) {
        var e := env.(items := items);
        forall t | Reachable(e, t) && t.stage.Running? ensures WithinTotal(t.ui) { LiveBytesBounded(e, t); }
      }
    }
  }
}
