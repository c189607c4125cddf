/** Schedules of one worker while the others rest: each step is spelled out once, so that a
    run with a certain end can be put together from them. */
module PoolSchedule {
  import opened Transfer
  import opened Reducer
  import opened WorkerPool
  import opened PoolModes

  /** Worker 0 can go on: the workers run, nothing is in the channel, a consumer is armed. */
  ghost predicate Lone(env: Env, s: State) {
    && s.stage.Running? && s.next <= |env.items|
    && |s.pcs| == env.jobs > 0 && |s.ui.slots| == env.jobs
    && s.queue == [] && s.armed >= 1
    && !s.ui.gatePaused && !s.ui.cancelled
  }

  /** Take an item and pass the gate. */
  lemma TakeItem(env: Env, s: State) returns (t: State)
    requires env.Valid() && Lone(env, s) && s.pcs[0].AtRange? && s.next < |env.items| && Reachable(env, s)
    ensures Reachable(env, t) && t == s.(next := s.next + 1, pcs := s.pcs[0 := Sending(s.next, Checking)])
  {
    ReachStep(env, s, Take(0));
    var s1 := Apply(env, s, Take(0));
    assert s1 == s.(next := s.next + 1, pcs := s.pcs[0 := Got(s.next)]);
    ReachStep(env, s1, PassGate(0));
    t := Apply(env, s1, PassGate(0));
    assert t.queue == s.queue;
  }

  function Said(env: Env, s: State): Msg
    requires |s.pcs| > 0 && s.pcs[0].Sending? && s.pcs[0].i < |env.items|
  {
    var pc := s.pcs[0];
    StatusMsg(0, pc.status, env.items[pc.i], if pc.status.Checking? then pc.i else 0)
  }

  /** Send a status; a consumer receives it. */
  lemma SendOff(env: Env, s: State, callbacks: nat) returns (t: State)
    requires env.Valid() && Lone(env, s) && s.pcs[0].Sending? && s.pcs[0].i < |env.items| && Reachable(env, s)
    ensures Reachable(env, t)
    ensures t == s.(pcs := s.pcs[0 := AfterSend(s.pcs[0].i, s.pcs[0].status, callbacks)],
                    armed := s.armed - 1, held := s.held + [Said(env, s)])
  {
    ReachStep(env, s, Send(0, callbacks));
    var s1 := Apply(env, s, Send(0, callbacks));
    assert s1.queue == [Said(env, s)];
    ReachStep(env, s1, Receive);
    t := Apply(env, s1, Receive);
  }

  lemma DeliverEffect(env: Env, s: State, k: nat)
    requires k < |s.held|
    ensures var t := Apply(env, s, Deliver(k));
            && t == s.(ui := Reduce(s.ui, s.held[k]), held := s.held[..k] + s.held[k + 1..], armed := t.armed)
            && t.armed == s.armed + (if Rearms(s.ui, s.held[k]) then 1 else 0)
  {}

  /** Send a status and have it handled at once, before anything that is still held. */
  lemma Say(env: Env, s: State, callbacks: nat) returns (t: State)
    requires env.Valid() && Lone(env, s) && s.pcs[0].Sending? && s.pcs[0].i < |env.items| && Reachable(env, s)
    requires Rearms(s.ui, Said(env, s))
    ensures Reachable(env, t) && Lone(env, t)
    ensures t == s.(ui := Reduce(s.ui, Said(env, s)),
                    pcs := s.pcs[0 := AfterSend(s.pcs[0].i, s.pcs[0].status, callbacks)])
  {
    var s1 := SendOff(env, s, callbacks);
    var k := |s.held|;
    DeliverEffect(env, s1, k);
    ReachStep(env, s1, Deliver(k));
    t := Apply(env, s1, Deliver(k));
    assert s1.held[..k] + s1.held[k + 1..] == s.held;
    ReduceFrame(s.ui, Said(env, s));
  }

  /** The destination answers. */
  lemma Ask(env: Env, s: State, answer: Stat) returns (t: State)
    requires env.Valid() && Lone(env, s) && s.pcs[0].Deciding? && s.pcs[0].i < |env.items| && Reachable(env, s)
    ensures Reachable(env, t) && t == s.(pcs := s.pcs[0 := AfterDecision(env, s.pcs[0].i, answer)])
  {
    ReachStep(env, s, Decide(0, answer));
    t := Apply(env, s, Decide(0, answer));
    assert t.queue == s.queue;
  }

  // ---- what handling a message does to the screen ----

  /** Totals, counters and the slots of the other workers. */
  ghost predicate OnlyShown(a: Ui, b: Ui) {
    && b.totalFiles == a.totalFiles && b.totalBytes == a.totalBytes
    && Finished(b) == Finished(a)
    && b.completedBytes == a.completedBytes && b.skippedBytes == a.skippedBytes
    && b.gatePaused == a.gatePaused && b.cancelled == a.cancelled
    && |b.slots| == |a.slots| && forall w: nat :: 0 < w < |a.slots| ==> b.slots[w] == a.slots[w]
  }

  lemma HandleShown(ui: Ui, m: Msg)
    requires m.StatusMsg? && m.worker == 0 < |ui.slots| && !Terminal(m.status)
    ensures OnlyShown(ui, Reduce(ui, m))
    ensures Reduce(ui, m).slots[0] == StatusSlot(ui.slots[0], m.status, m.item)
    ensures !AllCounted(ui) ==> Rearms(ui, m)
  {}

  lemma HandleChecking(ui: Ui, m: Msg)
    requires m.StatusMsg? && m.worker == 0 < |ui.slots| && m.status.Checking?
    ensures Reduce(ui, m).phase == if AllCounted(ui) then StateDone else ui.phase
  {}

  /** A finished item is counted, its bytes too, and the slot is idle. */
  lemma HandleEnd(ui: Ui, m: Msg)
    requires m.StatusMsg? && m.worker == 0 < |ui.slots| && (m.status.Done? || m.status.Skipped?)
    ensures var r := Reduce(ui, m);
            && Finished(r) == Finished(ui) + 1 && r.totalFiles == ui.totalFiles && r.totalBytes == ui.totalBytes
            && r.completedBytes == ui.completedBytes + (if m.status.Done? then m.item.size else 0)
            && r.skippedBytes == ui.skippedBytes + (if m.status.Skipped? then m.item.size else 0)
            && r.gatePaused == ui.gatePaused && r.cancelled == ui.cancelled
            && r.slots == ui.slots[0 := IDLE_SLOT]
            && r.phase == (if Finished(ui) + 1 >= ui.totalFiles && ui.totalFiles > 0 then StateDone else ui.phase)
            && (Finished(ui) + 1 < ui.totalFiles ==> Rearms(ui, m))
  {}

  // ---- skipping one item after the other ----

  lemma {:induction false} SumSizesSplit(items: seq<Item>, k: nat)
    requires k <= |items|
    ensures SumSizes(items) == SumSizes(items[..k]) + SumSizes(items[k..])
  {
    if k > 0 {
      SumSizesSplit(items[1..], k - 1);
      assert items[..k][1..] == items[1..][..k - 1] && items[1..][k - 1..] == items[k..];
    } else {
      assert items[0..] == items;
    }
  }

  lemma SumSizesNext(items: seq<Item>, k: nat)
    requires k < |items|
    ensures SumSizes(items[..k + 1]) == SumSizes(items[..k]) + items[k].size
  {
    SumSizesSplit(items[..k + 1], k);
    assert items[..k + 1][..k] == items[..k] && items[..k + 1][k..] == [items[k]];
  }

  /** Worker 0 has dealt with the first k items, all present at the destination; both
      consumers are armed and nothing is on the way. */
  ghost predicate CleanAfter(env: Env, s: State, k: nat) {
    && Lone(env, s) && s.next == k && s.pcs[0].AtRange?
    && s.held == [] && s.armed == 2 && s.sem == 0
    && s.ui.phase.StateCatchingUp?
    && (forall w: nat :: w < env.jobs ==> s.ui.slots[w] == IDLE_SLOT)
    && s.ui.totalFiles == |env.items| && s.ui.totalBytes == SumSizes(env.items)
    && Finished(s.ui) == k && s.ui.completedBytes == 0 && s.ui.skippedBytes == SumSizes(env.items[..k])
  }

  /** Take the next item, say Checking, and find it present. */
  lemma FindOne(env: Env, s: State, k: nat) returns (t: State)
    requires env.Valid() && CleanAfter(env, s, k) && k < |env.items| && Reachable(env, s)
    ensures Reachable(env, t) && Lone(env, t)
    ensures t == s.(next := k + 1, pcs := s.pcs[0 := Sending(k, Skipped)], ui := t.ui)
    ensures OnlyShown(s.ui, t.ui) && t.ui.phase == s.ui.phase
  {
    var s1 := TakeItem(env, s);
    HandleShown(s1.ui, Said(env, s1));
    HandleChecking(s1.ui, Said(env, s1));
    var s2 := Say(env, s1, 0);
    t := Ask(env, s2, StatAnswer(true, env.items[k].size));
  }

  lemma SkipOne(env: Env, s: State, k: nat) returns (t: State)
    requires env.Valid() && CleanAfter(env, s, k) && k + 1 < |env.items| && Reachable(env, s)
    ensures Reachable(env, t) && CleanAfter(env, t, k + 1)
  {
    var s1 := FindOne(env, s, k);
    HandleEnd(s1.ui, Said(env, s1));
    t := Say(env, s1, 0);
    SumSizesNext(env.items, k);
  }

  lemma ListFirst(env: Env) returns (t: State)
    requires env.Valid() && env.ListsFirst()
    ensures Reachable(env, t) && CleanAfter(env, t, 0)
  {
    var s := Initial(env);
    assert RunsTo(env, s, [], s);
    ReachStep(env, s, ScanDone);
    ReachStep(env, Apply(env, s, ScanDone), ListDone);
    t := Apply(env, Apply(env, s, ScanDone), ListDone);
  }

  lemma {:induction false} ReachClean(env: Env, k: nat) returns (t: State)
    requires env.Valid() && env.ListsFirst() && k < |env.items|
    ensures Reachable(env, t) && CleanAfter(env, t, k)
  {
    if k == 0 {
      t := ListFirst(env);
    } else {
      var s := ReachClean(env, k - 1);
      t := SkipOne(env, s, k - 1);
    }
  }

  // ---- transferring an item ----

  /** From the size query of a missing item into its Put, with a transfer slot if there is
      a cap; the slot on screen shows the transfer. */
  lemma StartPut(env: Env, s: State, callbacks: nat) returns (t: State)
    requires env.Valid() && !ReadOnly(env) && Lone(env, s) && Reachable(env, s) && s.sem == 0
    requires s.pcs[0].Deciding? && s.pcs[0].i < |env.items| && !AllCounted(s.ui)
    ensures Reachable(env, t) && Lone(env, t) && OnlyShown(s.ui, t.ui)
    ensures t == s.(ui := t.ui, sem := t.sem, pcs := s.pcs[0 := Putting(s.pcs[0].i, callbacks)])
    ensures var x := env.items[s.pcs[0].i]; t.ui.slots[0] == Slot(Uploading, x.path, x.size, 0, 0, 0)
    ensures t.sem == if env.HasSem() then 1 else 0
  {
    var s1 := Ask(env, s, StatAnswer(false, 0));
    if Skips(StatAnswer(false, 0), env.items[s.pcs[0].i].size) { assert false; }
    if env.HasSem() {
      HandleShown(s1.ui, Said(env, s1));
      var s2 := Say(env, s1, 0);
      ReachStep(env, s2, Acquire(0));
      var s3 := Apply(env, s2, Acquire(0));
      assert s3.queue == s2.queue;
      HandleShown(s3.ui, Said(env, s3));
      t := Say(env, s3, callbacks);
    } else {
      HandleShown(s1.ui, Said(env, s1));
      t := Say(env, s1, callbacks);
    }
  }

  /** The Put succeeds and the slot is given back. */
  lemma EndPut(env: Env, s: State) returns (t: State)
    requires env.Valid() && Lone(env, s) && Reachable(env, s) && s.pcs[0].Putting? && s.pcs[0].i < |env.items|
    requires s.sem == if env.HasSem() then 1 else 0
    ensures Reachable(env, t) && t == s.(sem := 0, pcs := s.pcs[0 := Sending(s.pcs[0].i, Done)])
  {
    ReachStep(env, s, PutReturns(0, true));
    t := Apply(env, s, PutReturns(0, true));
    assert t.queue == s.queue;
    if env.HasSem() {
      var s1 := t;
      ReachStep(env, s1, Release(0));
      t := Apply(env, s1, Release(0));
      assert t.queue == s.queue;
    }
  }
}
