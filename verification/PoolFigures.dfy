/** The figures on screen during a run: progress reports, the queue position, the phases
    of a transfer and the live byte count. */
module PoolFigures {
  import opened Transfer
  import opened Reducer
  import opened WorkerPool
  import opened PoolInvariants
  import opened PoolConservation
  import opened PoolStreams
  import opened PoolModes
  import opened Sums

  // ---- nested reports ----

  /** Committed, uploaded and buffered bytes nest. */
  predicate Nested(committed: nat, uploaded: nat, buffered: nat) { committed <= uploaded <= buffered }

  ghost predicate NestedReports(acts: seq<Action>) {
    forall k :: 0 <= k < |acts| && acts[k].Callback? ==>
      Nested(acts[k].committed, acts[k].uploaded, acts[k].buffered)
  }

  predicate NestedMsg(m: Msg) { m.ProgressMsg? ==> Nested(m.committed, m.uploaded, m.buffered) }

  ghost predicate AllNested(s: State) {
    && (forall w :: 0 <= w < |s.ui.slots| ==>
          Nested(s.ui.slots[w].committed, s.ui.slots[w].uploaded, s.ui.slots[w].buffered))
    && (forall k :: 0 <= k < |s.held| ==> NestedMsg(s.held[k]))
    && (forall k :: 0 <= k < |s.queue| ==> NestedMsg(s.queue[k]))
  }

  lemma ReduceNests(ui: Ui, m: Msg)
    requires NestedMsg(m)
    requires forall w :: 0 <= w < |ui.slots| ==>
               Nested(ui.slots[w].committed, ui.slots[w].uploaded, ui.slots[w].buffered)
    ensures var r := Reduce(ui, m);
            forall w :: 0 <= w < |r.slots| ==>
              Nested(r.slots[w].committed, r.slots[w].uploaded, r.slots[w].buffered)
  {}

  lemma NestedStep(env: Env, s: State, a: Action)
    requires AllNested(s) && Enabled(env, s, a)
    requires a.Callback? ==> Nested(a.committed, a.uploaded, a.buffered)
    ensures AllNested(Apply(env, s, a))
  {
    if a.Deliver? {
      ReduceNests(s.ui, s.held[a.k]);
    } else {
      assert Apply(env, s, a).ui.slots == s.ui.slots;
    }
  }

  lemma {:induction false} NestedRun(env: Env, s: State, acts: seq<Action>, t: State)
    requires AllNested(s) && RunsTo(env, s, acts, t) && NestedReports(acts)
    ensures AllNested(t)
    decreases |acts|
  {
    if acts != [] {
      assert acts[0].Callback? ==> Nested(acts[0].committed, acts[0].uploaded, acts[0].buffered);
      NestedStep(env, s, acts[0]);
      NestedRun(env, Apply(env, s, acts[0]), acts[1..], t);
    }
  }

  /** Reports that nest leave every slot nested, on both paths and in every interleaving. */
  lemma NestedReportsNestedSlots(env: Env, acts: seq<Action>, t: State, w: nat)
    requires RunsTo(env, Initial(env), acts, t) && NestedReports(acts) && w < |t.ui.slots|
    ensures t.ui.slots[w].committed <= t.ui.slots[w].uploaded <= t.ui.slots[w].buffered
  {
    NestedRun(env, Initial(env), acts, t);
    assert Nested(t.ui.slots[w].committed, t.ui.slots[w].uploaded, t.ui.slots[w].buffered);
  }

  // ---- a report arrives ----

  predicate StepOf(a: Action, w: nat) { IsWorkerAction(a) && a.w == w }

  /** What slot w will show once everything sent for it has been handled. */
  function Final(env: Env, s: State, w: nat): Option<Slot> {
    if w < |s.ui.slots| then Replay(env, s.ui.slots[w], Pending(s), w) else None
  }

  lemma SentFinal(env: Env, s: State, t: State, m: Msg, w: nat)
    requires Final(env, s, w).Some? && !From(m, w) && t.ui.slots == s.ui.slots
    requires t.held == s.held && t.queue == s.queue + [m]
    ensures Final(env, t, w) == Final(env, s, w)
  {
    assert Pending(t) == Pending(s) + [m];
    ReplayAppend(env, s.ui.slots[w], Pending(s), m, w);
  }

  lemma DeliveredFinal(env: Env, s: State, w: nat)
    requires |s.held| == 1 && MsgOk(env, s.held[0]) && |s.ui.slots| == env.jobs && Final(env, s, w).Some?
    ensures Final(env, Apply(env, s, Deliver(0)), w) == Final(env, s, w)
  {
    var t := Apply(env, s, Deliver(0));
    assert Pending(s)[0] == s.held[0] && Pending(s)[1..] == Pending(t);
    DeliveredSlot(s.ui, s.held[0], w);
  }

  lemma FinalKept(env: Env, s: State, a: Action, w: nat)
    requires env.Valid() && |s.ui.slots| == env.jobs && MessagesOk(env, s) && |s.held| <= 1
    requires Final(env, s, w).Some? && Enabled(env, s, a) && !StepOf(a, w)
    ensures Final(env, Apply(env, s, a), w) == Final(env, s, w)
  {
    var t := Apply(env, s, a);
    if a.Deliver? {
      DeliveredFinal(env, s, w);
    } else {
      assert t.ui.slots == s.ui.slots;
      if |Pending(t)| == |Pending(s)| {
        assert Pending(t) == Pending(s);
      } else {
        SentFinal(env, s, t, t.queue[|s.queue|], w);
      }
    }
  }

  lemma {:induction false} FinalKeptRun(env: Env, s: State, acts: seq<Action>, t: State, w: nat)
    requires env.Valid() && !env.ListsFirst() && Inv(env, s) && InOrder(env, s) && w < env.jobs
    requires RunsTo(env, s, acts, t) && forall k :: 0 <= k < |acts| ==> !StepOf(acts[k], w)
    ensures Final(env, t, w) == Final(env, s, w)
    decreases |acts|
  {
    if acts != [] {
      assert StreamOk(env, s, w);
      FinalKept(env, s, acts[0], w);
      InvStep(env, s, acts[0]);
      InOrderStep(env, s, acts[0]);
      FinalKeptRun(env, Apply(env, s, acts[0]), acts[1..], t, w);
    }
  }

  lemma CallbackFinal(env: Env, s: State, a: Action)
    requires env.Valid() && Shape(env, s) && a.Callback? && Enabled(env, s, a) && |s.queue| < env.capacity
    requires StreamOk(env, s, a.w)
    ensures var f := Final(env, Apply(env, s, a), a.w);
            && f.Some?
            && Shows(env, f.value, Uploading, env.items[s.pcs[a.w].i])
            && f.value.committed == a.committed && f.value.uploaded == a.uploaded && f.value.buffered == a.buffered
  {
    var t := Apply(env, s, a);
    var m := t.queue[|s.queue|];
    assert Pending(t) == Pending(s) + [m];
    ReplayAppend(env, s.ui.slots[a.w], Pending(s), m, a.w);
  }

  lemma {:induction false} QuietReplay(env: Env, slot: Slot, msgs: seq<Msg>, w: nat)
    requires forall k :: 0 <= k < |msgs| ==> !From(msgs[k], w)
    ensures Replay(env, slot, msgs, w) == Some(slot)
    decreases |msgs|
  {
    if msgs != [] { QuietReplay(env, slot, msgs[1..], w); }
  }

  /** With one consumer, a report that found room is what the screen shows: until the
      worker's next step, as soon as none of its messages is on the way, its slot holds
      that report's own committed, uploaded and buffered bytes, and its own file. */
  lemma ReportShows(env: Env, s: State, a: Action, acts: seq<Action>, t: State)
    requires env.Valid() && !env.ListsFirst() && Reachable(env, s)
    requires a.Callback? && Enabled(env, s, a) && |s.queue| < env.capacity
    requires RunsTo(env, Apply(env, s, a), acts, t) && (forall k :: 0 <= k < |acts| ==> !StepOf(acts[k], a.w))
    requires Silent(t, a.w)
    ensures a.w < |t.ui.slots| && s.pcs[a.w].i < |env.items|
    ensures var item := env.items[s.pcs[a.w].i];
            t.ui.slots[a.w] == Slot(Uploading, item.path, item.size, a.committed, a.uploaded, a.buffered)
  {
    ReachableInv(env, s);
    StreamsInOrder(env, s);
    assert StreamOk(env, s, a.w);
    CallbackFinal(env, s, a);
    InvStep(env, s, a);
    InOrderStep(env, s, a);
    FinalKeptRun(env, Apply(env, s, a), acts, t, a.w);
    InvRun(env, Apply(env, s, a), acts, t);
    QuietReplay(env, t.ui.slots[a.w], Pending(t), a.w);
  }

  /** And a report never waits: with the channel full the worker goes on just the same, and
      only the report is lost. */
  lemma ReportsNeverBlock(env: Env, s: State, w: nat, committed: nat, uploaded: nat, buffered: nat)
    requires env.Valid() && Reachable(env, s) && s.stage.Running? && w < |s.pcs|
    requires s.pcs[w].Putting? && s.pcs[w].callbacks > 0
    requires s.pcs[w].i < |env.items| ==> uploaded <= env.items[s.pcs[w].i].size
    ensures var a := Callback(w, committed, uploaded, buffered);
            Enabled(env, s, a) && var t := Apply(env, s, a);
              && t == s.(pcs := t.pcs, queue := t.queue)
              && t.pcs == s.pcs[w := Putting(s.pcs[w].i, s.pcs[w].callbacks - 1)]
              && (|s.queue| == env.capacity ==> t.queue == s.queue)
              && (|s.queue| < env.capacity ==> |t.queue| == |s.queue| + 1)
  {
    ReachableInv(env, s);
    assert PcOk(env, s, s.pcs[w]);
  }

  // ---- the queue position ----

  predicate Announces(m: Msg, i: nat) { m.StatusMsg? && m.queueIndex == i }

  predicate BeforeAnnouncing(pc: Pc, i: nat) {
    (pc.Got? || (pc.Sending? && pc.status.Checking?) || pc.Abandoned?) && pc.i == i
  }

  /** Item i was shown, or is on its way to be, or was given up. */
  ghost predicate Announced(s: State, i: nat) {
    || s.ui.queuePos >= i
    || (exists k :: 0 <= k < |s.held| && Announces(s.held[k], i))
    || (exists k :: 0 <= k < |s.queue| && Announces(s.queue[k], i))
    || (exists w :: 0 <= w < |s.pcs| && BeforeAnnouncing(s.pcs[w], i))
  }

  lemma WorkerAnnounces(env: Env, s: State, a: Action, i: nat)
    requires Announced(s, i) || (a.Take? && i == s.next)
    requires IsWorkerAction(a) && WorkerEnabled(env, s, a) && i < WorkerStep(env, s, a).next
    ensures Announced(WorkerStep(env, s, a), i)
  {
    var t := WorkerStep(env, s, a);
    if k :| 0 <= k < |s.queue| && Announces(s.queue[k], i) {
      assert Announces(t.queue[k], i);
    } else if w :| 0 <= w < |s.pcs| && BeforeAnnouncing(s.pcs[w], i) {
      if w != a.w || !a.Send? {
        assert BeforeAnnouncing(t.pcs[w], i);
      } else {
        assert Announces(t.queue[|s.queue|], i);
      }
    } else if a.Take? && i == s.next {
      assert BeforeAnnouncing(t.pcs[a.w], i);
    }
  }

  lemma DeliverAnnounces(env: Env, s: State, k: nat, i: nat)
    requires Announced(s, i) && Enabled(env, s, Deliver(k)) && MsgOk(env, s.held[k]) && |s.ui.slots| == env.jobs
    ensures Announced(Apply(env, s, Deliver(k)), i)
  {
    var t := Apply(env, s, Deliver(k));
    if j :| 0 <= j < |s.held| && Announces(s.held[j], i) {
      if j < k { assert Announces(t.held[j], i); }
      if j > k { assert Announces(t.held[j - 1], i); }
    }
  }

  lemma OtherAnnounces(env: Env, s: State, a: Action, i: nat)
    requires Announced(s, i) && Enabled(env, s, a) && !IsWorkerAction(a) && !a.Deliver?
    ensures Announced(Apply(env, s, a), i)
  {
    var t := Apply(env, s, a);
    if k :| 0 <= k < |s.queue| && Announces(s.queue[k], i) {
      if a.Receive? {
        if k == 0 { assert Announces(t.held[|s.held|], i); } else { assert Announces(t.queue[k - 1], i); }
      } else {
        assert Announces(t.queue[k], i);
      }
    } else if k :| 0 <= k < |s.held| && Announces(s.held[k], i) {
      assert Announces(t.held[k], i);
    }
  }

  ghost predicate AllAnnounced(s: State) { forall i: nat :: i < s.next ==> Announced(s, i) }

  lemma AnnouncedStep(env: Env, s: State, a: Action)
    requires env.Valid() && Inv(env, s) && AllAnnounced(s) && Enabled(env, s, a)
    ensures AllAnnounced(Apply(env, s, a))
  {
    forall i: nat | i < Apply(env, s, a).next ensures Announced(Apply(env, s, a), i) {
      if IsWorkerAction(a) {
        WorkerAnnounces(env, s, a, i);
      } else if a.Deliver? {
        DeliverAnnounces(env, s, a.k, i);
      } else {
        OtherAnnounces(env, s, a, i);
      }
    }
  }

  lemma {:induction false} AnnouncedRun(env: Env, s: State, acts: seq<Action>, t: State)
    requires env.Valid() && Inv(env, s) && AllAnnounced(s) && RunsTo(env, s, acts, t)
    ensures AllAnnounced(t)
    decreases |acts|
  {
    if acts != [] {
      InvStep(env, s, acts[0]);
      AnnouncedStep(env, s, acts[0]);
      AnnouncedRun(env, Apply(env, s, acts[0]), acts[1..], t);
    }
  }

  /** At the end of a run with one consumer the queue position is the last item's: every
      item dispatched was shown, and none beyond. */
  lemma QueuePosReachesTheEnd(env: Env, t: State)
    requires env.Valid() && !env.ListsFirst() && Reachable(env, t)
    requires t.ui.phase.StateDone? && t.stage.Running?
    ensures t.ui.queuePos == |env.items| - 1
  {
    var acts :| RunsTo(env, Initial(env), acts, t);
    InvInitial(env);
    AnnouncedRun(env, Initial(env), acts, t);
    ReachableInv(env, t);
    DoneMeansAllCounted(env, t);
    DoneIsQuiet(env, t);
    QueuePosIsDispatched(env, t);
    assert Announced(t, |env.items| - 1);
  }

  // ---- the first transfer ----

  predicate DeliversTransfer(env: Env, s: State, a: Action) {
    a.Deliver? && a.k < |s.held| && s.held[a.k].StatusMsg? && s.held[a.k].status.Uploading?
  }

  /** No transfer was shown on the way. */
  ghost predicate NoTransfer(env: Env, s: State, acts: seq<Action>)
    decreases |acts|
  {
    acts == [] || (!DeliversTransfer(env, s, acts[0])
                   && Enabled(env, s, acts[0]) && NoTransfer(env, Apply(env, s, acts[0]), acts[1..]))
  }

  predicate BeforeTransfer(ui: Ui) {
    && !ui.phase.StateUploading?
    && (ui.phase.StatePaused? ==> ui.pausedFrom.StateCatchingUp?)
  }

  lemma {:induction false} NoTransferRun(env: Env, s: State, acts: seq<Action>, t: State)
    requires BeforeTransfer(s.ui) && RunsTo(env, s, acts, t) && NoTransfer(env, s, acts)
    ensures BeforeTransfer(t.ui)
    decreases |acts|
  {
    if acts != [] {
      assert BeforeTransfer(Apply(env, s, acts[0]).ui);
      NoTransferRun(env, Apply(env, s, acts[0]), acts[1..], t);
    }
  }

  predicate PastCatchUp(s: State) {
    && !s.stage.Scan? && !s.ui.phase.StateCatchingUp?
    && (s.ui.phase.StatePaused? ==> !s.ui.pausedFrom.StateCatchingUp?)
  }

  lemma {:induction false} PastCatchUpRun(env: Env, s: State, acts: seq<Action>, t: State)
    requires PastCatchUp(s) && RunsTo(env, s, acts, t)
    ensures PastCatchUp(t)
    decreases |acts|
  {
    if acts != [] {
      assert PastCatchUp(Apply(env, s, acts[0]));
      PastCatchUpRun(env, Apply(env, s, acts[0]), acts[1..], t);
    }
  }

  /** Uploading is shown only once some worker's transfer was ... */
  lemma UploadingNeedsATransfer(env: Env, acts: seq<Action>, t: State)
    requires RunsTo(env, Initial(env), acts, t) && NoTransfer(env, Initial(env), acts)
    ensures !t.ui.phase.StateUploading?
  {
    NoTransferRun(env, Initial(env), acts, t);
  }

  /** ... and the first one to be shown ends the catch-up for good. */
  lemma TransferEndsCatchUp(env: Env, s: State, k: nat, acts: seq<Action>, t: State)
    requires env.Valid() && Reachable(env, s) && DeliversTransfer(env, s, Deliver(k))
    requires s.ui.phase.StateCatchingUp? && RunsTo(env, Apply(env, s, Deliver(k)), acts, t)
    ensures Apply(env, s, Deliver(k)).ui.phase.StateUploading?
    ensures !t.ui.phase.StateCatchingUp?
  {
    ReachableInv(env, s);
    assert MsgOk(env, s.held[k]);
    PastCatchUpRun(env, Apply(env, s, Deliver(k)), acts, t);
  }

  lemma ReadOnlyShows(env: Env, s: State, a: Action)
    requires env.Valid() && Shape(env, s) && ModeOk(env, s) && ReadOnly(env) && Enabled(env, s, a)
    ensures !DeliversTransfer(env, s, a)
    ensures Shape(env, Apply(env, s, a)) && ModeOk(env, Apply(env, s, a))
  {
    ShapeStep(env, s, a);
    ModeStep(env, s, a);
    if a.Deliver? { assert MsgAllowed(env, s.next, s.held[a.k]); }
  }

  lemma {:induction false} ReadOnlyShowsNone(env: Env, s: State, acts: seq<Action>, t: State)
    requires env.Valid() && Shape(env, s) && ModeOk(env, s) && ReadOnly(env) && RunsTo(env, s, acts, t)
    ensures NoTransfer(env, s, acts)
    decreases |acts|
  {
    if acts != [] {
      ReadOnlyShows(env, s, acts[0]);
      ReadOnlyShowsNone(env, Apply(env, s, acts[0]), acts[1..], t);
    }
  }

  /** A run that only reads stays in its catch-up phase until it ends. */
  lemma ReadOnlyNeverUploading(env: Env, t: State)
    requires env.Valid() && ReadOnly(env) && Reachable(env, t)
    ensures !t.ui.phase.StateUploading?
  {
    var acts :| RunsTo(env, Initial(env), acts, t);
    InvInitial(env);
    ReadOnlyShowsNone(env, Initial(env), acts, t);
    UploadingNeedsATransfer(env, acts, t);
  }

  // ---- the live byte count ----

  function Live(slot: Slot): nat { if slot.status == Uploading then slot.uploaded else 0 }

  /** Only the sender's slot moves ... */
  lemma SlotsMove(ui: Ui, m: Msg)
    requires !m.BulkStatProgressMsg? && m.worker < |ui.slots|
    ensures var r := Reduce(ui, m);
            && m.worker < |r.slots| == |ui.slots|
            && SumTo(LiveOf(r), |ui.slots|) - SumTo(LiveOf(ui), |ui.slots|)
               == Live(ApplySlot(ui.slots[m.worker], m)) - Live(ui.slots[m.worker])
  {
    var r := Reduce(ui, m);
    ReduceFrame(ui, m);
    forall v: nat | v < |ui.slots|
      ensures LiveOf(r)(v) == Live(if v == m.worker then ApplySlot(ui.slots[v], m) else ui.slots[v])
    {
      DeliveredSlot(ui, m, v);
    }
    SumPointUpdate(LiveOf(ui), LiveOf(r), |ui.slots|, m.worker);
  }

  /** ... and only a finished upload completes bytes. */
  lemma BytesMove(ui: Ui, m: Msg)
    requires !m.BulkStatProgressMsg? && m.worker < |ui.slots|
    ensures Reduce(ui, m).completedBytes - ui.completedBytes
            == if m.StatusMsg? && m.status == Done then m.item.size else 0
  {}

  /** Handling a message moves the live byte count by what it says about its own slot, and
      by the bytes it completes. */
  lemma LiveMoves(ui: Ui, m: Msg)
    requires !m.BulkStatProgressMsg? && m.worker < |ui.slots|
    ensures var was := if ui.slots[m.worker].status == Uploading then ui.slots[m.worker].uploaded else 0;
            LiveTransferred(Reduce(ui, m)) - LiveTransferred(ui)
            == if m.ProgressMsg? then if ui.slots[m.worker].status == Uploading then m.uploaded - was else 0
               else if m.status == Done then m.item.size - was
               else -was
  {
    SlotsMove(ui, m);
    BytesMove(ui, m);
  }
}
