/** What the p key does to a running pool: the label and the gate agree, resuming
    restores the phase that was left, and no worker passes a closed gate, so at most
    one further item per worker can still finish. */
module PoolPause {
  import opened Arithmetic
  import opened Reducer
  import opened WorkerPool
  import opened PoolInvariants
  import opened PoolConservation
  import opened Sums

  /** The label says paused exactly when the gate is shut and the run is not over. */
  lemma GateAndLabelAgree(env: Env, s: State)
    requires env.Valid() && Reachable(env, s)
    ensures s.ui.phase.StatePaused? <==>
            s.ui.gatePaused && !s.ui.phase.StateDone? && !s.ui.phase.StateCancelled?
    // the "never stay paused" fallback of the resume branch is never taken
    ensures s.ui.phase.StatePaused? ==> !s.ui.pausedFrom.StatePaused?
  {
    ReachableInv(env, s);
  }

  predicate NoPauseKey(acts: seq<Action>) {
    forall k :: 0 <= k < |acts| ==> !acts[k].Pause?
  }

  lemma PausedFromStep(env: Env, s: State, a: Action)
    requires Enabled(env, s, a) && !a.Pause?
    ensures Apply(env, s, a).ui.pausedFrom == s.ui.pausedFrom
    ensures Apply(env, s, a).ui.gatePaused == s.ui.gatePaused
  {
    if a.Deliver? { ReduceFrame(s.ui, s.held[a.k]); }
  }

  lemma {:induction false} PausedFromRun(env: Env, s: State, acts: seq<Action>, t: State)
    requires RunsTo(env, s, acts, t) && NoPauseKey(acts)
    ensures t.ui.pausedFrom == s.ui.pausedFrom && t.ui.gatePaused == s.ui.gatePaused
    decreases |acts|
  {
    if acts != [] {
      PausedFromStep(env, s, acts[0]);
      PausedFromRun(env, Apply(env, s, acts[0]), acts[1..], t);
    }
  }

  /** Pause, let anything but the p key happen, resume: if the run was not over by
      then, it is back in exactly the phase that was left and the gate is open. */
  lemma ResumeRestoresPhase(env: Env, s: State, acts: seq<Action>, t: State)
    requires env.Valid() && (s.ui.phase.StateUploading? || s.ui.phase.StateCatchingUp?)
    requires RunsTo(env, Apply(env, s, Pause), acts, t) && NoPauseKey(acts)
    requires t.ui.phase.StatePaused?
    ensures Apply(env, t, Pause).ui.phase == s.ui.phase
    ensures !Apply(env, t, Pause).ui.gatePaused
  {
    PausedFromRun(env, Apply(env, s, Pause), acts, t);
  }

  // ---- what still finishes ----

  /** The worker holds an item and is past gate.wait. */
  predicate PastGate(pc: Pc) { HoldsItem(pc) && !pc.Got? && !pc.Abandoned? }

  function PastGateCount(s: State, w: nat): nat { OneIf(w < |s.pcs| && PastGate(s.pcs[w])) }

  function PastGateOf(s: State): nat -> int {
    (w: nat) => PastGateCount(s, w)
  }

  function BothOf(s: State): nat -> int {
    (w: nat) => PastGateCount(s, w) + SentBy(s, w, One())
  }

  /** Items whose outcome has been sent, counted or not. */
  ghost function FinishedItems(env: Env, s: State): int {
    InFlight(env, s, One()) + |s.ui.log|
  }

  lemma {:induction false} BothSplits(s: State, k: nat)
    ensures SumTo(BothOf(s), k) == SumTo(PastGateOf(s), k) + SumTo(SentOf(s, One()), k)
  {
    if k != 0 { BothSplits(s, k - 1); }
  }

  ghost function Budget(env: Env, s: State): int {
    SumTo(BothOf(s), env.jobs) + |s.ui.log|
  }

  /** Nobody gets past the gate: it is shut or the run is cancelled. */
  predicate Shut(ui: Ui) { ui.gatePaused || ui.cancelled }

  /** With the gate shut a worker passes on what it has and takes on nothing new. */
  lemma OwnBudget(env: Env, s: State, a: Action)
    requires Shape(env, s) && Shut(s.ui) && IsWorkerAction(a) && WorkerEnabled(env, s, a)
    ensures OneIf(PastGate(NextPc(env, s, a))) + EmittedWeight(Emits(env, s, a), a.w, One())
            <= OneIf(PastGate(s.pcs[a.w]))
  {
    assert PcOk(env, s, s.pcs[a.w]);
  }

  lemma BothAfter(env: Env, s: State, a: Action, w: nat)
    requires Shape(env, s) && Shut(s.ui) && IsWorkerAction(a) && WorkerEnabled(env, s, a) && w < env.jobs
    ensures w != a.w ==> BothOf(WorkerStep(env, s, a))(w) == BothOf(s)(w)
    ensures w == a.w ==> BothOf(WorkerStep(env, s, a))(w) <= BothOf(s)(w)
  {
    PendingAfterWorker(env, s, a, w, One());
    if w == a.w { OwnBudget(env, s, a); }
  }

  lemma WorkerBudget(env: Env, s: State, a: Action)
    requires env.Valid() && Shape(env, s) && Shut(s.ui) && IsWorkerAction(a) && WorkerEnabled(env, s, a)
    ensures Budget(env, WorkerStep(env, s, a)) <= Budget(env, s)
  {
    var f, g := BothOf(s), BothOf(WorkerStep(env, s, a));
    forall w: nat | w < env.jobs ensures g(w) <= f(w) {
      BothAfter(env, s, a, w);
    }
    SumMonotone(g, f, env.jobs);
  }

  lemma LogGrows(ui: Ui, m: Msg)
    requires m.StatusMsg? ==> m.worker < |ui.slots|
    ensures |Reduce(ui, m).log| == |ui.log| + if m.StatusMsg? then MsgWeight(m, m.worker, One()) else 0
  {}

  lemma DeliverBudget(env: Env, s: State, k: nat)
    requires env.Valid() && Shape(env, s) && MessagesOk(env, s) && k < |s.held|
    ensures Budget(env, Apply(env, s, Deliver(k))) <= Budget(env, s)
  {
    var t := Apply(env, s, Deliver(k));
    var m := s.held[k];
    assert MsgOk(env, m);
    PendingAfterDeliver(s, k, t);
    forall w: nat | w < env.jobs ensures BothOf(s)(w) == BothOf(t)(w) + MsgWeight(m, w, One()) {
      PendingRemove(Pending(s), k, w, One());
    }
    LogGrows(s.ui, m);
    if m.StatusMsg? {
      SumPointUpdate(BothOf(s), BothOf(t), env.jobs, m.worker);
    } else {
      SumSame(BothOf(s), BothOf(t), env.jobs);
    }
  }

  lemma OtherBudget(env: Env, s: State, a: Action)
    requires Enabled(env, s, a) && !IsWorkerAction(a) && !a.Deliver?
    ensures Budget(env, Apply(env, s, a)) == Budget(env, s)
  {
    var t := Apply(env, s, a);
    OtherFrame(env, s, a);
    forall w: nat | w < env.jobs ensures BothOf(t)(w) == BothOf(s)(w) {
      if Pending(t) != Pending(s) {
        var n :| Pending(t) == Pending(s) + [BulkStatProgressMsg(n)];
        PendingAppend(Pending(s), BulkStatProgressMsg(n), w, One());
      }
    }
    SumSame(BothOf(s), BothOf(t), env.jobs);
  }

  lemma BudgetStep(env: Env, s: State, a: Action)
    requires env.Valid() && Shape(env, s) && MessagesOk(env, s) && Shut(s.ui) && Enabled(env, s, a)
    ensures Budget(env, Apply(env, s, a)) <= Budget(env, s)
  {
    if IsWorkerAction(a) {
      WorkerBudget(env, s, a);
    } else if a.Deliver? {
      DeliverBudget(env, s, a.k);
    } else {
      OtherBudget(env, s, a);
    }
  }

  lemma ShutStays(env: Env, s: State, a: Action)
    requires Shut(s.ui) && Enabled(env, s, a) && (!s.ui.cancelled ==> !a.Pause?)
    ensures Shut(Apply(env, s, a).ui) && (s.ui.cancelled ==> Apply(env, s, a).ui.cancelled)
  {
    if a.Deliver? { ReduceFrame(s.ui, s.held[a.k]); }
  }

  lemma {:induction false} ShutBudget(env: Env, s: State, acts: seq<Action>, t: State)
    requires env.Valid() && Inv(env, s) && Shut(s.ui) && RunsTo(env, s, acts, t)
    requires !s.ui.cancelled ==> NoPauseKey(acts)
    ensures Budget(env, t) <= Budget(env, s)
    decreases |acts|
  {
    if acts != [] {
      InvStep(env, s, acts[0]);
      ShutStays(env, s, acts[0]);
      BudgetStep(env, s, acts[0]);
      ShutBudget(env, Apply(env, s, acts[0]), acts[1..], t);
    }
  }

  lemma ShutBoundsFurtherItems(env: Env, s: State, acts: seq<Action>, t: State)
    requires env.Valid() && Reachable(env, s) && Shut(s.ui)
    requires RunsTo(env, s, acts, t) && (!s.ui.cancelled ==> NoPauseKey(acts))
    ensures FinishedItems(env, t) - FinishedItems(env, s) <= SumTo(PastGateOf(s), env.jobs) <= env.jobs
  {
    ReachableInv(env, s);
    ShutBudget(env, s, acts, t);
    BothSplits(s, env.jobs);
    BothSplits(t, env.jobs);
    SumNonNegative(PastGateOf(t), env.jobs);
    SumBounded(PastGateOf(s), env.jobs, 1);
  }

  /** While the gate stays shut at most one item per worker still finishes, and only
      items whose worker was already past the gate. */
  lemma PauseBoundsFurtherItems(env: Env, s: State, acts: seq<Action>, t: State)
    requires env.Valid() && Reachable(env, s) && s.ui.gatePaused
    requires RunsTo(env, s, acts, t) && NoPauseKey(acts)
    ensures FinishedItems(env, t) - FinishedItems(env, s) <= SumTo(PastGateOf(s), env.jobs) <= env.jobs
  {
    ShutBoundsFurtherItems(env, s, acts, t);
  }

  /** After a cancellation so it is for good, whatever keys are pressed. */
  lemma CancelBoundsFurtherItems(env: Env, s: State, acts: seq<Action>, t: State)
    requires env.Valid() && Reachable(env, s) && s.ui.cancelled && RunsTo(env, s, acts, t)
    ensures FinishedItems(env, t) - FinishedItems(env, s) <= SumTo(PastGateOf(s), env.jobs) <= env.jobs
  {
    ShutBoundsFurtherItems(env, s, acts, t);
  }

  // ---- the keys themselves ----

  /** In an active run the p key shuts the gate and shows it, and pressed again undoes both. */
  lemma PauseToggles(env: Env, s: State)
    requires env.Valid() && Reachable(env, s) && (s.ui.phase.StateUploading? || s.ui.phase.StateCatchingUp?)
    ensures var t := Apply(env, s, Pause);
            && t.ui.phase.StatePaused? && t.ui.gatePaused
            && Apply(env, t, Pause).ui.phase == s.ui.phase && !Apply(env, t, Pause).ui.gatePaused
    ensures !s.ui.gatePaused
  {
    ReachableInv(env, s);
  }

  /** The q key cancels the run; it shows as cancelled unless it was finished or had failed,
      and finished means that every scanned file was counted. */
  lemma QuitCancels(env: Env, s: State)
    requires env.Valid() && Reachable(env, s)
    ensures var t := Apply(env, s, Quit);
            && t.ui.cancelled
            && (t.ui.phase.StateCancelled? <==> !s.ui.phase.StateDone? && !s.ui.phase.StateError?)
            && (!t.ui.phase.StateCancelled? ==> t.ui.phase == s.ui.phase)
            && (t.ui.phase.StateDone? ==> Finished(t.ui) == |env.items|)
  {
    if s.ui.phase.StateDone? { DoneMeansAllCounted(env, s); }
  }

  /** And it keeps nobody waiting: a worker at the gate or in the queue for a transfer slot
      can give its item up, shut gate and taken slots notwithstanding, and no worker passes
      the gate any more. */
  lemma CancelKeepsNobodyWaiting(env: Env, s: State, acts: seq<Action>, t: State, w: nat)
    requires env.Valid() && Reachable(env, s) && RunsTo(env, Apply(env, s, Quit), acts, t)
    requires w < |t.pcs| && (t.pcs[w].Got? || t.pcs[w].WantSlot?)
    ensures Enabled(env, t, GiveUp(w)) && Apply(env, t, GiveUp(w)).pcs == t.pcs[w := Abandoned(t.pcs[w].i)]
    ensures !Enabled(env, t, PassGate(w))
  {
    ReachStep(env, s, Quit);
    QuitCancels(env, s);
    CancelledFromThen(env, Apply(env, s, Quit), acts, t);
    GiveUpIsOpen(env, t, w);
  }

  lemma CancelledFromThen(env: Env, q: State, acts: seq<Action>, t: State)
    requires env.Valid() && Reachable(env, q) && q.ui.cancelled && RunsTo(env, q, acts, t)
    ensures t.ui.cancelled && Shape(env, t)
  {
    ReachableInv(env, q);
    StaysCancelled(env, q, acts, t);
    InvRun(env, q, acts, t);
  }

  lemma GiveUpIsOpen(env: Env, t: State, w: nat)
    requires Shape(env, t) && t.ui.cancelled && w < |t.pcs| && (t.pcs[w].Got? || t.pcs[w].WantSlot?)
    ensures Enabled(env, t, GiveUp(w)) && Apply(env, t, GiveUp(w)).pcs == t.pcs[w := Abandoned(t.pcs[w].i)]
    ensures !Enabled(env, t, PassGate(w))
  {
    assert t.stage.Running?;
  }

  lemma {:induction false} StaysCancelled(env: Env, s: State, acts: seq<Action>, t: State)
    requires s.ui.cancelled && RunsTo(env, s, acts, t)
    ensures t.ui.cancelled
    decreases |acts|
  {
    if acts != [] {
      CancelledStep(env, s, acts[0]);
      StaysCancelled(env, Apply(env, s, acts[0]), acts[1..], t);
    }
  }

  lemma CancelledStep(env: Env, s: State, a: Action)
    requires s.ui.cancelled && Enabled(env, s, a)
    ensures Apply(env, s, a).ui.cancelled
  {
    if a.Deliver? { ReduceFrame(s.ui, s.held[a.k]); }
  }
}
