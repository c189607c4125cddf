/** Liveness of the pool while it is neither paused nor cancelled: some step is
    always possible, every step lowers a rank, so every run reaches StateDone. */
module PoolProgress {
  import opened Transfer
  import opened Reducer
  import opened WorkerPool
  import opened PoolInvariants
  import opened PoolConservation
  import opened Sums

  // ---- the rank ----

  /** How many control points a worker still has before its item is sent off. */
  function PcRank(pc: Pc): nat {
    match pc
    case AtRange => 1
    case Got(_) => 10
    case Sending(_, st) =>
      (match st
       case Checking => 9
       case Queued => 7
       case Uploading => 5
       case _ => 2)
    case Deciding(_) => 8
    case WantSlot(_) => 6
    case Putting(_, _) => 4
    case Releasing(_, _) => 3
    case Exited => 0
    case Abandoned(_) => 0
  }

  function RankOf(s: State): nat -> int {
    (w: nat) => if w < |s.pcs| then PcRank(s.pcs[w]) else 0
  }

  function CallbacksOf(s: State): nat -> int {
    (w: nat) => if w < |s.pcs| && s.pcs[w].Putting? then s.pcs[w].callbacks else 0
  }

  /** Work left, counted in control points. */
  function StageRank(env: Env, s: State): int {
    10 * (|env.items| - s.next) + SumTo(RankOf(s), env.jobs)
  }

  /** Progress calls and messages left; bounded once no control point moves. */
  function TrafficRank(env: Env, s: State): int {
    3 * SumTo(CallbacksOf(s), env.jobs) + 2 * |s.queue| + |s.held|
  }

  lemma RanksNonNegative(env: Env, s: State)
    requires Shape(env, s)
    ensures StageRank(env, s) >= 0 && TrafficRank(env, s) >= 0
  {
    SumNonNegative(RankOf(s), env.jobs);
    SumNonNegative(CallbacksOf(s), env.jobs);
  }

  ghost predicate RankDrops(env: Env, s: State, t: State) {
    || StageRank(env, t) < StageRank(env, s)
    || (StageRank(env, t) == StageRank(env, s) && TrafficRank(env, t) < TrafficRank(env, s))
  }

  /** A worker's step lowers its own rank, and by 10 pays for taking an item. */
  lemma OwnRank(env: Env, s: State, a: Action)
    requires Shape(env, s) && IsWorkerAction(a) && WorkerEnabled(env, s, a)
    ensures var dispatched := if a.Take? && s.next < |env.items| then 10 else 0;
            && PcRank(NextPc(env, s, a)) <= PcRank(s.pcs[a.w]) + dispatched
            && (!a.Callback? ==> PcRank(NextPc(env, s, a)) < PcRank(s.pcs[a.w]) + dispatched)
  {
    assert PcOk(env, s, s.pcs[a.w]);
  }

  lemma WorkerStageRank(env: Env, s: State, a: Action)
    requires env.Valid() && Shape(env, s) && IsWorkerAction(a) && WorkerEnabled(env, s, a)
    ensures StageRank(env, WorkerStep(env, s, a)) <= StageRank(env, s)
    ensures !a.Callback? ==> StageRank(env, WorkerStep(env, s, a)) < StageRank(env, s)
  {
    OwnRank(env, s, a);
    SumPointUpdate(RankOf(s), RankOf(WorkerStep(env, s, a)), env.jobs, a.w);
  }

  lemma CallbackTraffic(env: Env, s: State, a: Action)
    requires env.Valid() && Shape(env, s) && a.Callback? && WorkerEnabled(env, s, a)
    ensures StageRank(env, WorkerStep(env, s, a)) == StageRank(env, s)
    ensures TrafficRank(env, WorkerStep(env, s, a)) < TrafficRank(env, s)
  {
    SumPointUpdate(RankOf(s), RankOf(WorkerStep(env, s, a)), env.jobs, a.w);
    SumPointUpdate(CallbacksOf(s), CallbacksOf(WorkerStep(env, s, a)), env.jobs, a.w);
  }

  lemma WorkerRankDrops(env: Env, s: State, a: Action)
    requires env.Valid() && Shape(env, s) && IsWorkerAction(a) && WorkerEnabled(env, s, a)
    ensures RankDrops(env, s, WorkerStep(env, s, a))
  {
    WorkerStageRank(env, s, a);
    if a.Callback? { CallbackTraffic(env, s, a); }
  }

  /** Every step of a worker or a consumer lowers the rank. */
  lemma PoolRankDrops(env: Env, s: State, a: Action)
    requires env.Valid() && Shape(env, s) && IsPoolAction(a) && Enabled(env, s, a)
    ensures RankDrops(env, s, Apply(env, s, a))
  {
    if IsWorkerAction(a) {
      WorkerRankDrops(env, s, a);
    } else {
      SumSame(RankOf(s), RankOf(Apply(env, s, a)), env.jobs);
      SumSame(CallbacksOf(s), CallbacksOf(Apply(env, s, a)), env.jobs);
    }
  }

  // ---- some step is enabled ----

  predicate Free(s: State) {
    s.stage.Running? && !s.ui.gatePaused && !s.ui.cancelled
  }

  /** The move of a worker that waits for nothing but room in the channel. */
  function OwnMove(w: nat, pc: Pc): Action {
    match pc
    case AtRange => Take(w)
    case Got(_) => PassGate(w)
    case Sending(_, _) => Send(w, 0)
    case Deciding(_) => Decide(w, StatError)
    case Putting(_, _) => PutReturns(w, true)
    case Releasing(_, _) => Release(w)
    case _ => Acquire(w)
  }

  lemma OwnMoveEnabled(env: Env, s: State, w: nat)
    requires env.Valid() && Inv(env, s) && Free(s) && w < env.jobs && s.queue == []
    requires !s.pcs[w].Exited? && (s.pcs[w].WantSlot? ==> s.sem < env.uploadJobs)
    ensures IsPoolAction(OwnMove(w, s.pcs[w])) && Enabled(env, s, OwnMove(w, s.pcs[w]))
  {
    assert PcOk(env, s, s.pcs[w]);
    if s.pcs[w].Releasing? {
      SumNonNegative(SlotHolder(env, s), env.jobs);
      assert SlotHolder(env, s)(w) == 1;
    }
  }

  lemma SomeWorkerMoves(env: Env, s: State, w: nat) returns (a: Action)
    requires env.Valid() && Inv(env, s) && Free(s) && w < env.jobs && s.queue == [] && !s.pcs[w].Exited?
    ensures IsPoolAction(a) && Enabled(env, s, a)
  {
    assert PcOk(env, s, s.pcs[w]);
    if s.pcs[w].WantSlot? && s.sem >= env.uploadJobs {
      // Every token is with a worker that can move on.
      var v := SumPositive(SlotHolder(env, s), env.jobs);
      OwnMoveEnabled(env, s, v);
      a := OwnMove(v, s.pcs[v]);
    } else {
      OwnMoveEnabled(env, s, w);
      a := OwnMove(w, s.pcs[w]);
    }
  }

  lemma UnfinishedWorker(env: Env, s: State) returns (w: nat)
    requires env.Valid() && Inv(env, s) && Conserved(env, s, One()) && Free(s)
    requires !AllCounted(s.ui) && Pending(s) == []
    ensures w < env.jobs && !s.pcs[w].Exited?
  {
    if forall v: nat :: v < env.jobs ==> s.pcs[v].Exited? {
      assert PcOk(env, s, s.pcs[0]);
      SumBounded(LoadOf(env, s, One()), env.jobs, 0);
      WeightOne(env.items);
      WeightOne(env.items[s.next..]);
      LogOne(s.ui.log);
    }
    w :| w < env.jobs && !s.pcs[w].Exited?;
  }

  /** No deadlock, for any channel capacity, worker count and slot cap, and on both
      the per-item and the bulk path. */
  lemma NeverStuck(env: Env, s: State) returns (a: Action)
    requires env.Valid() && Inv(env, s) && Conserved(env, s, One()) && Free(s) && !AllCounted(s.ui)
    ensures IsPoolAction(a) && Enabled(env, s, a)
  {
    if s.held != [] {
      a := Deliver(0);
    } else if s.queue != [] {
      a := Receive;
    } else {
      var w := UnfinishedWorker(env, s);
      a := SomeWorkerMoves(env, s, w);
    }
  }

  lemma FreeStep(env: Env, s: State, a: Action)
    requires Free(s) && IsPoolAction(a) && Enabled(env, s, a)
    ensures Free(Apply(env, s, a))
  {
    if a.Deliver? { ReduceFrame(s.ui, s.held[a.k]); }
  }

  ghost predicate PoolMove(env: Env, s: State, t: State) {
    exists a :: IsPoolAction(a) && Enabled(env, s, a) && t == Apply(env, s, a)
  }

  predicate Finale(s: State) { s.ui.phase.StateDone? }

  /** What a run keeps while it is open, live and moving. */
  ghost predicate Going(env: Env, s: State) {
    Inv(env, s) && Conserved(env, s, One()) && Free(s)
  }

  lemma MoveKeepsGoing(env: Env, s: State, t: State)
    requires env.Valid() && Going(env, s) && PoolMove(env, s, t)
    ensures Going(env, t) && RankDrops(env, s, t)
    ensures StageRank(env, s) >= 0 && TrafficRank(env, s) >= 0
  {
    var a :| IsPoolAction(a) && Enabled(env, s, a) && t == Apply(env, s, a);
    InvStep(env, s, a);
    ConservedStep(env, s, a, One());
    FreeStep(env, s, a);
    PoolRankDrops(env, s, a);
    RanksNonNegative(env, s);
  }

  lemma DoneCountsAll(env: Env, s: State)
    requires env.Valid() && Going(env, s) && Finale(s)
    ensures Finished(s.ui) == |env.items|
  {
    WeightOne(env.items);
    WeightOne(env.items[s.next..]);
    LogOne(s.ui.log);
    SumNonNegative(LoadOf(env, s, One()), env.jobs);
  }

  /** Any endless sequence of pool moves would have to pass StateDone, with all counted. */
  lemma {:induction false} EveryRunReachesDone(env: Env, run: nat -> State, i: nat) returns (n: nat)
    requires env.Valid() && Going(env, run(i))
    requires forall k: nat :: k >= i && !Finale(run(k)) ==> PoolMove(env, run(k), run(k + 1))
    ensures n >= i && Finale(run(n)) && Finished(run(n).ui) == |env.items|
    decreases StageRank(env, run(i)), TrafficRank(env, run(i))
  {
    if Finale(run(i)) {
      n := i;
      DoneCountsAll(env, run(i));
    } else {
      MoveKeepsGoing(env, run(i), run(i + 1));
      n := EveryRunReachesDone(env, run, i + 1);
    }
  }

  lemma ReachableGoing(env: Env, s: State)
    requires env.Valid() && Reachable(env, s) && Free(s)
    ensures Going(env, s)
  {
    ReachableInv(env, s);
    ReachableConserved(env, s, One());
  }

  /** However the interleaving is chosen: a run that goes on while the gate is open
      and nothing is cancelled reaches StateDone with every scanned file counted. */
  lemma PoolTerminates(env: Env, s: State, run: nat -> State)
    requires env.Valid() && Reachable(env, s) && Free(s) && run(0) == s
    requires forall k: nat :: !Finale(run(k)) ==> PoolMove(env, run(k), run(k + 1))
    ensures exists n: nat :: Finale(run(n)) && Finished(run(n).ui) == |env.items|
  {
    ReachableGoing(env, s);
    var n := EveryRunReachesDone(env, run, 0);
  }

  /** ... and such a run can always go on: short of StateDone some move is enabled,
      for every channel capacity, worker count and slot cap of at least 1. */
  lemma NeverDeadlocks(env: Env, s: State) returns (a: Action)
    requires env.Valid() && Reachable(env, s) && Free(s) && !Finale(s)
    ensures IsPoolAction(a) && Enabled(env, s, a)
  {
    ReachableGoing(env, s);
    a := NeverStuck(env, s);
  }
}
