/** The non-writing modes of the pool, and the queue position shown on screen. */
module PoolModes {
  import opened Reducer
  import opened WorkerPool
  import opened PoolInvariants
  import opened Sums

  predicate ReadOnly(env: Env) { env.verifyOnly || env.dryRun }

  /** The statuses a worker may report: -verify-only reports a file as present or as an
      error, -dry-run as present or as what would be done, and neither transfers. */
  predicate Allowed(env: Env, st: Status) {
    if env.verifyOnly then st.Checking? || st.Skipped? || st.Error?
    else if env.dryRun then st.Checking? || st.Skipped? || st.Done?
    else true
  }

  predicate PcAllowed(env: Env, pc: Pc) {
    && (pc.Sending? ==> Allowed(env, pc.status))
    && (ReadOnly(env) ==> !pc.WantSlot? && !pc.Putting? && !pc.Releasing?)
  }

  /** A message of an allowed status, naming an item already taken from the queue. */
  predicate MsgAllowed(env: Env, next: nat, m: Msg) {
    && (m.StatusMsg? ==> Allowed(env, m.status) && (m.queueIndex == 0 || m.queueIndex < next))
    && (m.ProgressMsg? ==> !ReadOnly(env))
  }

  predicate LogAllowed(env: Env, log: seq<Record>) {
    forall k :: 0 <= k < |log| ==> Allowed(env, log[k].status)
  }

  ghost predicate ModeOk(env: Env, s: State) {
    && (forall w :: 0 <= w < |s.pcs| ==> PcAllowed(env, s.pcs[w]))
    && (forall k :: 0 <= k < |s.held| ==> MsgAllowed(env, s.next, s.held[k]))
    && (forall k :: 0 <= k < |s.queue| ==> MsgAllowed(env, s.next, s.queue[k]))
    && LogAllowed(env, s.ui.log)
    && (s.ui.queuePos == 0 || s.ui.queuePos < s.next)
  }

  lemma WorkerModes(env: Env, s: State, a: Action)
    requires Shape(env, s) && ModeOk(env, s) && IsWorkerAction(a) && WorkerEnabled(env, s, a)
    ensures ModeOk(env, WorkerStep(env, s, a))
  {
    assert PcOk(env, s, s.pcs[a.w]) && PcAllowed(env, s.pcs[a.w]);
  }

  lemma ReduceModes(env: Env, ui: Ui, next: nat, m: Msg)
    requires MsgAllowed(env, next, m) && LogAllowed(env, ui.log) && (ui.queuePos == 0 || ui.queuePos < next)
    ensures var r := Reduce(ui, m); LogAllowed(env, r.log) && (r.queuePos == 0 || r.queuePos < next)
  {}

  lemma ModeStep(env: Env, s: State, a: Action)
    requires Shape(env, s) && ModeOk(env, s) && Enabled(env, s, a)
    ensures ModeOk(env, Apply(env, s, a))
  {
    if IsWorkerAction(a) {
      WorkerModes(env, s, a);
    } else if a.Deliver? {
      ReduceModes(env, s.ui, s.next, s.held[a.k]);
    }
  }

  lemma {:induction false} ModeRun(env: Env, s: State, acts: seq<Action>, t: State)
    requires env.Valid() && Shape(env, s) && ModeOk(env, s) && RunsTo(env, s, acts, t)
    ensures ModeOk(env, t)
    decreases |acts|
  {
    if acts != [] {
      ShapeStep(env, s, acts[0]);
      ModeStep(env, s, acts[0]);
      ModeRun(env, Apply(env, s, acts[0]), acts[1..], t);
    }
  }

  lemma ReachableModes(env: Env, t: State)
    requires env.Valid() && Reachable(env, t)
    ensures ModeOk(env, t)
  {
    var acts :| RunsTo(env, Initial(env), acts, t);
    InvInitial(env);
    ModeRun(env, Initial(env), acts, t);
  }

  /** With -dry-run or -verify-only no worker ever opens, queues for or puts a file, and
      every reported outcome is one the mode allows; -verify-only wins over -dry-run. */
  lemma ReadOnlyNeverTransfers(env: Env, t: State)
    requires env.Valid() && Reachable(env, t) && ReadOnly(env)
    ensures forall w :: 0 <= w < |t.pcs| ==>
              !t.pcs[w].WantSlot? && !t.pcs[w].Putting? && !t.pcs[w].Releasing?
              && !(t.pcs[w].Sending? && (t.pcs[w].status.Queued? || t.pcs[w].status.Uploading?))
    ensures t.sem == 0
    ensures env.verifyOnly ==> t.ui.uploadedFiles == 0
    ensures !env.verifyOnly ==> t.ui.failedFiles == 0
  {
    ReachableModes(env, t);
    ReachableInv(env, t);
    forall w | 0 <= w < |t.pcs| ensures PcAllowed(env, t.pcs[w]) && !HoldsSlot(env, t.pcs[w]) {}
    SumBounded(SlotHolder(env, t), env.jobs, 0);
    SumNonNegative(SlotHolder(env, t), env.jobs);
    if env.verifyOnly {
      NoneOf(env, t.ui.log, Done);
    } else {
      NoneOf(env, t.ui.log, Error);
    }
  }

  lemma {:induction false} NoneOf(env: Env, log: seq<Record>, st: Status)
    requires LogAllowed(env, log) && !Allowed(env, st)
    ensures LogWeight(log, CountOf(st)) == 0
  {
    if log != [] { NoneOf(env, log[..|log| - 1], st); }
  }

  /** The queue panel never runs ahead of what was taken from the queue. */
  lemma QueuePosIsDispatched(env: Env, t: State)
    requires env.Valid() && Reachable(env, t)
    ensures t.ui.queuePos == 0 || t.ui.queuePos < t.next
  {
    ReachableModes(env, t);
  }
}
