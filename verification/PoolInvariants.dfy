/** Invariants of the pool that hold in every reachable state, on both the
    per-item and the bulk path: shape, transfer slots, pause gate, consumers. */
module PoolInvariants {
  import opened Reducer
  import opened WorkerPool
  import opened Sums

  // ---- shape ----

  predicate HoldsItem(pc: Pc) { !pc.AtRange? && !pc.Exited? }

  ghost predicate PcOk(env: Env, s: State, pc: Pc) {
    && (HoldsItem(pc) ==> pc.i < s.next)
    && (pc.Exited? ==> s.next == |env.items|)
    && (pc.Abandoned? ==> s.ui.cancelled)
    && (pc.Sending? ==> !pc.status.Idle?)
    && (pc.Sending? && pc.status.Queued? ==> env.HasSem())
    && (pc.WantSlot? || pc.Releasing? ==> env.HasSem())
  }

  predicate MsgOk(env: Env, m: Msg) {
    && (m.StatusMsg? ==> m.worker < env.jobs && !m.status.Idle?)
    && (m.ProgressMsg? ==> m.worker < env.jobs)
    && (m.BulkStatProgressMsg? ==> env.ListsFirst())
  }

  /** What each stage of the run has and has not done yet. */
  ghost predicate StageOk(env: Env, s: State) {
    && (!s.stage.Running? ==> s.next == 0)
    && (s.stage.Listing? ==> env.ListsFirst())
    && (s.stage.Scan? || s.stage.Halted? ==>
          s.ui.totalFiles == 0 && s.ui.totalBytes == 0 && s.held == [] && s.queue == [] && Finished(s.ui) == 0)
    && (s.stage.Listing? || s.stage.Running? ==>
          |env.items| > 0 && s.ui.totalFiles == |env.items| && s.ui.totalBytes == SumSizes(env.items))
  }

  ghost predicate Shape(env: Env, s: State) {
    && |s.pcs| == env.jobs
    && |s.ui.slots| == env.jobs
    && s.next <= |env.items|
    && |s.queue| <= env.capacity
    && (forall w :: 0 <= w < env.jobs ==> PcOk(env, s, s.pcs[w]))
    && (!s.stage.Running? ==> forall w :: 0 <= w < env.jobs ==> s.pcs[w].AtRange?)
    && StageOk(env, s)
  }

  ghost predicate MessagesOk(env: Env, s: State) {
    && (forall k :: 0 <= k < |s.held| ==> MsgOk(env, s.held[k]))
    && (forall k :: 0 <= k < |s.queue| ==> MsgOk(env, s.queue[k]))
  }

  lemma ShapeStep(env: Env, s: State, a: Action)
    requires env.Valid() && Shape(env, s) && Enabled(env, s, a)
    ensures Shape(env, Apply(env, s, a))
  {
    if a.Deliver? {
      ReduceFrame(s.ui, s.held[a.k]);
    } else if IsWorkerAction(a) {
      WorkerShape(env, s, a);
    }
  }

  lemma WorkerShape(env: Env, s: State, a: Action)
    requires env.Valid() && Shape(env, s) && IsWorkerAction(a) && WorkerEnabled(env, s, a)
    ensures Shape(env, WorkerStep(env, s, a))
  {
    var t := WorkerStep(env, s, a);
    assert PcOk(env, s, s.pcs[a.w]);
    assert PcOk(env, t, t.pcs[a.w]);
  }

  lemma MessagesStep(env: Env, s: State, a: Action)
    requires env.Valid() && Shape(env, s) && MessagesOk(env, s) && Enabled(env, s, a)
    ensures MessagesOk(env, Apply(env, s, a))
  {
    if a.Send? {
      assert PcOk(env, s, s.pcs[a.w]);
    }
  }

  // ---- transfer slots ----

  /** The worker is between taking a token of uploadSem and giving it back. */
  predicate HoldsSlot(env: Env, pc: Pc) {
    env.HasSem() && ((pc.Sending? && pc.status.Uploading?) || pc.Putting? || pc.Releasing?)
  }

  function SlotHolder(env: Env, s: State): nat -> int {
    (w: nat) => if w < |s.pcs| && HoldsSlot(env, s.pcs[w]) then 1 else 0
  }

  /** Tokens in uploadSem are exactly the workers inside the capped section. */
  ghost predicate SlotsMatch(env: Env, s: State) {
    && s.sem == SumTo(SlotHolder(env, s), env.jobs)
    && (env.HasSem() ==> s.sem <= env.uploadJobs)
    && (!env.HasSem() ==> s.sem == 0)
  }

  lemma WorkerSlots(env: Env, s: State, a: Action)
    requires env.Valid() && Shape(env, s) && SlotsMatch(env, s) && IsWorkerAction(a) && WorkerEnabled(env, s, a)
    ensures SlotsMatch(env, WorkerStep(env, s, a))
  {
    assert PcOk(env, s, s.pcs[a.w]);
    SumPointUpdate(SlotHolder(env, s), SlotHolder(env, WorkerStep(env, s, a)), env.jobs, a.w);
  }

  lemma SlotsStep(env: Env, s: State, a: Action)
    requires env.Valid() && Shape(env, s) && SlotsMatch(env, s) && Enabled(env, s, a)
    ensures SlotsMatch(env, Apply(env, s, a))
  {
    if IsWorkerAction(a) {
      WorkerSlots(env, s, a);
    } else {
      SumSame(SlotHolder(env, s), SlotHolder(env, Apply(env, s, a)), env.jobs);
    }
  }

  // ---- pause gate and phase ----

  /** How the phase, the gate and the stage of the run fit together. */
  ghost predicate UiPhaseOk(empty: bool, stage: Stage, ui: Ui) {
    && (ui.phase.StatePaused? ==> ui.gatePaused && (ui.pausedFrom.StateUploading? || ui.pausedFrom.StateCatchingUp?))
    && (ui.gatePaused ==> ui.phase.StatePaused? || ui.phase.StateDone? || ui.phase.StateCancelled?)
    && (ui.gatePaused ==> stage.Listing? || stage.Running?)
    && (stage.Scan? ==> ui.phase.StateScanning? || ui.phase.StateCancelled?)
    && (ui.phase.StateDone? ==> !stage.Scan? && Finished(ui) >= ui.totalFiles)
    && (AllCounted(ui) ==> ui.phase.StateDone?)
    && (stage.Halted? && ui.phase.StateDone? ==> empty)
    && (stage.Halted? ==> ui.phase.StateDone? || ui.phase.StateError? || ui.phase.StateCancelled?)
    && (ui.phase.StateCancelled? ==> ui.cancelled)
    && (stage.Listing? || stage.Running? ==> !ui.phase.StateError? && !ui.phase.StateScanning?)
  }

  ghost predicate PhaseOk(env: Env, s: State) {
    UiPhaseOk(|env.items| == 0, s.stage, s.ui)
  }

  lemma HandledPhase(empty: bool, stage: Stage, ui: Ui, r: Ui)
    requires UiPhaseOk(empty, stage, ui) && (stage.Listing? || stage.Running?) && Handled(ui, r)
    ensures UiPhaseOk(empty, stage, r)
  {}

  lemma PhaseStep(env: Env, s: State, a: Action)
    requires StageOk(env, s) && PhaseOk(env, s) && Enabled(env, s, a)
    ensures PhaseOk(env, Apply(env, s, a))
  {
    if a.Deliver? {
      ReduceFrame(s.ui, s.held[a.k]);
      HandledPhase(|env.items| == 0, s.stage, s.ui, Reduce(s.ui, s.held[a.k]));
    } else if IsWorkerAction(a) {
      assert Apply(env, s, a).ui == s.ui;
    }
  }

  // ---- consumers ----

  function Consumers(s: State): nat { s.armed + |s.held| }

  predicate Pumped(s: State) { Consumers(s) >= 1 || AllCounted(s.ui) }

  lemma PumpedStep(env: Env, s: State, a: Action)
    requires Pumped(s) && Enabled(env, s, a) && (s.stage.Scan? ==> s.ui.totalFiles == 0)
    ensures Pumped(Apply(env, s, a))
  {
    if a.Deliver? {
      ReduceFrame(s.ui, s.held[a.k]);
    } else if IsWorkerAction(a) {
      assert Apply(env, s, a).ui == s.ui;
    }
  }

  /** The per-item path never has a second consumer; the bulk path has at most two. */
  predicate ConsumerBound(env: Env, s: State) {
    Consumers(s) <= if env.ListsFirst() && s.stage.Running? then 2 else 1
  }

  lemma ConsumerStep(env: Env, s: State, a: Action)
    requires Shape(env, s) && ConsumerBound(env, s) && Enabled(env, s, a)
    ensures ConsumerBound(env, Apply(env, s, a))
  {}

  // ---- all of it ----

  ghost predicate Inv(env: Env, s: State) {
    && Shape(env, s)
    && MessagesOk(env, s)
    && SlotsMatch(env, s)
    && PhaseOk(env, s)
    && Pumped(s)
    && ConsumerBound(env, s)
    && CountersAgree(s.ui)
  }

  lemma InvInitial(env: Env)
    requires env.Valid()
    ensures Inv(env, Initial(env))
  {
    var s := Initial(env);
    SumBounded(SlotHolder(env, s), env.jobs, 0);
    SumNonNegative(SlotHolder(env, s), env.jobs);
  }

  lemma CountersStep(env: Env, s: State, a: Action)
    requires CountersAgree(s.ui) && Enabled(env, s, a)
    ensures CountersAgree(Apply(env, s, a).ui)
  {
    if a.Deliver? {
      ReduceKeepsCounters(s.ui, s.held[a.k]);
    } else {
      assert Apply(env, s, a).ui.log == s.ui.log;
    }
  }

  lemma InvStep(env: Env, s: State, a: Action)
    requires env.Valid() && Inv(env, s) && Enabled(env, s, a)
    ensures Inv(env, Apply(env, s, a))
  {
    ShapeStep(env, s, a);
    MessagesStep(env, s, a);
    SlotsStep(env, s, a);
    PhaseStep(env, s, a);
    PumpedStep(env, s, a);
    ConsumerStep(env, s, a);
    CountersStep(env, s, a);
  }

  lemma {:induction false} InvRun(env: Env, s: State, acts: seq<Action>, t: State)
    requires env.Valid() && Inv(env, s) && RunsTo(env, s, acts, t)
    ensures Inv(env, t)
    decreases |acts|
  {
    if acts != [] {
      InvStep(env, s, acts[0]);
      InvRun(env, Apply(env, s, acts[0]), acts[1..], t);
    }
  }

  /** Every reachable state of every interleaving satisfies all of the above. */
  lemma ReachableInv(env: Env, t: State)
    requires env.Valid() && Reachable(env, t)
    ensures Inv(env, t)
  {
    var acts :| RunsTo(env, Initial(env), acts, t);
    InvInitial(env);
    InvRun(env, Initial(env), acts, t);
  }

  predicate AtRest(pc: Pc) { pc.AtRange? || pc.Exited? || pc.Abandoned? }

  function PuttingOf(s: State): nat -> int {
    (w: nat) => if w < |s.pcs| && s.pcs[w].Putting? then 1 else 0
  }

  /** The transfer cap: through Open and Put errors and cancellation, uploadSem holds
      one token per worker in the capped section, so at most uploadJobs transfers run,
      and none is left taken once no worker is under way. */
  lemma TransfersCapped(env: Env, s: State)
    requires env.Valid() && Reachable(env, s)
    ensures s.sem == SumTo(SlotHolder(env, s), env.jobs)
    ensures env.HasSem() ==> SumTo(PuttingOf(s), env.jobs) <= s.sem <= env.uploadJobs
    ensures (forall w: nat :: w < |s.pcs| ==> AtRest(s.pcs[w])) ==> s.sem == 0
  {
    ReachableInv(env, s);
    if env.HasSem() {
      SumMonotone(PuttingOf(s), SlotHolder(env, s), env.jobs);
    }
    if forall w: nat :: w < |s.pcs| ==> AtRest(s.pcs[w]) {
      SumBounded(SlotHolder(env, s), env.jobs, 0);
      SumNonNegative(SlotHolder(env, s), env.jobs);
    }
  }

  /** In the terms of the configuration: with UploadJobs set, no more transfers run than
      that, whatever the number of workers. */
  lemma UploadJobsIsTheCap(env: Env, s: State)
    requires env.Valid() && Reachable(env, s) && 0 < env.uploadJobs
    ensures SumTo(PuttingOf(s), env.jobs) <= env.uploadJobs
  {
    TransfersCapped(env, s);
    if env.uploadJobs >= env.jobs { SumBounded(PuttingOf(s), env.jobs, 1); }
  }

  /** And nobody queues for a transfer unless UploadJobs is set and smaller than the number
      of workers; then everybody who transfers holds one of that many tokens. */
  lemma QueueingMeansACap(env: Env, s: State, w: nat)
    requires env.Valid() && Reachable(env, s) && w < |s.pcs|
    ensures s.pcs[w].WantSlot? || (s.pcs[w].Sending? && s.pcs[w].status.Queued?) || s.sem > 0 ==>
              0 < env.uploadJobs < env.jobs
    ensures s.pcs[w].Putting? && 0 < env.uploadJobs < env.jobs ==> 0 < s.sem <= env.uploadJobs
  {
    ReachableInv(env, s);
    assert PcOk(env, s, s.pcs[w]);
    SumNonNegative(SlotHolder(env, s), env.jobs);
    if s.pcs[w].Putting? && env.HasSem() { assert SlotHolder(env, s)(w) == 1; }
  }

  /** When the scan has completed, the run counts what it found; without files it is over,
      and the workers start at once unless the destination can list itself and there are at
      least 200 files. Only then is there ever a second consumer. */
  lemma ScanStartsTheRun(env: Env, s: State)
    requires env.Valid() && Reachable(env, s)
    ensures s.stage.Scan? ==>
              Enabled(env, s, ScanDone) && var t := Apply(env, s, ScanDone);
                && t.ui.totalFiles == |env.items| && t.ui.totalBytes == SumSizes(env.items)
                && t.ui.phase == (if |env.items| == 0 then StateDone else StateCatchingUp)
                && t.stage == (if |env.items| == 0 then Halted
                               else if env.bulk && |env.items| >= 200 then Listing else Running)
    ensures s.stage.Listing? || s.armed + |s.held| >= 2 ==> env.bulk && |env.items| >= 200
  {
    ReachableInv(env, s);
  }
}
