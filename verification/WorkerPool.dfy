/** The worker pool of ui/update.go as a transition system. One action is one
    atomic step of a worker goroutine, of a waitForMsgCmd consumer, of the event
    loop, or of the user; any interleaving of actions is a run. */
module WorkerPool {
  import opened Transfer
  import opened Reducer

  // bulkStatThreshold of ui/update.go
  const BULK_STAT_THRESHOLD := 200

  /** What is fixed for a run. `bulk`: the destination can list itself. `honest`:
      the backend never reports more uploaded bytes than the item holds. */
  datatype Env = Env(
    items: seq<Item>,
    jobs: nat,
    uploadJobs: int,
    dryRun: bool,
    verifyOnly: bool,
    capacity: nat,
    bulk: bool,
    honest: bool)
  {
    ghost predicate Valid() {
      && jobs >= 1
      && capacity >= 1
      && forall i, j :: 0 <= i < j < |items| ==> items[i].path != items[j].path
    }

    /** uploadSem is made only when it would limit anything. */
    predicate HasSem() { 0 < uploadJobs < jobs }

    /** The run lists the destination first, and so arms a second consumer. */
    predicate ListsFirst() { bulk && |items| >= BULK_STAT_THRESHOLD }
  }

  /** Where a worker goroutine stands; i is the index of the item it holds. */
  datatype Pc =
    | AtRange                          // about to receive from fileChan
    | Got(i: nat)                      // before the ctx.Err check and gate.wait
    | Sending(i: nat, status: Status)  // blocked in a WorkerStatusMsg send
    | Deciding(i: nat)                 // consulting the listing or dest.Stat
    | WantSlot(i: nat)                 // in the select on uploadSem and ctx.Done
    | Putting(i: nat, callbacks: nat)  // in Open and Put, progress calls left
    | Releasing(i: nat, ok: bool)      // about to give the transfer slot back
    | Exited                           // fileChan was drained
    | Abandoned(i: nat)                // returned because of the cancellation

  datatype Stage = Scan | Listing | Running | Halted

  datatype State = State(
    stage: Stage,
    next: nat,          // items[next..] are still in fileChan
    pcs: seq<Pc>,
    sem: nat,           // tokens in uploadSem
    queue: seq<Msg>,    // MsgChan
    armed: nat,         // waitForMsgCmd calls blocked on the channel
    held: seq<Msg>,     // received, not yet handled by Update
    ui: Ui)

  datatype Action =
    | ScanDone
    | ScanFails
    | ListProgress(found: nat)
    | ListDone
    | Take(w: nat)
    | PassGate(w: nat)
    | GiveUp(w: nat)
    | Send(w: nat, callbacks: nat)
    | Decide(w: nat, answer: Stat)
    | Acquire(w: nat)
    | Callback(w: nat, committed: nat, uploaded: nat, buffered: nat)
    | PutReturns(w: nat, ok: bool)
    | Release(w: nat)
    | Receive
    | Deliver(k: nat)
    | Pause
    | Quit

  function Initial(env: Env): State {
    State(Scan, 0, seq(env.jobs, _ => AtRange), 0, [], 1, [], InitialUi(env.jobs))
  }

  function SumSizes(items: seq<Item>): nat {
    if items == [] then 0 else items[0].size + SumSizes(items[1..])
  }

  // ---- one worker's own control flow ----

  predicate IsWorkerAction(a: Action) {
    a.Take? || a.PassGate? || a.GiveUp? || a.Send? || a.Decide? || a.Acquire? || a.Callback? ||
    a.PutReturns? || a.Release?
  }

  predicate IsPoolAction(a: Action) {
    IsWorkerAction(a) || a.Receive? || a.Deliver?
  }

  /** After the destination answered: skip, report, or go on to transfer. */
  function AfterDecision(env: Env, i: nat, answer: Stat): Pc
    requires i < |env.items|
  {
    if Skips(answer, env.items[i].size) then Sending(i, Skipped)
    else if env.verifyOnly then Sending(i, Error)
    else if env.dryRun then Sending(i, Done)
    else if env.HasSem() then Sending(i, Queued)
    else Sending(i, Uploading)
  }

  function AfterSend(i: nat, st: Status, callbacks: nat): Pc {
    match st
    case Checking => Deciding(i)
    case Queued => WantSlot(i)
    case Uploading => Putting(i, callbacks)
    case _ => AtRange
  }

  function Outcome(i: nat, ok: bool): Pc {
    Sending(i, if ok then Done else Error)
  }

  predicate WorkerEnabled(env: Env, s: State, a: Action)
    requires IsWorkerAction(a)
  {
    && s.stage.Running?
    && a.w < |s.pcs|
    && var pc := s.pcs[a.w];
       match a
       case Take(_) => pc.AtRange?
       case PassGate(_) => pc.Got? && !s.ui.cancelled && !s.ui.gatePaused
       case GiveUp(_) => (pc.Got? || pc.WantSlot?) && s.ui.cancelled
       case Send(_, _) => pc.Sending? && pc.i < |env.items| && |s.queue| < env.capacity
       case Decide(_, _) => pc.Deciding? && pc.i < |env.items|
       case Acquire(_) => pc.WantSlot? && s.sem < env.uploadJobs
       case Callback(_, _, u, _) =>
         && pc.Putting? && pc.callbacks > 0 && pc.i < |env.items|
         && (env.honest ==> u <= env.items[pc.i].size)
       case PutReturns(_, _) => pc.Putting?
       case Release(_) => pc.Releasing? && s.sem > 0
  }

  /** The worker's next control point. */
  function NextPc(env: Env, s: State, a: Action): Pc
    requires IsWorkerAction(a) && WorkerEnabled(env, s, a)
  {
    var pc := s.pcs[a.w];
    match a
    case Take(_) => if s.next < |env.items| then Got(s.next) else Exited
    case PassGate(_) => Sending(pc.i, Checking)
    case GiveUp(_) => Abandoned(pc.i)
    case Send(_, callbacks) => AfterSend(pc.i, pc.status, callbacks)
    case Decide(_, answer) => AfterDecision(env, pc.i, answer)
    case Acquire(_) => Sending(pc.i, Uploading)
    case Callback(_, _, _, _) => Putting(pc.i, pc.callbacks - 1)
    case PutReturns(_, ok) => if env.HasSem() then Releasing(pc.i, ok) else Outcome(pc.i, ok)
    case Release(_) => Outcome(pc.i, pc.ok)
  }

  /** What the step puts on MsgChan: a status send, or a progress report if there
      is room for it. */
  function Emits(env: Env, s: State, a: Action): seq<Msg>
    requires IsWorkerAction(a) && WorkerEnabled(env, s, a)
  {
    var pc := s.pcs[a.w];
    match a
    case Send(w, _) => [StatusMsg(w, pc.status, env.items[pc.i], if pc.status.Checking? then pc.i else 0)]
    case Callback(w, c, u, b) => if |s.queue| < env.capacity then [ProgressMsg(w, env.items[pc.i], c, u, b)] else []
    case _ => []
  }

  function WorkerStep(env: Env, s: State, a: Action): State
    requires IsWorkerAction(a) && WorkerEnabled(env, s, a)
  {
    s.(pcs := s.pcs[a.w := NextPc(env, s, a)],
       queue := s.queue + Emits(env, s, a),
       next := if a.Take? && s.next < |env.items| then s.next + 1 else s.next,
       sem := if a.Acquire? then s.sem + 1 else if a.Release? then s.sem - 1 else s.sem)
  }

  // ---- every action ----

  predicate Enabled(env: Env, s: State, a: Action) {
    match a
    case ScanDone => s.stage.Scan?
    case ScanFails => s.stage.Scan?
    case ListProgress(_) => s.stage.Listing?
    case ListDone => s.stage.Listing?
    case Receive => s.armed > 0 && s.queue != []
    case Deliver(k) => k < |s.held|
    case Pause => true
    case Quit => true
    case _ => WorkerEnabled(env, s, a)
  }

  function Apply(env: Env, s: State, a: Action): State
    requires Enabled(env, s, a)
  {
    match a
    case ScanDone =>
      s.(ui := ScanComplete(s.ui, env.items, SumSizes(env.items)),
         stage := if |env.items| == 0 then Halted else if env.ListsFirst() then Listing else Running)
    case ScanFails => s.(ui := ScanFailed(s.ui), stage := Halted)
    case ListProgress(found) =>
      if |s.queue| < env.capacity then s.(queue := s.queue + [BulkStatProgressMsg(found)]) else s
    case ListDone => s.(stage := Running, armed := s.armed + 1)
    case Receive => s.(armed := s.armed - 1, held := s.held + [s.queue[0]], queue := s.queue[1..])
    case Deliver(k) =>
      s.(ui := Reduce(s.ui, s.held[k]),
         held := s.held[..k] + s.held[k + 1..],
         armed := if Rearms(s.ui, s.held[k]) then s.armed + 1 else s.armed)
    case Pause => s.(ui := PressPause(s.ui))
    case Quit => s.(ui := PressQuit(s.ui))
    case _ => WorkerStep(env, s, a)
  }

  /** Messages sent and not yet handled, oldest first when there is one consumer. */
  function Pending(s: State): seq<Msg> { s.held + s.queue }

  // ---- runs ----

  /** The state after a list of actions, when each is enabled in its turn. */
  ghost predicate RunsTo(env: Env, s: State, acts: seq<Action>, t: State)
    decreases |acts|
  {
    if acts == [] then s == t
    else Enabled(env, s, acts[0]) && RunsTo(env, Apply(env, s, acts[0]), acts[1..], t)
  }

  ghost predicate Reachable(env: Env, t: State) {
    exists acts :: RunsTo(env, Initial(env), acts, t)
  }

  lemma {:induction false} RunsAppend(env: Env, s: State, acts: seq<Action>, t: State, a: Action)
    requires RunsTo(env, s, acts, t) && Enabled(env, t, a)
    ensures RunsTo(env, s, acts + [a], Apply(env, t, a))
    decreases |acts|
  {
    if acts == [] {
      assert acts + [a] == [a];
      assert RunsTo(env, Apply(env, t, a), [a][1..], Apply(env, t, a));
    } else {
      assert (acts + [a])[1..] == acts[1..] + [a];
      RunsAppend(env, Apply(env, s, acts[0]), acts[1..], t, a);
    }
  }

  lemma ReachStep(env: Env, t: State, a: Action)
    requires Reachable(env, t) && Enabled(env, t, a)
    ensures Reachable(env, Apply(env, t, a))
  {
    var acts :| RunsTo(env, Initial(env), acts, t);
    RunsAppend(env, Initial(env), acts, t, a);
  }
}
