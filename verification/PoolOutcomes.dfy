/** What every reported outcome means, in each mode: a run is followed together with a note
    of what the destination answered about each item and how its Put returned, and the
    status of each item's record is shown to be told by that note, both ways. */
module PoolOutcomes {
  import opened Transfer
  import opened Reducer
  import opened WorkerPool
  import opened PoolInvariants
  import opened PoolConservation

  /** Items, by their place in the scan: found with their own size, not so found, put
      without an error, and put with one. */
  datatype Note = Note(matched: set<nat>, unmatched: set<nat>, stored: set<nat>, failed: set<nat>)
  {
    predicate Decided(i: nat) { i in matched || i in unmatched }

    predicate Returned(i: nat) { i in stored || i in failed }
  }

  const NOTHING := Note({}, {}, {}, {})

  function Noted(env: Env, s: State, a: Action, n: Note): Note {
    if a.Decide? && a.w < |s.pcs| && s.pcs[a.w].Deciding? && s.pcs[a.w].i < |env.items| then
      var i := s.pcs[a.w].i;
      if a.answer.StatAnswer? && a.answer.found && a.answer.size == env.items[i].size
      then n.(matched := n.matched + {i})
      else n.(unmatched := n.unmatched + {i})
    else if a.PutReturns? && a.w < |s.pcs| && s.pcs[a.w].Putting? then
      var i := s.pcs[a.w].i;
      if a.ok then n.(stored := n.stored + {i}) else n.(failed := n.failed + {i})
    else n
  }

  /** A run from s to t, during which the note grows from n to m. */
  ghost predicate NotedRun(env: Env, s: State, n: Note, acts: seq<Action>, t: State, m: Note)
    decreases |acts|
  {
    if acts == [] then s == t && n == m
    else Enabled(env, s, acts[0]) && NotedRun(env, Apply(env, s, acts[0]), Noted(env, s, acts[0], n), acts[1..], t, m)
  }

  // ---- what a status says ----

  predicate Writing(env: Env) { !env.verifyOnly && !env.dryRun }

  /** What must have happened to item i before a worker can report this status of it. */
  predicate StatusTold(env: Env, n: Note, st: Status, i: nat) {
    match st
    case Skipped => i in n.matched
    case Error => if env.verifyOnly then i in n.unmatched else Writing(env) && i in n.unmatched && i in n.failed
    case Done =>
      !env.verifyOnly && i in n.unmatched && (Writing(env) ==> i in n.stored)
    case Queued => Writing(env) && i in n.unmatched
    case Uploading => Writing(env) && i in n.unmatched
    case _ => true
  }

  predicate BeforeDecision(pc: Pc) { pc.Got? || pc.Deciding? || (pc.Sending? && pc.status.Checking?) }

  predicate BeforeReturn(pc: Pc) {
    || BeforeDecision(pc) || pc.WantSlot? || pc.Putting?
    || (pc.Sending? && (pc.status.Queued? || pc.status.Uploading?))
  }

  predicate PcTold(env: Env, n: Note, pc: Pc) {
    && (pc.Sending? ==> StatusTold(env, n, pc.status, pc.i))
    && (pc.WantSlot? || pc.Putting? || pc.Releasing? ==> Writing(env) && pc.i in n.unmatched)
    && (pc.Releasing? ==> if pc.ok then pc.i in n.stored else pc.i in n.failed)
    && (HoldsItem(pc) && BeforeDecision(pc) ==> !n.Decided(pc.i))
    && (HoldsItem(pc) && BeforeReturn(pc) ==> !n.Returned(pc.i))
  }

  ghost predicate AboutItem(env: Env, n: Note, st: Status, x: Item) {
    exists i: nat :: i < |env.items| && env.items[i] == x && StatusTold(env, n, st, i)
  }

  ghost predicate MsgTold(env: Env, n: Note, m: Msg) { m.StatusMsg? ==> AboutItem(env, n, m.status, m.item) }

  /** Nothing is decided or returned twice, nor before it was taken up. */
  predicate NoteOk(s: State, n: Note) {
    && n.matched !! n.unmatched && n.stored !! n.failed
    && n.stored + n.failed <= n.unmatched
    && (forall i :: i in n.matched ==> i < s.next) && (forall i :: i in n.unmatched ==> i < s.next)
  }

  ghost predicate Told(env: Env, s: State, n: Note) {
    && Reachable(env, s) && NoteOk(s, n)
    && (forall w :: 0 <= w < |s.pcs| ==> PcTold(env, n, s.pcs[w]))
    && (forall k :: 0 <= k < |s.held| ==> MsgTold(env, n, s.held[k]))
    && (forall k :: 0 <= k < |s.queue| ==> MsgTold(env, n, s.queue[k]))
    && (forall k :: 0 <= k < |s.ui.log| ==> AboutItem(env, n, s.ui.log[k].status, s.ui.log[k].item))
  }

  // ---- a growing note ----

  predicate Grows(n: Note, m: Note) {
    n.matched <= m.matched && n.unmatched <= m.unmatched && n.stored <= m.stored && n.failed <= m.failed
  }

  lemma AboutGrows(env: Env, n: Note, m: Note, st: Status, x: Item)
    requires Grows(n, m) && AboutItem(env, n, st, x)
    ensures AboutItem(env, m, st, x)
  {
    var i: nat :| i < |env.items| && env.items[i] == x && StatusTold(env, n, st, i);
    assert StatusTold(env, m, st, i);
  }

  /** The destination's answer decides an item that was not decided before, and sends its
      worker where the answer says. */
  lemma DecideTold(env: Env, n: Note, i: nat, answer: Stat, next: nat, m: Note)
    requires i < |env.items| && i < next && !n.Decided(i) && !n.Returned(i)
    requires m == if answer.StatAnswer? && answer.found && answer.size == env.items[i].size
                  then n.(matched := n.matched + {i}) else n.(unmatched := n.unmatched + {i})
    ensures PcTold(env, m, AfterDecision(env, i, answer))
  {}

  /** A Put's return is noted for an item that was not returned before. */
  lemma ReturnTold(env: Env, n: Note, i: nat, ok: bool, m: Note)
    requires Writing(env) && i in n.unmatched
    requires m == if ok then n.(stored := n.stored + {i}) else n.(failed := n.failed + {i})
    ensures PcTold(env, m, Releasing(i, ok)) && PcTold(env, m, Outcome(i, ok))
  {}

  lemma ActingPc(env: Env, s: State, a: Action, n: Note)
    requires env.Valid() && Told(env, s, n) && IsWorkerAction(a) && WorkerEnabled(env, s, a)
    ensures PcTold(env, n, s.pcs[a.w]) && PcOk(env, s, s.pcs[a.w])
  {
    ReachableInv(env, s);
    assert PcTold(env, n, s.pcs[a.w]) && PcOk(env, s, s.pcs[a.w]);
  }

  /** Only the item of the acting worker is noted, and at the right time. */
  lemma NotedOk(env: Env, s: State, a: Action, n: Note, m: Note)
    requires env.Valid() && Told(env, s, n) && IsWorkerAction(a) && WorkerEnabled(env, s, a)
    requires m == Noted(env, s, a, n)
    ensures NoteOk(WorkerStep(env, s, a), m) && Grows(n, m)
  {
    ActingPc(env, s, a, n);
    assert WorkerStep(env, s, a).next >= s.next;
  }

  lemma OwnPcTold(env: Env, s: State, a: Action, n: Note)
    requires env.Valid() && Told(env, s, n) && IsWorkerAction(a) && WorkerEnabled(env, s, a)
    ensures PcTold(env, Noted(env, s, a, n), NextPc(env, s, a))
  {
    ActingPc(env, s, a, n);
    if a.Decide? {
      DecideTold(env, n, s.pcs[a.w].i, a.answer, s.next, Noted(env, s, a, n));
    } else if a.PutReturns? {
      ReturnTold(env, n, s.pcs[a.w].i, a.ok, Noted(env, s, a, n));
    } else {
      StepTold(env, s, a, n);
    }
  }

  lemma StepTold(env: Env, s: State, a: Action, n: Note)
    requires IsWorkerAction(a) && WorkerEnabled(env, s, a) && !a.Decide? && !a.PutReturns?
    requires PcTold(env, n, s.pcs[a.w]) && NoteOk(s, n)
    ensures PcTold(env, n, NextPc(env, s, a))
  {}

  lemma OtherPcTold(env: Env, s: State, a: Action, n: Note, v: nat)
    requires env.Valid() && Told(env, s, n) && IsWorkerAction(a) && WorkerEnabled(env, s, a)
    requires v < |s.pcs| && v != a.w
    ensures PcTold(env, Noted(env, s, a, n), s.pcs[v])
  {
    assert PcTold(env, n, s.pcs[v]);
    if HoldsItem(s.pcs[a.w]) { SoleHolder(env, s, a.w); }
  }

  lemma EmitsTold(env: Env, s: State, a: Action, n: Note)
    requires Told(env, s, n) && IsWorkerAction(a) && WorkerEnabled(env, s, a)
    ensures forall k :: 0 <= k < |Emits(env, s, a)| ==> MsgTold(env, n, Emits(env, s, a)[k])
  {
    assert PcTold(env, n, s.pcs[a.w]);
    if a.Send? { assert env.items[s.pcs[a.w].i] == env.items[s.pcs[a.w].i]; }
  }

  lemma WorkerTold(env: Env, s: State, a: Action, n: Note)
    requires env.Valid() && Told(env, s, n) && IsWorkerAction(a) && WorkerEnabled(env, s, a)
    ensures Told(env, WorkerStep(env, s, a), Noted(env, s, a, n))
  {
    var t, m := WorkerStep(env, s, a), Noted(env, s, a, n);
    ReachStep(env, s, a);
    NotedOk(env, s, a, n, m);
    OwnPcTold(env, s, a, n);
    EmitsTold(env, s, a, n);
    forall v: nat | v < |s.pcs| && v != a.w ensures PcTold(env, m, s.pcs[v]) { OtherPcTold(env, s, a, n, v); }
    forall k: nat | k < |t.held| ensures MsgTold(env, m, t.held[k]) {
      assert MsgTold(env, n, s.held[k]);
      if t.held[k].StatusMsg? { AboutGrows(env, n, m, t.held[k].status, t.held[k].item); }
    }
    forall k: nat | k < |t.queue| ensures MsgTold(env, m, t.queue[k]) {
      assert MsgTold(env, n, t.queue[k]);
      if t.queue[k].StatusMsg? { AboutGrows(env, n, m, t.queue[k].status, t.queue[k].item); }
    }
    forall k: nat | k < |t.ui.log| ensures AboutItem(env, m, t.ui.log[k].status, t.ui.log[k].item) {
      AboutGrows(env, n, m, s.ui.log[k].status, s.ui.log[k].item);
    }
  }

  lemma DeliverTold(env: Env, s: State, k: nat, n: Note)
    requires Told(env, s, n) && k < |s.held|
    ensures Told(env, Apply(env, s, Deliver(k)), n)
  {
    var t := Apply(env, s, Deliver(k));
    ReachStep(env, s, Deliver(k));
    assert MsgTold(env, n, s.held[k]);
    LogTold(env, n, s.ui, s.held[k]);
  }

  lemma LogTold(env: Env, n: Note, ui: Ui, m: Msg)
    requires MsgTold(env, n, m)
    requires forall k :: 0 <= k < |ui.log| ==> AboutItem(env, n, ui.log[k].status, ui.log[k].item)
    ensures var r := Reduce(ui, m); forall k :: 0 <= k < |r.log| ==> AboutItem(env, n, r.log[k].status, r.log[k].item)
  {}

  lemma OtherTold(env: Env, s: State, a: Action, n: Note)
    requires Told(env, s, n) && Enabled(env, s, a) && !IsWorkerAction(a) && !a.Deliver?
    ensures Told(env, Apply(env, s, a), n)
  {
    ReachStep(env, s, a);
    var t := Apply(env, s, a);
    assert t.pcs == s.pcs && t.next == s.next && t.ui.log == s.ui.log;
    forall k: nat | k < |t.held| ensures MsgTold(env, n, t.held[k]) {
      if k < |s.held| { assert t.held[k] == s.held[k]; } else { assert t.held[k] == s.queue[0]; }
    }
    forall k: nat | k < |t.queue| ensures MsgTold(env, n, t.queue[k]) {
      if a.ListProgress? && k == |s.queue| { assert !t.queue[k].StatusMsg?; }
    }
  }

  lemma {:induction false} ToldRun(env: Env, s: State, n: Note, acts: seq<Action>, t: State, m: Note)
    requires env.Valid() && Told(env, s, n) && NotedRun(env, s, n, acts, t, m)
    ensures Told(env, t, m)
    decreases |acts|
  {
    if acts != [] {
      var a := acts[0];
      if IsWorkerAction(a) {
        WorkerTold(env, s, a, n);
      } else if a.Deliver? {
        DeliverTold(env, s, a.k, n);
      } else {
        OtherTold(env, s, a, n);
      }
      ToldRun(env, Apply(env, s, a), Noted(env, s, a, n), acts[1..], t, m);
    }
  }

  // ---- the outcomes ----

  lemma RunTold(env: Env, acts: seq<Action>, t: State, m: Note)
    requires env.Valid() && NotedRun(env, Initial(env), NOTHING, acts, t, m)
    ensures Told(env, t, m)
  {
    assert RunsTo(env, Initial(env), [], Initial(env));
    ToldRun(env, Initial(env), NOTHING, acts, t, m);
  }

  /** In every run and mode, each record is about a scanned item, and its status says what
      happened: Skipped if and only if the destination answered with the item's own size;
      otherwise, verifying, Error; in a dry run, Done; and in a writing run Done if and only
      if its Put succeeded, Error if and only if it failed. */
  lemma RecordsTellOutcomes(env: Env, acts: seq<Action>, t: State, m: Note, k: nat)
    requires env.Valid() && NotedRun(env, Initial(env), NOTHING, acts, t, m) && k < |t.ui.log|
    ensures exists i: nat :: i < |env.items| && env.items[i] == t.ui.log[k].item
              && OutcomeOf(env, m, i, t.ui.log[k].status)
  {
    RunTold(env, acts, t, m);
    TerminalLog(env, t);
    var st := t.ui.log[k].status;
    assert AboutItem(env, m, st, t.ui.log[k].item);
    var i: nat :| i < |env.items| && env.items[i] == t.ui.log[k].item && StatusTold(env, m, st, i);
    assert OutcomeOf(env, m, i, st);
  }

  predicate OutcomeOf(env: Env, m: Note, i: nat, st: Status) {
    && Terminal(st) && m.Decided(i)
    && (st.Skipped? <==> i in m.matched)
    && (env.verifyOnly ==> (st.Error? <==> i in m.unmatched))
    && (!env.verifyOnly && env.dryRun ==> (st.Done? <==> i in m.unmatched))
    && (!env.verifyOnly && !env.dryRun ==> (st.Done? <==> i in m.stored) && (st.Error? <==> i in m.failed))
  }

  /** And nothing is put that the destination was not found to lack. */
  lemma OnlyMissingIsPut(env: Env, acts: seq<Action>, t: State, m: Note, w: nat)
    requires env.Valid() && NotedRun(env, Initial(env), NOTHING, acts, t, m)
    requires w < |t.pcs| && t.pcs[w].Putting?
    ensures t.pcs[w].i in m.unmatched && t.pcs[w].i !in m.matched && !env.verifyOnly && !env.dryRun
  {
    RunTold(env, acts, t, m);
    assert PcTold(env, m, t.pcs[w]);
  }
}
