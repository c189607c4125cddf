/** Where the items are. For every way of weighing items, the weight of the scan
    is split exactly between fileChan, the workers, the terminal messages in
    flight and the completion log, in every reachable state. Weighing by 1 counts
    files, by size counts bytes, and by "is this item" finds one item's one place. */
module PoolConservation {
  import opened Arithmetic
  import opened Transfer
  import opened Reducer
  import opened WorkerPool
  import opened PoolInvariants
  import opened Sums

  type Weight = Item -> nat

  // ---- weights of the parts ----

  function ItemsWeight(items: seq<Item>, wt: Weight): nat {
    if items == [] then 0 else wt(items[0]) + ItemsWeight(items[1..], wt)
  }

  /** A finished item still on its way to Update, if worker w sent it. */
  function MsgWeight(m: Msg, w: nat, wt: Weight): nat {
    if m.StatusMsg? && m.worker == w && Terminal(m.status) then wt(m.item) else 0
  }

  function PendingWeight(msgs: seq<Msg>, w: nat, wt: Weight): nat {
    if msgs == [] then 0
    else PendingWeight(msgs[..|msgs| - 1], w, wt) + MsgWeight(msgs[|msgs| - 1], w, wt)
  }

  function HeldWeight(env: Env, pc: Pc, wt: Weight): nat {
    if HoldsItem(pc) && pc.i < |env.items| then wt(env.items[pc.i]) else 0
  }

  function Load(env: Env, s: State, w: nat, wt: Weight): nat {
    if w < |s.pcs| then HeldWeight(env, s.pcs[w], wt) + PendingWeight(Pending(s), w, wt) else 0
  }

  function LoadOf(env: Env, s: State, wt: Weight): nat -> int {
    (w: nat) => Load(env, s, w, wt)
  }

  function OnItem(wt: Weight): (Status, Item) -> nat {
    (s: Status, it: Item) => wt(it)
  }

  ghost predicate Conserved(env: Env, s: State, wt: Weight) {
    && s.next <= |env.items|
    && ItemsWeight(env.items, wt)
       == ItemsWeight(env.items[s.next..], wt) + SumTo(LoadOf(env, s, wt), env.jobs) + LogWeight(s.ui.log, OnItem(wt))
  }

  // ---- sequences of messages ----

  lemma PendingAppend(msgs: seq<Msg>, m: Msg, w: nat, wt: Weight)
    ensures PendingWeight(msgs + [m], w, wt) == PendingWeight(msgs, w, wt) + MsgWeight(m, w, wt)
  {
    assert (msgs + [m])[..|msgs|] == msgs;
  }

  lemma {:induction false} PendingRemove(msgs: seq<Msg>, k: nat, w: nat, wt: Weight)
    requires k < |msgs|
    ensures PendingWeight(msgs, w, wt) == PendingWeight(msgs[..k] + msgs[k + 1..], w, wt) + MsgWeight(msgs[k], w, wt)
  {
    var last := |msgs| - 1;
    if k == last {
      assert msgs[..k] + msgs[k + 1..] == msgs[..last];
    } else {
      PendingRemove(msgs[..last], k, w, wt);
      assert msgs[..k] + msgs[k + 1..] == (msgs[..last][..k] + msgs[..last][k + 1..]) + [msgs[last]];
      PendingAppend(msgs[..last][..k] + msgs[..last][k + 1..], msgs[last], w, wt);
    }
  }

  // ---- how each kind of step moves weight ----

  lemma PendingAfterDeliver(s: State, k: nat, t: State)
    requires k < |s.held| && t.held == s.held[..k] + s.held[k + 1..] && t.queue == s.queue
    ensures Pending(t) == Pending(s)[..k] + Pending(s)[k + 1..] && Pending(s)[k] == s.held[k]
  {}

  function EmittedWeight(msgs: seq<Msg>, w: nat, wt: Weight): nat {
    if msgs == [] then 0 else MsgWeight(msgs[0], w, wt)
  }

  lemma PendingAfterWorker(env: Env, s: State, a: Action, w: nat, wt: Weight)
    requires IsWorkerAction(a) && WorkerEnabled(env, s, a)
    ensures PendingWeight(Pending(WorkerStep(env, s, a)), w, wt)
            == PendingWeight(Pending(s), w, wt) + EmittedWeight(Emits(env, s, a), w, wt)
    ensures w != a.w ==> EmittedWeight(Emits(env, s, a), w, wt) == 0
  {
    var t := WorkerStep(env, s, a);
    var e := Emits(env, s, a);
    if e == [] {
      assert Pending(t) == Pending(s);
    } else {
      assert Pending(t) == Pending(s) + [e[0]];
      PendingAppend(Pending(s), e[0], w, wt);
    }
  }

  /** What a step takes out of fileChan. */
  function Taken(env: Env, s: State, a: Action, wt: Weight): nat {
    if a.Take? && s.next < |env.items| then wt(env.items[s.next]) else 0
  }

  /** A worker only passes weight on: from fileChan to itself, from itself to a
      terminal message. */
  lemma WorkerLocal(env: Env, s: State, a: Action, wt: Weight)
    requires env.Valid() && Shape(env, s) && IsWorkerAction(a) && WorkerEnabled(env, s, a)
    ensures HeldWeight(env, NextPc(env, s, a), wt) + EmittedWeight(Emits(env, s, a), a.w, wt)
            == HeldWeight(env, s.pcs[a.w], wt) + Taken(env, s, a, wt)
  {
    assert PcOk(env, s, s.pcs[a.w]);
  }

  lemma WorkerLoads(env: Env, s: State, a: Action, wt: Weight)
    requires env.Valid() && Shape(env, s) && IsWorkerAction(a) && WorkerEnabled(env, s, a)
    ensures SumTo(LoadOf(env, WorkerStep(env, s, a), wt), env.jobs)
            == SumTo(LoadOf(env, s, wt), env.jobs) + Taken(env, s, a, wt)
  {
    var t := WorkerStep(env, s, a);
    forall w: nat | w < env.jobs && w != a.w ensures LoadOf(env, s, wt)(w) == LoadOf(env, t, wt)(w) {
      PendingAfterWorker(env, s, a, w, wt);
    }
    SumPointUpdate(LoadOf(env, s, wt), LoadOf(env, t, wt), env.jobs, a.w);
    PendingAfterWorker(env, s, a, a.w, wt);
    WorkerLocal(env, s, a, wt);
  }

  lemma WorkerQueue(env: Env, s: State, a: Action, wt: Weight)
    requires s.next <= |env.items| && IsWorkerAction(a) && WorkerEnabled(env, s, a)
    ensures var t := WorkerStep(env, s, a);
            && t.next <= |env.items| && t.ui == s.ui
            && ItemsWeight(env.items[s.next..], wt) == ItemsWeight(env.items[t.next..], wt) + Taken(env, s, a, wt)
  {
    if a.Take? && s.next < |env.items| {
      assert env.items[s.next..][1..] == env.items[s.next + 1..];
    }
  }

  lemma WorkerConserves(env: Env, s: State, a: Action, wt: Weight)
    requires env.Valid() && Shape(env, s) && Conserved(env, s, wt) && IsWorkerAction(a) && WorkerEnabled(env, s, a)
    ensures Conserved(env, WorkerStep(env, s, a), wt)
  {
    WorkerLoads(env, s, a, wt);
    WorkerQueue(env, s, a, wt);
  }

  lemma DeliverConserves(env: Env, s: State, k: nat, wt: Weight)
    requires env.Valid() && Shape(env, s) && MessagesOk(env, s) && Conserved(env, s, wt) && k < |s.held|
    ensures Conserved(env, Apply(env, s, Deliver(k)), wt)
  {
    var t := Apply(env, s, Deliver(k));
    var m := s.held[k];
    assert MsgOk(env, m);
    ReduceFrame(s.ui, m);
    PendingAfterDeliver(s, k, t);
    forall w: nat | w < env.jobs
      ensures Load(env, s, w, wt) == Load(env, t, w, wt) + MsgWeight(m, w, wt)
    {
      PendingRemove(Pending(s), k, w, wt);
    }
    if m.StatusMsg? {
      SumPointUpdate(LoadOf(env, s, wt), LoadOf(env, t, wt), env.jobs, m.worker);
      CountedLog(s.ui, m, wt);
    } else {
      SumSame(LoadOf(env, s, wt), LoadOf(env, t, wt), env.jobs);
    }
  }

  lemma CountedLog(ui: Ui, m: Msg, wt: Weight)
    requires m.StatusMsg? && m.worker < |ui.slots|
    ensures LogWeight(Reduce(ui, m).log, OnItem(wt))
            == LogWeight(ui.log, OnItem(wt)) + MsgWeight(m, m.worker, wt)
  {
    if Terminal(m.status) {
      LogWeightAppend(ui.log, Record(m.worker, m.status, m.item), OnItem(wt));
    }
  }

  lemma OtherFrame(env: Env, s: State, a: Action)
    requires Enabled(env, s, a) && !IsWorkerAction(a) && !a.Deliver?
    ensures var t := Apply(env, s, a);
            && t.pcs == s.pcs && t.next == s.next && t.ui.log == s.ui.log
            && (Pending(t) == Pending(s) || (exists n :: Pending(t) == Pending(s) + [BulkStatProgressMsg(n)]))
  {
    var t := Apply(env, s, a);
    if a.ListProgress? && |s.queue| < env.capacity {
      assert Pending(t) == Pending(s) + [BulkStatProgressMsg(a.found)];
    } else {
      assert Pending(t) == Pending(s);
    }
  }

  lemma OtherConserves(env: Env, s: State, a: Action, wt: Weight)
    requires Conserved(env, s, wt) && Enabled(env, s, a) && !IsWorkerAction(a) && !a.Deliver?
    ensures Conserved(env, Apply(env, s, a), wt)
  {
    var t := Apply(env, s, a);
    OtherFrame(env, s, a);
    forall w: nat | w < env.jobs ensures LoadOf(env, t, wt)(w) == LoadOf(env, s, wt)(w) {
      if Pending(t) != Pending(s) {
        var n :| Pending(t) == Pending(s) + [BulkStatProgressMsg(n)];
        PendingAppend(Pending(s), BulkStatProgressMsg(n), w, wt);
      }
    }
    SumSame(LoadOf(env, s, wt), LoadOf(env, t, wt), env.jobs);
  }

  lemma ConservedStep(env: Env, s: State, a: Action, wt: Weight)
    requires env.Valid() && Inv(env, s) && Conserved(env, s, wt) && Enabled(env, s, a)
    ensures Conserved(env, Apply(env, s, a), wt)
  {
    if IsWorkerAction(a) {
      WorkerConserves(env, s, a, wt);
    } else if a.Deliver? {
      DeliverConserves(env, s, a.k, wt);
    } else {
      OtherConserves(env, s, a, wt);
    }
  }

  lemma ConservedInitial(env: Env, wt: Weight)
    requires env.Valid()
    ensures Conserved(env, Initial(env), wt)
  {
    var s := Initial(env);
    SumBounded(LoadOf(env, s, wt), env.jobs, 0);
    SumNonNegative(LoadOf(env, s, wt), env.jobs);
    assert env.items[0..] == env.items;
  }

  lemma {:induction false} ConservedRun(env: Env, s: State, acts: seq<Action>, t: State, wt: Weight)
    requires env.Valid() && Inv(env, s) && Conserved(env, s, wt) && RunsTo(env, s, acts, t)
    ensures Conserved(env, t, wt)
    decreases |acts|
  {
    if acts != [] {
      InvStep(env, s, acts[0]);
      ConservedStep(env, s, acts[0], wt);
      ConservedRun(env, Apply(env, s, acts[0]), acts[1..], t, wt);
    }
  }

  lemma ReachableConserved(env: Env, t: State, wt: Weight)
    requires env.Valid() && Reachable(env, t)
    ensures Conserved(env, t, wt)
  {
    var acts :| RunsTo(env, Initial(env), acts, t);
    InvInitial(env);
    ConservedInitial(env, wt);
    ConservedRun(env, Initial(env), acts, t, wt);
  }

  // ---- what it means ----

  function One(): Weight { (it: Item) => 1 }
  function Size(): Weight { (it: Item) => it.size }
  function Is(x: Item): Weight { (it: Item) => OneIf(it == x) }

  lemma {:induction false} WeightOne(items: seq<Item>)
    ensures ItemsWeight(items, One()) == |items|
  {
    if items != [] { WeightOne(items[1..]); }
  }

  lemma {:induction false} WeightSize(items: seq<Item>)
    ensures ItemsWeight(items, Size()) == SumSizes(items)
  {
    if items != [] { WeightSize(items[1..]); }
  }

  lemma {:induction false} LogOne(log: seq<Record>)
    ensures LogWeight(log, OnItem(One())) == |log|
  {
    if log != [] { LogOne(log[..|log| - 1]); }
  }

  lemma {:induction false} WeightAbsent(items: seq<Item>, x: Item)
    requires x !in items
    ensures ItemsWeight(items, Is(x)) == 0
  {
    if items != [] { WeightAbsent(items[1..], x); }
  }

  lemma {:induction false} WeightOfOne(items: seq<Item>, j: nat)
    requires forall i, k :: 0 <= i < k < |items| ==> items[i] != items[k]
    requires j < |items|
    ensures ItemsWeight(items, Is(items[j])) == 1
  {
    if j == 0 {
      WeightAbsent(items[1..], items[0]);
    } else {
      WeightOfOne(items[1..], j - 1);
    }
  }

  // ---- the five places ----

  /** With a worker that will still deal with it; with a worker that returned because of a
      cancellation; in a terminal message on its way to Update. */
  function HeldAt(env: Env, s: State, w: nat, wt: Weight): nat {
    if w < |s.pcs| && !s.pcs[w].Abandoned? then HeldWeight(env, s.pcs[w], wt) else 0
  }

  function AbandonedAt(env: Env, s: State, w: nat, wt: Weight): nat {
    if w < |s.pcs| && s.pcs[w].Abandoned? then HeldWeight(env, s.pcs[w], wt) else 0
  }

  function SentBy(s: State, w: nat, wt: Weight): nat {
    if w < |s.pcs| then PendingWeight(Pending(s), w, wt) else 0
  }

  function HeldOf(env: Env, s: State, wt: Weight): nat -> int { (w: nat) => HeldAt(env, s, w, wt) }
  function AbandonedOf(env: Env, s: State, wt: Weight): nat -> int { (w: nat) => AbandonedAt(env, s, w, wt) }
  function SentOf(s: State, wt: Weight): nat -> int { (w: nat) => SentBy(s, w, wt) }

  lemma {:induction false} LoadSplits(env: Env, s: State, wt: Weight, k: nat)
    ensures SumTo(LoadOf(env, s, wt), k)
            == SumTo(HeldOf(env, s, wt), k) + SumTo(AbandonedOf(env, s, wt), k) + SumTo(SentOf(s, wt), k)
    ensures SumTo(HeldOf(env, s, wt), k) >= 0 && SumTo(AbandonedOf(env, s, wt), k) >= 0 && SumTo(SentOf(s, wt), k) >= 0
  {
    if k != 0 { LoadSplits(env, s, wt, k - 1); }
  }

  /** The weight of fileChan, of the items workers hold, of those they abandoned, of the
      terminal messages in flight, and of the log. */
  ghost function Waiting(env: Env, s: State, wt: Weight): nat
    requires s.next <= |env.items|
  { ItemsWeight(env.items[s.next..], wt) }

  ghost function Held(env: Env, s: State, wt: Weight): int { SumTo(HeldOf(env, s, wt), env.jobs) }

  ghost function Abandoned(env: Env, s: State, wt: Weight): int { SumTo(AbandonedOf(env, s, wt), env.jobs) }

  ghost function InFlight(env: Env, s: State, wt: Weight): int { SumTo(SentOf(s, wt), env.jobs) }

  ghost function Counted(s: State, wt: Weight): nat { LogWeight(s.ui.log, OnItem(wt)) }

  /** Nothing is abandoned without a cancellation. */
  lemma NothingAbandoned(env: Env, s: State, wt: Weight)
    requires Shape(env, s) && !s.ui.cancelled
    ensures Abandoned(env, s, wt) == 0
  {
    forall w: nat | w < env.jobs ensures AbandonedOf(env, s, wt)(w) == 0 {
      assert PcOk(env, s, s.pcs[w]);
    }
    SumBounded(AbandonedOf(env, s, wt), env.jobs, 0);
    LoadSplits(env, s, wt, env.jobs);
  }

  /** For any weight: what was scanned is what waits, is held, was abandoned, is in flight
      and was counted. */
  lemma FivePlaces(env: Env, s: State, wt: Weight)
    requires env.Valid() && Reachable(env, s)
    ensures s.next <= |env.items|
    ensures ItemsWeight(env.items, wt)
            == Waiting(env, s, wt) + Held(env, s, wt) + Abandoned(env, s, wt) + InFlight(env, s, wt) + Counted(s, wt)
    ensures Held(env, s, wt) >= 0 && Abandoned(env, s, wt) >= 0 && InFlight(env, s, wt) >= 0
    ensures !s.ui.cancelled ==> Abandoned(env, s, wt) == 0
  {
    ReachableInv(env, s);
    ReachableConserved(env, s, wt);
    LoadSplits(env, s, wt, env.jobs);
    if !s.ui.cancelled { NothingAbandoned(env, s, wt); }
  }

  /** In every reachable interleaving each scanned item is in exactly one of the five
      places, once; in particular it is never counted twice. */
  lemma OnePlace(env: Env, s: State, j: nat)
    requires env.Valid() && Reachable(env, s) && j < |env.items|
    ensures s.next <= |env.items|
    ensures var x := Is(env.items[j]);
            && Waiting(env, s, x) + Held(env, s, x) + Abandoned(env, s, x) + InFlight(env, s, x) + Counted(s, x) == 1
            && Held(env, s, x) >= 0 && Abandoned(env, s, x) >= 0 && InFlight(env, s, x) >= 0
            && (!s.ui.cancelled ==> Abandoned(env, s, x) == 0)
  {
    FivePlaces(env, s, Is(env.items[j]));
    WeightOfOne(env.items, j);
  }

  /** The file count and byte count of the whole scan, split by place. */
  lemma CountsAndBytes(env: Env, s: State)
    requires env.Valid() && Reachable(env, s)
    ensures s.next <= |env.items|
    ensures |env.items| == |env.items| - s.next + Held(env, s, One()) + Abandoned(env, s, One())
                           + InFlight(env, s, One()) + Finished(s.ui)
    ensures SumSizes(env.items)
            == SumSizes(env.items[s.next..]) + Held(env, s, Size()) + Abandoned(env, s, Size())
               + InFlight(env, s, Size())
               + s.ui.completedBytes + s.ui.skippedBytes + LogWeight(s.ui.log, BytesOf(Error))
    ensures s.ui.uploadedFiles + s.ui.skippedFiles + s.ui.failedFiles <= |env.items|
    ensures s.ui.totalFiles > 0 ==> Finished(s.ui) <= s.ui.totalFiles && s.ui.totalBytes == SumSizes(env.items)
  {
    ReachableInv(env, s);
    FivePlaces(env, s, One());
    FivePlaces(env, s, Size());
    WeightOne(env.items);
    WeightOne(env.items[s.next..]);
    WeightSize(env.items);
    WeightSize(env.items[s.next..]);
    LogOne(s.ui.log);
    TerminalLog(env, s);
    LogBytesSplit(s.ui.log);
  }

  lemma {:induction false} LogBytesSplit(log: seq<Record>)
    requires AllTerminal(log)
    ensures LogWeight(log, OnItem(Size()))
            == LogWeight(log, BytesOf(Done)) + LogWeight(log, BytesOf(Skipped)) + LogWeight(log, BytesOf(Error))
  {
    if log != [] { LogBytesSplit(log[..|log| - 1]); }
  }

  predicate AllTerminal(log: seq<Record>) {
    forall k :: 0 <= k < |log| ==> Terminal(log[k].status)
  }

  lemma TerminalLogStep(env: Env, s: State, a: Action)
    requires AllTerminal(s.ui.log) && Enabled(env, s, a)
    ensures AllTerminal(Apply(env, s, a).ui.log)
  {
    if !a.Deliver? {
      assert Apply(env, s, a).ui.log == s.ui.log;
    }
  }

  /** Only terminal messages reach the log. */
  lemma TerminalLog(env: Env, t: State)
    requires env.Valid() && Reachable(env, t)
    ensures AllTerminal(t.ui.log)
  {
    var acts :| RunsTo(env, Initial(env), acts, t);
    TerminalLogRun(env, Initial(env), acts, t);
  }

  lemma {:induction false} TerminalLogRun(env: Env, s: State, acts: seq<Action>, t: State)
    requires RunsTo(env, s, acts, t) && AllTerminal(s.ui.log)
    ensures AllTerminal(t.ui.log)
    decreases |acts|
  {
    if acts != [] {
      TerminalLogStep(env, s, acts[0]);
      TerminalLogRun(env, Apply(env, s, acts[0]), acts[1..], t);
    }
  }

  /** StateDone is only ever shown when every scanned file has been counted. */
  lemma DoneMeansAllCounted(env: Env, s: State)
    requires env.Valid() && Reachable(env, s) && s.ui.phase.StateDone?
    ensures Finished(s.ui) == |env.items| && |s.ui.log| == |env.items|
    ensures s.next == |env.items|
    ensures forall w: nat :: w < env.jobs ==> Load(env, s, w, One()) == 0
  {
    ReachableInv(env, s);
    CountsAndBytes(env, s);
    LoadSplits(env, s, One(), env.jobs);
    SumNonNegative(LoadOf(env, s, One()), env.jobs);
    forall w: nat | w < env.jobs ensures Load(env, s, w, One()) == 0 {
      assert LoadOf(env, s, One())(w) == Load(env, s, w, One());
    }
  }

  /** While a worker holds an item its whole weight is with that worker: no other has any of
      it, no terminal message about it is in flight, and it is not counted. */
  lemma SoleHolder(env: Env, s: State, w: nat)
    requires env.Valid() && Reachable(env, s) && w < |s.pcs| && HoldsItem(s.pcs[w])
    ensures |s.pcs| == env.jobs && s.pcs[w].i < |env.items|
    ensures var x := Is(env.items[s.pcs[w].i]);
            && (forall v: nat :: v < env.jobs && v != w ==> Load(env, s, v, x) == 0)
            && PendingWeight(Pending(s), w, x) == 0
            && LogWeight(s.ui.log, OnItem(x)) == 0
    ensures forall v: nat :: v < |s.pcs| && v != w && HoldsItem(s.pcs[v]) ==> s.pcs[v].i != s.pcs[w].i
  {
    ReachableInv(env, s);
    assert PcOk(env, s, s.pcs[w]);
    var x := Is(env.items[s.pcs[w].i]);
    var f := LoadOf(env, s, x);
    ReachableConserved(env, s, x);
    WeightOfOne(env.items, s.pcs[w].i);
    SumNonNegative(f, env.jobs);
    assert f(w) >= HeldWeight(env, s.pcs[w], x) == 1;
    forall v: nat | v < env.jobs && v != w ensures Load(env, s, v, x) == 0 {
      SumTwo(f, env.jobs, w, v);
      assert f(v) == Load(env, s, v, x);
    }
    forall v: nat | v < |s.pcs| && v != w && HoldsItem(s.pcs[v]) ensures s.pcs[v].i != s.pcs[w].i {
      assert Load(env, s, v, x) == 0;
    }
  }
}
