/** The per-item path, where one consumer keeps messages in order: each worker's
    stream follows the protocol, so a slot never mixes two files, live progress
    never overruns the total, and StateDone finds the channel empty and every slot
    idle. PoolBulk shows that the second consumer of the bulk path loses this. */
module PoolStreams {
  import opened Transfer
  import opened Reducer
  import opened WorkerPool
  import opened PoolInvariants
  import opened PoolConservation
  import opened Sums

  /** The slot shows this item in this status, with nothing left over from another. */
  predicate Shows(env: Env, slot: Slot, st: Status, item: Item) {
    && slot.status == st
    && slot.file == item.path
    && (if st.Uploading? then slot.total == item.size && (env.honest ==> slot.uploaded <= slot.total)
        else slot.total == 0 && slot.committed == 0 && slot.uploaded == 0 && slot.buffered == 0)
  }

  /** The protocol of one worker's messages: which message may follow which slot. */
  predicate Legal(env: Env, slot: Slot, m: Msg) {
    match m
    case StatusMsg(_, st, item, _) =>
      (match st
       case Idle => false
       case Checking => slot == IDLE_SLOT
       case Queued => Shows(env, slot, Checking, item)
       case Uploading => Shows(env, slot, Checking, item) || Shows(env, slot, Queued, item)
       case Done => Shows(env, slot, Checking, item) || Shows(env, slot, Uploading, item)
       case Skipped => Shows(env, slot, Checking, item)
       case Error => Shows(env, slot, Checking, item) || Shows(env, slot, Uploading, item))
    case ProgressMsg(_, item, _, u, _) =>
      Shows(env, slot, Uploading, item) && (env.honest ==> u <= item.size)
    case BulkStatProgressMsg(_) => true
  }

  predicate From(m: Msg, w: nat) {
    (m.StatusMsg? || m.ProgressMsg?) && m.worker == w
  }

  /** The slot after handling worker w's messages in order, if each is legal. */
  function Replay(env: Env, slot: Slot, msgs: seq<Msg>, w: nat): Option<Slot>
    decreases |msgs|
  {
    if msgs == [] then Some(slot)
    else if !From(msgs[0], w) then Replay(env, slot, msgs[1..], w)
    else if Legal(env, slot, msgs[0]) then Replay(env, ApplySlot(slot, msgs[0]), msgs[1..], w)
    else None
  }

  lemma {:induction false} ReplayAppend(env: Env, slot: Slot, msgs: seq<Msg>, m: Msg, w: nat)
    requires Replay(env, slot, msgs, w).Some?
    ensures Replay(env, slot, msgs + [m], w)
            == var mid := Replay(env, slot, msgs, w).value;
               if !From(m, w) then Some(mid)
               else if Legal(env, mid, m) then Some(ApplySlot(mid, m))
               else None
    decreases |msgs|
  {
    if msgs == [] {
      assert msgs + [m] == [m];
    } else {
      assert (msgs + [m])[1..] == msgs[1..] + [m];
      ReplayAppend(env, if From(msgs[0], w) then ApplySlot(slot, msgs[0]) else slot, msgs[1..], m, w);
    }
  }

  /** What the slot will show once everything the worker sent has been handled. */
  predicate Agrees(env: Env, pc: Pc, slot: Slot) {
    HoldsItem(pc) ==>
      && pc.i < |env.items|
      && var item := env.items[pc.i];
         match pc
         case Got(_) => slot == IDLE_SLOT
         case Deciding(_) => Shows(env, slot, Checking, item)
         case WantSlot(_) => Shows(env, slot, Queued, item)
         case Putting(_, _) => Shows(env, slot, Uploading, item)
         case Releasing(_, _) => Shows(env, slot, Uploading, item)
         case Abandoned(_) => slot == IDLE_SLOT || Shows(env, slot, Queued, item)
         case Sending(_, st) => Legal(env, slot, StatusMsg(0, st, item, 0))
         case _ => true
  }

  /** Worker w's slot on screen, its messages on the way and its control point fit
      together. */
  ghost predicate StreamOk(env: Env, s: State, w: nat)
    requires Shape(env, s) && w < env.jobs
  {
    && Replay(env, s.ui.slots[w], Pending(s), w).Some?
    && var final := Replay(env, s.ui.slots[w], Pending(s), w).value;
       && Agrees(env, s.pcs[w], final)
       && (!HoldsItem(s.pcs[w]) ==> final == IDLE_SLOT)
  }

  ghost predicate InOrder(env: Env, s: State) {
    && Shape(env, s)
    && |s.held| <= 1
    && forall w: nat :: w < env.jobs ==> StreamOk(env, s, w)
  }

  // ---- preservation ----

  lemma WorkerStream(env: Env, s: State, a: Action, w: nat)
    requires env.Valid() && Shape(env, s) && w < env.jobs && StreamOk(env, s, w)
    requires IsWorkerAction(a) && WorkerEnabled(env, s, a)
    requires Shape(env, WorkerStep(env, s, a))
    ensures StreamOk(env, WorkerStep(env, s, a), w)
  {
    var t := WorkerStep(env, s, a);
    var e := Emits(env, s, a);
    assert PcOk(env, s, s.pcs[w]);
    if e == [] {
      assert Pending(t) == Pending(s);
    } else {
      assert Pending(t) == Pending(s) + [e[0]];
      ReplayAppend(env, s.ui.slots[w], Pending(s), e[0], w);
    }
  }

  /** Handling a message changes the sender's slot only. */
  lemma DeliveredSlot(ui: Ui, m: Msg, w: nat)
    requires w < |ui.slots| && ((m.StatusMsg? || m.ProgressMsg?) ==> m.worker < |ui.slots|)
    ensures |Reduce(ui, m).slots| == |ui.slots|
    ensures Reduce(ui, m).slots[w] == if From(m, w) then ApplySlot(ui.slots[w], m) else ui.slots[w]
  {}

  lemma DeliverStream(env: Env, s: State, w: nat)
    requires env.Valid() && Shape(env, s) && MessagesOk(env, s) && w < env.jobs && StreamOk(env, s, w)
    requires |s.held| == 1 && Shape(env, Apply(env, s, Deliver(0)))
    ensures StreamOk(env, Apply(env, s, Deliver(0)), w)
  {
    var t := Apply(env, s, Deliver(0));
    assert MsgOk(env, s.held[0]);
    assert Pending(s)[0] == s.held[0] && Pending(s)[1..] == Pending(t);
    DeliveredSlot(s.ui, s.held[0], w);
    assert Replay(env, t.ui.slots[w], Pending(t), w) == Replay(env, s.ui.slots[w], Pending(s), w);
  }

  lemma OtherStream(env: Env, s: State, a: Action, w: nat)
    requires env.Valid() && Shape(env, s) && w < env.jobs && StreamOk(env, s, w)
    requires Enabled(env, s, a) && !IsWorkerAction(a) && !a.Deliver?
    requires Shape(env, Apply(env, s, a))
    ensures StreamOk(env, Apply(env, s, a), w)
  {
    var t := Apply(env, s, a);
    assert t.pcs == s.pcs && t.ui.slots == s.ui.slots;
    if a.ListProgress? && |s.queue| < env.capacity {
      assert Pending(t) == Pending(s) + [BulkStatProgressMsg(a.found)];
      ReplayAppend(env, s.ui.slots[w], Pending(s), BulkStatProgressMsg(a.found), w);
    } else {
      assert Pending(t) == Pending(s);
    }
  }

  lemma StreamStep(env: Env, s: State, a: Action, w: nat)
    requires env.Valid() && Shape(env, s) && MessagesOk(env, s) && |s.held| <= 1
    requires w < env.jobs && StreamOk(env, s, w)
    requires Enabled(env, s, a) && Shape(env, Apply(env, s, a))
    ensures StreamOk(env, Apply(env, s, a), w)
  {
    if IsWorkerAction(a) {
      WorkerStream(env, s, a, w);
    } else if a.Deliver? {
      DeliverStream(env, s, w);
    } else {
      OtherStream(env, s, a, w);
    }
  }

  lemma InOrderStep(env: Env, s: State, a: Action)
    requires env.Valid() && !env.ListsFirst() && Inv(env, s) && InOrder(env, s) && Enabled(env, s, a)
    ensures InOrder(env, Apply(env, s, a))
  {
    InvStep(env, s, a);
    forall w: nat | w < env.jobs ensures StreamOk(env, Apply(env, s, a), w) {
      StreamStep(env, s, a, w);
    }
  }

  lemma {:induction false} InOrderRun(env: Env, s: State, acts: seq<Action>, t: State)
    requires env.Valid() && !env.ListsFirst() && Inv(env, s) && InOrder(env, s) && RunsTo(env, s, acts, t)
    ensures InOrder(env, t)
    decreases |acts|
  {
    if acts != [] {
      InvStep(env, s, acts[0]);
      InOrderStep(env, s, acts[0]);
      InOrderRun(env, Apply(env, s, acts[0]), acts[1..], t);
    }
  }

  /** With one consumer, in every reachable state, every worker's messages arrive in
      protocol order and each concerns the file its slot already shows. */
  lemma StreamsInOrder(env: Env, t: State)
    requires env.Valid() && !env.ListsFirst() && Reachable(env, t)
    ensures InOrder(env, t)
  {
    var acts :| RunsTo(env, Initial(env), acts, t);
    InvInitial(env);
    InOrderRun(env, Initial(env), acts, t);
  }

  /** So the next message Update handles is legal for the slot it changes. */
  lemma DeliveredIsLegal(env: Env, t: State)
    requires env.Valid() && !env.ListsFirst() && Reachable(env, t) && t.held != []
    ensures |t.held| == 1
    ensures var m := t.held[0];
            !m.BulkStatProgressMsg? ==> m.worker < |t.ui.slots| && Legal(env, t.ui.slots[m.worker], m)
  {
    StreamsInOrder(env, t);
    ReachableInv(env, t);
    var m := t.held[0];
    assert MsgOk(env, m);
    if !m.BulkStatProgressMsg? {
      assert StreamOk(env, t, m.worker);
      assert Pending(t)[0] == m;
    }
  }

  // ---- live progress ----

  /** The bytes liveTransferredBytes adds for one slot. */
  function LiveOf(ui: Ui): nat -> int {
    (w: nat) => if w < |ui.slots| && ui.slots[w].status.Uploading? then ui.slots[w].uploaded else 0
  }

  function LiveTransferred(ui: Ui): int {
    ui.completedBytes + SumTo(LiveOf(ui), |ui.slots|)
  }

  predicate Honest(slot: Slot) { slot.status.Uploading? ==> slot.uploaded <= slot.total }

  /** The bytes a slot shows as uploading still await their terminal message. */
  lemma {:induction false} UploadingIsOutstanding(env: Env, slot: Slot, msgs: seq<Msg>, w: nat)
    requires Replay(env, slot, msgs, w).Some? && slot.status.Uploading?
    ensures var final := Replay(env, slot, msgs, w).value;
            slot.total <= Outstanding(msgs, w) + (if final.status.Uploading? then final.total else 0)
    decreases |msgs|
  {
    if msgs != [] {
      if !From(msgs[0], w) {
        UploadingIsOutstanding(env, slot, msgs[1..], w);
      } else if !(msgs[0].StatusMsg? && Terminal(msgs[0].status)) {
        UploadingIsOutstanding(env, ApplySlot(slot, msgs[0]), msgs[1..], w);
      }
    }
  }

  /** PendingWeight by size, read from the front. */
  function Outstanding(msgs: seq<Msg>, w: nat): nat {
    if msgs == [] then 0 else MsgWeight(msgs[0], w, Size()) + Outstanding(msgs[1..], w)
  }

  lemma {:induction false} OutstandingIsPending(msgs: seq<Msg>, w: nat)
    ensures Outstanding(msgs, w) == PendingWeight(msgs, w, Size())
  {
    if msgs != [] {
      OutstandingIsPending(msgs[1..], w);
      PendingRemove(msgs, 0, w, Size());
      assert msgs[..0] + msgs[1..] == msgs[1..];
    }
  }

  ghost predicate HonestSlots(env: Env, s: State) {
    && (forall w: nat :: w < |s.ui.slots| ==> Honest(s.ui.slots[w]))
  }

  lemma LegalKeepsHonest(env: Env, slot: Slot, m: Msg)
    requires env.honest && Honest(slot) && Legal(env, slot, m)
    ensures Honest(ApplySlot(slot, m))
  {}

  lemma HonestDeliver(env: Env, s: State)
    requires env.Valid() && env.honest && Shape(env, s) && MessagesOk(env, s) && InOrder(env, s) && HonestSlots(env, s)
    requires |s.held| == 1
    ensures forall w: nat :: w < |s.ui.slots| ==> Honest(Reduce(s.ui, s.held[0]).slots[w])
  {
    var m := s.held[0];
    assert MsgOk(env, m);
    ReduceFrame(s.ui, m);
    forall w: nat | w < |s.ui.slots| ensures Honest(Reduce(s.ui, m).slots[w]) {
      DeliveredSlot(s.ui, m, w);
      if From(m, w) {
        assert StreamOk(env, s, w) && Pending(s)[0] == m;
        LegalKeepsHonest(env, s.ui.slots[w], m);
      }
    }
  }

  lemma HonestStep(env: Env, s: State, a: Action)
    requires env.Valid() && env.honest && !env.ListsFirst()
    requires Inv(env, s) && InOrder(env, s) && HonestSlots(env, s) && Enabled(env, s, a)
    ensures HonestSlots(env, Apply(env, s, a))
  {
    if a.Deliver? {
      HonestDeliver(env, s);
      ReduceFrame(s.ui, s.held[0]);
    } else {
      assert Apply(env, s, a).ui.slots == s.ui.slots;
    }
  }

  lemma {:induction false} HonestRun(env: Env, s: State, acts: seq<Action>, t: State)
    requires env.Valid() && env.honest && !env.ListsFirst()
    requires Inv(env, s) && InOrder(env, s) && HonestSlots(env, s) && RunsTo(env, s, acts, t)
    ensures HonestSlots(env, t)
    decreases |acts|
  {
    if acts != [] {
      InvStep(env, s, acts[0]);
      InOrderStep(env, s, acts[0]);
      HonestStep(env, s, acts[0]);
      HonestRun(env, Apply(env, s, acts[0]), acts[1..], t);
    }
  }

  lemma LiveWithinLoad(env: Env, s: State, w: nat)
    requires env.Valid() && Shape(env, s) && w < env.jobs && StreamOk(env, s, w) && Honest(s.ui.slots[w])
    ensures LiveOf(s.ui)(w) <= Load(env, s, w, Size())
  {
    var slot := s.ui.slots[w];
    OutstandingIsPending(Pending(s), w);
    if slot.status.Uploading? {
      UploadingIsOutstanding(env, slot, Pending(s), w);
    }
  }

  lemma LiveWithinLoads(env: Env, t: State)
    requires env.Valid() && InOrder(env, t) && HonestSlots(env, t)
    ensures SumTo(LiveOf(t.ui), env.jobs) <= SumTo(LoadOf(env, t, Size()), env.jobs)
  {
    forall w: nat | w < env.jobs ensures LiveOf(t.ui)(w) <= LoadOf(env, t, Size())(w) {
      assert StreamOk(env, t, w);
      LiveWithinLoad(env, t, w);
    }
    SumMonotone(LiveOf(t.ui), LoadOf(env, t, Size()), env.jobs);
  }

  lemma SlotsStayHonest(env: Env, t: State)
    requires env.Valid() && env.honest && !env.ListsFirst() && Reachable(env, t)
    ensures HonestSlots(env, t)
  {
    var acts :| RunsTo(env, Initial(env), acts, t);
    InvInitial(env);
    HonestRun(env, Initial(env), acts, t);
  }

  /** The data bar never overruns: transferred and skipped bytes stay within the
      scanned total, as long as backends report no more than the file holds. */
  lemma LiveBytesBounded(env: Env, t: State)
    requires env.Valid() && env.honest && !env.ListsFirst() && Reachable(env, t)
    requires t.stage.Running?
    ensures LiveTransferred(t.ui) + t.ui.skippedBytes <= t.ui.totalBytes
  {
    SlotsStayHonest(env, t);
    StreamsInOrder(env, t);
    ReachableInv(env, t);
    CountsAndBytes(env, t);
    LoadSplits(env, t, Size(), env.jobs);
    LiveWithinLoads(env, t);
  }

  // ---- the end of a run ----

  predicate NoTerminal(msgs: seq<Msg>, w: nat) {
    forall k :: 0 <= k < |msgs| ==> MsgWeight(msgs[k], w, One()) == 0
  }

  lemma {:induction false} WeightlessHasNoTerminal(msgs: seq<Msg>, w: nat)
    requires PendingWeight(msgs, w, One()) == 0
    ensures NoTerminal(msgs, w)
  {
    if msgs != [] { WeightlessHasNoTerminal(msgs[..|msgs| - 1], w); }
  }

  /** Only a terminal message makes a slot idle again. */
  lemma {:induction false} BusyStaysBusy(env: Env, slot: Slot, msgs: seq<Msg>, w: nat)
    requires slot.status != Idle && NoTerminal(msgs, w) && Replay(env, slot, msgs, w).Some?
    ensures Replay(env, slot, msgs, w).value.status != Idle
    decreases |msgs|
  {
    if msgs != [] {
      assert MsgWeight(msgs[0], w, One()) == 0;
      BusyStaysBusy(env, if From(msgs[0], w) then ApplySlot(slot, msgs[0]) else slot, msgs[1..], w);
    }
  }

  /** A worker left idle by messages without a terminal has no message on the way. */
  lemma {:induction false} NothingPending(env: Env, slot: Slot, msgs: seq<Msg>, w: nat)
    requires Replay(env, slot, msgs, w) == Some(IDLE_SLOT) && NoTerminal(msgs, w)
    ensures slot == IDLE_SLOT
    ensures forall k :: 0 <= k < |msgs| ==> !From(msgs[k], w)
  {
    if slot.status != Idle {
      BusyStaysBusy(env, slot, msgs, w);
    } else if msgs != [] {
      if From(msgs[0], w) {
        assert MsgWeight(msgs[0], w, One()) == 0;
        BusyStaysBusy(env, ApplySlot(slot, msgs[0]), msgs[1..], w);
      } else {
        NothingPending(env, slot, msgs[1..], w);
      }
    }
  }

  ghost predicate Silent(s: State, w: nat) {
    forall k :: 0 <= k < |Pending(s)| ==> !From(Pending(s)[k], w)
  }

  lemma SenderOf(env: Env, s: State) returns (w: nat)
    requires MessagesOk(env, s) && !env.ListsFirst() && Pending(s) != []
    ensures w < env.jobs && !Silent(s, w)
  {
    var m := Pending(s)[0];
    assert MsgOk(env, m);
    w := m.worker;
    assert From(Pending(s)[0], w);
  }

  /** At StateDone nothing is left in the channel or in Update's hands, and every
      worker slot is idle and zeroed. */
  lemma DoneIsQuiet(env: Env, t: State)
    requires env.Valid() && !env.ListsFirst() && Reachable(env, t)
    requires t.ui.phase.StateDone? && t.stage.Running?
    ensures t.queue == [] && t.held == []
    ensures |t.ui.slots| == env.jobs && |t.pcs| == env.jobs
    ensures forall w: nat :: w < env.jobs ==> t.ui.slots[w] == IDLE_SLOT
    ensures forall w: nat :: w < env.jobs ==> t.pcs[w].AtRange? || t.pcs[w].Exited?
    ensures t.sem == 0
  {
    StreamsInOrder(env, t);
    ReachableInv(env, t);
    DoneMeansAllCounted(env, t);
    forall w: nat | w < env.jobs
      ensures t.ui.slots[w] == IDLE_SLOT && !HoldsItem(t.pcs[w])
      ensures Silent(t, w)
    {
      assert StreamOk(env, t, w) && PcOk(env, t, t.pcs[w]);
      assert Load(env, t, w, One()) == 0;
      WeightlessHasNoTerminal(Pending(t), w);
      NothingPending(env, t.ui.slots[w], Pending(t), w);
    }
    if Pending(t) != [] {
      var w := SenderOf(env, t);
    }
    assert |Pending(t)| == |t.held| + |t.queue|;
    SumBounded(SlotHolder(env, t), env.jobs, 0);
    SumNonNegative(SlotHolder(env, t), env.jobs);
  }
}
