/** The pool together with the destination it writes to: what a run of the whole program
    leaves behind. The pool's conservation result is what makes it true: nobody else has
    the item that a worker is writing, and at the end every item has been counted. */
module PoolSync {
  import opened Transfer
  import opened Reducer
  import opened WorkerPool
  import opened PoolInvariants
  import opened PoolConservation
  import opened PoolModes
  import opened Sums
  import Bucket
  import FileCopy
  import S3Backend
  import S3Trace
  import SyncRuns

  type Files = SyncRuns.Files

  /** The pool and the stored files. */
  datatype World = World(s: State, d: Files)

  /** A step of the pool, or a write by a worker whose Put is under way. */
  datatype Deed = Acts(a: Action) | Writes(w: nat)

  /** What is fixed: the source, the listing taken before the workers started (if any),
      and the destination at the start. Of the modes only -dry-run is left out, which reports
      as done what it does not do. */
  datatype Setup = Setup(env: Env, src: Files, known: Option<map<string, nat>>, d0: Files)
  {
    ghost predicate Valid() {
      && env.Valid() && (env.dryRun ==> env.verifyOnly)
      && (forall i :: 0 <= i < |env.items| ==>
            env.items[i].path in src && |src[env.items[i].path]| == env.items[i].size)
      && SyncRuns.ExactAtStart(known, src, d0)
      && SyncRuns.NoneDisguised(src, d0)
    }
  }

  function ItemAt(c: Setup, s: State, w: nat): Item
    requires w < |s.pcs| && HoldsItem(s.pcs[w]) && s.pcs[w].i < |c.env.items|
  { c.env.items[s.pcs[w].i] }

  /** The part of a Put by worker w that ends with an error, or succeeds. */
  ghost predicate PutsOn(c: Setup, s: State, w: nat, d: Files, d': Files, err: bool) {
    && w < |s.pcs| && s.pcs[w].Putting? && s.pcs[w].i < |c.env.items|
    && var p := ItemAt(c, s, w).path;
       && p in c.src && SyncRuns.OnlyTouches(d, d', p)
       && PutOutcome(Lookup(d, p), c.src[p], Lookup(d', p), err)
  }

  /** The size query is answered from the listing, or by the destination as it is then. */
  ghost predicate Answers(c: Setup, s: State, d: Files, w: nat, answer: Stat) {
    && w < |s.pcs| && s.pcs[w].Deciding? && s.pcs[w].i < |c.env.items|
    && (answer == SyncRuns.Answer(c.known, d, ItemAt(c, s, w).path) || (c.known.None? && answer.StatError?))
  }

  ghost predicate Happens(c: Setup, x: World, deed: Deed, y: World) {
    match deed
    case Writes(w) => y.s == x.s && PutsOn(c, x.s, w, x.d, y.d, true)
    case Acts(a) =>
      && Enabled(c.env, x.s, a) && y.s == Apply(c.env, x.s, a)
      && (if a.PutReturns? then PutsOn(c, x.s, a.w, x.d, y.d, !a.ok) else y.d == x.d)
      && (a.Decide? ==> Answers(c, x.s, x.d, a.w, a.answer))
  }

  ghost predicate WorldRun(c: Setup, xs: seq<World>, deeds: seq<Deed>) {
    && |xs| == |deeds| + 1
    && xs[0] == World(Initial(c.env), c.d0)
    && forall k :: 0 <= k < |deeds| ==> Happens(c, xs[k], deeds[k], xs[k + 1])
  }

  // ---- every backend's Put is made of such deeds ----

  function WithFile(d: Files, p: string, content: Option<Bytes>): Files {
    if content.Some? then d[p := content.value] else d - {p}
  }

  /** The k-th call of a local or SFTP Put is a write by its worker, in whatever state the
      pool and the other files are by then. */
  lemma CopyCallIsAWrite(c: Setup, x: World, w: nat, before: Option<Bytes>, calls: seq<FileCopy.Call>,
                         reports: seq<nat>, err: bool, k: nat)
    requires w < |x.s.pcs| && x.s.pcs[w].Putting? && x.s.pcs[w].i < |c.env.items|
    requires ItemAt(c, x.s, w).path in c.src && k < |calls|
    requires var p := ItemAt(c, x.s, w).path;
             && FileCopy.PutTrace(before, c.src[p], p, calls, reports, err)
             && Lookup(x.d, p) == FileCopy.Content(before, calls[..k])
    ensures var p := ItemAt(c, x.s, w).path;
            Happens(c, x, Writes(w), World(x.s, WithFile(x.d, p, FileCopy.Content(before, calls[..k + 1]))))
  {
    var p := ItemAt(c, x.s, w).path;
    FileCopy.StepAt(before, c.src[p], calls, k);
  }

  /** In the whole course of an S3 Put of a safe size every call but the last leaves the
      object alone, and the last is such a write. */
  lemma S3CallIsAWrite(c: Setup, x: World, w: nat, before: Option<Bytes>, after: Option<Bytes>,
                       calls: seq<Bucket.Call>, key: string, partSize: nat, cap: nat, err: bool, k: nat)
    requires w < |x.s.pcs| && x.s.pcs[w].Putting? && x.s.pcs[w].i < |c.env.items|
    requires ItemAt(c, x.s, w).path in c.src && partSize > 0 && k < |calls|
    requires var p := ItemAt(c, x.s, w).path;
             && S3Trace.PutTrace(calls, key, c.src[p], partSize, cap, err)
             && after == S3Trace.ObjectAfter(before, calls) && S3Backend.Stores(before, after, c.src[p], err)
             && Lookup(x.d, p) == S3Trace.ObjectAfter(before, calls[..k])
    ensures var p := ItemAt(c, x.s, w).path;
            Happens(c, x, Writes(w), World(x.s, WithFile(x.d, p, S3Trace.ObjectAfter(before, calls[..k + 1]))))
  {
    var src := c.src[ItemAt(c, x.s, w).path];
    if k > 0 { S3Trace.PutStoresLast(calls, key, src, partSize, cap, err, k - 1); }
    if k + 1 < |calls| {
      S3Trace.PutStoresLast(calls, key, src, partSize, cap, err, k);
    } else {
      assert calls[..k + 1] == calls;
    }
  }

  /** And its return is the pool's, with the outcome that its contract promises. */
  lemma PutReturnIsADeed(c: Setup, x: World, w: nat, before: Option<Bytes>, err: bool)
    requires w < |x.s.pcs| && x.s.stage.Running? && x.s.pcs[w].Putting? && x.s.pcs[w].i < |c.env.items|
    requires ItemAt(c, x.s, w).path in c.src
    requires var p := ItemAt(c, x.s, w).path; PutOutcome(before, c.src[p], Lookup(x.d, p), err)
    ensures Happens(c, x, Acts(PutReturns(w, !err)), World(Apply(c.env, x.s, PutReturns(w, !err)), x.d))
  {}

  // ---- nobody else has the item ----

  lemma {:induction false} NoMessageAbout(msgs: seq<Msg>, w: nat, x: Item, k: nat)
    requires PendingWeight(msgs, w, Is(x)) == 0 && k < |msgs|
    ensures MsgWeight(msgs[k], w, Is(x)) == 0
  {
    if k < |msgs| - 1 { NoMessageAbout(msgs[..|msgs| - 1], w, x, k); }
  }

  lemma {:induction false} NoRecordOf(log: seq<Record>, x: Item, k: nat)
    requires LogWeight(log, OnItem(Is(x))) == 0 && k < |log|
    ensures log[k].item != x
  {
    if k < |log| - 1 { NoRecordOf(log[..|log| - 1], x, k); }
  }

  predicate Settles(m: Msg) { m.StatusMsg? && (m.status.Done? || m.status.Skipped?) }

  /** While worker w holds an item no other worker does, no message about its end is on
      its way, and it is not counted. */
  lemma NobodyElse(c: Setup, s: State, w: nat)
    requires c.Valid() && Reachable(c.env, s) && w < |s.pcs| && HoldsItem(s.pcs[w])
    ensures s.pcs[w].i < |c.env.items| && |s.pcs| == c.env.jobs
    ensures forall v: nat :: v < |s.pcs| && v != w && HoldsItem(s.pcs[v]) && s.pcs[v].i < |c.env.items| ==>
              ItemAt(c, s, v) != ItemAt(c, s, w)
    ensures forall k :: 0 <= k < |Pending(s)| && Settles(Pending(s)[k]) ==> Pending(s)[k].item != ItemAt(c, s, w)
    ensures forall k :: 0 <= k < |s.ui.log| ==> s.ui.log[k].item != ItemAt(c, s, w)
  {
    ReachableInv(c.env, s);
    SoleHolder(c.env, s, w);
    var x := ItemAt(c, s, w);
    forall v: nat | v < |s.pcs| && v != w && HoldsItem(s.pcs[v]) && s.pcs[v].i < |c.env.items|
      ensures ItemAt(c, s, v) != x
    {
      assert Load(c.env, s, v, Is(x)) == 0;
    }
    forall k: nat | k < |Pending(s)| && Settles(Pending(s)[k]) ensures Pending(s)[k].item != x {
      var m := Pending(s)[k];
      assert MsgOk(c.env, m);
      assert m.worker != w ==> Load(c.env, s, m.worker, Is(x)) == 0;
      NoMessageAbout(Pending(s), m.worker, x, k);
    }
    forall k: nat | k < |s.ui.log| ensures s.ui.log[k].item != x { NoRecordOf(s.ui.log, x, k); }
  }

  // ---- what holds of the destination ----

  /** The item's file is its source. */
  predicate Holds(c: Setup, d: Files, x: Item) {
    x in c.env.items && x.path in c.src && Lookup(d, x.path) == Some(c.src[x.path])
  }

  /** Its file is as it was when the run started. */
  predicate Untouched(c: Setup, d: Files, x: Item) { Lookup(d, x.path) == Lookup(c.d0, x.path) }

  /** An item about to be reported as there is there; one not decided yet is untouched. */
  ghost predicate PcGood(c: Setup, d: Files, pc: Pc) {
    HoldsItem(pc) && pc.i < |c.env.items| ==>
      && var x := c.env.items[pc.i];
         && (pc.Sending? && (pc.status.Done? || pc.status.Skipped?) ==> Holds(c, d, x))
         && (pc.Releasing? && pc.ok ==> Holds(c, d, x))
         && (pc.Got? || pc.Deciding? || (pc.Sending? && pc.status.Checking?) ==> Untouched(c, d, x))
  }

  ghost predicate MsgGood(c: Setup, d: Files, m: Msg) { Settles(m) ==> Holds(c, d, m.item) }

  ghost predicate RecordGood(c: Setup, d: Files, r: Record) {
    r.status.Done? || r.status.Skipped? ==> Holds(c, d, r.item)
  }

  ghost predicate WorldOk(c: Setup, x: World) {
    && Reachable(c.env, x.s)
    && SyncRuns.NoneDisguised(c.src, x.d)
    && (forall v :: 0 <= v < |x.s.pcs| ==> PcGood(c, x.d, x.s.pcs[v]))
    && (forall k :: 0 <= k < |x.s.held| ==> MsgGood(c, x.d, x.s.held[k]))
    && (forall k :: 0 <= k < |x.s.queue| ==> MsgGood(c, x.d, x.s.queue[k]))
    && (forall k :: 0 <= k < |x.s.ui.log| ==> RecordGood(c, x.d, x.s.ui.log[k]))
    && (forall j :: x.s.next <= j < |c.env.items| ==> Untouched(c, x.d, c.env.items[j]))
  }

  // ---- a write ----

  lemma WriteDisguisesNone(c: Setup, s: State, w: nat, d: Files, d': Files, err: bool)
    requires SyncRuns.NoneDisguised(c.src, d) && PutsOn(c, s, w, d, d', err)
    ensures SyncRuns.NoneDisguised(c.src, d')
  {
    SyncRuns.PutDisguisesNone(c.src, d, ItemAt(c, s, w).path, d', err);
  }

  lemma OthersStay(c: Setup, d: Files, d': Files, x: Item, y: Item)
    requires c.Valid() && x in c.env.items && y in c.env.items && x != y
    requires SyncRuns.OnlyTouches(d, d', x.path)
    ensures Holds(c, d, y) ==> Holds(c, d', y)
    ensures Untouched(c, d, y) ==> Untouched(c, d', y)
  {
    var i :| 0 <= i < |c.env.items| && c.env.items[i] == x;
    var j :| 0 <= j < |c.env.items| && c.env.items[j] == y;
    assert i < j || j < i;
  }

  lemma WriteKeepsPcs(c: Setup, x: World, w: nat, d': Files, err: bool)
    requires c.Valid() && WorldOk(c, x) && PutsOn(c, x.s, w, x.d, d', err)
    ensures forall v :: 0 <= v < |x.s.pcs| ==> PcGood(c, d', x.s.pcs[v])
  {
    var s, it := x.s, ItemAt(c, x.s, w);
    NobodyElse(c, s, w);
    forall v: nat | v < |s.pcs| ensures PcGood(c, d', s.pcs[v]) {
      assert PcGood(c, x.d, s.pcs[v]);
      if v != w && HoldsItem(s.pcs[v]) && s.pcs[v].i < |c.env.items| {
        OthersStay(c, x.d, d', it, ItemAt(c, s, v));
      }
    }
  }

  lemma WriteKeepsMessages(c: Setup, x: World, w: nat, d': Files, err: bool)
    requires c.Valid() && WorldOk(c, x) && PutsOn(c, x.s, w, x.d, d', err)
    ensures forall k :: 0 <= k < |x.s.held| ==> MsgGood(c, d', x.s.held[k])
    ensures forall k :: 0 <= k < |x.s.queue| ==> MsgGood(c, d', x.s.queue[k])
  {
    var s, it := x.s, ItemAt(c, x.s, w);
    NobodyElse(c, s, w);
    forall k: nat | k < |s.held| ensures MsgGood(c, d', s.held[k]) {
      assert MsgGood(c, x.d, s.held[k]) && Pending(s)[k] == s.held[k];
      if Settles(s.held[k]) { OthersStay(c, x.d, d', it, s.held[k].item); }
    }
    forall k: nat | k < |s.queue| ensures MsgGood(c, d', s.queue[k]) {
      assert MsgGood(c, x.d, s.queue[k]) && Pending(s)[|s.held| + k] == s.queue[k];
      if Settles(s.queue[k]) { OthersStay(c, x.d, d', it, s.queue[k].item); }
    }
  }

  /** A write touches nothing that anything else was said about. */
  lemma WriteKeepsWorld(c: Setup, x: World, w: nat, d': Files, err: bool)
    requires c.Valid() && WorldOk(c, x) && PutsOn(c, x.s, w, x.d, d', err)
    ensures WorldOk(c, World(x.s, d'))
  {
    WriteDisguisesNone(c, x.s, w, x.d, d', err);
    WriteKeepsPcs(c, x, w, d', err);
    WriteKeepsMessages(c, x, w, d', err);
    WriteKeepsRest(c, x, w, d');
  }

  lemma WriteKeepsRest(c: Setup, x: World, w: nat, d': Files)
    requires c.Valid() && WorldOk(c, x) && w < |x.s.pcs| && HoldsItem(x.s.pcs[w]) && x.s.pcs[w].i < |c.env.items|
    requires SyncRuns.OnlyTouches(x.d, d', ItemAt(c, x.s, w).path)
    ensures forall k :: 0 <= k < |x.s.ui.log| ==> RecordGood(c, d', x.s.ui.log[k])
    ensures forall j :: x.s.next <= j < |c.env.items| ==> Untouched(c, d', c.env.items[j])
  {
    var s, it := x.s, ItemAt(c, x.s, w);
    NobodyElse(c, s, w);
    ReachableInv(c.env, s);
    assert PcOk(c.env, s, s.pcs[w]);
    forall k: nat | k < |s.ui.log| ensures RecordGood(c, d', s.ui.log[k]) {
      assert RecordGood(c, x.d, s.ui.log[k]);
      if Holds(c, x.d, s.ui.log[k].item) { OthersStay(c, x.d, d', it, s.ui.log[k].item); }
    }
    forall j | s.next <= j < |c.env.items| ensures Untouched(c, d', c.env.items[j]) {
      assert c.env.items[s.pcs[w].i] != c.env.items[j];
      OthersStay(c, x.d, d', it, c.env.items[j]);
    }
  }

  // ---- a step of the pool ----

  /** The deciding worker skips only what is there. */
  lemma SkipIsSound(c: Setup, x: World, w: nat, answer: Stat)
    requires c.Valid() && WorldOk(c, x) && Answers(c, x.s, x.d, w, answer)
    requires Skips(answer, ItemAt(c, x.s, w).size)
    ensures Holds(c, x.d, ItemAt(c, x.s, w))
  {
    var it := ItemAt(c, x.s, w);
    assert PcGood(c, x.d, x.s.pcs[w]);
    assert SyncRuns.Answer(c.known, c.d0, it.path) == StatOf(Lookup(c.d0, it.path));
    SyncRuns.SizeDecidesIff(c.src, x.d, it.path);
  }

  lemma NextPcGood(c: Setup, x: World, a: Action)
    requires c.Valid() && WorldOk(c, x) && IsWorkerAction(a) && WorkerEnabled(c.env, x.s, a)
    requires a.Decide? ==> Answers(c, x.s, x.d, a.w, a.answer)
    requires a.PutReturns? && a.ok ==> x.s.pcs[a.w].i < |c.env.items| ==> Holds(c, x.d, ItemAt(c, x.s, a.w))
    ensures PcGood(c, x.d, NextPc(c.env, x.s, a))
  {
    assert PcGood(c, x.d, x.s.pcs[a.w]);
    if a.Decide? && Skips(a.answer, ItemAt(c, x.s, a.w).size) { SkipIsSound(c, x, a.w, a.answer); }
  }

  lemma EmitsGood(c: Setup, x: World, a: Action)
    requires WorldOk(c, x) && IsWorkerAction(a) && WorkerEnabled(c.env, x.s, a)
    ensures forall k :: 0 <= k < |Emits(c.env, x.s, a)| ==> MsgGood(c, x.d, Emits(c.env, x.s, a)[k])
  {
    assert PcGood(c, x.d, x.s.pcs[a.w]);
  }

  lemma WorkerKeepsWorld(c: Setup, x: World, a: Action)
    requires c.Valid() && WorldOk(c, x) && IsWorkerAction(a) && WorkerEnabled(c.env, x.s, a)
    requires a.Decide? ==> Answers(c, x.s, x.d, a.w, a.answer)
    requires a.PutReturns? && a.ok ==> x.s.pcs[a.w].i < |c.env.items| ==> Holds(c, x.d, ItemAt(c, x.s, a.w))
    ensures WorldOk(c, World(WorkerStep(c.env, x.s, a), x.d))
  {
    ReachStep(c.env, x.s, a);
    NextPcGood(c, x, a);
    EmitsGood(c, x, a);
  }

  lemma OtherKeepsWorld(c: Setup, x: World, a: Action)
    requires WorldOk(c, x) && Enabled(c.env, x.s, a) && !IsWorkerAction(a) && !a.Deliver?
    ensures WorldOk(c, World(Apply(c.env, x.s, a), x.d))
  {
    ReachStep(c.env, x.s, a);
    var t := Apply(c.env, x.s, a);
    assert t.pcs == x.s.pcs && t.next == x.s.next && t.ui.log == x.s.ui.log;
    forall k: nat | k < |t.held| ensures MsgGood(c, x.d, t.held[k]) {
      if k < |x.s.held| { assert t.held[k] == x.s.held[k]; } else { assert t.held[k] == x.s.queue[0]; }
    }
    forall k: nat | k < |t.queue| ensures MsgGood(c, x.d, t.queue[k]) {
      assert MsgGood(c, x.d, BulkStatProgressMsg(0));
    }
  }

  lemma DeliverKeepsWorld(c: Setup, x: World, k: nat)
    requires c.Valid() && WorldOk(c, x) && k < |x.s.held|
    ensures WorldOk(c, World(Apply(c.env, x.s, Deliver(k)), x.d))
  {
    ReachStep(c.env, x.s, Deliver(k));
    assert MsgGood(c, x.d, x.s.held[k]);
    DeliveredLog(c, x.d, x.s.ui, x.s.held[k]);
  }

  lemma DeliveredLog(c: Setup, d: Files, ui: Ui, m: Msg)
    requires MsgGood(c, d, m) && forall k :: 0 <= k < |ui.log| ==> RecordGood(c, d, ui.log[k])
    ensures forall k :: 0 <= k < |Reduce(ui, m).log| ==> RecordGood(c, d, Reduce(ui, m).log[k])
  {}

  lemma DeedKeepsWorld(c: Setup, x: World, deed: Deed, y: World)
    requires c.Valid() && WorldOk(c, x) && Happens(c, x, deed, y)
    ensures WorldOk(c, y)
  {
    if deed.Writes? {
      WriteKeepsWorld(c, x, deed.w, y.d, true);
    } else {
      var a := deed.a;
      if a.PutReturns? {
        WriteKeepsWorld(c, x, a.w, y.d, !a.ok);
        WorkerKeepsWorld(c, World(x.s, y.d), a);
      } else if IsWorkerAction(a) {
        WorkerKeepsWorld(c, x, a);
      } else if a.Deliver? {
        DeliverKeepsWorld(c, x, a.k);
      } else {
        OtherKeepsWorld(c, x, a);
      }
    }
  }

  lemma {:induction false} WorldRunKeeps(c: Setup, xs: seq<World>, deeds: seq<Deed>, k: nat)
    requires c.Valid() && WorldRun(c, xs, deeds) && k <= |deeds|
    ensures WorldOk(c, xs[k])
  {
    if k == 0 {
      assert RunsTo(c.env, Initial(c.env), [], Initial(c.env));
    } else {
      WorldRunKeeps(c, xs, deeds, k - 1);
      assert Happens(c, xs[k - 1], deeds[k - 1], xs[k - 1 + 1]);
      DeedKeepsWorld(c, xs[k - 1], deeds[k - 1], xs[k]);
    }
  }

  // ---- the whole program ----

  /** At every moment of every run: a file counted as uploaded or skipped is equal to its
      source, and no file is disguised; so the next run, after an interruption anywhere,
      starts from a destination it can trust as well. */
  lemma CountedMeansSynced(c: Setup, xs: seq<World>, deeds: seq<Deed>, k: nat)
    requires c.Valid() && WorldRun(c, xs, deeds) && k <= |deeds|
    ensures forall n :: 0 <= n < |xs[k].s.ui.log| ==> RecordGood(c, xs[k].d, xs[k].s.ui.log[n])
    ensures SyncRuns.NoneDisguised(c.src, xs[k].d)
  {
    WorldRunKeeps(c, xs, deeds, k);
  }

  lemma {:induction false} WeightedRecord(log: seq<Record>, x: Item) returns (k: nat)
    requires LogWeight(log, OnItem(Is(x))) > 0
    ensures k < |log| && log[k].item == x
  {
    var last := |log| - 1;
    if log[last].item == x { k := last; } else { k := WeightedRecord(log[..last], x); }
  }

  lemma {:induction false} NoErrorRecord(log: seq<Record>, k: nat)
    requires LogWeight(log, CountOf(Error)) == 0 && k < |log|
    ensures !log[k].status.Error?
  {
    if k < |log| - 1 { NoErrorRecord(log[..|log| - 1], k); }
  }

  lemma {:induction false} PendingBelow(msgs: seq<Msg>, w: nat, x: Item)
    ensures PendingWeight(msgs, w, Is(x)) <= PendingWeight(msgs, w, One())
  {
    if msgs != [] { PendingBelow(msgs[..|msgs| - 1], w, x); }
  }

  lemma NoLoadNoItem(c: Setup, s: State, w: nat, x: Item)
    requires Load(c.env, s, w, One()) == 0
    ensures Load(c.env, s, w, Is(x)) == 0
  {
    PendingBelow(Pending(s), w, x);
  }

  lemma DoneHoldsNothing(c: Setup, s: State, x: Item)
    requires c.Valid() && Reachable(c.env, s) && s.ui.phase.StateDone?
    ensures s.next == |c.env.items| && SumTo(LoadOf(c.env, s, Is(x)), c.env.jobs) <= 0
  {
    DoneMeansAllCounted(c.env, s);
    forall w: nat | w < c.env.jobs ensures LoadOf(c.env, s, Is(x))(w) <= 0 { NoLoadNoItem(c, s, w, x); }
    SumBounded(LoadOf(c.env, s, Is(x)), c.env.jobs, 0);
  }

  /** At StateDone every item is in the log. */
  lemma DoneHasRecord(c: Setup, s: State, j: nat) returns (k: nat)
    requires c.Valid() && Reachable(c.env, s) && s.ui.phase.StateDone? && j < |c.env.items|
    ensures k < |s.ui.log| && s.ui.log[k].item == c.env.items[j]
  {
    var x := c.env.items[j];
    DoneHoldsNothing(c, s, x);
    ReachableConserved(c.env, s, Is(x));
    WeightOfOne(c.env.items, j);
    k := WeightedRecord(s.ui.log, x);
  }

  /** The claim of the program: when it shows Done and no failure, every scanned file is at
      the destination, equal to its source, whatever the workers' interleaving, however
      their Puts were chopped up, and with or without a listing. */
  lemma DoneMeansSynced(c: Setup, xs: seq<World>, deeds: seq<Deed>, k: nat)
    requires c.Valid() && WorldRun(c, xs, deeds) && k <= |deeds|
    requires xs[k].s.ui.phase.StateDone? && xs[k].s.ui.failedFiles == 0
    ensures forall j :: 0 <= j < |c.env.items| ==> Holds(c, xs[k].d, c.env.items[j])
  {
    var x := xs[k];
    WorldRunKeeps(c, xs, deeds, k);
    ReachableInv(c.env, x.s);
    TerminalLog(c.env, x.s);
    forall j: nat | j < |c.env.items| ensures Holds(c, x.d, c.env.items[j]) {
      var n := DoneHasRecord(c, x.s, j);
      NoErrorRecord(x.s.ui.log, n);
      assert RecordGood(c, x.d, x.s.ui.log[n]) && Terminal(x.s.ui.log[n].status);
    }
  }

  /** With -dry-run or -verify-only nothing is ever written, whatever was there. */
  lemma {:induction false} ReadOnlyWritesNothing(c: Setup, xs: seq<World>, deeds: seq<Deed>, k: nat)
    requires c.env.Valid() && ReadOnly(c.env) && WorldRun(c, xs, deeds) && k <= |deeds|
    ensures xs[k].d == c.d0 && Reachable(c.env, xs[k].s)
  {
    if k == 0 {
      assert RunsTo(c.env, Initial(c.env), [], Initial(c.env));
    } else {
      ReadOnlyWritesNothing(c, xs, deeds, k - 1);
      assert Happens(c, xs[k - 1], deeds[k - 1], xs[k - 1 + 1]);
      ReadOnlyNeverTransfers(c.env, xs[k - 1].s);
      if deeds[k - 1].Acts? { ReachStep(c.env, xs[k - 1].s, deeds[k - 1].a); }
    }
  }

  /** A -verify-only run that shows Done and no failure has found every scanned file at the
      destination, equal to its source, and has left the destination alone. */
  lemma VerifiedMeansInPlace(c: Setup, xs: seq<World>, deeds: seq<Deed>, k: nat)
    requires c.Valid() && c.env.verifyOnly && WorldRun(c, xs, deeds) && k <= |deeds|
    requires xs[k].s.ui.phase.StateDone? && xs[k].s.ui.failedFiles == 0
    ensures forall j :: 0 <= j < |c.env.items| ==> Holds(c, c.d0, c.env.items[j])
  {
    ReadOnlyWritesNothing(c, xs, deeds, k);
    DoneMeansSynced(c, xs, deeds, k);
  }
}
