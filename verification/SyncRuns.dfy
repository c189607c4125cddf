/** Whole sync runs over a destination: why the size-only skip of the worker loop is
    sound, when it is not, and why listing the destination first changes nothing. A
    run is a sequence of visits to items; a Put may be interrupted at any write. */
module SyncRuns {
  import opened Transfer
  import Bucket
  import opened S3Backend
  import opened FileCopy

  type Files = map<string, Bytes>

  /** What a worker did with one item. statFailed: the size query returned an error. */
  datatype Visit = Skip(path: string) | Put(path: string, statFailed: bool, err: bool)

  ghost predicate OnlyTouches(before: Files, after: Files, path: string) {
    forall q :: q != path ==> Lookup(after, q) == Lookup(before, q)
  }

  ghost predicate PutStep(src: Files, d: Files, v: Visit, d': Files)
    requires v.Put? && v.path in src
  {
    OnlyTouches(d, d', v.path) && PutOutcome(Lookup(d, v.path), src[v.path], Lookup(d', v.path), v.err)
  }

  /** One visit with a per-item size query. */
  ghost predicate Visits(src: Files, d: Files, v: Visit, d': Files) {
    && v.path in src
    && var skips := Skips(StatOf(Lookup(d, v.path)), |src[v.path]|);
       match v
       case Skip(_) => skips && d' == d
       case Put(_, statFailed, _) => (statFailed || !skips) && PutStep(src, d, v, d')
  }

  ghost predicate Run(src: Files, ds: seq<Files>, vs: seq<Visit>) {
    && |ds| == |vs| + 1
    && forall k :: 0 <= k < |vs| ==> Visits(src, ds[k], vs[k], ds[k + 1])
  }

  // ---- every backend's Put is such a step ----

  /** The contract of the S3 Put on a server where nobody else acts: the object is what it
      was or exactly the source, and no other object changes. */
  lemma S3PutIsAStep(before: Files, after: Files, key: string, src: Bytes, err: bool, others: Bucket.Elsewhere,
                     u: map<nat, Bucket.Upload>, v: map<nat, Bucket.Upload>)
    requires Stores(Lookup(before, key), Lookup(after, key), src, err)
    requires Bucket.AsLeft(others, before, u, key) && Bucket.AsLeft(others, after, v, key)
    ensures OnlyTouches(before, after, key) && PutOutcome(Lookup(before, key), src, Lookup(after, key), err)
  {
    Bucket.AloneLeavesOtherKeys(others, before, u, after, v, key);
  }

  lemma Associative(a: seq<Call>, b: seq<Call>, c: seq<Call>)
    ensures (a + b) + c == a + (b + c)
  {}

  /** What the calls made for one item say of the visit: one size query, whose answer alone
      decides; a skip calls nothing else; a Put is all of one, with its error. */
  ghost predicate ItemCalls(calls: seq<Call>, src: Files, before: Option<Bytes>, v: Visit) {
    && v.path in src && calls != [] && calls[0].Queried? && calls[0].path == v.path
    && var answer := calls[0].answer;
       && (answer.StatAnswer? ==> answer == StatOf(before))
       && match v
          case Skip(_) => Skips(answer, |src[v.path]|) && calls[1..] == []
          case Put(p, statFailed, err) =>
            && !Skips(answer, |src[p]|) && statFailed == answer.StatError?
            && exists reports :: PutTrace(before, src[p], p, calls[1..], reports, err)
  }

  /** What a visit does to its own file. */
  predicate OwnVisit(src: Bytes, before: Option<Bytes>, v: Visit, after: Option<Bytes>) {
    match v
    case Skip(_) => Skips(StatOf(before), |src|) && after == before
    case Put(_, statFailed, err) => (statFailed || !Skips(StatOf(before), |src|)) && PutOutcome(before, src, after, err)
  }

  /** A worker's dealings with one item, on a local or an SFTP destination, while others deal
      with other items between any two of its calls; where nobody does they are a visit. */
  method SyncItem(store: Store, sftp: bool, src: Files, p: string) returns (ghost v: Visit, ghost calls: seq<Call>)
    requires p in src && store.Apart(p)
    modifies store
    ensures v.path == p && OwnVisit(src[p], Lookup(old(store.files), p), v, Lookup(store.files, p))
    ensures store.Onward(p) && (!store.shared ==> Visits(src, old(store.files), v, store.files))
    ensures store.log == old(store.log) + calls && ItemCalls(calls, src, Lookup(old(store.files), p), v)
    ensures Lookup(store.files, p) == Content(Lookup(old(store.files), p), calls[1..])
  {
    var answer;
    ghost var raw;
    store.Others(p);
    if sftp {
      answer, raw := store.SftpStat(p);
    } else {
      answer := store.Stat(p);
      raw := answer;
    }
    calls := [Queried(p, raw)];
    if Skips(answer, |src[p]|) { return Skip(p), calls; }
    var err;
    ghost var more;
    err, more := PutItem(store, sftp, p, src[p]);
    Associative(old(store.log), calls, more);
    calls := calls + more;
    assert calls[1..] == more;
    v := Put(p, raw.StatError?, err);
    if !store.shared { AloneLeavesOtherFiles(store.others, old(store.files), store.files, p); }
  }

  method PutItem(store: Store, sftp: bool, p: string, src: Bytes) returns (err: bool, ghost calls: seq<Call>)
    requires store.Apart(p)
    modifies store
    ensures store.Onward(p) && PutOutcome(Lookup(old(store.files), p), src, Lookup(store.files, p), err)
    ensures Lookup(store.files, p) == Content(Lookup(old(store.files), p), calls)
    ensures store.log == old(store.log) + calls
    ensures exists reports :: PutTrace(Lookup(old(store.files), p), src, p, calls, reports, err)
  {
    var reports;
    if sftp {
      err, reports, calls := store.SftpPut(p, src);
    } else {
      err, reports, calls := store.LocalPut(p, src);
    }
  }

  /** The same of the calls made for a list of items, one after the other. */
  ghost predicate RunCalls(calls: seq<Call>, src: Files, ds: seq<Files>, vs: seq<Visit>)
    requires |ds| == |vs| + 1
    decreases |vs|
  {
    if vs == [] then calls == []
    else
      var m := |vs| - 1;
      exists k :: 0 <= k <= |calls| && RunCalls(calls[..k], src, ds[..m + 1], vs[..m])
                  && ItemCalls(calls[k..], src, Lookup(ds[m], vs[m].path), vs[m])
  }

  lemma RunCallsAppend(calls: seq<Call>, more: seq<Call>, src: Files, ds: seq<Files>, vs: seq<Visit>, v: Visit,
                       d': Files)
    requires |ds| == |vs| + 1
    requires RunCalls(calls, src, ds, vs) && ItemCalls(more, src, Lookup(ds[|vs|], v.path), v)
    ensures RunCalls(calls + more, src, ds + [d'], vs + [v])
  {
    var k := |calls|;
    assert (calls + more)[..k] == calls && (calls + more)[k..] == more;
    assert (ds + [d'])[..|vs| + 1] == ds && (vs + [v])[..|vs|] == vs;
  }

  /** The first n items have been visited, in order, from the destination d0 on. */
  ghost predicate Worked(src: Files, items: seq<string>, n: nat, d0: Files, ds: seq<Files>, vs: seq<Visit>,
                         calls: seq<Call>)
  {
    && Run(src, ds, vs) && ds[0] == d0 && RunCalls(calls, src, ds, vs)
    && |vs| == n <= |items| && forall k :: 0 <= k < n ==> vs[k].path == items[k]
  }

  lemma WorkedNext(src: Files, items: seq<string>, n: nat, d0: Files, ds: seq<Files>, vs: seq<Visit>, calls: seq<Call>,
                   v: Visit, d': Files, more: seq<Call>)
    requires Worked(src, items, n, d0, ds, vs, calls) && n < |items| && v.path == items[n]
    requires Visits(src, ds[n], v, d') && ItemCalls(more, src, Lookup(ds[n], v.path), v)
    ensures Worked(src, items, n + 1, d0, ds + [d'], vs + [v], calls + more)
  {
    RunAppend(src, ds, vs, v, d');
    RunCallsAppend(calls, more, src, ds, vs, v, d');
  }

  /** One worker alone on a list of items: what is proved of runs holds of this code. */
  method SyncItems(store: Store, sftp: bool, src: Files, items: seq<string>)
    returns (ghost ds: seq<Files>, ghost vs: seq<Visit>, ghost calls: seq<Call>)
    requires !store.shared && forall i :: 0 <= i < |items| ==> items[i] in src
    modifies store
    ensures Worked(src, items, |items|, old(store.files), ds, vs, calls)
    ensures ds[|vs|] == store.files && store.log == old(store.log) + calls
  {
    ds, vs, calls := [store.files], [], [];
    for i := 0 to |items|
      invariant Worked(src, items, i, old(store.files), ds, vs, calls)
      invariant ds[|vs|] == store.files && store.log == old(store.log) + calls
    {
      store.others := store.files; // for this item, the other files are as they are now
      ghost var v, more;
      v, more := SyncItem(store, sftp, src, items[i]);
      WorkedNext(src, items, i, old(store.files), ds, vs, calls, v, store.files, more);
      Associative(old(store.log), calls, more);
      ds, vs, calls := ds + [store.files], vs + [v], calls + more;
    }
  }

  // ---- prefixes ----

  /** Every file at the destination is a prefix of its source. */
  ghost predicate AllPrefixes(src: Files, d: Files) {
    forall p :: p in src && p in d ==> d[p] <= src[p]
  }

  lemma {:induction false} PrefixesKept(src: Files, ds: seq<Files>, vs: seq<Visit>)
    requires Run(src, ds, vs) && AllPrefixes(src, ds[0])
    ensures forall k :: 0 <= k < |ds| ==> AllPrefixes(src, ds[k])
  {
    if vs != [] {
      var m := |vs| - 1;
      assert Run(src, ds[..m + 1], vs[..m]);
      PrefixesKept(src, ds[..m + 1], vs[..m]);
      assert AllPrefixes(src, ds[..m + 1][m]);
      LastStepKeepsPrefixes(src, ds[m], vs[m], ds[m + 1]);
      forall k | 0 <= k < |ds| ensures AllPrefixes(src, ds[k]) {
        if k <= m { assert ds[k] == ds[..m + 1][k]; }
      }
    }
  }

  lemma LastStepKeepsPrefixes(src: Files, d: Files, v: Visit, d': Files)
    requires Visits(src, d, v, d') && AllPrefixes(src, d)
    ensures AllPrefixes(src, d')
  {
    forall p | p in src && p in d' ensures d'[p] <= src[p] {
      assert Lookup(d', p) == Some(d'[p]);
    }
  }

  /** Among prefixes, full size means equal content: comparing sizes decides exactly
      what comparing contents would. */
  lemma SizeDecidesContent(src: Files, d: Files, p: string)
    requires AllPrefixes(src, d) && p in src
    ensures Skips(StatOf(Lookup(d, p)), |src[p]|) <==> Lookup(d, p) == Some(src[p])
  {
    if p in d && |d[p]| == |src[p]| {
      assert d[p] == src[p][..|d[p]|] == src[p];
    }
  }

  /** The destination holds a different file of the same size. */
  predicate Disguised(src: Files, d: Files, p: string)
    requires p in src
  {
    p in d && |d[p]| == |src[p]| && d[p] != src[p]
  }

  ghost predicate NoneDisguised(src: Files, d: Files) {
    forall p :: p in src ==> !Disguised(src, d, p)
  }

  /** Comparing sizes decides the same as comparing contents for exactly the files that are
      not disguised; a prefix of the source never is. */
  lemma SizeDecidesIff(src: Files, d: Files, p: string)
    requires p in src
    ensures (Skips(StatOf(Lookup(d, p)), |src[p]|) <==> Lookup(d, p) == Some(src[p])) <==> !Disguised(src, d, p)
    ensures AllPrefixes(src, d) ==> !Disguised(src, d, p)
  {
    if AllPrefixes(src, d) { SizeDecidesContent(src, d, p); }
  }

  /** Nor does a Put, or any part of one, make a file so. */
  lemma PutDisguisesNone(src: Files, d: Files, p: string, d': Files, err: bool)
    requires NoneDisguised(src, d) && p in src && OnlyTouches(d, d', p)
    requires PutOutcome(Lookup(d, p), src[p], Lookup(d', p), err)
    ensures NoneDisguised(src, d')
  {
    forall q | q in src ensures !Disguised(src, d', q) {
      assert !Disguised(src, d, q);
      if q in d' && |d'[q]| == |src[q]| {
        assert Lookup(d', q) == Some(d'[q]);
        assert d'[q] <= src[q] ==> d'[q] == src[q][..|d'[q]|] == src[q];
      }
    }
  }

  lemma StepDisguisesNone(src: Files, d: Files, v: Visit, d': Files)
    requires Visits(src, d, v, d') && NoneDisguised(src, d)
    ensures NoneDisguised(src, d')
  {
    if v.Put? { PutDisguisesNone(src, d, v.path, d', v.err); }
  }

  /** No visit, interrupted at any write or not, disguises a file. */
  lemma {:induction false} NoneDisguisedKept(src: Files, ds: seq<Files>, vs: seq<Visit>, k: nat)
    requires Run(src, ds, vs) && NoneDisguised(src, ds[0]) && k <= |vs|
    ensures NoneDisguised(src, ds[k])
  {
    if k > 0 {
      NoneDisguisedKept(src, ds, vs, k - 1);
      assert Visits(src, ds[k - 1], vs[k - 1], ds[k - 1 + 1]);
      StepDisguisesNone(src, ds[k - 1], vs[k - 1], ds[k]);
    }
  }

  ghost predicate SkipsSound(src: Files, ds: seq<Files>, vs: seq<Visit>)
    requires Run(src, ds, vs)
  {
    forall k :: 0 <= k < |vs| && vs[k].Skip? ==> vs[k].path in src && Lookup(ds[k], vs[k].path) == Some(src[vs[k].path])
  }

  /** So over any number of runs, however their Puts are interrupted, a file is skipped only
      if the destination already equals it, provided no file was disguised at the start. */
  lemma SkipsAreSound(src: Files, ds: seq<Files>, vs: seq<Visit>)
    requires Run(src, ds, vs) && NoneDisguised(src, ds[0])
    ensures SkipsSound(src, ds, vs)
  {
    forall k | 0 <= k < |vs| && vs[k].Skip?
      ensures vs[k].path in src && Lookup(ds[k], vs[k].path) == Some(src[vs[k].path])
    {
      assert Visits(src, ds[k], vs[k], ds[k + 1]);
      NoneDisguisedKept(src, ds, vs, k);
      SizeDecidesIff(src, ds[k], vs[k].path);
    }
  }

  /** And only then: a disguised file is skipped at once. */
  lemma DisguisedIsSkipped(src: Files, d: Files, p: string)
    requires p in src && Disguised(src, d, p)
    ensures Run(src, [d, d], [Skip(p)]) && !SkipsSound(src, [d, d], [Skip(p)])
  {
    var ds, vs := [d, d], [Skip(p)];
    assert Visits(src, ds[0], vs[0], ds[1]);
    assert vs[0].Skip? && Lookup(ds[0], p) != Some(src[p]);
  }

  /** From a given destination every skip of every run is sound if and only if no file is
      disguised there. */
  lemma SkipsAreSoundIff(src: Files, d: Files)
    ensures (forall ds, vs :: Run(src, ds, vs) && ds[0] == d ==> SkipsSound(src, ds, vs)) <==> NoneDisguised(src, d)
  {
    if NoneDisguised(src, d) {
      forall ds, vs | Run(src, ds, vs) && ds[0] == d ensures SkipsSound(src, ds, vs) {
        SkipsAreSound(src, ds, vs);
      }
    } else {
      var p :| p in src && Disguised(src, d, p);
      DisguisedIsSkipped(src, d, p);
      assert [d, d][0] == d;
    }
  }

  /** Such a file, and one that is no prefix of its source and yet is not disguised. */
  lemma DisguisedExample()
    ensures Disguised(map["f" := [1, 2]], map["f" := [3, 4]], "f")
    ensures var src, d := map["f" := [1, 2]], map["f" := [9]]; NoneDisguised(src, d) && !AllPrefixes(src, d)
  {
    var src: Files, d: Files := map["f" := [1, 2]], map["f" := [9]];
    assert "f" in src && "f" in d && d["f"][0] != src["f"][0];
  }

  // ---- workers in parallel ----

  /** What the workers do to the destination, in the order it happens: ask for one item's
      size, or be done with an item that was asked about at event number since. Between
      the two, other workers ask and finish. */
  datatype Event = Asks(path: string, answer: Stat) | Ends(visit: Visit, since: nat)

  predicate EndsPath(e: Event, p: string) { e.Ends? && e.visit.path == p }

  ghost predicate Happens(src: Files, d: Files, es: seq<Event>, k: nat, d': Files)
    requires k < |es|
  {
    match es[k]
    case Asks(p, answer) => d' == d && (answer.StatError? || answer == StatOf(Lookup(d, p)))
    case Ends(v, since) =>
      && v.path in src
      && since < k && es[since].Asks? && es[since].path == v.path
      && (forall i :: since < i < k ==> !EndsPath(es[i], v.path)) // no other worker has the item
      && var skips := Skips(es[since].answer, |src[v.path]|);
         match v
         case Skip(_) => skips && d' == d
         case Put(_, statFailed, _) => !skips && statFailed == es[since].answer.StatError? && PutStep(src, d, v, d')
  }

  ghost predicate ParallelRun(src: Files, ds: seq<Files>, es: seq<Event>) {
    |ds| == |es| + 1 && forall k :: 0 <= k < |es| ==> Happens(src, ds[k], es, k, ds[k + 1])
  }

  /** A file stays as it was while nobody finishes its item. */
  lemma {:induction false} UntouchedStays(src: Files, ds: seq<Files>, es: seq<Event>, j: nat, k: nat, p: string)
    requires ParallelRun(src, ds, es) && j <= k <= |es|
    requires forall i :: j <= i < k ==> !EndsPath(es[i], p)
    ensures Lookup(ds[k], p) == Lookup(ds[j], p)
  {
    if j < k {
      UntouchedStays(src, ds, es, j, k - 1, p);
      assert Happens(src, ds[k - 1], es, k - 1, ds[k]);
    }
  }

  /** So an item ends as if it had been asked about just then. */
  lemma EndIsAVisit(src: Files, ds: seq<Files>, es: seq<Event>, k: nat)
    requires ParallelRun(src, ds, es) && k < |es| && es[k].Ends?
    ensures Visits(src, ds[k], es[k].visit, ds[k + 1])
  {
    assert Happens(src, ds[k], es, k, ds[k + 1]);
    var j := es[k].since;
    assert Happens(src, ds[j], es, j, ds[j + 1]);
    UntouchedStays(src, ds, es, j, k, es[k].visit.path);
  }

  /** The visits in the order in which they end, and the destinations between them. */
  function VisitsOf(es: seq<Event>): seq<Visit> {
    if es == [] then []
    else
      var e := es[|es| - 1];
      VisitsOf(es[..|es| - 1]) + (if e.Ends? then [e.visit] else [])
  }

  function StatesOf(ds: seq<Files>, es: seq<Event>): seq<Files>
    requires |ds| == |es| + 1
  {
    if es == [] then ds
    else StatesOf(ds[..|es|], es[..|es| - 1]) + (if es[|es| - 1].Ends? then [ds[|es|]] else [])
  }

  lemma ParallelPrefix(src: Files, ds: seq<Files>, es: seq<Event>, m: nat)
    requires ParallelRun(src, ds, es) && m < |es|
    ensures ParallelRun(src, ds[..m + 1], es[..m])
  {
    var ds', es' := ds[..m + 1], es[..m];
    forall k: nat | k < m ensures Happens(src, ds'[k], es', k, ds'[k + 1]) {
      assert Happens(src, ds[k], es, k, ds[k + 1]);
    }
  }

  lemma RunAppend(src: Files, ds: seq<Files>, vs: seq<Visit>, v: Visit, d': Files)
    requires Run(src, ds, vs) && Visits(src, ds[|vs|], v, d')
    ensures Run(src, ds + [d'], vs + [v])
  {}

  /** Every interleaving of the workers is, visit by visit, one of the sequential runs,
      with the same destination at the end. */
  lemma {:induction false} ParallelRunIsARun(src: Files, ds: seq<Files>, es: seq<Event>)
    requires ParallelRun(src, ds, es)
    ensures Run(src, StatesOf(ds, es), VisitsOf(es))
    ensures StatesOf(ds, es)[0] == ds[0] && StatesOf(ds, es)[|VisitsOf(es)|] == ds[|es|]
  {
    if es != [] {
      var m := |es| - 1;
      ParallelPrefix(src, ds, es, m);
      ParallelRunIsARun(src, ds[..m + 1], es[..m]);
      if es[m].Ends? {
        EndIsAVisit(src, ds, es, m);
        RunAppend(src, StatesOf(ds[..m + 1], es[..m]), VisitsOf(es[..m]), es[m].visit, ds[m + 1]);
      } else {
        assert Happens(src, ds[m], es, m, ds[m + 1]);
      }
    }
  }

  // ---- runs that succeed ----

  ghost predicate NoError(vs: seq<Visit>) {
    forall k :: 0 <= k < |vs| ==> vs[k].Put? ==> !vs[k].err && !vs[k].statFailed
  }

  ghost predicate CoversAll(src: Files, vs: seq<Visit>) {
    forall p :: p in src ==> VisitedIn(vs, p)
  }

  ghost predicate VisitedIn(vs: seq<Visit>, p: string) {
    exists k :: 0 <= k < |vs| && vs[k].path == p
  }

  /** Without errors, one path's fate: a disguised file stays, a visited other file
      becomes the source, an unvisited one stays. */
  lemma {:induction false} FateOfPath(src: Files, ds: seq<Files>, vs: seq<Visit>, p: string)
    requires Run(src, ds, vs) && NoError(vs) && p in src
    ensures Lookup(ds[|vs|], p)
            == if VisitedIn(vs, p) && !Disguised(src, ds[0], p) then Some(src[p]) else Lookup(ds[0], p)
  {
    if vs != [] {
      var m := |vs| - 1;
      assert Run(src, ds[..m + 1], vs[..m]);
      FateOfPath(src, ds[..m + 1], vs[..m], p);
      assert Visits(src, ds[m], vs[m], ds[m + 1]);
      assert VisitedIn(vs, p) <==> VisitedIn(vs[..m], p) || vs[m].path == p by {
        if VisitedIn(vs[..m], p) {
          var k :| 0 <= k < m && vs[..m][k].path == p;
          assert vs[k].path == p;
        }
        if VisitedIn(vs, p) && vs[m].path != p {
          var k :| 0 <= k < |vs| && vs[k].path == p;
          assert vs[..m][k].path == p;
        }
      }
    }
  }

  /** From any destination at all, an error-free run over all items ends with every
      file equal to its source if and only if no file of the same size but different
      content was there to begin with. */
  lemma SyncCorrectIff(src: Files, ds: seq<Files>, vs: seq<Visit>)
    requires Run(src, ds, vs) && NoError(vs) && CoversAll(src, vs)
    ensures (forall p :: p in src ==> Lookup(ds[|vs|], p) == Some(src[p]))
            <==> NoneDisguised(src, ds[0])
  {
    forall p | p in src
      ensures Lookup(ds[|vs|], p) == Some(src[p]) <==> !Disguised(src, ds[0], p)
    {
      FateOfPath(src, ds, vs, p);
    }
  }

  /** A run after a successful one only skips and changes nothing. */
  lemma {:induction false} NextRunOnlySkips(src: Files, ds: seq<Files>, vs: seq<Visit>)
    requires Run(src, ds, vs) && forall p :: p in src ==> Lookup(ds[0], p) == Some(src[p])
    requires forall k :: 0 <= k < |vs| ==> vs[k].Put? ==> !vs[k].statFailed
    ensures forall k :: 0 <= k < |vs| ==> vs[k].Skip?
    ensures ds[|vs|] == ds[0]
  {
    if vs != [] {
      var m := |vs| - 1;
      assert Run(src, ds[..m + 1], vs[..m]);
      NextRunOnlySkips(src, ds[..m + 1], vs[..m]);
      assert Visits(src, ds[m], vs[m], ds[m + 1]);
      forall k | 0 <= k < |vs| ensures vs[k].Skip? {
        if k < m { assert vs[k] == vs[..m][k]; }
      }
    }
  }

  // ---- answering from a listing taken at the start ----

  /** The worker's answer from KnownDest, or from a size query when there is none. */
  function Answer(known: Option<map<string, nat>>, d: Files, p: string): Stat {
    match known
    case Some(m) => if p in m then StatAnswer(true, m[p]) else StatAnswer(false, 0)
    case None => StatOf(Lookup(d, p))
  }

  /** One visit whose decision comes from the listing. */
  ghost predicate BulkVisits(known: Option<map<string, nat>>, src: Files, d: Files, v: Visit, d': Files) {
    && v.path in src
    && var skips := Skips(Answer(known, d, v.path), |src[v.path]|);
       match v
       case Skip(_) => skips && d' == d
       case Put(_, statFailed, _) => !statFailed && !skips && PutStep(src, d, v, d')
  }

  ghost predicate BulkRun(known: Option<map<string, nat>>, src: Files, ds: seq<Files>, vs: seq<Visit>) {
    && |ds| == |vs| + 1
    && forall k :: 0 <= k < |vs| ==> BulkVisits(known, src, ds[k], vs[k], ds[k + 1])
  }

  /** The listing says of every item what a size query would have said at the start. */
  ghost predicate ExactAtStart(known: Option<map<string, nat>>, src: Files, d: Files) {
    forall p :: p in src ==> Answer(known, d, p) == StatOf(Lookup(d, p))
  }

  ghost predicate EachOnce(vs: seq<Visit>) {
    forall i, j :: 0 <= i < j < |vs| ==> vs[i].path != vs[j].path
  }

  /** Every step of either kind leaves the other items' files alone. */
  ghost predicate Local(ds: seq<Files>, vs: seq<Visit>) {
    |ds| == |vs| + 1 && forall k :: 0 <= k < |vs| ==> OnlyTouches(ds[k], ds[k + 1], vs[k].path)
  }

  lemma {:induction false} UnvisitedStays(ds: seq<Files>, vs: seq<Visit>, k: nat, p: string)
    requires Local(ds, vs) && k <= |vs| && forall j :: 0 <= j < k ==> vs[j].path != p
    ensures Lookup(ds[k], p) == Lookup(ds[0], p)
  {
    if k > 0 {
      UnvisitedStays(ds, vs, k - 1, p);
      assert OnlyTouches(ds[k - 1], ds[k], vs[k - 1].path);
    }
  }

  /** Because each item is visited once and each Put touches its own file only, the
      listing is still exact for an item when its turn comes. */
  lemma SnapshotStaysExact(known: Option<map<string, nat>>, src: Files, ds: seq<Files>, vs: seq<Visit>, k: nat)
    requires Local(ds, vs) && EachOnce(vs) && ExactAtStart(known, src, ds[0]) && k < |vs| && vs[k].path in src
    ensures Answer(known, ds[k], vs[k].path) == StatOf(Lookup(ds[k], vs[k].path))
  {
    UnvisitedStays(ds, vs, k, vs[k].path);
    assert Answer(known, ds[0], vs[k].path) == StatOf(Lookup(ds[0], vs[k].path));
  }

  ghost predicate StatsWork(vs: seq<Visit>) {
    forall k :: 0 <= k < |vs| ==> vs[k].Put? ==> !vs[k].statFailed
  }

  /** The bulk path and the per-item path make the same decisions and reach the same
      destinations: the runs of one are exactly the runs of the other. */
  lemma BulkRunsAreItemRuns(known: Option<map<string, nat>>, src: Files, ds: seq<Files>, vs: seq<Visit>)
    requires |ds| == |vs| + 1 && EachOnce(vs) && ExactAtStart(known, src, ds[0])
    ensures BulkRun(known, src, ds, vs) <==> Run(src, ds, vs) && StatsWork(vs)
  {
    if BulkRun(known, src, ds, vs) || Run(src, ds, vs) {
      forall k | 0 <= k < |vs| ensures OnlyTouches(ds[k], ds[k + 1], vs[k].path) {
        assert BulkVisits(known, src, ds[k], vs[k], ds[k + 1]) || Visits(src, ds[k], vs[k], ds[k + 1]);
      }
      forall k | 0 <= k < |vs| ensures SameVisit(known, src, ds, vs, k) {
        if vs[k].path in src {
          SnapshotStaysExact(known, src, ds, vs, k);
        }
      }
      if BulkRun(known, src, ds, vs) {
        forall k | 0 <= k < |vs|
          ensures Visits(src, ds[k], vs[k], ds[k + 1]) && (vs[k].Put? ==> !vs[k].statFailed)
        {
          assert SameVisit(known, src, ds, vs, k) && BulkVisits(known, src, ds[k], vs[k], ds[k + 1]);
        }
      } else if StatsWork(vs) {
        forall k | 0 <= k < |vs| ensures BulkVisits(known, src, ds[k], vs[k], ds[k + 1]) {
          assert SameVisit(known, src, ds, vs, k) && Visits(src, ds[k], vs[k], ds[k + 1]);
        }
      }
    }
  }

  ghost predicate SameVisit(known: Option<map<string, nat>>, src: Files, ds: seq<Files>, vs: seq<Visit>, k: nat)
    requires k < |vs| && |ds| == |vs| + 1
  {
    BulkVisits(known, src, ds[k], vs[k], ds[k + 1])
    <==> Visits(src, ds[k], vs[k], ds[k + 1]) && (vs[k].Put? ==> !vs[k].statFailed)
  }
}
