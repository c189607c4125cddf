/** transfer/s3backend: Put with multipart resume. The source is stable and yields its
    bytes from any offset, but every open, read and server call may fail. What each
    method asks of the server is stated over the server's history. */
module S3Backend {
  import opened Arithmetic
  import opened Transfer
  import opened Parts
  import opened Bucket
  import opened S3Trace

  /** The server holds part n with this ETag and the right bytes. */
  ghost predicate PartReady(parts: map<int, Part>, n: int, etag: ETag, want: Bytes) {
    n in parts && parts[n] == Part(want, etag)
  }

  /** What every way of storing src does to its key's object: nothing, or exactly that;
      and success means exactly that. */
  predicate Stores(before: Option<Bytes>, after: Option<Bytes>, src: Bytes, err: bool) {
    && (after == before || after == Some(src))
    && (!err ==> after == Some(src))
  }

  /** The sizes for which the backend's part arithmetic is right, if it is used at all. */
  predicate Safe(size: nat, partSize: nat) { size <= partSize || Fits(size, partSize) }

  /** What completing a resumed upload stores: the parts that the code counts. */
  function Counted(src: Bytes, partSize: nat): Bytes
    requires partSize > 0
  {
    var total := TotalParts(|src|, partSize);
    if 0 <= total <= PartCount(|src|, partSize) then JoinSlices(src, total, partSize) else []
  }

  /** That is the source for every safe size. For every other, the allocation of the
      completed slice panics, the loop over the parts overruns it, or what is completed is
      not the source. */
  lemma CountedIsSourceUnlessUnsafe(src: Bytes, partSize: nat)
    requires 0 < partSize <= INT64_MAX && partSize < |src| <= INT64_MAX
    ensures Safe(|src|, partSize) <==> Counted(src, partSize) == src && 0 <= TotalParts(|src|, partSize) < INT32_MAX
  {
    CounterFitsIff(|src|, partSize);
    TotalPartsExactIff(|src|, partSize);
    if TotalParts(|src|, partSize) >= 0 { CountedPartsRebuildIff(src, partSize); }
  }

  /** Either way of storing src, after any number of attempts that failed. */
  predicate StoresEither(before: Option<Bytes>, after: Option<Bytes>, src: Bytes, counted: Bytes, err: bool) {
    Stores(before, after, src, err) || Stores(before, after, counted, err)
  }

  // ---- sortCompleted ----

  function Number(c: Slot): int {
    match c
    case Unfilled => 0
    case Filled(n, _) => n
  }

  /** What sort.Slice promises: the same elements, in non-descending part order. */
  predicate IsSortOf(r: seq<Slot>, parts: seq<Slot>) {
    && multiset(r) == multiset(parts)
    && forall i, j :: 0 <= i < j < |r| ==> Number(r[i]) <= Number(r[j])
  }

  ghost predicate Ascending(parts: seq<Slot>) {
    forall i, j :: 0 <= i < j < |parts| ==> Number(parts[i]) < Number(parts[j])
  }

  lemma SortKeepsLast(r: seq<Slot>, parts: seq<Slot>)
    requires Ascending(parts) && IsSortOf(r, parts) && parts != []
    ensures |r| == |parts| && r[|r| - 1] == parts[|parts| - 1]
  {
    assert |r| == |multiset(r)| == |multiset(parts)| == |parts|;
    var k := |parts| - 1;
    assert r[k] in multiset(r) && parts[k] in multiset(parts);
    var i :| 0 <= i < |parts| && parts[i] == r[k];
    var j :| 0 <= j < |r| && r[j] == parts[k];
    assert Number(parts[i]) <= Number(parts[k]) && Number(r[j]) <= Number(r[k]);
  }

  lemma MultisetDropLast(s: seq<Slot>)
    requires s != []
    ensures multiset(s[..|s| - 1]) == multiset(s) - multiset{s[|s| - 1]}
  {
    assert s == s[..|s| - 1] + [s[|s| - 1]];
  }

  lemma SortDropLast(r: seq<Slot>, parts: seq<Slot>)
    requires Ascending(parts) && IsSortOf(r, parts) && parts != []
    ensures |r| == |parts| && r[|r| - 1] == parts[|parts| - 1]
    ensures Ascending(parts[..|parts| - 1]) && IsSortOf(r[..|r| - 1], parts[..|parts| - 1])
  {
    SortKeepsLast(r, parts);
    MultisetDropLast(r);
    MultisetDropLast(parts);
  }

  /** On a list already in strict part order every such sort is the identity. */
  lemma {:induction false} SortIsIdentity(r: seq<Slot>, parts: seq<Slot>)
    requires Ascending(parts) && IsSortOf(r, parts)
    ensures r == parts
    decreases |parts|
  {
    if parts != [] {
      SortDropLast(r, parts);
      SortIsIdentity(r[..|r| - 1], parts[..|parts| - 1]);
      assert r == r[..|r| - 1] + [r[|r| - 1]] && parts == parts[..|parts| - 1] + [parts[|parts| - 1]];
    } else {
      assert |r| == |multiset(r)| == |multiset(parts)|;
    }
  }

  ghost predicate SlotReady(parts: map<int, Part>, c: Slot, n: int, want: Bytes) {
    c.Filled? && c.n == n && n in parts && parts[n] == Part(want, c.etag)
  }

  /** Slot k names part k + 1, and the server holds that part's bytes. */
  ghost predicate InPartOrder(parts: map<int, Part>, list: seq<Slot>, want: seq<Bytes>) {
    |list| == |want| && forall k :: 0 <= k < |list| ==> SlotReady(parts, list[k], k + 1, want[k])
  }

  lemma InPartOrderAccepted(parts: map<int, Part>, list: seq<Slot>, want: seq<Bytes>)
    requires InPartOrder(parts, list, want)
    ensures Names(parts, list) && Ascending(list) && InOrder(list, |want|)
  {
    forall k | 0 <= k < |list| ensures SlotReady(parts, list[k], k + 1, want[k]) {}
  }

  /** Completing a list in part order assembles the file. */
  lemma {:induction false} AssembleIsJoin(parts: map<int, Part>, list: seq<Slot>, src: Bytes, partSize: nat)
    requires partSize > 0 && |list| <= PartCount(|src|, partSize)
    requires InPartOrder(parts, list, Slices(src, partSize)[..|list|]) && Names(parts, list)
    ensures Assemble(parts, list) == JoinSlices(src, |list|, partSize)
  {
    if list != [] {
      var k := |list| - 1;
      var want := Slices(src, partSize);
      assert SlotReady(parts, list[k], k + 1, want[..k + 1][k]);
      assert InPartOrder(parts, list[..k], want[..k]) by {
        forall j | 0 <= j < k ensures SlotReady(parts, list[..k][j], j + 1, want[..k][j]) {
          assert SlotReady(parts, list[j], j + 1, want[..k + 1][j]);
        }
      }
      AssembleIsJoin(parts, list[..k], src, partSize);
    }
  }

  // ---- the goroutines of uploadMissingParts ----

  /** The local state of uploadMissingParts: the next part to look at, whether the loop
      broke off, whether errOnce fired, and the goroutines: those that are still reading
      their part, those whose request (with its body) awaits an answer, and those that
      have it (with its ETag) and are about to record it. */
  datatype Flight = Flight(n: int, stopped: bool, firstErr: bool,
                           started: set<int>, asked: set<int>, acked: set<int>,
                           bodies: map<int, Bytes>, tags: map<int, ETag>)
  {
    /** Tokens in the semaphore. */
    function Busy(): nat { |started| + |asked| + |acked| }

    predicate Landed() { |started| == 0 && |asked| == 0 && |acked| == 0 }

    function Next(): Flight { this.(n := n + 1) }

    function Start(): Flight { this.(n := n + 1, started := started + {n}) }

    function Err(stop: bool): Flight { this.(firstErr := true, stopped := stop) }

    function Send(part: int, body: Bytes): Flight {
      this.(started := started - {part}, asked := asked + {part}, bodies := bodies[part := body])
    }

    function Lose(part: int): Flight {
      this.(started := started - {part}, asked := asked - {part}, firstErr := true)
    }

    function Gain(part: int, etag: ETag): Flight {
      this.(asked := asked - {part}, acked := acked + {part}, tags := tags[part := etag])
    }

    function Free(part: int): Flight { this.(acked := acked - {part}) }
  }

  const TAKE_OFF := Flight(1, false, false, {}, {}, {}, map[], map[])

  ghost predicate Ready(job: Job, parts: map<int, Part>, slots: seq<Slot>, k: int) {
    1 <= k <= |job.want| == |slots| && SlotReady(parts, slots[k - 1], k, job.want[k - 1])
  }

  ghost predicate AckedReady(job: Job, parts: map<int, Part>, k: int, etag: ETag) {
    1 <= k <= |job.want| && PartReady(parts, k, etag, job.want[k - 1])
  }

  ghost predicate InFlight(f: Flight, k: int) { k in f.started || k in f.asked || k in f.acked }

  /** What holds between the loop, its goroutines, the server and the slice. */
  ghost predicate FlightOk(job: Job, f: Flight, parts: map<int, Part>, slots: seq<Slot>) {
    && |slots| == |job.want|
    && 1 <= f.n <= |slots| + 1
    && f.started !! f.asked && f.started !! f.acked && f.asked !! f.acked
    && f.asked <= f.bodies.Keys && f.acked <= f.tags.Keys
    && (f.stopped ==> f.firstErr)
    && (forall k :: InFlight(f, k) ==> 1 <= k < f.n && k !in job.kept)
    && (forall k :: k in f.acked ==> AckedReady(job, parts, k, f.tags[k]))
    && (forall k :: k in job.kept ==> Ready(job, parts, slots, k))
    && (!f.firstErr ==> forall k :: 1 <= k < f.n && !InFlight(f, k) ==> Ready(job, parts, slots, k))
  }

  lemma PassOver(job: Job, f: Flight, parts: map<int, Part>, slots: seq<Slot>)
    requires FlightOk(job, f, parts, slots) && f.n <= |slots| && f.n in job.kept
    ensures FlightOk(job, f.Next(), parts, slots)
  {
    assert forall k :: InFlight(f.Next(), k) <==> InFlight(f, k);
  }

  lemma Dispatched(job: Job, f: Flight, parts: map<int, Part>, slots: seq<Slot>)
    requires FlightOk(job, f, parts, slots) && f.n <= |slots| && f.n !in job.kept
    ensures FlightOk(job, f.Start(), parts, slots)
    ensures |f.Start().started| == |f.started| + 1
  {
    assert !InFlight(f, f.n);
    assert forall k :: InFlight(f.Start(), k) <==> InFlight(f, k) || k == f.n;
  }

  lemma ErrorSeen(job: Job, f: Flight, parts: map<int, Part>, slots: seq<Slot>, stop: bool)
    requires FlightOk(job, f, parts, slots)
    ensures FlightOk(job, f.Err(stop), parts, slots)
  {
    assert forall k :: InFlight(f.Err(stop), k) <==> InFlight(f, k);
  }

  lemma RequestLeft(job: Job, f: Flight, parts: map<int, Part>, slots: seq<Slot>, part: int, body: Bytes)
    requires FlightOk(job, f, parts, slots) && part in f.started
    ensures FlightOk(job, f.Send(part, body), parts, slots)
    ensures |f.Send(part, body).started| == |f.started| - 1 && |f.Send(part, body).asked| == |f.asked| + 1
  {
    assert InFlight(f, part);
    assert forall k :: InFlight(f.Send(part, body), k) <==> InFlight(f, k);
  }

  lemma Recorded(job: Job, f: Flight, parts: map<int, Part>, slots: seq<Slot>, part: int)
    requires FlightOk(job, f, parts, slots) && part in f.acked
    ensures 1 <= part <= |slots|
    ensures FlightOk(job, f.Free(part), parts, slots[part - 1 := Filled(part, f.tags[part])])
    ensures |f.Free(part).acked| == |f.acked| - 1
  {
    assert InFlight(f, part) && AckedReady(job, parts, part, f.tags[part]);
    var g := f.Free(part);
    var t := slots[part - 1 := Filled(part, f.tags[part])];
    forall k | Ready(job, parts, slots, k) || k == part ensures Ready(job, parts, t, k) {}
    forall k | InFlight(g, k) ensures InFlight(f, k) {}
    forall k | 1 <= k < g.n && !InFlight(g, k) ensures k == part || !InFlight(f, k) {}
  }

  /** Storing one part in flight disturbs no other slot. */
  lemma StoringKeeps(job: Job, f: Flight, parts: map<int, Part>, slots: seq<Slot>, part: int,
                     stored: Part)
    requires FlightOk(job, f, parts, slots) && part in f.asked
    ensures forall k :: k != part && Ready(job, parts, slots, k) ==>
              Ready(job, parts[part := stored], slots, k)
    ensures forall k :: k in f.acked ==>
              AckedReady(job, parts[part := stored], k, f.tags[k])
  {
    forall k | k in f.acked ensures AckedReady(job, parts[part := stored], k, f.tags[k]) {
      assert AckedReady(job, parts, k, f.tags[k]);
    }
  }

  lemma AnswerOk(job: Job, f: Flight, parts: map<int, Part>, slots: seq<Slot>, part: int, etag: ETag)
    requires FlightOk(job, f, parts, slots) && part in f.asked && 1 <= part <= |job.want|
    ensures FlightOk(job, f.Gain(part, etag), parts[part := Part(job.want[part - 1], etag)], slots)
    ensures |f.Gain(part, etag).asked| == |f.asked| - 1 && |f.Gain(part, etag).acked| == |f.acked| + 1
  {
    var after := parts[part := Part(job.want[part - 1], etag)];
    StoringKeeps(job, f, parts, slots, part, Part(job.want[part - 1], etag));
    assert InFlight(f, part) && AckedReady(job, after, part, etag);
    assert forall k :: InFlight(f.Gain(part, etag), k) <==> InFlight(f, k);
  }

  lemma AnswerFailed(job: Job, f: Flight, parts: map<int, Part>, slots: seq<Slot>, part: int,
                     stored: Part)
    requires FlightOk(job, f, parts, slots) && part in f.asked
    ensures FlightOk(job, f.Lose(part), parts, slots)
    ensures FlightOk(job, f.Lose(part), parts[part := stored], slots)
    ensures f.Lose(part).started == f.started && |f.Lose(part).asked| == |f.asked| - 1
  {
    StoringKeeps(job, f, parts, slots, part, stored);
    assert InFlight(f, part);
    forall k | InFlight(f.Lose(part), k) ensures InFlight(f, k) {}
  }

  lemma ReadFailed(job: Job, f: Flight, parts: map<int, Part>, slots: seq<Slot>, part: int)
    requires FlightOk(job, f, parts, slots) && part in f.started
    ensures FlightOk(job, f.Lose(part), parts, slots)
    ensures f.Lose(part).asked == f.asked && |f.Lose(part).started| == |f.started| - 1
  {
    assert InFlight(f, part);
    forall k | InFlight(f.Lose(part), k) ensures InFlight(f, k) {}
  }

  /** Nothing is in flight before the first part ... */
  lemma TakeOff(job: Job, parts: map<int, Part>, slots: seq<Slot>)
    requires |slots| == |job.want|
    requires forall k :: k in job.kept ==> Ready(job, parts, slots, k)
    ensures FlightOk(job, TAKE_OFF, parts, slots)
  {}

  /** ... and when everything has landed without an error, every slot is filled. */
  lemma Landing(job: Job, f: Flight, parts: map<int, Part>, slots: seq<Slot>)
    requires FlightOk(job, f, parts, slots) && f.Landed() && !f.firstErr && f.n > |slots|
    ensures InPartOrder(parts, slots, job.want)
  {
    forall k | 0 <= k < |slots| ensures SlotReady(parts, slots[k], k + 1, job.want[k]) {
      assert Ready(job, parts, slots, k + 1);
    }
  }

  // ---- one key of the server ----

  /** The upload keeps its key, and other uploads of the key are left alone. */
  ghost predicate KeepsOwn(before: map<UploadId, Upload>, after: map<UploadId, Upload>, key: string, id: UploadId) {
    && id in after && after[id].key == key
    && forall j :: j != id ==> UploadOf(before, key, j) == UploadOf(after, key, j)
  }

  lemma OwnKeptKeepsOwn(a: map<UploadId, Upload>, b: map<UploadId, Upload>, key: string, id: UploadId)
    requires OwnKept(a, b, key) && id in a && a[id].key == key
    ensures KeepsOwn(a, b, key, id) && b[id] == a[id]
  {
    assert UploadOf(a, key, id) == UploadOf(b, key, id);
  }

  lemma RemovingKeepsOthers(a: map<UploadId, Upload>, key: string, id: UploadId)
    requires id in a && a[id].key == key
    ensures OthersKept(a, a - {id}, key) && OthersKept(a, a, key)
  {}

  lemma WithPartKeepsOwn(a: map<UploadId, Upload>, key: string, id: UploadId, n: int, part: Part)
    requires id in a && a[id].key == key
    ensures var b := WithPart(a, id, n, part);
            KeepsOwn(a, b, key, id) && OthersKept(a, b, key) && b[id].parts == a[id].parts[n := part]
  {}

  lemma OthersKeptTwice(a: map<UploadId, Upload>, b: map<UploadId, Upload>, c: map<UploadId, Upload>, key: string)
    requires OthersKept(a, b, key) && OthersKept(b, c, key)
    ensures OthersKept(a, c, key)
  {}

  lemma KeepsOwnTwice(a: map<UploadId, Upload>, b: map<UploadId, Upload>, c: map<UploadId, Upload>, key: string,
                      id: UploadId)
    requires KeepsOwn(a, b, key, id) && KeepsOwn(b, c, key, id)
    ensures KeepsOwn(a, c, key, id)
  {}

  // ---- the goroutines and the history ----

  /** The history agrees with the goroutines: what was sent and not answered is asked,
      nothing is sent before its goroutine has read it, and what was dispatched without an
      error and is not being read has been sent. */
  ghost predicate Tally(job: Job, f: Flight, calls: seq<Call>) {
    Totals(f, calls) && PerPart(job, f, calls)
  }

  ghost predicate Totals(f: Flight, calls: seq<Call>) {
    Open(calls) == |f.asked| && Licences(calls) >= |f.started| && (FoundDone(calls) ==> f.stopped)
  }

  ghost predicate PerPart(job: Job, f: Flight, calls: seq<Call>) {
    forall k :: PartTold(job, f, calls, k)
  }

  ghost predicate PartTold(job: Job, f: Flight, calls: seq<Call>, k: int) {
    && Sent(calls, k) == Answered(calls, k) + OneIf(k in f.asked)
    && (Sent(calls, k) > 0 ==> k < f.n && k !in f.started && job.Missing(k))
    && (!f.firstErr && k < f.n && job.Missing(k) && k !in f.started ==> Sent(calls, k) == 1)
  }

  /** Goroutines work on missing parts, and what was asked is a request in the history. */
  ghost predicate Bodies(job: Job, f: Flight, calls: seq<Call>) {
    && (forall k :: k in f.started ==> k < f.n && job.Missing(k))
    && (forall k :: k in f.asked ==> job.Missing(k) && k in f.bodies && f.bodies[k] == job.want[k - 1])
    && (forall k :: k in f.asked ==> PartBegun(job.id, k, job.want[k - 1]) in calls)
  }

  ghost predicate Logged(job: Job, f: Flight, calls: seq<Call>, cap: nat) {
    PartTraffic(job, calls, cap) && Tally(job, f, calls) && Bodies(job, f, calls) && (f.firstErr <==> AnyFails(calls))
  }

  lemma LoggedTakeOff(job: Job, cap: nat)
    ensures Logged(job, TAKE_OFF, [], cap)
  {
    forall k ensures PartTold(job, TAKE_OFF, [], k) {}
  }

  /** No request and no answer, and no missing part beyond those being read. */
  lemma PerPartKept(job: Job, f: Flight, g: Flight, calls: seq<Call>, more: seq<Call>)
    requires PerPart(job, f, calls) && g.asked == f.asked && f.n <= g.n && (f.firstErr ==> g.firstErr)
    requires forall k :: Sent(more, k) == Sent(calls, k) && Answered(more, k) == Answered(calls, k)
    requires forall k :: k in g.started ==> k in f.started || k >= f.n
    requires !g.firstErr ==>
               forall k :: k < g.n && job.Missing(k) && k !in g.started ==> k < f.n && k !in f.started
    ensures PerPart(job, g, more)
  {
    forall k ensures PartTold(job, g, more, k) {
      assert PartTold(job, f, calls, k);
    }
  }

  /** The dispatching loop itself sends nothing. */
  lemma LoggedStart(job: Job, f: Flight, calls: seq<Call>, cap: nat)
    requires Logged(job, f, calls, cap) && 1 <= f.n <= |job.want| && f.n !in job.kept
    requires f.n !in f.started && !f.stopped && Licences(calls) > |f.started|
    ensures Logged(job, f.Start(), calls, cap)
  {
    assert |f.Start().started| == |f.started| + 1;
    PerPartKept(job, f, f.Start(), calls, calls);
  }

  lemma LoggedNext(job: Job, f: Flight, calls: seq<Call>, cap: nat)
    requires Logged(job, f, calls, cap) && f.n in job.kept
    ensures Logged(job, f.Next(), calls, cap)
  {
    PerPartKept(job, f, f.Next(), calls, calls);
  }

  lemma LoggedStop(job: Job, f: Flight, calls: seq<Call>, cap: nat)
    requires Logged(job, f, calls, cap) && f.firstErr
    ensures Logged(job, f.Err(true), calls, cap)
  {
    PerPartKept(job, f, f.Err(true), calls, calls);
  }

  /** Opening or reading the source fails. */
  lemma LoggedFailure(job: Job, f: Flight, calls: seq<Call>, cap: nat)
    requires Logged(job, f, calls, cap)
    ensures Logged(job, f.Err(f.stopped), calls + [SourceFailed], cap)
  {
    Append(calls, SourceFailed);
    AppendFails(calls, SourceFailed);
    TrafficAppend(job, calls, SourceFailed, cap);
    PerPartKept(job, f, f.Err(f.stopped), calls, calls + [SourceFailed]);
  }

  /** The loop looks at the context before it starts a goroutine. */
  lemma LoggedLook(job: Job, f: Flight, calls: seq<Call>, cap: nat, done: bool)
    requires Logged(job, f, calls, cap) && !f.stopped
    ensures done ==> Logged(job, f.Err(true), calls + [ContextLooked(done)], cap)
    ensures !done ==> Logged(job, f, calls + [ContextLooked(done)], cap)
    ensures !done ==> Licences(calls + [ContextLooked(done)]) > |f.started|
  {
    Append(calls, ContextLooked(done));
    AppendFails(calls, ContextLooked(done));
    TrafficAppend(job, calls, ContextLooked(done), cap);
    PerPartKept(job, f, if done then f.Err(true) else f, calls, calls + [ContextLooked(done)]);
  }

  /** A goroutine that could not read its part gives up. */
  lemma LoggedLose(job: Job, f: Flight, calls: seq<Call>, cap: nat, part: int)
    requires Logged(job, f, calls, cap) && f.firstErr && part !in f.asked
    ensures Logged(job, f.Lose(part), calls, cap)
  {
    assert f.Lose(part).asked == f.asked;
    PerPartKept(job, f, f.Lose(part), calls, calls);
  }

  lemma TallySend(job: Job, f: Flight, calls: seq<Call>, part: int, body: Bytes)
    requires Tally(job, f, calls) && job.Missing(part) && part < f.n && part in f.started && part !in f.asked
    ensures Sent(calls, part) == 0
    ensures Tally(job, f.Send(part, body), calls + [PartBegun(job.id, part, body)])
  {
    Append(calls, PartBegun(job.id, part, body));
    assert PartTold(job, f, calls, part);
    forall k ensures PartTold(job, f.Send(part, body), calls + [PartBegun(job.id, part, body)], k) {
      assert PartTold(job, f, calls, k);
    }
  }

  lemma LoggedSend(job: Job, f: Flight, calls: seq<Call>, cap: nat, part: int)
    requires Logged(job, f, calls, cap) && part in f.started && part !in f.asked && |f.started| + |f.asked| <= cap
    ensures job.Missing(part)
    ensures Logged(job, f.Send(part, job.want[part - 1]), calls + [PartBegun(job.id, part, job.want[part - 1])], cap)
  {
    var c := PartBegun(job.id, part, job.want[part - 1]);
    TallySend(job, f, calls, part, c.body);
    AppendFails(calls, c);
    assert |f.started| > 0;
    TrafficAppend(job, calls, c, cap);
    assert Bodies(job, f.Send(part, c.body), calls + [c]);
  }

  /** An answer closes one open request. */
  lemma TallyAnswer(job: Job, f: Flight, g: Flight, calls: seq<Call>, part: int, err: bool)
    requires Tally(job, f, calls) && part in f.asked && part !in f.started
    requires g.n == f.n && g.started == f.started && g.asked == f.asked - {part} && (f.firstErr ==> g.firstErr)
    requires g.stopped == f.stopped
    ensures Sent(calls, part) > Answered(calls, part) && Open(calls) > 0
    ensures Tally(job, g, calls + [PartEnded(job.id, part, err)])
  {
    Append(calls, PartEnded(job.id, part, err));
    assert PartTold(job, f, calls, part) && |g.asked| == |f.asked| - 1;
    forall k ensures PartTold(job, g, calls + [PartEnded(job.id, part, err)], k) {
      assert PartTold(job, f, calls, k);
    }
  }

  lemma LoggedAnswer(job: Job, f: Flight, g: Flight, calls: seq<Call>, cap: nat, part: int, err: bool)
    requires Logged(job, f, calls, cap) && part in f.asked && part !in f.started
    requires g.n == f.n && g.started == f.started && g.asked == f.asked - {part} && g.bodies == f.bodies
    requires g.firstErr == (f.firstErr || err) && g.stopped == f.stopped
    ensures Logged(job, g, calls + [PartEnded(job.id, part, err)], cap)
  {
    var c := PartEnded(job.id, part, err);
    TallyAnswer(job, f, g, calls, part, err);
    AppendFails(calls, c);
    TrafficAppend(job, calls, c, cap);
    BodiesKept(job, f, g, calls, c);
  }

  /** A longer history and fewer open requests. */
  lemma BodiesKept(job: Job, f: Flight, g: Flight, calls: seq<Call>, c: Call)
    requires Bodies(job, f, calls) && g.n == f.n && g.started <= f.started && g.asked <= f.asked && g.bodies == f.bodies
    ensures Bodies(job, g, calls + [c])
  {}

  lemma LoggedRecord(job: Job, f: Flight, calls: seq<Call>, cap: nat, part: int)
    requires Logged(job, f, calls, cap)
    ensures Logged(job, f.Free(part), calls, cap)
  {
    PerPartKept(job, f, f.Free(part), calls, calls);
  }

  /** At the end every request is answered and, without an error, every missing part was
      sent once. */
  lemma LoggedLanding(job: Job, f: Flight, calls: seq<Call>, cap: nat)
    requires Logged(job, f, calls, cap) && f.Landed() && (!f.firstErr ==> f.n > |job.want|)
    ensures PartTrace(job, calls, cap, f.firstErr)
  {
    assert f.asked == {} && f.started == {};
    forall n ensures Answered(calls, n) == Sent(calls, n) {
      assert PartTold(job, f, calls, n);
    }
    forall n | !f.firstErr ensures Sent(calls, n) == OneIf(job.Missing(n)) {
      assert PartTold(job, f, calls, n);
    }
  }

  /** What every turn of uploadMissingParts keeps. */
  ghost predicate Steady(job: Job, f: Flight, parts: map<int, Part>, slots: seq<Slot>, calls: seq<Call>,
                         cap: nat) {
    FlightOk(job, f, parts, slots) && Logged(job, f, calls, cap) && f.Busy() <= cap
  }

  lemma SteadySend(job: Job, f: Flight, parts: map<int, Part>, slots: seq<Slot>, calls: seq<Call>,
                   cap: nat, part: int, body: Bytes)
    requires Steady(job, f, parts, slots, calls, cap) && part in f.started
    requires job.Missing(part) && body == job.want[part - 1]
    ensures Steady(job, f.Send(part, body), parts, slots, calls + [PartBegun(job.id, part, body)], cap)
    ensures Rank(f.Send(part, body), |slots|) < Rank(f, |slots|)
  {
    RequestLeft(job, f, parts, slots, part, body);
    LoggedSend(job, f, calls, cap, part);
  }

  /** What one goroutine's read of its part leads to. */
  function AfterRead(f: Flight, part: int, err: bool, body: Bytes): Flight {
    if err then f.Lose(part) else f.Send(part, body)
  }

  lemma SteadyRead(job: Job, f: Flight, parts: map<int, Part>, slots: seq<Slot>, calls: seq<Call>,
                   cap: nat, part: int, err: bool, body: Bytes)
    requires Steady(job, f, parts, slots, calls, cap) && part in f.started && job.Missing(part)
    requires err || body == job.want[part - 1]
    ensures Steady(job, AfterRead(f, part, err, body), parts, slots,
                   calls + [if err then SourceFailed else PartBegun(job.id, part, body)], cap)
    ensures Rank(AfterRead(f, part, err, body), |slots|) < Rank(f, |slots|)
  {
    if err {
      SteadyLose(job, f, parts, slots, calls, cap, part);
    } else {
      SteadySend(job, f, parts, slots, calls, cap, part, body);
    }
  }

  lemma StartedIsMissing(job: Job, f: Flight, calls: seq<Call>, part: int)
    requires Bodies(job, f, calls) && part in f.started
    ensures job.Missing(part)
  {}

  lemma SteadyLose(job: Job, f: Flight, parts: map<int, Part>, slots: seq<Slot>, calls: seq<Call>,
                   cap: nat, part: int)
    requires Steady(job, f, parts, slots, calls, cap) && part in f.started
    ensures Steady(job, f.Lose(part), parts, slots, calls + [SourceFailed], cap)
    ensures Rank(f.Lose(part), |slots|) < Rank(f, |slots|)
  {
    ReadFailed(job, f, parts, slots, part);
    LoggedFailure(job, f, calls, cap);
    LoggedLose(job, f.Err(f.stopped), calls + [SourceFailed], cap, part);
  }

  lemma SteadyAnswerOk(job: Job, f: Flight, parts: map<int, Part>, slots: seq<Slot>, calls: seq<Call>,
                       cap: nat, part: int, etag: ETag)
    requires Steady(job, f, parts, slots, calls, cap) && part in f.asked && 1 <= part <= |job.want|
    ensures var after := parts[part := Part(job.want[part - 1], etag)];
            Steady(job, f.Gain(part, etag), after, slots, calls + [PartEnded(job.id, part, false)], cap)
    ensures Rank(f.Gain(part, etag), |slots|) < Rank(f, |slots|)
  {
    AnswerOk(job, f, parts, slots, part, etag);
    LoggedAnswer(job, f, f.Gain(part, etag), calls, cap, part, false);
  }

  lemma SteadyAnswerFailed(job: Job, f: Flight, parts: map<int, Part>, slots: seq<Slot>, calls: seq<Call>,
                           cap: nat, part: int, stored: Part)
    requires Steady(job, f, parts, slots, calls, cap) && part in f.asked
    ensures var more := calls + [PartEnded(job.id, part, true)];
            && Steady(job, f.Lose(part), parts, slots, more, cap)
            && Steady(job, f.Lose(part), parts[part := stored], slots, more, cap)
    ensures Rank(f.Lose(part), |slots|) < Rank(f, |slots|)
  {
    AnswerFailed(job, f, parts, slots, part, stored);
    LoggedAnswer(job, f, f.Lose(part), calls, cap, part, true);
  }

  lemma SteadyRecord(job: Job, f: Flight, parts: map<int, Part>, slots: seq<Slot>, calls: seq<Call>,
                     cap: nat, part: int)
    requires Steady(job, f, parts, slots, calls, cap) && part in f.acked
    ensures 1 <= part <= |slots|
    ensures Steady(job, f.Free(part), parts, slots[part - 1 := Filled(part, f.tags[part])], calls, cap)
    ensures Rank(f.Free(part), |slots|) < Rank(f, |slots|)
  {
    Recorded(job, f, parts, slots, part);
    LoggedRecord(job, f, calls, cap, part);
  }

  /** What is left to do: every turn lowers it. */
  function Rank(f: Flight, totalParts: int): int {
    4 * (totalParts + 1 - f.n) + (if f.stopped then 0 else 1) + 3 * |f.started| + 2 * |f.asked| + |f.acked|
  }

  lemma SteadyLanding(job: Job, f: Flight, parts: map<int, Part>, slots: seq<Slot>, calls: seq<Call>,
                      cap: nat)
    requires Steady(job, f, parts, slots, calls, cap) && f.Landed() && (f.stopped || f.n > |slots|)
    ensures PartTrace(job, calls, cap, f.firstErr)
    ensures !f.firstErr ==> InPartOrder(parts, slots, job.want)
  {
    LoggedLanding(job, f, calls, cap);
    if !f.firstErr { Landing(job, f, parts, slots); }
  }

  lemma OverrunTrace(job: Job, calls: seq<Call>, cap: nat, err: bool)
    requires PartTrace(job, calls, cap, err)
    ensures PartTrace(job, calls + [Overran], cap, true)
  {
    Append(calls, Overran);
    AppendFails(calls, Overran);
    TrafficAppend(job, calls, Overran, cap);
  }

  class S3 {
    const server: Server
    const partSize: nat
    const concurrency: nat

    ghost predicate Valid() { 0 < partSize <= INT64_MAX && concurrency >= 1 }

    constructor (server: Server, partSize: nat, concurrency: nat)
      requires 0 < partSize <= INT64_MAX && concurrency >= 1
      ensures Valid() && this.server == server && this.partSize == partSize && this.concurrency == concurrency
    {
      this.server, this.partSize, this.concurrency := server, partSize, concurrency;
    }

    /** OpenFunc of a stable source: the content from the offset on, or an error. */
    method OpenAt(src: Bytes, offset: nat) returns (err: bool, rest: Bytes)
      requires offset <= |src|
      modifies server`log
      ensures !err ==> rest == src[offset..]
      ensures server.log == old(server.log) + if err then [SourceFailed] else []
    {
      err := server.SourceFails();
      rest := if err then [] else src[offset..];
    }

    method ReadPart(src: Bytes, n: int) returns (err: bool, body: Bytes)
      requires Valid() && 1 <= n <= PartCount(|src|, partSize)
      modifies server`log
      ensures !err ==> body == Slice(src, n, partSize)
      ensures server.log == old(server.log) + if err then [SourceFailed] else []
    {
      PartsTile(n, |src|, partSize);
      var rest;
      err, rest := OpenAt(src, PartStart(n, partSize));
      body := [];
      if err { return; }
      err := server.SourceFails();
      if err { return; }
      body := rest[..PartBytes(n, |src|, partSize)];
    }

    method PartMD5Matches(src: Bytes, n: int, wantETag: ETag) returns (err: bool, matches: bool)
      requires Valid() && 1 <= n <= PartCount(|src|, partSize)
      modifies server`log
      ensures !err ==> (matches <==> wantETag == Md5(Slice(src, n, partSize)))
      ensures server.log == old(server.log) + if err then [SourceFailed] else []
    {
      var body;
      err, body := ReadPart(src, n);
      matches := !err && Md5(body) == wantETag;
    }

    /** Asks once, and takes the first upload of exactly this key. */
    method FindInProgressUpload(key: string) returns (err: bool, found: Option<UploadId>, ghost call: Call)
      requires server.Tidy(key)
      modifies server
      ensures server.Onward(key) && Lookup(server.objects, key) == Lookup(old(server.objects), key)
      ensures OwnKept(old(server.uploads), server.uploads, key)
      ensures server.log == old(server.log) + [call] && call.ListedUploads? && call.prefix == key && call.err == err
      ensures !err ==> found == FirstOf(call.uploads, key)
      ensures !err && found.Some? ==> server.Has(found.value, key)
    {
      var page;
      found := None;
      server.Others(key);
      err, page := server.ListMultipartUploads(key);
      call := ListedUploads(key, err, page);
      if err { return; }
      for k := 0 to |page|
        invariant FirstOf(page, key) == FirstOf(page[k..], key)
      {
        assert PageEntryOk(server.uploads, key, page[k]) && page[k..][1..] == page[k + 1..];
        if page[k].0 == key {
          return false, Some(page[k].1), call;
        }
      }
    }

    /** Lists the stored parts and keeps exactly the listed ones that match the local data;
        ok is false exactly when a listed part does not fit. It fails exactly when the
        listing or a read of the source does. */
    method ValidExistingParts(key: string, id: UploadId, src: Bytes)
      returns (err: bool, ok: bool, valid: map<int, ETag>, ghost call: Call)
      requires Valid() && |src| <= INT64_MAX && server.Tidy(key) && server.Has(id, key)
      modifies server
      ensures server.Onward(key) && Lookup(server.objects, key) == Lookup(old(server.objects), key)
      ensures server.Has(id, key) && OwnKept(old(server.uploads), server.uploads, key)
      ensures call.ListedParts? && call.id == id
      ensures server.log == old(server.log) + [call] + if err && !call.err then [SourceFailed] else []
      ensures call.err ==> err
      ensures err && !call.err ==> call.page != []
      ensures !err ==> (ok <==> Aligned(call.page, |src|, partSize))
      ensures !err && ok ==> valid.Keys == Kept(call.page, src, partSize)
      ensures !err && ok ==> forall n :: n in valid ==>
                1 <= n <= TotalParts(|src|, partSize) <= PartCount(|src|, partSize)
                && PartReady(server.uploads[id].parts, n, valid[n], Slice(src, n, partSize))
    {
      valid, ok := map[], false;
      var page;
      server.Others(key);
      OwnKeptKeepsOwn(old(server.uploads), server.uploads, key, id);
      err, page := server.ListParts(id);
      call := ListedParts(id, err, page);
      if err { return; }
      err, ok, valid := CheckParts(id, src, page);
    }

    /** The loop over the listed parts: keeps those that match the local data. */
    method CheckParts(id: UploadId, src: Bytes, page: seq<Listed>) returns (err: bool, ok: bool, valid: map<int, ETag>)
      requires Valid() && |src| <= INT64_MAX && HonestUploads(server.uploads)
      requires id in server.uploads && forall k :: 0 <= k < |page| ==> ListedOk(server.uploads, id, page[k])
      modifies server`log
      ensures server.log == old(server.log) + if err then [SourceFailed] else []
      ensures err ==> page != []
      ensures !err ==> (ok <==> Aligned(page, |src|, partSize))
      ensures !err && ok ==> valid.Keys == Kept(page, src, partSize)
      ensures !err && ok ==> forall n :: n in valid ==>
                1 <= n <= TotalParts(|src|, partSize) <= PartCount(|src|, partSize)
                && PartReady(server.uploads[id].parts, n, valid[n], Slice(src, n, partSize))
    {
      err, valid, ok := false, map[], false;
      var totalParts := TotalParts(|src|, partSize);
      TotalPartsExactIff(|src|, partSize);
      for k := 0 to |page|
        invariant server.log == old(server.log)
        invariant forall j :: 0 <= j < k ==> !Misaligned(page[j], |src|, partSize)
        invariant valid.Keys == Kept(page[..k], src, partSize)
        invariant forall n :: n in valid ==>
                    1 <= n <= totalParts
                    && PartReady(server.uploads[id].parts, n, valid[n], Slice(src, n, partSize))
      {
        var e := page[k];
        assert ListedOk(server.uploads, id, e);
        if e.n < 1 || e.n > totalParts || e.size != PartBytes(e.n, |src|, partSize) {
          return false, false, map[];
        }
        var matches;
        err, matches := PartMD5Matches(src, e.n, e.etag);
        if err { return true, false, map[]; }
        KeptNext(page, k, src);
        if matches {
          assert HonestPart(server.uploads[id].parts[e.n]);
          valid := valid[e.n := e.etag];
        }
      }
      assert page[..|page|] == page;
      err, ok := false, true;
    }

    lemma KeptNext(page: seq<Listed>, k: nat, src: Bytes)
      requires Valid() && k < |page|
      ensures Kept(page[..k + 1], src, partSize)
              == Kept(page[..k], src, partSize) + if Verified(page[k], src, partSize) then {page[k].n} else {}
    {
      var now, before := page[..k + 1], page[..k];
      forall n | n in Kept(before, src, partSize) ensures n in Kept(now, src, partSize) {
        var j :| 0 <= j < k && Verified(before[j], src, partSize) && before[j].n == n;
        assert Verified(now[j], src, partSize);
      }
      if Verified(page[k], src, partSize) { assert Verified(now[k], src, partSize); }
      forall n | n in Kept(now, src, partSize)
        ensures n in Kept(before, src, partSize) || (n == page[k].n && Verified(page[k], src, partSize))
      {
        var j :| 0 <= j < k + 1 && Verified(now[j], src, partSize) && now[j].n == n;
        if j < k { assert Verified(before[j], src, partSize) && before[j].n == n; }
      }
    }

    /** Uploads every part that is not in existing, at most `concurrency` at a time. The
        loop is the scheduler: each turn either the dispatching loop goes on, or one
        goroutine reads and sends its part, gets its answer, or records it, so every
        order of completion is a run of it. If the int32 counter overruns the last part,
        the next goroutine fails or indexes outside the slice and panics. */
    method UploadMissingParts(key: string, id: UploadId, src: Bytes, totalParts: int, existing: map<int, ETag>,
                              completed: array<Slot>)
      returns (err: bool, panics: bool, ghost calls: seq<Call>)
      requires Valid() && server.Tidy(key) && server.Has(id, key)
      requires totalParts == TotalParts(|src|, partSize) == completed.Length <= PartCount(|src|, partSize)
      requires forall n :: n in existing ==> 1 <= n <= totalParts
      requires forall n :: n in existing ==>
                 SlotReady(server.uploads[id].parts, completed[n - 1], n, Wanted(src, partSize)[n - 1])
      modifies server, completed
      ensures server.Onward(key) && KeepsOwn(old(server.uploads), server.uploads, key, id)
      ensures Lookup(server.objects, key) == Lookup(old(server.objects), key)
      ensures !err ==> InPartOrder(server.uploads[id].parts, completed[..], Wanted(src, partSize))
      ensures server.log == old(server.log) + calls
      ensures PartTrace(JobFor(id, src, partSize, existing.Keys), calls, concurrency, err)
      ensures panics ==> err && totalParts == INT32_MAX
    {
      ghost var job := JobFor(id, src, partSize, existing.Keys);
      var f := TAKE_OFF;
      TakeOff(job, server.uploads[id].parts, completed[..]);
      LoggedTakeOff(job, concurrency);
      calls, panics := [], false;
      while (!f.stopped && f.n <= totalParts) || !f.Landed()
        invariant server.Onward(key) && KeepsOwn(old(server.uploads), server.uploads, key, id)
        invariant Lookup(server.objects, key) == Lookup(old(server.objects), key)
        invariant server.log == old(server.log) + calls
        invariant Steady(job, f, server.uploads[id].parts, completed[..], calls, concurrency)
        decreases Rank(f, totalParts)
      {
        f, calls := Turn(job, key, id, src, f, existing, completed, old(server.uploads), old(server.log), calls);
      }
      SteadyLanding(job, f, server.uploads[id].parts, completed[..], calls, concurrency);
      err := f.firstErr;
      if !f.stopped && totalParts == INT32_MAX {
        OverrunTrace(job, calls, concurrency, err);
        panics := server.CounterOverruns();
        err, calls := true, calls + [Overran];
      }
    }

    /** One turn of anyone who can go on, after others have had theirs. `was` and `before` are
        the uploads and the history before the first turn. */
    method Turn(ghost job: Job, key: string, id: UploadId, src: Bytes, f: Flight, existing: map<int, ETag>,
                completed: array<Slot>, ghost was: map<UploadId, Upload>, ghost before: seq<Call>,
                ghost calls: seq<Call>)
      returns (g: Flight, ghost more: seq<Call>)
      requires Valid() && server.Tidy(key) && server.Has(id, key) && server.log == before + calls
      requires job == JobFor(id, src, partSize, existing.Keys)
      requires completed.Length == TotalParts(|src|, partSize) <= PartCount(|src|, partSize)
      requires Steady(job, f, server.uploads[id].parts, completed[..], calls, concurrency)
      requires (!f.stopped && f.n <= completed.Length) || !f.Landed()
      requires KeepsOwn(was, server.uploads, key, id)
      modifies server, completed
      ensures server.Onward(key) && KeepsOwn(was, server.uploads, key, id)
      ensures Lookup(server.objects, key) == Lookup(old(server.objects), key)
      ensures Steady(job, g, server.uploads[id].parts, completed[..], more, concurrency)
      ensures server.log == before + more
      ensures Rank(g, completed.Length) < Rank(f, completed.Length)
    {
      server.Others(key);
      OwnKeptKeepsOwn(old(server.uploads), server.uploads, key, id);
      ghost var mid := server.uploads;
      KeepsOwnTwice(was, old(server.uploads), mid, key, id);
      g, more := Move(job, key, id, src, f, existing, completed, before, calls);
      KeepsOwnTwice(was, mid, server.uploads, key, id);
    }

    method Move(ghost job: Job, key: string, id: UploadId, src: Bytes, f: Flight, existing: map<int, ETag>,
                completed: array<Slot>, ghost before: seq<Call>, ghost calls: seq<Call>)
      returns (g: Flight, ghost more: seq<Call>)
      requires Valid() && server.Tidy(key) && server.Has(id, key) && server.log == before + calls
      requires job == JobFor(id, src, partSize, existing.Keys)
      requires completed.Length == TotalParts(|src|, partSize) <= PartCount(|src|, partSize)
      requires Steady(job, f, server.uploads[id].parts, completed[..], calls, concurrency)
      requires (!f.stopped && f.n <= completed.Length) || !f.Landed()
      modifies server`uploads, server`log, completed
      ensures server.Tidy(key) && KeepsOwn(old(server.uploads), server.uploads, key, id)
      ensures Steady(job, g, server.uploads[id].parts, completed[..], more, concurrency)
      ensures server.log == before + more
      ensures Rank(g, completed.Length) < Rank(f, completed.Length)
    {
      var which: int := *;
      more := calls;
      if !f.stopped && f.n <= completed.Length && (f.n in existing || f.Busy() < concurrency)
         && (which == 0 || f.Landed()) {
        g, more := Dispatch(job, id, f, existing, completed[..], before, calls);
      } else if |f.acked| > 0 && (which == 1 || (|f.started| == 0 && |f.asked| == 0)) {
        g := Record(job, id, f, completed, calls);
      } else if |f.asked| > 0 && (which == 2 || |f.started| == 0) {
        g, more := Answer(job, key, id, f, completed[..], before, calls);
      } else {
        g, more := SendPart(job, id, src, f, completed[..], before, calls);
      }
    }

    /** The dispatching loop: pass over a part already stored, or look at the context and
        at firstErr, then break off or start a goroutine. It reads firstErr without
        synchronization, so it may notice another goroutine's error late. */
    method Dispatch(ghost job: Job, ghost id: UploadId, f: Flight, existing: map<int, ETag>, ghost slots: seq<Slot>,
                    ghost before: seq<Call>, ghost calls: seq<Call>)
      returns (g: Flight, ghost more: seq<Call>)
      requires id in server.uploads && server.log == before + calls
      requires Steady(job, f, server.uploads[id].parts, slots, calls, concurrency)
      requires existing.Keys == job.kept && (f.n in existing || f.Busy() < concurrency)
      requires !f.stopped && f.n <= |slots|
      modifies server`log
      ensures Steady(job, g, server.uploads[id].parts, slots, more, concurrency) && server.log == before + more
      ensures Rank(g, |slots|) < Rank(f, |slots|)
    {
      more := calls;
      if f.n in existing {
        LoggedNext(job, f, calls, concurrency);
        PassOver(job, f, server.uploads[id].parts, slots);
        return f.Next(), calls;
      }
      g := f;
      var cancelled := server.ContextIsDone();
      more := calls + [ContextLooked(cancelled)];
      assert server.log == (before + calls) + [ContextLooked(cancelled)] == before + more;
      LoggedLook(job, f, calls, concurrency, cancelled);
      var noticed: bool := *;
      if cancelled {
        ErrorSeen(job, f, server.uploads[id].parts, slots, true);
        g := f.Err(true);
      } else if g.firstErr && noticed {
        ErrorSeen(job, g, server.uploads[id].parts, slots, true);
        LoggedStop(job, g, more, concurrency);
        g := g.Err(true);
      } else {
        Dispatched(job, g, server.uploads[id].parts, slots);
        LoggedStart(job, g, more, concurrency);
        g := g.Start();
      }
    }

    /** Some goroutine opens the source at its part, reads it and sends the request. */
    method SendPart(ghost job: Job, id: UploadId, src: Bytes, f: Flight, ghost slots: seq<Slot>,
                    ghost before: seq<Call>, ghost calls: seq<Call>)
      returns (g: Flight, ghost more: seq<Call>)
      requires Valid() && job.id == id && job.want == Wanted(src, partSize)
      requires |job.want| == TotalParts(|src|, partSize) <= PartCount(|src|, partSize) && |f.started| > 0
      requires id in server.uploads && server.log == before + calls
      requires Steady(job, f, server.uploads[id].parts, slots, calls, concurrency)
      modifies server`log
      ensures Steady(job, g, server.uploads[id].parts, slots, more, concurrency) && server.log == before + more
      ensures Rank(g, |slots|) < Rank(f, |slots|)
    {
      ghost var some := Member(f.started);
      var part :| part in f.started;
      StartedIsMissing(job, f, calls, part);
      WantedAt(src, partSize, part);
      var err, body;
      ghost var call;
      err, body, call := ReadAndSend(id, src, part);
      SteadyRead(job, f, server.uploads[id].parts, slots, calls, concurrency, part, err, body);
      assert server.log == (before + calls) + [call] == before + (calls + [call]);
      g, more := AfterRead(f, part, err, body), calls + [call];
    }

    /** uploadPart up to the request: opens the source at the part, reads it and sends it. */
    method ReadAndSend(id: UploadId, src: Bytes, n: int) returns (err: bool, body: Bytes, ghost call: Call)
      requires Valid() && 1 <= n <= PartCount(|src|, partSize)
      modifies server`log
      ensures !err ==> body == Slice(src, n, partSize)
      ensures server.log == old(server.log) + [call] && call == if err then SourceFailed else PartBegun(id, n, body)
    {
      err, body := ReadPart(src, n);
      call := SourceFailed;
      if !err {
        server.BeginPart(id, n, body);
        call := PartBegun(id, n, body);
      }
    }

    /** Some goroutine gets its answer: the part is stored, or the request failed with the
        part as it was or already replaced by the right bytes. */
    method Answer(ghost job: Job, ghost key: string, id: UploadId, f: Flight, ghost slots: seq<Slot>,
                  ghost before: seq<Call>, ghost calls: seq<Call>)
      returns (g: Flight, ghost more: seq<Call>)
      requires job.id == id && server.Tidy(key) && server.Has(id, key) && |f.asked| > 0
      requires Steady(job, f, server.uploads[id].parts, slots, calls, concurrency) && server.log == before + calls
      modifies server`uploads, server`log
      ensures server.Tidy(key) && KeepsOwn(old(server.uploads), server.uploads, key, id)
      ensures Steady(job, g, server.uploads[id].parts, slots, more, concurrency) && server.log == before + more
      ensures Rank(g, |slots|) < Rank(f, |slots|)
    {
      ghost var some := Member(f.asked);
      var part :| part in f.asked;
      assert f.bodies[part] == job.want[part - 1] && PartBegun(id, part, f.bodies[part]) in calls;
      ghost var parts := server.uploads[id].parts;
      var failed, etag := server.EndPart(id, part, f.bodies[part]);
      ghost var stored := Part(f.bodies[part], etag);
      WithPartKeepsOwn(old(server.uploads), key, id, part, stored);
      OthersKeptTwice(server.others.uploads, old(server.uploads), server.uploads, key);
      more := calls + [PartEnded(id, part, failed)];
      assert server.log == (before + calls) + [PartEnded(id, part, failed)] == before + more;
      if failed {
        SteadyAnswerFailed(job, f, parts, slots, calls, concurrency, part, stored);
        g := f.Lose(part);
      } else {
        SteadyAnswerOk(job, f, parts, slots, calls, concurrency, part, etag);
        g := f.Gain(part, etag);
      }
    }

    /** Some goroutine that has its ETag writes its slot and frees its token. */
    method Record(ghost job: Job, ghost id: UploadId, f: Flight, completed: array<Slot>, ghost calls: seq<Call>)
      returns (g: Flight)
      requires id in server.uploads && |f.acked| > 0
      requires Steady(job, f, server.uploads[id].parts, completed[..], calls, concurrency)
      modifies completed
      ensures Steady(job, g, server.uploads[id].parts, completed[..], calls, concurrency)
      ensures Rank(g, completed.Length) < Rank(f, completed.Length)
    {
      ghost var some := Member(f.acked);
      var part :| part in f.acked;
      SteadyRecord(job, f, server.uploads[id].parts, completed[..], calls, concurrency, part);
      ghost var before := completed[..];
      completed[part - 1] := Filled(part, f.tags[part]);
      assert completed[..] == before[part - 1 := Filled(part, f.tags[part])];
      g := f.Free(part);
    }

    /** sort.Slice by part number: some sorted rearrangement. */
    method SortCompleted(parts: array<Slot>) returns (sorted: seq<Slot>)
      requires Ascending(parts[..])
      ensures IsSortOf(sorted, parts[..])
    {
      assert IsSortOf(parts[..], parts[..]);
      sorted :| IsSortOf(sorted, parts[..]);
    }

    /** Seeds the completed slice with the parts that are kept. */
    method SeedCompleted(valid: map<int, ETag>, totalParts: nat) returns (completed: array<Slot>)
      requires forall n :: n in valid ==> 1 <= n <= totalParts
      ensures fresh(completed) && completed.Length == totalParts
      ensures forall k :: 0 <= k < totalParts ==>
                completed[k] == if k + 1 in valid then Filled(k + 1, valid[k + 1]) else Unfilled
    {
      completed := new Slot[totalParts](_ => Unfilled);
      for k := 0 to totalParts
        invariant forall j :: 0 <= j < k ==>
                    completed[j] == if j + 1 in valid then Filled(j + 1, valid[j + 1]) else Unfilled
        invariant forall j :: k <= j < totalParts ==> completed[j] == Unfilled
      {
        if k + 1 in valid { completed[k] := Filled(k + 1, valid[k + 1]); }
      }
    }

    /** Continues an interrupted upload: keeps the stored parts that match, sends each
        other part once, and completes; or, if the stored parts do not fit, aborts and
        starts clean. Whatever was stored, success means the object is the source, or what
        the code counts of it. */
    method ResumeMultipart(key: string, id: UploadId, src: Bytes)
      returns (err: bool, panics: bool, ghost calls: seq<Call>)
      requires Valid() && |src| <= INT64_MAX && server.Tidy(key) && server.Has(id, key)
      modifies server
      ensures server.Onward(key)
      ensures StoresEither(Lookup(old(server.objects), key), Lookup(server.objects, key), src, Counted(src, partSize),
                           err)
      ensures Lookup(server.objects, key) == ObjectAfter(Lookup(old(server.objects), key), calls)
      ensures server.log == old(server.log) + calls && calls != []
      ensures !panics ==> ResumeTrace(calls, key, id, src, partSize, concurrency, err)
      ensures panics ==> err && (TotalParts(|src|, partSize) < 0 || TotalParts(|src|, partSize) == INT32_MAX)
    {
      panics := false;
      var ok, valid;
      ghost var call, more;
      err, ok, valid, call := ValidExistingParts(key, id, src);
      if err {
        calls := [call] + if call.err then [] else [SourceFailed];
        return;
      }
      if ok {
        err, panics, more := FinishUpload(key, id, src, valid);
      } else {
        err, more := StartClean(key, id, src);
      }
      calls := [call] + more;
    }

    /** Parts that do not fit are given up for a fresh upload. */
    method StartClean(key: string, id: UploadId, src: Bytes) returns (err: bool, ghost calls: seq<Call>)
      requires server.Tidy(key) && server.Has(id, key)
      modifies server
      ensures server.Onward(key)
      ensures Stores(Lookup(old(server.objects), key), Lookup(server.objects, key), src, err)
      ensures Lookup(server.objects, key) == ObjectAfter(Lookup(old(server.objects), key), calls)
      ensures server.log == old(server.log) + calls
      ensures calls != [] && calls[0] == Aborted(id) && FreshTrace(calls[1..], key, src, err)
    {
      server.Others(key);
      OwnKeptKeepsOwn(old(server.uploads), server.uploads, key, id);
      RemovingKeepsOthers(server.uploads, key, id);
      ghost var mid := server.uploads;
      server.AbortMultipartUpload(id);
      OthersKeptTwice(server.others.uploads, mid, server.uploads, key);
      ghost var more;
      err, more := FreshMultipart(key, src);
      calls := [Aborted(id)] + more;
      assert calls[1..] == more;
    }

    /** Seeds the kept parts, uploads the others and completes. A negative count makes the
        allocation of the slice panic. */
    method FinishUpload(key: string, id: UploadId, src: Bytes, valid: map<int, ETag>)
      returns (err: bool, panics: bool, ghost calls: seq<Call>)
      requires Valid() && |src| <= INT64_MAX && server.Tidy(key) && server.Has(id, key)
      requires forall n :: n in valid ==>
                 1 <= n <= TotalParts(|src|, partSize) <= PartCount(|src|, partSize)
                 && PartReady(server.uploads[id].parts, n, valid[n], Slice(src, n, partSize))
      modifies server
      ensures server.Onward(key)
      ensures Stores(Lookup(old(server.objects), key), Lookup(server.objects, key), Counted(src, partSize), err)
      ensures Lookup(server.objects, key) == ObjectAfter(Lookup(old(server.objects), key), calls)
      ensures server.log == old(server.log) + calls
      ensures !panics ==> FinishTrace(JobFor(id, src, partSize, valid.Keys), calls, concurrency, err)
      ensures panics ==> err && (TotalParts(|src|, partSize) < 0 || TotalParts(|src|, partSize) == INT32_MAX)
    {
      TotalPartsExactIff(|src|, partSize);
      calls := [];
      if TotalParts(|src|, partSize) < 0 { return true, true, calls; }
      var completed;
      err, panics, completed, calls := SendMissing(key, id, src, valid);
      PartsStoreNothing(JobFor(id, src, partSize, valid.Keys), calls, concurrency);
      if err { return; }
      ghost var call;
      err, call := CompleteResumed(key, id, src, completed);
      assert server.log == (old(server.log) + calls) + [call] == old(server.log) + (calls + [call]);
      CompleteFinishes(JobFor(id, src, partSize, valid.Keys), calls, call, concurrency, err);
      calls := calls + [call];
    }

    /** The completed slice: seeded with the kept parts, then filled by uploading the rest. */
    method SendMissing(key: string, id: UploadId, src: Bytes, valid: map<int, ETag>)
      returns (err: bool, panics: bool, completed: array<Slot>, ghost calls: seq<Call>)
      requires Valid() && |src| <= INT64_MAX && server.Tidy(key) && server.Has(id, key)
      requires 0 <= TotalParts(|src|, partSize) <= PartCount(|src|, partSize)
      requires forall n :: n in valid ==>
                 1 <= n <= TotalParts(|src|, partSize)
                 && PartReady(server.uploads[id].parts, n, valid[n], Slice(src, n, partSize))
      modifies server
      ensures server.Onward(key) && server.Has(id, key)
      ensures Lookup(server.objects, key) == Lookup(old(server.objects), key)
      ensures completed.Length == TotalParts(|src|, partSize)
      ensures !err ==> InPartOrder(server.uploads[id].parts, completed[..], Wanted(src, partSize))
      ensures server.log == old(server.log) + calls
      ensures PartTrace(JobFor(id, src, partSize, valid.Keys), calls, concurrency, err)
      ensures panics ==> err && TotalParts(|src|, partSize) == INT32_MAX
    {
      var totalParts := TotalParts(|src|, partSize);
      completed := SeedCompleted(valid, totalParts);
      assert forall n :: n in valid ==> completed[n - 1] == Filled(n, valid[n]);
      err, panics, calls := UploadMissingParts(key, id, src, totalParts, valid, completed);
    }

    /** Sorts the filled slice and completes the upload with it. */
    method CompleteResumed(key: string, id: UploadId, src: Bytes, completed: array<Slot>)
      returns (err: bool, ghost call: Call)
      requires Valid() && |src| <= INT64_MAX && server.Tidy(key) && server.Has(id, key)
      requires completed.Length == TotalParts(|src|, partSize)
      requires InPartOrder(server.uploads[id].parts, completed[..], Wanted(src, partSize))
      modifies server
      ensures server.Onward(key)
      ensures Stores(Lookup(old(server.objects), key), Lookup(server.objects, key), Counted(src, partSize), err)
      ensures Lookup(server.objects, key) == ObjectAfter(Lookup(old(server.objects), key), [call])
      ensures server.log == old(server.log) + [call]
      ensures call.Completed? && call.id == id && call.err == err && InOrder(call.list, completed.Length)
    {
      ghost var parts := server.uploads[id].parts;
      server.Others(key);
      OwnKeptKeepsOwn(old(server.uploads), server.uploads, key, id);
      RemovingKeepsOthers(server.uploads, key, id);
      ghost var mid := server.uploads;
      TotalPartsExactIff(|src|, partSize);
      InPartOrderAccepted(parts, completed[..], Wanted(src, partSize));
      var list := SortCompleted(completed);
      SortIsIdentity(list, completed[..]);
      AssembleIsJoin(parts, list, src, partSize);
      ghost var stored;
      err, stored := server.CompleteMultipartUpload(id, list);
      OthersKeptTwice(server.others.uploads, mid, server.uploads, key);
      call := Completed(id, list, err, stored);
    }

    method FreshMultipart(key: string, src: Bytes) returns (err: bool, ghost calls: seq<Call>)
      requires server.Tidy(key)
      modifies server
      ensures server.Onward(key)
      ensures Stores(Lookup(old(server.objects), key), Lookup(server.objects, key), src, err)
      ensures Lookup(server.objects, key) == ObjectAfter(Lookup(old(server.objects), key), calls)
      ensures server.log == old(server.log) + calls && FreshTrace(calls, key, src, err)
    {
      var body;
      calls := [SourceFailed];
      err, body := OpenAt(src, 0);
      if err { return; }
      assert body == src;
      server.Others(key);
      ghost var mid, stored := server.uploads, None;
      err, stored := server.ManagedUpload(key, body);
      OthersKeptTwice(server.others.uploads, mid, server.uploads, key);
      calls := [Managed(key, src, err, stored)];
    }

    /** Put from any server state and for any size, with others at work on other keys between
        any two of its calls: for the sizes whose part arithmetic is right, nil means the
        object is exactly the source, and at no outcome is it anything but what it was or the
        source; for the others, a resumed upload can panic or store only the parts that were
        counted. Whatever is at other keys is as others have left it. */
    method Put(key: string, src: Bytes) returns (err: bool, panics: bool, ghost calls: seq<Call>)
      requires Valid() && |src| <= INT64_MAX && server.Tidy(key)
      modifies server
      ensures server.Onward(key)
      ensures Safe(|src|, partSize) ==>
                !panics && Stores(Lookup(old(server.objects), key), Lookup(server.objects, key), src, err)
      ensures StoresEither(Lookup(old(server.objects), key), Lookup(server.objects, key), src, Counted(src, partSize),
                           err)
      ensures Lookup(server.objects, key) == ObjectAfter(Lookup(old(server.objects), key), calls)
      ensures server.log == old(server.log) + calls
      ensures !panics ==> PutTrace(calls, key, src, partSize, concurrency, err)
      ensures panics ==> err
    {
      panics := false;
      if |src| <= partSize {
        err, calls := FreshMultipart(key, src);
        return;
      }
      CountedIsSourceUnlessUnsafe(src, partSize);
      var found: Option<UploadId>;
      ghost var call, more;
      err, found, call := FindInProgressUpload(key);
      calls := [call];
      if err { return; }
      if found.Some? {
        err, panics, more := ResumeMultipart(key, found.value, src);
      } else {
        err, more := FreshMultipart(key, src);
      }
      AfterListing(call, more, key, src, partSize, concurrency, err, Lookup(old(server.objects), key));
      calls := [call] + more;
    }

    /** Any number of attempts, each interrupted or not, with anything at all left among
        the key's uploads in between: once one attempt returns nil the object is the
        source, and until then it is what it was before or already the source. */
    method Attempts(key: string, src: Bytes, most: nat) returns (err: bool)
      requires Valid() && |src| <= INT64_MAX && server.Tidy(key)
      modifies server
      ensures server.Onward(key)
      ensures Safe(|src|, partSize) ==>
                Stores(Lookup(old(server.objects), key), Lookup(server.objects, key), src, err)
      ensures StoresEither(Lookup(old(server.objects), key), Lookup(server.objects, key), src, Counted(src, partSize),
                           err)
    {
      err := true;
      ghost var was := Lookup(server.objects, key);
      for i := 0 to most
        invariant err && server.Onward(key)
        invariant Safe(|src|, partSize) ==> Stores(was, Lookup(server.objects, key), src, err)
        invariant StoresEither(was, Lookup(server.objects, key), src, Counted(src, partSize), err)
      {
        err := Attempt(key, src);
        if !err { return; }
      }
    }

    /** One attempt, with anything left behind by earlier ones. */
    method Attempt(key: string, src: Bytes) returns (err: bool)
      requires Valid() && |src| <= INT64_MAX && server.Tidy(key)
      modifies server
      ensures server.Onward(key)
      ensures Safe(|src|, partSize) ==>
                Stores(Lookup(old(server.objects), key), Lookup(server.objects, key), src, err)
      ensures StoresEither(Lookup(old(server.objects), key), Lookup(server.objects, key), src, Counted(src, partSize),
                           err)
    {
      ghost var mid := server.uploads;
      server.LeaveBehind(key);
      OthersKeptTwice(server.others.uploads, mid, server.uploads, key);
      var panics;
      ghost var calls;
      err, panics, calls := Put(key, src);
    }
  }
}
