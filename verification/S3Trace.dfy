/** What a Put asks of the server, read off the server's history: which calls, in which
    order, and what each answer may be followed by. */
module S3Trace {
  import opened Arithmetic
  import opened Transfer
  import opened Parts
  import opened Bucket

  /** The missing parts of one upload: want[k] is part k + 1, kept are those not sent. */
  datatype Job = Job(id: UploadId, want: seq<Bytes>, kept: set<int>)
  {
    predicate Missing(n: int) { 1 <= n <= |want| && n !in kept }
  }

  // ---- part requests ----

  predicate Begins(c: Call, n: int) { c.PartBegun? && c.n == n }
  predicate Ends(c: Call, n: int) { c.PartEnded? && c.n == n }

  /** How often a request for part n left, and how often an answer to one arrived. */
  function Sent(calls: seq<Call>, n: int): nat {
    if calls == [] then 0 else Sent(calls[..|calls| - 1], n) + OneIf(Begins(calls[|calls| - 1], n))
  }

  function Answered(calls: seq<Call>, n: int): nat {
    if calls == [] then 0 else Answered(calls[..|calls| - 1], n) + OneIf(Ends(calls[|calls| - 1], n))
  }

  /** How many requests await their answers. */
  function Open(calls: seq<Call>): int {
    if calls == [] then 0
    else Open(calls[..|calls| - 1]) + OneIf(calls[|calls| - 1].PartBegun?) - OneIf(calls[|calls| - 1].PartEnded?)
  }

  /** How many looks that found the context live no request has used up. */
  function Licences(calls: seq<Call>): int {
    if calls == [] then 0
    else
      var c := calls[|calls| - 1];
      Licences(calls[..|calls| - 1]) + OneIf(c == ContextLooked(false)) - OneIf(c.PartBegun?)
  }

  /** The context was found done. */
  predicate FoundDone(calls: seq<Call>) {
    calls != [] && (calls[|calls| - 1] == ContextLooked(true) || FoundDone(calls[..|calls| - 1]))
  }

  /** A request for a missing part with that part's bytes, an answer, a look at the context,
      or a failure. */
  predicate PartCall(job: Job, c: Call) {
    match c
    case PartBegun(id, n, body) => id == job.id && job.Missing(n) && body == job.want[n - 1]
    case PartEnded(id, _, _) => id == job.id
    case SourceFailed => true
    case ContextLooked(_) => true
    case Overran => true
    case _ => false
  }

  /** Each part was sent at most once and answered at most as often, at most cap requests
      are open, and each follows a look of its own that found the context live. */
  ghost predicate Under(calls: seq<Call>, cap: nat) {
    && (forall n :: Answered(calls, n) <= Sent(calls, n) <= 1)
    && 0 <= Open(calls) <= cap && Licences(calls) >= 0
  }

  /** Part requests only, and so after every one of them; once the context was found done
      nobody looks again, so no further part is taken up. */
  ghost predicate PartTraffic(job: Job, calls: seq<Call>, cap: nat) {
    calls != [] ==>
      && PartCall(job, calls[|calls| - 1]) && Under(calls, cap)
      && (calls[|calls| - 1].ContextLooked? ==> !FoundDone(calls[..|calls| - 1]))
      && PartTraffic(job, calls[..|calls| - 1], cap)
  }

  /** All of uploadMissingParts: every request is answered, err says whether anything
      failed, and if not, exactly the missing parts were sent, once each. */
  ghost predicate PartTrace(job: Job, calls: seq<Call>, cap: nat, err: bool) {
    && PartTraffic(job, calls, cap)
    && Open(calls) == 0 && (forall n :: Answered(calls, n) == Sent(calls, n))
    && (err <==> AnyFails(calls))
    && (!err ==> forall n :: Sent(calls, n) == OneIf(job.Missing(n)))
  }

  // ---- whole attempts ----

  /** The complete request lists parts 1, 2, ... up to the last. */
  predicate InOrder(list: seq<Slot>, total: nat) {
    |list| == total && forall k :: 0 <= k < |list| ==> list[k].Filled? && list[k].n == k + 1
  }

  /** Send what is missing; complete if and only if nothing failed. */
  ghost predicate FinishTrace(job: Job, calls: seq<Call>, cap: nat, err: bool) {
    || (err && PartTrace(job, calls, cap, true))
    || (calls != []
        && var last := calls[|calls| - 1];
           && last.Completed? && last.id == job.id && InOrder(last.list, |job.want|) && last.err == err
           && PartTrace(job, calls[..|calls| - 1], cap, false))
  }

  predicate FreshTrace(calls: seq<Call>, key: string, src: Bytes, err: bool) {
    || (err && calls == [SourceFailed])
    || (|calls| == 1 && calls[0].Managed? && calls[0].key == key && calls[0].body == src && calls[0].err == err)
  }

  /** A listed part whose ETag is the MD5 of the local part. */
  predicate Verified(e: Listed, src: Bytes, partSize: nat)
    requires partSize > 0
  {
    1 <= e.n <= PartCount(|src|, partSize) && e.etag == Md5(Slice(src, e.n, partSize))
  }

  /** The entry does not fit this part size and file. */
  predicate Misaligned(e: Listed, size: nat, partSize: nat)
    requires partSize > 0
  {
    e.n < 1 || e.n > TotalParts(size, partSize) || e.size != PartBytes(e.n, size, partSize)
  }

  predicate Aligned(page: seq<Listed>, size: nat, partSize: nat)
    requires partSize > 0
  {
    forall k :: 0 <= k < |page| ==> !Misaligned(page[k], size, partSize)
  }

  /** The parts that need not be sent again. */
  ghost function Kept(page: seq<Listed>, src: Bytes, partSize: nat): set<int>
    requires partSize > 0
  {
    set k | 0 <= k < |page| && Verified(page[k], src, partSize) :: page[k].n
  }

  /** The slices of the parts that the code counts. */
  ghost function Wanted(src: Bytes, partSize: nat): seq<Bytes>
    requires partSize > 0
  {
    var total := TotalParts(|src|, partSize);
    if 0 <= total <= PartCount(|src|, partSize) then Slices(src, partSize)[..total] else []
  }

  lemma WantedAt(src: Bytes, partSize: nat, n: int)
    requires partSize > 0 && 1 <= n <= TotalParts(|src|, partSize) <= PartCount(|src|, partSize)
    ensures |Wanted(src, partSize)| == TotalParts(|src|, partSize)
    ensures Wanted(src, partSize)[n - 1] == Slice(src, n, partSize)
  {}

  ghost function JobFor(id: UploadId, src: Bytes, partSize: nat, kept: set<int>): Job
    requires partSize > 0
  {
    Job(id, Wanted(src, partSize), kept)
  }

  /** List the stored parts; then give up, start clean or finish. */
  ghost predicate ResumeTrace(calls: seq<Call>, key: string, id: UploadId, src: Bytes, partSize: nat, cap: nat,
                              err: bool)
    requires partSize > 0
  {
    && calls != [] && calls[0].ListedParts? && calls[0].id == id
    && var page, rest := calls[0].page, calls[1..];
       if calls[0].err then err && rest == []
       else
         || (err && page != [] && rest == [SourceFailed])
         || (!Aligned(page, |src|, partSize) && rest != [] && rest[0] == Aborted(id)
             && FreshTrace(rest[1..], key, src, err))
         || (Aligned(page, |src|, partSize)
             && FinishTrace(JobFor(id, src, partSize, Kept(page, src, partSize)), rest, cap, err))
  }

  /** The first listed upload of exactly this key. */
  function FirstOf(page: seq<(string, UploadId)>, key: string): Option<UploadId> {
    if page == [] then None else if page[0].0 == key then Some(page[0].1) else FirstOf(page[1..], key)
  }

  /** Put: one part's worth is sent afresh; otherwise look for an upload to resume. */
  ghost predicate PutTrace(calls: seq<Call>, key: string, src: Bytes, partSize: nat, cap: nat, err: bool)
    requires partSize > 0
  {
    if |src| <= partSize then FreshTrace(calls, key, src, err)
    else
      && calls != [] && calls[0].ListedUploads? && calls[0].prefix == key
      && if calls[0].err then err && calls[1..] == []
         else
           match FirstOf(calls[0].uploads, key)
           case None => FreshTrace(calls[1..], key, src, err)
           case Some(id) => ResumeTrace(calls[1..], key, id, src, partSize, cap, err)
  }

  // ---- one more call ----

  lemma Append(calls: seq<Call>, c: Call)
    ensures forall n :: Sent(calls + [c], n) == Sent(calls, n) + OneIf(Begins(c, n))
    ensures forall n :: Answered(calls + [c], n) == Answered(calls, n) + OneIf(Ends(c, n))
    ensures Open(calls + [c]) == Open(calls) + OneIf(c.PartBegun?) - OneIf(c.PartEnded?)
    ensures Licences(calls + [c]) == Licences(calls) + OneIf(c == ContextLooked(false)) - OneIf(c.PartBegun?)
    ensures FoundDone(calls + [c]) <==> FoundDone(calls) || c == ContextLooked(true)
  {
    assert (calls + [c])[..|calls|] == calls;
  }

  lemma AppendFails(calls: seq<Call>, c: Call)
    ensures AnyFails(calls + [c]) <==> AnyFails(calls) || Fails(c)
  {
    assert (calls + [c])[..|calls|] == calls;
  }

  /** A request is new and has room; an answer belongs to an open request. */
  ghost predicate Timely(calls: seq<Call>, c: Call, cap: nat) {
    && (c.PartBegun? ==> Sent(calls, c.n) == 0 && Open(calls) < cap && Licences(calls) > 0)
    && (c.ContextLooked? ==> !FoundDone(calls))
    && (c.PartEnded? ==> Sent(calls, c.n) > Answered(calls, c.n) && Open(calls) > 0)
  }

  lemma TrafficAppend(job: Job, calls: seq<Call>, c: Call, cap: nat)
    requires PartTraffic(job, calls, cap) && PartCall(job, c) && Timely(calls, c, cap)
    ensures PartTraffic(job, calls + [c], cap)
  {
    Append(calls, c);
    assert (calls + [c])[..|calls|] == calls;
    if calls == [] { assert forall n :: Sent(calls, n) == 0 && Answered(calls, n) == 0; }
  }

  // ---- what the traces mean ----

  lemma {:induction false} SentConcat(a: seq<Call>, b: seq<Call>, n: int)
    ensures Sent(a + b, n) == Sent(a, n) + Sent(b, n)
    decreases |b|
  {
    if b == [] {
      assert a + b == a;
    } else {
      assert (a + b)[..|a + b| - 1] == a + b[..|b| - 1];
      SentConcat(a, b[..|b| - 1], n);
    }
  }

  lemma {:induction false} OnlyPartCalls(job: Job, calls: seq<Call>, cap: nat, k: nat)
    requires PartTraffic(job, calls, cap) && k < |calls|
    ensures PartCall(job, calls[k])
  {
    if k < |calls| - 1 { OnlyPartCalls(job, calls[..|calls| - 1], cap, k); }
  }

  /** The bounds hold at every moment, not only at the end. */
  lemma {:induction false} UnderThroughout(job: Job, calls: seq<Call>, cap: nat, k: nat)
    requires PartTraffic(job, calls, cap) && k <= |calls|
    ensures Under(calls[..k], cap)
  {
    if k == |calls| {
      assert calls[..k] == calls;
    } else {
      assert calls[..k] == calls[..|calls| - 1][..k];
      UnderThroughout(job, calls[..|calls| - 1], cap, k);
    }
  }

  /** A complete call comes last, after a request for every missing part and no failure;
      so a failed part excludes it. */
  lemma CompleteMeansAllSent(job: Job, calls: seq<Call>, cap: nat, err: bool, k: nat)
    requires FinishTrace(job, calls, cap, err) && k < |calls| && calls[k].Completed?
    ensures k == |calls| - 1 && calls[k].err == err && !AnyFails(calls[..k])
    ensures forall n :: Sent(calls, n) == OneIf(job.Missing(n))
  {
    var parts := calls[..|calls| - 1];
    if PartTraffic(job, calls, cap) { OnlyPartCalls(job, calls, cap, k); }
    if k < |parts| { OnlyPartCalls(job, parts, cap, k); }
    assert calls == parts + [calls[k]];
    Append(parts, calls[k]);
  }

  lemma CompleteFinishes(job: Job, calls: seq<Call>, last: Call, cap: nat, err: bool)
    requires PartTrace(job, calls, cap, false)
    requires last.Completed? && last.id == job.id && InOrder(last.list, |job.want|) && last.err == err
    ensures FinishTrace(job, calls + [last], cap, err)
  {
    assert (calls + [last])[..|calls|] == calls;
  }

  lemma SentByPrefix(a: Call, b: Call, rest: seq<Call>, n: int)
    requires !a.PartBegun? && !b.PartBegun?
    ensures Sent([a, b] + rest, n) == Sent(rest, n)
  {
    SentConcat([a, b], rest, n);
    Append([], a);
    Append([a], b);
    assert [] + [a] == [a] && [a] + [b] == [a, b];
  }

  lemma FinishSendsAll(job: Job, calls: seq<Call>, cap: nat)
    requires FinishTrace(job, calls, cap, false)
    ensures forall n :: Sent(calls, n) == OneIf(job.Missing(n))
  {
    CompleteMeansAllSent(job, calls, cap, false, |calls| - 1);
  }

  /** A Put that returns nil, and found an upload to resume whose listed parts fit, has
      sent every part that was not verified exactly once, and none of the others. */
  lemma ResumeSendsExactlyTheRest(calls: seq<Call>, key: string, src: Bytes, partSize: nat, cap: nat)
    requires 0 < partSize < |src| && PutTrace(calls, key, src, partSize, cap, false)
    requires |calls| >= 2 && calls[1].ListedParts? && Aligned(calls[1].page, |src|, partSize)
    ensures FirstOf(calls[0].uploads, key) == Some(calls[1].id)
    ensures var job := JobFor(calls[1].id, src, partSize, Kept(calls[1].page, src, partSize));
            forall n :: Sent(calls, n) == OneIf(job.Missing(n))
  {
    var job := JobFor(calls[1].id, src, partSize, Kept(calls[1].page, src, partSize));
    var rest := calls[1..][1..];
    assert calls == [calls[0], calls[1]] + rest;
    FinishSendsAll(job, rest, cap);
    forall n ensures Sent(calls, n) == OneIf(job.Missing(n)) {
      SentByPrefix(calls[0], calls[1], rest, n);
    }
  }

  // ---- when the object changes ----

  predicate CanStore(c: Call) { c.Completed? || c.Managed? }

  /** The object that the last call left behind, if it did. */
  function StoredBy(calls: seq<Call>): Option<Bytes> {
    if calls != [] && CanStore(calls[|calls| - 1]) then calls[|calls| - 1].stored else None
  }

  /** The key's object after these calls; only the last of them can store one. */
  function ObjectAfter(before: Option<Bytes>, calls: seq<Call>): Option<Bytes> {
    if StoredBy(calls).Some? then StoredBy(calls) else before
  }

  /** A Put's calls after it has looked for an upload to resume. */
  lemma AfterListing(call: Call, more: seq<Call>, key: string, src: Bytes, partSize: nat, cap: nat, err: bool,
                     before: Option<Bytes>)
    requires 0 < partSize < |src| && call.ListedUploads? && call.prefix == key && !call.err && more != []
    ensures ObjectAfter(before, [call] + more) == ObjectAfter(before, more)
    ensures PutTrace([call] + more, key, src, partSize, cap, err) <==>
            match FirstOf(call.uploads, key)
            case None => FreshTrace(more, key, src, err)
            case Some(id) => ResumeTrace(more, key, id, src, partSize, cap, err)
  {
    assert ([call] + more)[1..] == more;
  }

  lemma PartsStoreNothing(job: Job, calls: seq<Call>, cap: nat)
    requires PartTraffic(job, calls, cap)
    ensures StoredBy(calls) == None
  {}

  lemma FinishStoresLast(job: Job, calls: seq<Call>, cap: nat, err: bool, k: nat)
    requires FinishTrace(job, calls, cap, err) && k + 1 < |calls|
    ensures !CanStore(calls[k])
  {
    var parts := calls[..|calls| - 1];
    if err && PartTrace(job, calls, cap, true) {
      OnlyPartCalls(job, calls, cap, k);
    } else {
      OnlyPartCalls(job, parts, cap, k);
      assert parts[k] == calls[k];
    }
  }

  lemma ResumeStoresLast(calls: seq<Call>, key: string, id: UploadId, src: Bytes, partSize: nat, cap: nat, err: bool,
                         k: nat)
    requires partSize > 0 && ResumeTrace(calls, key, id, src, partSize, cap, err) && k + 1 < |calls|
    ensures !CanStore(calls[k])
  {
    var page, rest := calls[0].page, calls[1..];
    var job := JobFor(id, src, partSize, Kept(page, src, partSize));
    if k > 0 {
      assert calls[k] == rest[k - 1];
      if Aligned(page, |src|, partSize) && FinishTrace(job, rest, cap, err) {
        FinishStoresLast(job, rest, cap, err, k - 1);
      }
    }
  }

  /** In the whole course of a Put only the last call can change the object. */
  lemma PutStoresLast(calls: seq<Call>, key: string, src: Bytes, partSize: nat, cap: nat, err: bool, k: nat)
    requires partSize > 0 && PutTrace(calls, key, src, partSize, cap, err) && k + 1 < |calls|
    ensures !CanStore(calls[k])
  {
    if k > 0 {
      var rest := calls[1..];
      assert calls[k] == rest[k - 1];
      var found := FirstOf(calls[0].uploads, key);
      if found.Some? { ResumeStoresLast(rest, key, found.value, src, partSize, cap, err, k - 1); }
    }
  }
}
