/** What a Put of the S3 backend does, read off its calls alone: when it looks for an
    earlier upload, which one it resumes, which stored parts it takes over, when it starts
    clean, and when it fails. Entries are judged by the file's slices, not by the code's
    own tests. */
module S3Laws {
  import opened Arithmetic
  import opened Transfer
  import opened Parts
  import opened Bucket
  import opened S3Trace

  /** The entry lists a part of the file, with that part's length. */
  predicate RightSize(e: Listed, src: Bytes, partSize: nat)
    requires partSize > 0
  {
    1 <= e.n <= PartCount(|src|, partSize) && e.size == |Slice(src, e.n, partSize)|
  }

  lemma SizeTestIsRight(e: Listed, src: Bytes, partSize: nat)
    requires Fits(|src|, partSize) && partSize <= INT64_MAX
    ensures RightSize(e, src, partSize) <==> !Misaligned(e, |src|, partSize)
  {
    CounterFitsIff(|src|, partSize);
    if 1 <= e.n <= PartCount(|src|, partSize) { PartsTile(e.n, |src|, partSize); }
  }

  lemma PageTestIsRight(page: seq<Listed>, src: Bytes, partSize: nat)
    requires Fits(|src|, partSize) && partSize <= INT64_MAX
    ensures Aligned(page, |src|, partSize) <==> forall j :: 0 <= j < |page| ==> RightSize(page[j], src, partSize)
  {
    forall j | 0 <= j < |page| ensures RightSize(page[j], src, partSize) <==> !Misaligned(page[j], |src|, partSize) {
      SizeTestIsRight(page[j], src, partSize);
    }
  }

  /** The calls of a Put that went on to list an upload's parts. */
  ghost predicate Resumed(calls: seq<Call>, key: string, src: Bytes, partSize: nat, cap: nat, err: bool)
    requires partSize > 0
  {
    PutTrace(calls, key, src, partSize, cap, err) && |calls| >= 2 && calls[1].ListedParts?
  }

  lemma ResumedTrace(calls: seq<Call>, key: string, src: Bytes, partSize: nat, cap: nat, err: bool)
    requires partSize > 0 && Resumed(calls, key, src, partSize, cap, err)
    ensures ResumeTrace(calls[1..], key, calls[1].id, src, partSize, cap, err)
    ensures calls[0].ListedUploads?
  {}

  /** Only part calls and a complete call after the listing. */
  lemma FinishCalls(job: Job, calls: seq<Call>, cap: nat, err: bool, k: nat)
    requires FinishTrace(job, calls, cap, err) && k < |calls|
    ensures PartCall(job, calls[k]) || calls[k].Completed?
  {
    if err && PartTrace(job, calls, cap, true) {
      OnlyPartCalls(job, calls, cap, k);
    } else if k < |calls| - 1 {
      OnlyPartCalls(job, calls[..|calls| - 1], cap, k);
    }
  }

  /** An upload all of whose listed parts have the right lengths is never given up. */
  lemma RightPartsAreResumed(calls: seq<Call>, key: string, src: Bytes, partSize: nat, cap: nat, err: bool, k: nat)
    requires Fits(|src|, partSize) && partSize <= INT64_MAX && Resumed(calls, key, src, partSize, cap, err)
    requires forall j :: 0 <= j < |calls[1].page| ==> RightSize(calls[1].page[j], src, partSize)
    requires k < |calls|
    ensures !calls[k].Aborted? && !calls[k].Managed?
  {
    ResumedTrace(calls, key, src, partSize, cap, err);
    PageTestIsRight(calls[1].page, src, partSize);
    var rest := calls[1..][1..];
    var job := JobFor(calls[1].id, src, partSize, Kept(calls[1].page, src, partSize));
    if k >= 2 {
      assert calls[k] == rest[k - 2];
      if FinishTrace(job, rest, cap, err) { FinishCalls(job, rest, cap, err, k - 2); }
    }
  }

  /** One entry out of range, or of another length than its part, and nothing of the upload
      is used: it is aborted and the file sent afresh, or reading the source fails first. */
  lemma WrongPartsAreGivenUp(calls: seq<Call>, key: string, src: Bytes, partSize: nat, cap: nat, err: bool)
    requires Fits(|src|, partSize) && partSize <= INT64_MAX && Resumed(calls, key, src, partSize, cap, err)
    requires !calls[1].err && exists j :: 0 <= j < |calls[1].page| && !RightSize(calls[1].page[j], src, partSize)
    ensures |calls| >= 3
    ensures calls[2] == Aborted(calls[1].id) || (err && calls[2..] == [SourceFailed])
    ensures forall k :: 0 <= k < |calls| ==> !calls[k].PartBegun? && !calls[k].Completed?
    ensures !err ==> |calls| == 4 && calls[3].Managed? && calls[3].body == src
  {
    ResumedTrace(calls, key, src, partSize, cap, err);
    PageTestIsRight(calls[1].page, src, partSize);
    var rest := calls[1..][1..];
    assert rest == calls[2..];
    forall k | 0 <= k < |calls| ensures !calls[k].PartBegun? && !calls[k].Completed? {
      if k >= 2 {
        assert calls[k] == rest[k - 2];
        if k >= 3 { assert calls[k] == rest[1..][k - 3]; }
      }
    }
  }

  /** A listed part whose ETag is the MD5 of its slice is never sent again. */
  lemma MatchingPartsAreNotSent(calls: seq<Call>, key: string, src: Bytes, partSize: nat, cap: nat, err: bool,
                                j: nat, k: nat)
    requires partSize > 0 && Resumed(calls, key, src, partSize, cap, err) && k < |calls| && j < |calls[1].page|
    requires var e := calls[1].page[j];
             1 <= e.n <= PartCount(|src|, partSize) && e.etag == Md5(Slice(src, e.n, partSize))
    ensures !(calls[k].PartBegun? && calls[k].n == calls[1].page[j].n)
  {
    ResumedTrace(calls, key, src, partSize, cap, err);
    var page := calls[1].page;
    var rest := calls[1..][1..];
    var job := JobFor(calls[1].id, src, partSize, Kept(page, src, partSize));
    assert Verified(page[j], src, partSize) && page[j].n in job.kept;
    if k >= 2 {
      assert calls[k] == rest[k - 2];
      if FinishTrace(job, rest, cap, err) { FinishCalls(job, rest, cap, err, k - 2); }
      if k >= 3 && rest[0] == Aborted(calls[1].id) { assert calls[k] == rest[1..][k - 3]; }
    }
  }

  /** And one whose ETag is not is sent, once, if the Put ends well without starting clean. */
  lemma OtherPartsAreSent(calls: seq<Call>, key: string, src: Bytes, partSize: nat, cap: nat, n: int)
    requires Fits(|src|, partSize) && partSize <= INT64_MAX && Resumed(calls, key, src, partSize, cap, false)
    requires forall j :: 0 <= j < |calls[1].page| ==> RightSize(calls[1].page[j], src, partSize)
    requires 1 <= n <= PartCount(|src|, partSize)
    requires forall j :: 0 <= j < |calls[1].page| && calls[1].page[j].n == n ==>
               calls[1].page[j].etag != Md5(Slice(src, n, partSize))
    ensures Sent(calls, n) == 1
  {
    PageTestIsRight(calls[1].page, src, partSize);
    CounterFitsIff(|src|, partSize);
    ResumeSendsExactlyTheRest(calls, key, src, partSize, cap);
  }

  /** FirstOf is the first entry of exactly this key. */
  lemma {:induction false} FirstOfFinds(page: seq<(string, UploadId)>, key: string)
    ensures FirstOf(page, key).None? <==> forall j :: 0 <= j < |page| ==> page[j].0 != key
    ensures FirstOf(page, key).Some? ==>
              exists j :: 0 <= j < |page| && page[j] == (key, FirstOf(page, key).value)
                && forall i :: 0 <= i < j ==> page[i].0 != key
  {
    if page != [] && page[0].0 != key {
      FirstOfFinds(page[1..], key);
      if FirstOf(page, key).Some? {
        var j :| 0 <= j < |page[1..]| && page[1..][j] == (key, FirstOf(page, key).value)
          && forall i :: 0 <= i < j ==> page[1..][i].0 != key;
        assert page[j + 1] == page[1..][j];
        forall i | 0 <= i < j + 1 ensures page[i].0 != key {
          if i > 0 { assert page[i] == page[1..][i - 1]; }
        }
      }
      assert forall j :: 0 < j < |page| ==> page[j] == page[1..][j - 1];
    } else if page != [] {
      assert page[0] == (key, page[0].1);
    }
  }

  /** A file of more than one part is looked up first, a smaller one never; and an upload of
      exactly this key that is listed is the one taken up, a listed upload of any other key
      never. */
  lemma ListedUploadIsTakenUp(calls: seq<Call>, key: string, src: Bytes, partSize: nat, cap: nat, err: bool)
    requires partSize > 0 && PutTrace(calls, key, src, partSize, cap, err)
    ensures calls != [] && (calls[0].ListedUploads? <==> |src| > partSize)
    ensures |src| > partSize && !calls[0].err ==>
              |calls| >= 2
              && (calls[1].ListedParts? <==> exists j :: 0 <= j < |calls[0].uploads| && calls[0].uploads[j].0 == key)
              && (calls[1].ListedParts? ==>
                    exists j :: 0 <= j < |calls[0].uploads| && calls[0].uploads[j] == (key, calls[1].id)
                      && forall i :: 0 <= i < j ==> calls[0].uploads[i].0 != key)
  {
    if |src| > partSize && !calls[0].err {
      FirstOfFinds(calls[0].uploads, key);
      assert calls[1..] != [] && calls[1..][0] == calls[1];
    }
  }

  lemma {:induction false} AnyFailsMeans(calls: seq<Call>)
    ensures AnyFails(calls) <==> exists k :: 0 <= k < |calls| && Fails(calls[k])
  {
    if calls != [] {
      var init := calls[..|calls| - 1];
      AnyFailsMeans(init);
      if AnyFails(init) {
        var k :| 0 <= k < |init| && Fails(init[k]);
        assert Fails(calls[k]);
      }
      assert forall k :: 0 <= k < |init| ==> init[k] == calls[k];
    }
  }

  /** A Put fails exactly when one of its calls did, or the source, or the context. */
  lemma FailsExactlyWithACall(calls: seq<Call>, key: string, src: Bytes, partSize: nat, cap: nat, err: bool)
    requires partSize > 0 && PutTrace(calls, key, src, partSize, cap, err)
    ensures err <==> exists k :: 0 <= k < |calls| && Fails(calls[k])
  {
    AnyFailsMeans(calls);
    if |src| > partSize {
      var rest := calls[1..];
      assert calls == [calls[0]] + rest;
      FailsConcat([calls[0]], rest);
      if !calls[0].err && FirstOf(calls[0].uploads, key).Some? {
        ResumeFails(rest, key, FirstOf(calls[0].uploads, key).value, src, partSize, cap, err);
      }
    }
  }

  lemma {:induction false} FailsConcat(a: seq<Call>, b: seq<Call>)
    ensures AnyFails(a + b) <==> AnyFails(a) || AnyFails(b)
    decreases |b|
  {
    if b == [] {
      assert a + b == a;
    } else {
      assert (a + b)[..|a + b| - 1] == a + b[..|b| - 1];
      FailsConcat(a, b[..|b| - 1]);
    }
  }

  lemma ResumeFails(calls: seq<Call>, key: string, id: UploadId, src: Bytes, partSize: nat, cap: nat, err: bool)
    requires partSize > 0 && ResumeTrace(calls, key, id, src, partSize, cap, err)
    ensures AnyFails(calls) <==> err
  {
    var rest := calls[1..];
    var job := JobFor(id, src, partSize, Kept(calls[0].page, src, partSize));
    assert calls == [calls[0]] + rest;
    FailsConcat([calls[0]], rest);
    if calls[0].err || rest == [SourceFailed] {
      FailsOne(SourceFailed);
    } else if Aligned(calls[0].page, |src|, partSize) {
      FinishFails(job, rest, cap, err);
    } else {
      assert rest == [Aborted(id)] + rest[1..];
      FailsConcat([Aborted(id)], rest[1..]);
      FailsOne(Aborted(id));
      FreshFails(rest[1..], key, src, err);
    }
    FailsOne(calls[0]);
  }

  lemma FailsOne(c: Call)
    ensures AnyFails([c]) <==> Fails(c)
  {
    assert [c][..0] == [];
  }

  lemma FreshFails(calls: seq<Call>, key: string, src: Bytes, err: bool)
    requires FreshTrace(calls, key, src, err)
    ensures AnyFails(calls) <==> err
  {
    assert calls == [calls[0]];
    FailsOne(calls[0]);
  }

  lemma FinishFails(job: Job, calls: seq<Call>, cap: nat, err: bool)
    requires FinishTrace(job, calls, cap, err)
    ensures AnyFails(calls) <==> err
  {
    if !(err && PartTrace(job, calls, cap, true)) {
      var parts, last := calls[..|calls| - 1], calls[|calls| - 1];
      assert calls == parts + [last];
      AppendFails(parts, last);
    }
  }

  /** A 20-byte file in parts of 8: a full first part and a short last one both fit. */
  lemma ShortLastPartFits(src: Bytes)
    requires |src| == 20
    ensures RightSize(Listed(1, 8, Md5(src[..8])), src, 8) && RightSize(Listed(3, 4, Md5(src[16..])), src, 8)
  {
    PartsTile(1, 20, 8);
    PartsTile(3, 20, 8);
  }
}
