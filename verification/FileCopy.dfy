/** transfer/localfs and transfer/sftpbackend: Put with a checksum-verified partial.
    Every call to the source or the destination may fail, the reader may deliver its
    bytes in any chunks, and a failing write may have written part of its chunk. Every
    call is appended to one history, over which the contracts say what a Put did. */
module FileCopy {
  import opened Transfer

  /** SHA-256, abstracted as an injective function of the content. */
  datatype Digest = Sha256(content: Bytes)

  /** The destination holds a proper, non-empty prefix of the source. */
  predicate Resumable(before: Option<Bytes>, src: Bytes) {
    before.Some? && 0 < |before.value| < |src| && before.value <= src
  }

  /** Progress reports never go back and stay between lo and hi. */
  predicate Rising(reports: seq<nat>, lo: nat, hi: nat) {
    if reports == [] then lo <= hi
    else reports[|reports| - 1] <= hi && Rising(reports[..|reports| - 1], lo, reports[|reports| - 1])
  }

  lemma {:induction false} RisingMeansSorted(reports: seq<nat>, lo: nat, hi: nat)
    requires Rising(reports, lo, hi)
    ensures lo <= hi && forall i :: 0 <= i < |reports| ==> lo <= reports[i] <= hi
    ensures forall i, j :: 0 <= i < j < |reports| ==> reports[i] <= reports[j]
  {
    if reports != [] { RisingMeansSorted(reports[..|reports| - 1], lo, reports[|reports| - 1]); }
  }

  // ---- the history ----

  /** Asked for a size; compared digests; opened the destination, which may be emptied though
      the answer is lost; wrote n bytes of a chunk at an offset; or anything else failed:
      mkdir, seek, opening or reading the source. */
  datatype Call =
    | Queried(path: string, answer: Stat)
    | Compared(path: string, err: bool)
    | Opened(path: string, truncate: bool, err: bool, emptied: bool)
    | Wrote(path: string, at: nat, chunk: Bytes, n: nat, err: bool, seeking: bool)
    | Broke

  predicate Uncertain(c: Call) { (c.Queried? && c.answer.StatError?) || (c.Compared? && c.err) }

  predicate Fatal(c: Call) { c.Broke? || (c.Opened? && c.err) || (c.Wrote? && c.err) }

  predicate Empties(c: Call) { c.Opened? && c.emptied }

  /** The size query or the comparison failed. */
  predicate Unsure(calls: seq<Call>) {
    calls != [] && (Uncertain(calls[|calls| - 1]) || Unsure(calls[..|calls| - 1]))
  }

  /** Something failed that a Put reports. */
  predicate Breaks(calls: seq<Call>) {
    calls != [] && (Fatal(calls[|calls| - 1]) || Breaks(calls[..|calls| - 1]))
  }

  /** The destination was emptied. */
  predicate Truncated(calls: seq<Call>) {
    calls != [] && (Empties(calls[|calls| - 1]) || Truncated(calls[..|calls| - 1]))
  }

  function NewBytes(c: Call): nat { if c.Wrote? then c.n else 0 }

  /** How many bytes were written. */
  function Written(calls: seq<Call>): nat {
    if calls == [] then 0 else Written(calls[..|calls| - 1]) + NewBytes(calls[|calls| - 1])
  }

  /** The ends of the chunks that were written or tried. */
  function Chunks(calls: seq<Call>): seq<nat> {
    if calls == [] then []
    else
      var c := calls[|calls| - 1];
      Chunks(calls[..|calls| - 1]) + if c.Wrote? then [c.at + |c.chunk|] else []
  }

  /** Every write is made by seeking, or none is. */
  predicate InMode(calls: seq<Call>, seeking: bool) {
    calls != [] ==>
      && InMode(calls[..|calls| - 1], seeking)
      && (calls[|calls| - 1].Wrote? ==> calls[|calls| - 1].seeking == seeking)
  }

  lemma {:induction false} NoChunksNoMode(calls: seq<Call>, seeking: bool)
    requires Chunks(calls) == []
    ensures InMode(calls, seeking)
  {
    if calls != [] { NoChunksNoMode(calls[..|calls| - 1], seeking); }
  }

  lemma InModeNext(calls: seq<Call>, c: Call, seeking: bool)
    requires InMode(calls, seeking) && (c.Wrote? ==> c.seeking == seeking)
    ensures InMode(calls + [c], seeking)
  {
    assert (calls + [c])[..|calls|] == calls;
  }

  /** Every write is to this file, and starts where the one before it ended. */
  predicate Contiguous(calls: seq<Call>, path: string, start: nat) {
    calls != [] ==>
      && Contiguous(calls[..|calls| - 1], path, start)
      && var c := calls[|calls| - 1];
         c.Wrote? ==> c.path == path && c.at == start + Written(calls[..|calls| - 1])
  }

  function Grown(before: Option<Bytes>, c: Call): Option<Bytes> {
    if Empties(c) then Some([])
    else if c.Wrote? && c.n <= |c.chunk| then Some((if before.Some? then before.value else []) + c.chunk[..c.n])
    else before
  }

  /** The file's content after these calls. */
  function Content(before: Option<Bytes>, calls: seq<Call>): Option<Bytes> {
    if calls == [] then before else Grown(Content(before, calls[..|calls| - 1]), calls[|calls| - 1])
  }

  /** Each call leaves the file as it was or leaves a prefix of the source. */
  predicate Steps(before: Option<Bytes>, src: Bytes, calls: seq<Call>) {
    calls != [] ==>
      && Steps(before, src, calls[..|calls| - 1])
      && PutOutcome(Content(before, calls[..|calls| - 1]), src, Content(before, calls), true)
  }

  lemma {:induction false} StepAt(before: Option<Bytes>, src: Bytes, calls: seq<Call>, k: nat)
    requires Steps(before, src, calls) && k < |calls|
    ensures PutOutcome(Content(before, calls[..k]), src, Content(before, calls[..k + 1]), true)
  {
    if k < |calls| - 1 {
      StepAt(before, src, calls[..|calls| - 1], k);
      assert calls[..|calls| - 1][..k] == calls[..k] && calls[..|calls| - 1][..k + 1] == calls[..k + 1];
    } else {
      assert calls[..k + 1] == calls;
    }
  }

  lemma OneMore(calls: seq<Call>, c: Call)
    ensures Unsure(calls + [c]) <==> Unsure(calls) || Uncertain(c)
    ensures Breaks(calls + [c]) <==> Breaks(calls) || Fatal(c)
    ensures Truncated(calls + [c]) <==> Truncated(calls) || Empties(c)
    ensures Written(calls + [c]) == Written(calls) + NewBytes(c)
    ensures Chunks(calls + [c]) == Chunks(calls) + if c.Wrote? then [c.at + |c.chunk|] else []
    ensures forall path, start: nat :: Contiguous(calls + [c], path, start) <==>
              Contiguous(calls, path, start)
              && (c.Wrote? ==> c.path == path && c.at == start + Written(calls))
  {
    assert (calls + [c])[..|calls|] == calls;
  }

  lemma OneStep(before: Option<Bytes>, src: Bytes, calls: seq<Call>, c: Call)
    ensures Content(before, calls + [c]) == Grown(Content(before, calls), c)
    ensures Steps(before, src, calls + [c]) <==>
            Steps(before, src, calls) && PutOutcome(Content(before, calls), src, Content(before, calls + [c]), true)
  {
    assert (calls + [c])[..|calls|] == calls;
  }

  /** Where a transfer starts: at the end of a partial that was found to match, else at 0. */
  function StartOf(before: Option<Bytes>, src: Bytes, calls: seq<Call>): nat {
    if Resumable(before, src) && !Unsure(calls) then |before.value| else 0
  }

  /** All of a Put: it resumes exactly when it can, fails exactly when a call did, writes
      the bytes from the start on, each once and in order, and empties the destination only
      to start over; the reports are the ends of the chunks, never go back, and on success
      end with the size. */
  ghost predicate PutTrace(before: Option<Bytes>, src: Bytes, path: string, calls: seq<Call>, reports: seq<nat>,
                           err: bool) {
    var start := StartOf(before, src, calls);
    && (err <==> Breaks(calls)) && Steps(before, src, calls)
    && start <= |src| && Contiguous(calls, path, start)
    && Written(calls) <= |src| - start
    && (Truncated(calls) ==> start == 0)
    && reports == Chunks(calls) + (if err then [] else [|src|]) && Rising(reports, start, |src|)
    && (!err ==> Written(calls) == |src| - start && (Truncated(calls) <==> start == 0))
  }

  /** Calls that only look. */
  ghost predicate Harmless(before: Option<Bytes>, src: Bytes, calls: seq<Call>) {
    && !Breaks(calls) && !Truncated(calls) && Written(calls) == 0 && Chunks(calls) == []
    && (forall path, from: nat :: Contiguous(calls, path, from))
    && Content(before, calls) == before && Steps(before, src, calls)
  }

  lemma LookedOnce(before: Option<Bytes>, src: Bytes, c: Call)
    requires c.Queried?
    ensures Harmless(before, src, [c])
  {
    OneMore([], c);
    OneStep(before, src, [], c);
    assert [] + [c] == [c];
  }

  lemma LookedAgain(before: Option<Bytes>, src: Bytes, calls: seq<Call>, c: Call)
    requires Harmless(before, src, calls) && c.Compared?
    ensures Harmless(before, src, calls + [c]) && (Unsure(calls + [c]) <==> Unsure(calls) || c.err)
  {
    OneMore(calls, c);
    OneStep(before, src, calls, c);
  }

  /** The first pos bytes of the source. */
  predicate PrefixAt(content: Option<Bytes>, src: Bytes, pos: nat) {
    pos <= |src| && content == Some(src[..pos])
  }

  /** Up to here nothing failed and pos is the next byte to write. */
  ghost predicate Copying(before: Option<Bytes>, src: Bytes, path: string, calls: seq<Call>, pos: nat) {
    var start := StartOf(before, src, calls);
    && Rising(Chunks(calls), start, pos)
    && Steps(before, src, calls) && PrefixAt(Content(before, calls), src, pos)
    && !Breaks(calls) && (Truncated(calls) <==> start == 0)
    && start <= pos && Contiguous(calls, path, start) && Written(calls) == pos - start
  }

  lemma GrownPrefix(src: Bytes, pos: nat, c: Call)
    requires c.Wrote? && c.n <= |c.chunk| && pos + |c.chunk| <= |src| && c.chunk == src[pos..pos + |c.chunk|]
    ensures Grown(Some(src[..pos]), c) == Some(src[..pos + c.n])
    ensures PutOutcome(Some(src[..pos]), src, Some(src[..pos + c.n]), true)
  {
    NextChunk(src, pos, c.chunk, c.n);
  }

  /** What a write of the next chunk adds to the calls so far. */
  lemma CopyingWrote(before: Option<Bytes>, src: Bytes, path: string, calls: seq<Call>, pos: nat, c: Call,
                     more: seq<Call>, next: nat)
    requires Copying(before, src, path, calls, pos) && more == calls + [c]
    requires c.Wrote? && c.path == path && c.at == pos && c.n <= |c.chunk|
    requires next == pos + |c.chunk| <= |src| && c.chunk == src[pos..next]
    ensures StartOf(before, src, more) == StartOf(before, src, calls) && Chunks(more) == Chunks(calls) + [next]
    ensures Steps(before, src, more) && PrefixAt(Content(before, more), src, pos + c.n)
    ensures (Breaks(more) <==> c.err) && (Truncated(more) <==> Truncated(calls))
    ensures Contiguous(more, path, StartOf(before, src, calls)) && Written(more) == Written(calls) + c.n
  {
    OneMore(calls, c);
    OneStep(before, src, calls, c);
    GrownPrefix(src, pos, c);
  }

  /** One more chunk is written, in full or not. */
  lemma CopyingNext(before: Option<Bytes>, src: Bytes, path: string, calls: seq<Call>, pos: nat, c: Call,
                    more: seq<Call>, next: nat, reported: seq<nat>)
    requires Copying(before, src, path, calls, pos) && more == calls + [c]
    requires c.Wrote? && c.path == path && c.at == pos && c.n <= |c.chunk| && (!c.err ==> c.n == |c.chunk|)
    requires next == pos + |c.chunk| <= |src| && c.chunk == src[pos..next] && reported == Chunks(calls) + [next]
    ensures reported == Chunks(more) && PrefixAt(Content(before, more), src, pos + c.n)
    ensures c.err ==> PutTrace(before, src, path, more, reported, true)
    ensures !c.err ==> Copying(before, src, path, more, next)
  {
    CopyingWrote(before, src, path, calls, pos, c, more, next);
    RisingTo(Chunks(calls), StartOf(before, src, calls), pos, next);
    RisingTo(reported, StartOf(before, src, calls), next, |src|);
  }

  /** Opening the destination after the calls that only look. */
  lemma OpenedNext(before: Option<Bytes>, src: Bytes, path: string, calls: seq<Call>, c: Call, more: seq<Call>,
                   start: nat)
    requires Harmless(before, src, calls) && start == StartOf(before, src, calls) && more == calls + [c]
    requires c.Opened? && (c.emptied ==> start == 0) && (!c.err ==> (c.emptied <==> start == 0))
    ensures Chunks(more) == [] && Content(before, more) == (if c.emptied then Some([]) else before)
    ensures PutOutcome(before, src, Content(before, more), true)
    ensures c.err ==> PutTrace(before, src, path, more, [], true)
    ensures !c.err ==> Copying(before, src, path, more, start)
  {
    OneMore(calls, c);
    OneStep(before, src, calls, c);
    assert start > 0 ==> before.value == src[..start];
    assert src[..0] == [];
  }

  lemma BrokeAtOnce(before: Option<Bytes>, src: Bytes, path: string)
    ensures PutTrace(before, src, path, [Broke], [], true) && Content(before, [Broke]) == before
  {
    OneMore([], Broke);
    OneStep(before, src, [], Broke);
    assert [] + [Broke] == [Broke];
  }

  lemma {:induction false} RisingTo(reports: seq<nat>, lo: nat, hi: nat, higher: nat)
    requires Rising(reports, lo, hi) && hi <= higher
    ensures Rising(reports, lo, higher) && Rising(reports + [higher], lo, higher)
  {
    assert (reports + [higher])[..|reports|] == reports;
    if reports != [] { assert Rising(reports[..|reports| - 1], lo, reports[|reports| - 1]); }
  }

  lemma CopyingBreaks(before: Option<Bytes>, src: Bytes, path: string, calls: seq<Call>, pos: nat)
    requires Copying(before, src, path, calls, pos)
    ensures PutTrace(before, src, path, calls + [Broke], Chunks(calls), true)
    ensures Content(before, calls + [Broke]) == Content(before, calls)
  {
    OneMore(calls, Broke);
    OneStep(before, src, calls, Broke);
    RisingTo(Chunks(calls), StartOf(before, src, calls), pos, |src|);
  }

  lemma CopyingDone(before: Option<Bytes>, src: Bytes, path: string, calls: seq<Call>)
    requires Copying(before, src, path, calls, |src|)
    ensures PutTrace(before, src, path, calls, Chunks(calls) + [|src|], false) && Content(before, calls) == Some(src)
  {
    assert src[..|src|] == src;
    RisingTo(Chunks(calls), StartOf(before, src, calls), |src|, |src|);
  }

  /** Every other file is as others have left it. */
  ghost predicate AsLeft(others: map<string, Bytes>, files: map<string, Bytes>, path: string) {
    files - {path} == others - {path}
  }

  lemma UpdateStaysAsLeft(others: map<string, Bytes>, files: map<string, Bytes>, path: string, content: Bytes)
    requires AsLeft(others, files, path)
    ensures AsLeft(others, files[path := content], path)
  {
    assert files[path := content] - {path} == files - {path};
  }

  lemma Extended(before: seq<Call>, calls: seq<Call>, c: Call)
    ensures (before + calls) + [c] == before + (calls + [c])
  {}

  /** So a method that keeps this on a store where nobody else acts leaves the other files
      alone. */
  lemma AloneLeavesOtherFiles(others: map<string, Bytes>, a: map<string, Bytes>, b: map<string, Bytes>, path: string)
    requires AsLeft(others, a, path) && AsLeft(others, b, path)
    ensures forall q :: q != path ==> Lookup(a, q) == Lookup(b, q)
  {
    forall q | q != path ensures Lookup(a, q) == Lookup(b, q) {
      assert Lookup(a, q) == Lookup(a - {path}, q) && Lookup(b, q) == Lookup(b - {path}, q);
    }
  }

  lemma NextChunk(src: Bytes, pos: nat, chunk: Bytes, n: nat)
    requires pos + |chunk| <= |src| && chunk == src[pos..pos + |chunk|] && n <= |chunk|
    ensures src[..pos] + chunk[..n] == src[..pos + n]
  {}

  // ---- what a Put's calls say, entry by entry ----

  lemma {:induction false} UnsureMeans(calls: seq<Call>)
    ensures Unsure(calls) <==>
            exists k :: 0 <= k < |calls|
              && ((calls[k].Queried? && calls[k].answer.StatError?) || (calls[k].Compared? && calls[k].err))
  {
    if calls != [] {
      var init := calls[..|calls| - 1];
      UnsureMeans(init);
      if Unsure(init) {
        var k :| 0 <= k < |init| && Uncertain(init[k]);
        assert calls[k] == init[k];
      }
      assert forall k :: 0 <= k < |init| ==> init[k] == calls[k];
    }
  }

  lemma {:induction false} BreaksMeans(calls: seq<Call>)
    ensures Breaks(calls) <==>
            exists k :: 0 <= k < |calls|
              && (calls[k].Broke? || (calls[k].Opened? && calls[k].err) || (calls[k].Wrote? && calls[k].err))
  {
    if calls != [] {
      var init := calls[..|calls| - 1];
      BreaksMeans(init);
      if Breaks(init) {
        var k :| 0 <= k < |init| && Fatal(init[k]);
        assert calls[k] == init[k];
      }
      assert forall k :: 0 <= k < |init| ==> init[k] == calls[k];
    }
  }

  lemma {:induction false} TruncatedMeans(calls: seq<Call>)
    ensures Truncated(calls) <==> exists k :: 0 <= k < |calls| && calls[k].Opened? && calls[k].emptied
  {
    if calls != [] {
      var init := calls[..|calls| - 1];
      TruncatedMeans(init);
      if Truncated(init) {
        var k :| 0 <= k < |init| && Empties(init[k]);
        assert calls[k] == init[k];
      }
      assert forall k :: 0 <= k < |init| ==> init[k] == calls[k];
    }
  }

  lemma {:induction false} WritesStartAt(calls: seq<Call>, path: string, start: nat, k: nat)
    requires Contiguous(calls, path, start) && k < |calls| && calls[k].Wrote?
    ensures calls[k].path == path && calls[k].at >= start
  {
    if k < |calls| - 1 { WritesStartAt(calls[..|calls| - 1], path, start, k); }
  }

  /** A proper, non-empty prefix of the source whose size and digest could be had is
      resumed: the file is never emptied, nothing is written or reported below its end, and
      success writes exactly the rest. */
  lemma ProperPrefixIsResumed(was: Bytes, src: Bytes, path: string, calls: seq<Call>, reports: seq<nat>, err: bool)
    requires PutTrace(Some(was), src, path, calls, reports, err)
    requires 0 < |was| < |src| && was <= src
    requires forall k :: 0 <= k < |calls| ==>
               !(calls[k].Queried? && calls[k].answer.StatError?) && !(calls[k].Compared? && calls[k].err)
    ensures forall k :: 0 <= k < |calls| ==> !(calls[k].Opened? && calls[k].emptied)
    ensures forall k :: 0 <= k < |calls| && calls[k].Wrote? ==> calls[k].at >= |was|
    ensures forall k :: 0 <= k < |reports| ==> |was| <= reports[k] <= |src|
    ensures !err ==> Written(calls) == |src| - |was|
  {
    UnsureMeans(calls);
    TruncatedMeans(calls);
    RisingMeansSorted(reports, |was|, |src|);
    forall k | 0 <= k < |calls| && calls[k].Wrote? ensures calls[k].at >= |was| {
      WritesStartAt(calls, path, |was|, k);
    }
  }

  /** Anything else is emptied and written from the beginning. */
  lemma AnythingElseStartsOver(before: Option<Bytes>, src: Bytes, path: string, calls: seq<Call>, reports: seq<nat>)
    requires PutTrace(before, src, path, calls, reports, false)
    requires before.Some? ==> before.value == [] || |before.value| >= |src| || !(before.value <= src)
    ensures Written(calls) == |src| && exists k :: 0 <= k < |calls| && calls[k].Opened? && calls[k].emptied
  {
    TruncatedMeans(calls);
  }

  /** A Put fails exactly when one of its calls did, other than a size query or comparison. */
  lemma FailsExactlyWithACall(before: Option<Bytes>, src: Bytes, path: string, calls: seq<Call>, reports: seq<nat>,
                              err: bool)
    requires PutTrace(before, src, path, calls, reports, err)
    ensures err <==>
            exists k :: 0 <= k < |calls|
              && (calls[k].Broke? || (calls[k].Opened? && calls[k].err) || (calls[k].Wrote? && calls[k].err))
  {
    BreaksMeans(calls);
  }

  /** The destination. One worker deals with a file at a time; others may deal with other
      files between any two of its calls, if the store is shared. */
  class Store {
    const shared: bool
    var files: map<string, Bytes>
    ghost var others: map<string, Bytes>
    ghost var log: seq<Call>

    ghost predicate Apart(path: string)
      reads this
    {
      AsLeft(others, files, path)
    }

    /** ... and so throughout, where others only act on a shared store. */
    twostate predicate Onward(path: string)
      reads this
    {
      Apart(path) && (!shared ==> others == old(others))
    }

    constructor (shared: bool)
      ensures this.shared == shared && files == map[] && log == []
      ensures forall path :: Apart(path)
    {
      this.shared, files, others, log := shared, map[], map[], [];
    }

    /** Others do anything to other files. */
    method Others(path: string)
      requires Apart(path)
      modifies this`files, this`others
      ensures Apart(path) && Lookup(files, path) == Lookup(old(files), path)
      ensures !shared ==> files == old(files) && others == old(others)
    {
      if shared {
        var d: map<string, Bytes> := *;
        files := if path in files then d[path := files[path]] else d - {path};
        others := files;
      }
    }

    method Stat(path: string) returns (answer: Stat)
      modifies this`log
      ensures answer.StatAnswer? ==> answer == StatOf(Lookup(files, path))
      ensures log == old(log) + [Queried(path, answer)]
    {
      var broken: bool := *;
      answer := if broken then StatError else StatOf(Lookup(files, path));
      log := log + [Queried(path, answer)];
    }

    /** Stat of the SFTP backend, which answers "not there" when the query fails. */
    method SftpStat(path: string) returns (answer: Stat, ghost raw: Stat)
      modifies this`log
      ensures raw.StatAnswer? ==> raw == StatOf(Lookup(files, path))
      ensures answer == if raw.StatError? then StatAnswer(false, 0) else raw
      ensures log == old(log) + [Queried(path, raw)]
    {
      answer := Stat(path);
      raw := answer;
      if answer.StatError? { answer := StatAnswer(false, 0); }
    }

    /** partialMatches: compares the digests of the stored bytes and of as many source
        bytes; either side may fail to read. */
    method PartialMatches(path: string, src: Bytes, length: nat) returns (err: bool, ok: bool)
      requires path in files && length == |files[path]| <= |src|
      modifies this`log
      ensures !err ==> (ok <==> files[path] <= src)
      ensures log == old(log) + [Compared(path, err)]
    {
      err := *;
      ok := Sha256(files[path]) == Sha256(src[..length]);
      log := log + [Compared(path, err)];
    }

    /** The start offset both backends compute. A failed size query or comparison counts
        as no partial. */
    method ResumeOffset(path: string, src: Bytes) returns (start: nat, ghost calls: seq<Call>)
      requires Apart(path)
      modifies this
      ensures Onward(path) && Lookup(files, path) == Lookup(old(files), path)
      ensures start == StartOf(Lookup(files, path), src, calls) && (start > 0 ==> path in files)
      ensures Harmless(Lookup(files, path), src, calls)
      ensures log == old(log) + calls
    {
      start := 0;
      Others(path);
      var answer := Stat(path);
      ghost var was := Lookup(files, path);
      calls := [Queried(path, answer)];
      LookedOnce(was, src, calls[0]);
      if answer.StatAnswer? && answer.found && 0 < answer.size < |src| {
        Others(path);
        var err, ok := PartialMatches(path, src, answer.size);
        LookedAgain(was, src, calls, Compared(path, err));
        calls := calls + [Compared(path, err)];
        if !err && ok { start := answer.size; }
      }
    }

    /** Anything else that can fail: mkdir, seek, opening or reading the source. */
    method MayBreak() returns (err: bool)
      modifies this`log
      ensures log == old(log) + if err then [Broke] else []
    {
      err := *;
      if err { log := log + [Broke]; }
    }

    /** OpenFile with O_TRUNC when nothing is resumed; if the answer is lost the file may be
        empty all the same. */
    method OpenDest(path: string, truncate: bool) returns (err: bool, ghost emptied: bool)
      requires !truncate ==> path in files
      modifies this`files, this`log
      ensures (emptied ==> truncate) && (!err ==> emptied == truncate)
      ensures files == if emptied then old(files)[path := []] else old(files)
      ensures log == old(log) + [Opened(path, truncate, err, emptied)]
    {
      err := *;
      var lost: bool := *;
      emptied := truncate && (!err || lost);
      if truncate && (!err || lost) { files := files[path := []]; }
      log := log + [Opened(path, truncate, err, emptied)];
    }

    /** One write at the end of the file, as O_APPEND does it; on an error any first
        part of the chunk may be in. */
    method Append(path: string, chunk: Bytes) returns (err: bool, ghost n: nat)
      requires path in files
      modifies this`files, this`log
      ensures n <= |chunk| && (!err ==> n == |chunk|)
      ensures files == old(files)[path := old(files)[path] + chunk[..n]]
      ensures log == old(log) + [Wrote(path, |old(files)[path]|, chunk, n, err, false)]
    {
      err := *;
      var k: int := *;
      if !(0 <= k <= |chunk|) || !err { k := |chunk|; }
      n := k;
      log := log + [Wrote(path, |files[path]|, chunk, n, err, false)];
      files := files[path := files[path] + chunk[..k]];
    }

    /** One write at an explicit offset, as the SFTP client does it after Seek. */
    method WriteAt(path: string, offset: nat, chunk: Bytes) returns (err: bool, ghost n: nat)
      requires path in files && offset <= |files[path]|
      modifies this`files, this`log
      ensures n <= |chunk| && (!err ==> n == |chunk|)
      ensures files == old(files)[path := Overwrite(old(files)[path], offset, chunk[..n])]
      ensures log == old(log) + [Wrote(path, offset, chunk, n, err, true)]
    {
      err := *;
      var k: int := *;
      if !(0 <= k <= |chunk|) || !err { k := |chunk|; }
      n := k;
      log := log + [Wrote(path, offset, chunk, n, err, true)];
      files := files[path := Overwrite(files[path], offset, chunk[..k])];
    }

    /** A read of 1 to all remaining bytes, or an error. */
    method ReadChunk(src: Bytes, pos: nat) returns (err: bool, chunk: Bytes)
      requires pos < |src|
      modifies this`log
      ensures 0 < |chunk| <= |src| - pos && chunk == src[pos..pos + |chunk|]
      ensures log == old(log) + if err then [Broke] else []
    {
      err := MayBreak();
      var n: int := *;
      if !(0 < n <= |src| - pos) { n := |src| - pos; }
      chunk := src[pos..pos + n];
    }

    /** Everything before the copy loop: mkdir, the start offset, opening both files. */
    method OpenBoth(path: string, src: Bytes) returns (err: bool, start: nat, ghost calls: seq<Call>)
      requires Apart(path)
      modifies this
      ensures Onward(path) && log == old(log) + calls
      ensures Lookup(files, path) == Content(Lookup(old(files), path), calls)
      ensures err ==> PutTrace(Lookup(old(files), path), src, path, calls, [], true)
      ensures err ==> PutOutcome(Lookup(old(files), path), src, Lookup(files, path), true)
      ensures !err ==> Chunks(calls) == [] && Copying(Lookup(old(files), path), src, path, calls, start)
    {
      start, calls := 0, [Broke];
      ghost var was := Lookup(files, path);
      err := MayBreak();
      if err {
        BrokeAtOnce(was, src, path);
        return;
      }
      start, calls := ResumeOffset(path, src);
      err, calls := OpenFrom(path, src, start, was, old(log), calls);
    }

    /** Opens the destination to append or anew, then the source at the start offset. */
    method OpenFrom(path: string, src: Bytes, start: nat, ghost was: Option<Bytes>, ghost before: seq<Call>,
                    ghost calls: seq<Call>)
      returns (err: bool, ghost more: seq<Call>)
      requires Apart(path) && Lookup(files, path) == was && log == before + calls
      requires Harmless(was, src, calls) && start == StartOf(was, src, calls)
      modifies this
      ensures Onward(path) && log == before + more
      ensures Lookup(files, path) == Content(was, more)
      ensures err ==> PutTrace(was, src, path, more, [], true) && PutOutcome(was, src, Content(was, more), true)
      ensures !err ==> Chunks(more) == [] && Copying(was, src, path, more, start)
    {
      Others(path);
      ghost var emptied;
      UpdateStaysAsLeft(others, files, path, []);
      err, emptied := OpenDest(path, start == 0);
      ghost var call := Opened(path, start == 0, err, emptied);
      Extended(before, calls, call);
      more := calls + [call];
      OpenedNext(was, src, path, calls, call, more, start);
      if err { return; }
      err := MayBreak();
      if err {
        Extended(before, more, Broke);
        CopyingBreaks(was, src, path, more, start);
        more := more + [Broke];
      }
    }

    /** The TeeReader: a chunk is reported as it is read, before it is written. */
    method ReadReported(path: string, src: Bytes, pos: nat, reports: seq<nat>, ghost was: Option<Bytes>,
                        ghost before: seq<Call>, ghost calls: seq<Call>)
      returns (err: bool, chunk: Bytes, reported: seq<nat>, ghost more: seq<Call>)
      requires pos < |src| && Copying(was, src, path, calls, pos) && log == before + calls
      requires reports == Chunks(calls)
      modifies this`log
      ensures 0 < |chunk| <= |src| - pos && chunk == src[pos..pos + |chunk|]
      ensures log == before + more
      ensures err ==> PutTrace(was, src, path, more, reported, true) && Content(was, more) == Content(was, calls)
      ensures err ==> more == calls + [Broke]
      ensures !err ==> more == calls && reported == reports + [pos + |chunk|]
    {
      more, reported := calls, reports;
      err, chunk := ReadChunk(src, pos);
      if err {
        CopyingBreaks(was, src, path, calls, pos);
        Extended(before, calls, Broke);
        more := calls + [Broke];
      } else {
        reported := reports + [pos + |chunk|];
      }
    }

    /** The read that finds the end of the source can fail as well; the last report is the
        size. */
    method CopyEnds(path: string, src: Bytes, reports: seq<nat>, ghost was: Option<Bytes>, ghost before: seq<Call>,
                    ghost calls: seq<Call>)
      returns (err: bool, reported: seq<nat>, ghost more: seq<Call>)
      requires Copying(was, src, path, calls, |src|) && log == before + calls && reports == Chunks(calls)
      modifies this`log
      ensures log == before + more && PutTrace(was, src, path, more, reported, err)
      ensures Content(was, more) == Some(src) && more == if err then calls + [Broke] else calls
    {
      CopyingDone(was, src, path, calls);
      CopyingBreaks(was, src, path, calls, |src|);
      err := MayBreak();
      more, reported := calls, reports;
      if err {
        Extended(before, calls, Broke);
        more := calls + [Broke];
      } else {
        reported := reports + [|src|];
      }
    }

    /** One write of io.Copy, onto a file opened with O_APPEND or at an explicit offset: at
        the end of the file they do the same. */
    method WriteOn(path: string, at: nat, chunk: Bytes, seeking: bool) returns (err: bool, ghost n: nat)
      requires path in files && at == |files[path]|
      modifies this`files, this`log
      ensures n <= |chunk| && (!err ==> n == |chunk|)
      ensures files == old(files)[path := old(files)[path] + chunk[..n]]
      ensures log == old(log) + [Wrote(path, at, chunk, n, err, seeking)]
    {
      if seeking {
        ghost var content := files[path];
        err, n := WriteAt(path, at, chunk);
        assert Overwrite(content, at, chunk[..n]) == content + chunk[..n];
      } else {
        err, n := Append(path, chunk);
      }
    }

    /** Others come first, then the chunk is written. */
    method WriteNext(path: string, src: Bytes, pos: nat, chunk: Bytes, seeking: bool) returns (err: bool, ghost n: nat)
      requires Apart(path) && pos + |chunk| <= |src| && chunk == src[pos..pos + |chunk|]
      requires Lookup(files, path) == Some(src[..pos])
      modifies this
      ensures Onward(path) && n <= |chunk| && (!err ==> n == |chunk|)
      ensures PrefixAt(Lookup(files, path), src, pos + n)
      ensures log == old(log) + [Wrote(path, pos, chunk, n, err, seeking)]
    {
      Others(path);
      ghost var mid := files;
      err, n := WriteOn(path, pos, chunk, seeking);
      UpdateStaysAsLeft(others, mid, path, files[path]);
      NextChunk(src, pos, chunk, n);
    }

    /** A chunk that was read and reported is written. */
    method WriteReported(path: string, src: Bytes, pos: nat, chunk: Bytes, reported: seq<nat>, seeking: bool,
                         ghost was: Option<Bytes>, ghost before: seq<Call>, ghost calls: seq<Call>)
      returns (err: bool, ghost more: seq<Call>)
      requires pos + |chunk| <= |src| && chunk == src[pos..pos + |chunk|]
      requires Apart(path) && Lookup(files, path) == Some(src[..pos]) && InMode(calls, seeking)
      requires Copying(was, src, path, calls, pos) && log == before + calls
      requires reported == Chunks(calls) + [pos + |chunk|]
      modifies this
      ensures Onward(path) && Lookup(files, path) == Content(was, more) && log == before + more
      ensures exists n :: PrefixAt(Content(was, more), src, n)
      ensures err ==> PutTrace(was, src, path, more, reported, true)
      ensures !err ==> Copying(was, src, path, more, pos + |chunk|) && reported == Chunks(more)
      ensures InMode(more, seeking)
    {
      ghost var n;
      err, n := WriteNext(path, src, pos, chunk, seeking);
      ghost var call := Wrote(path, pos, chunk, n, err, seeking);
      Extended(before, calls, call);
      more := calls + [call];
      InModeNext(calls, call, seeking);
      CopyingNext(was, src, path, calls, pos, call, more, pos + |chunk|, reported);
      assert PrefixAt(Content(was, more), src, pos + n);
    }

    /** One turn of io.Copy: read a chunk, report it, write it. */
    method CopyChunk(path: string, src: Bytes, pos: nat, reports: seq<nat>, seeking: bool, ghost was: Option<Bytes>,
                     ghost before: seq<Call>, ghost calls: seq<Call>)
      returns (err: bool, next: nat, reported: seq<nat>, ghost more: seq<Call>)
      requires Apart(path) && pos < |src| && Lookup(files, path) == Some(src[..pos]) && InMode(calls, seeking)
      requires Copying(was, src, path, calls, pos) && log == before + calls && reports == Chunks(calls)
      modifies this
      ensures Onward(path) && Lookup(files, path) == Content(was, more) && log == before + more
      ensures exists n :: PrefixAt(Content(was, more), src, n)
      ensures err ==> PutTrace(was, src, path, more, reported, true)
      ensures !err ==> pos < next && Copying(was, src, path, more, next) && reported == Chunks(more)
      ensures InMode(more, seeking)
    {
      var chunk;
      next := pos;
      Others(path);
      InModeNext(calls, Broke, seeking);
      err, chunk, reported, more := ReadReported(path, src, pos, reports, was, before, calls);
      if err { return; }
      next := pos + |chunk|;
      err, more := WriteReported(path, src, pos, chunk, reported, seeking, was, before, calls);
    }

    /** io.Copy. `was` is the file before the Put, `before` the history before it, and
        `upto` the calls of this Put so far. */
    method CopyAll(path: string, src: Bytes, from: nat, seeking: bool, ghost was: Option<Bytes>,
                   ghost before: seq<Call>, ghost upto: seq<Call>)
      returns (err: bool, reports: seq<nat>, ghost calls: seq<Call>)
      requires Apart(path) && from <= |src| && Lookup(files, path) == Some(src[..from])
      requires Copying(was, src, path, upto, from) && Chunks(upto) == [] && log == before + upto
      modifies this
      ensures Onward(path) && Lookup(files, path) == Content(was, calls)
      ensures exists n :: PrefixAt(Content(was, calls), src, n)
      ensures !err ==> Content(was, calls) == Some(src)
      ensures log == before + calls && PutTrace(was, src, path, calls, reports, err) && InMode(calls, seeking)
    {
      var pos := from;
      err, reports, calls := false, [], upto;
      NoChunksNoMode(upto, seeking);
      while pos < |src|
        invariant !err && pos <= |src| && Onward(path) && Lookup(files, path) == Content(was, calls)
        invariant log == before + calls && Copying(was, src, path, calls, pos) && reports == Chunks(calls)
        invariant InMode(calls, seeking)
      {
        err, pos, reports, calls := CopyChunk(path, src, pos, reports, seeking, was, before, calls);
        if err { return; }
      }
      assert src[..|src|] == src;
      InModeNext(calls, Broke, seeking);
      err, reports, calls := CopyEnds(path, src, reports, was, before, calls);
    }

    /** localfs Put: append to a verified partial, else truncate and write it all. The
        reports are the calls of the progress callback. Others may deal with other files
        between any two calls. */
    method LocalPut(path: string, src: Bytes) returns (err: bool, reports: seq<nat>, ghost calls: seq<Call>)
      requires Apart(path)
      modifies this
      ensures Onward(path) && PutOutcome(Lookup(old(files), path), src, Lookup(files, path), err)
      ensures Lookup(files, path) == Content(Lookup(old(files), path), calls)
      ensures log == old(log) + calls && PutTrace(Lookup(old(files), path), src, path, calls, reports, err)
      ensures InMode(calls, false)
    {
      reports := [];
      var from;
      err, from, calls := OpenBoth(path, src);
      NoChunksNoMode(calls, false);
      if err { return; }
      err, reports, calls := CopyAll(path, src, from, false, Lookup(old(files), path), old(log), calls);
    }

    /** sftpbackend Put: the same, writing at explicit offsets without O_APPEND. */
    method SftpPut(path: string, src: Bytes) returns (err: bool, reports: seq<nat>, ghost calls: seq<Call>)
      requires Apart(path)
      modifies this
      ensures Onward(path) && PutOutcome(Lookup(old(files), path), src, Lookup(files, path), err)
      ensures Lookup(files, path) == Content(Lookup(old(files), path), calls)
      ensures log == old(log) + calls && PutTrace(Lookup(old(files), path), src, path, calls, reports, err)
      ensures InMode(calls, true)
    {
      reports := [];
      var from;
      err, from, calls := OpenBoth(path, src);
      NoChunksNoMode(calls, true);
      if err { return; }
      err, reports, calls := CopyAll(path, src, from, true, Lookup(old(files), path), old(log), calls);
    }
  }

  /** The content after writing chunk at offset. */
  function Overwrite(content: Bytes, offset: nat, chunk: Bytes): Bytes
    requires offset <= |content|
  {
    content[..offset] + chunk + (if offset + |chunk| < |content| then content[offset + |chunk|..] else [])
  }
}
