/** The S3 server as the backend meets it: stored objects, multipart uploads in
    progress, and calls that can fail before or after taking effect. The assumptions
    on the AWS SDK and its managed uploader are the contracts below. Every call and
    every failure met on the way is appended to one history, so that a contract can say
    what was asked of the server and not only what became of it. */
module Bucket {
  import opened Transfer

  /** A part's ETag: its MD5, abstracted as an injective function of the content, or
      an opaque token from a server that does not use MD5. */
  datatype ETag = Md5(content: Bytes) | Opaque(token: nat)

  datatype Part = Part(content: Bytes, etag: ETag)

  datatype Upload = Upload(key: string, parts: map<int, Part>)

  type UploadId = nat

  /** One entry of a ListParts answer. */
  datatype Listed = Listed(n: int, size: nat, etag: ETag)

  /** One element of the completed slice: its zero value, or a part with its ETag. */
  datatype Slot = Unfilled | Filled(n: int, etag: ETag)

  /** One entry of the history: a call with its answer, or something that failed. stored is
      the object the call left behind, if it took effect. */
  datatype Call =
    | ListedUploads(prefix: string, err: bool, uploads: seq<(string, UploadId)>)
    | ListedParts(id: UploadId, err: bool, page: seq<Listed>)
    | PartBegun(id: UploadId, n: int, body: Bytes) // the request is on its way
    | PartEnded(id: UploadId, n: int, err: bool)   // its answer is there
    | Completed(id: UploadId, list: seq<Slot>, err: bool, stored: Option<Bytes>)
    | Aborted(id: UploadId)
    | Managed(key: string, body: Bytes, err: bool, stored: Option<Bytes>)
    | SourceFailed // opening or reading the source
    | ContextLooked(done: bool) // the context was looked at: is the run cancelled?
    | Overran      // the part counter wrapped

  /** What makes the backend give up. */
  predicate Fails(c: Call) {
    match c
    case ListedUploads(_, err, _) => err
    case ListedParts(_, err, _) => err
    case PartEnded(_, _, err) => err
    case Completed(_, _, err, _) => err
    case Managed(_, _, err, _) => err
    case SourceFailed => true
    case ContextLooked(done) => done
    case Overran => true
    case _ => false
  }

  predicate AnyFails(calls: seq<Call>) {
    calls != [] && (Fails(calls[|calls| - 1]) || AnyFails(calls[..|calls| - 1]))
  }

  /** An ETag that is an MD5 is the MD5 of what is stored. */
  predicate HonestPart(p: Part) { p.etag.Md5? ==> p.etag.content == p.content }

  ghost predicate HonestUploads(uploads: map<UploadId, Upload>) {
    forall id, n :: id in uploads && n in uploads[id].parts ==> HonestPart(uploads[id].parts[n])
  }

  /** The upload, if it is one of this key; if it is one of another key. */
  function UploadOf(m: map<UploadId, Upload>, key: string, id: UploadId): Option<Upload> {
    if id in m && m[id].key == key then Some(m[id]) else None
  }

  function UploadElse(m: map<UploadId, Upload>, key: string, id: UploadId): Option<Upload> {
    if id in m && m[id].key != key then Some(m[id]) else None
  }

  /** Uploads of other keys are the same in both. */
  ghost predicate OthersKept(before: map<UploadId, Upload>, after: map<UploadId, Upload>, key: string) {
    forall id :: UploadElse(before, key, id) == UploadElse(after, key, id)
  }

  /** Uploads of this key are the same in both. */
  ghost predicate OwnKept(before: map<UploadId, Upload>, after: map<UploadId, Upload>, key: string) {
    forall id :: UploadOf(before, key, id) == UploadOf(after, key, id)
  }

  /** What others have made of the keys that are not one's own. */
  datatype Elsewhere = Elsewhere(objects: map<string, Bytes>, uploads: map<UploadId, Upload>)

  ghost predicate AsLeft(others: Elsewhere, objects: map<string, Bytes>, uploads: map<UploadId, Upload>, key: string) {
    && (forall q :: q != key ==> Lookup(objects, q) == Lookup(others.objects, q))
    && OthersKept(others.uploads, uploads, key)
  }

  /** So a method that keeps this on a server where nobody else acts leaves the other keys
      alone. */
  lemma AloneLeavesOtherKeys(others: Elsewhere, a: map<string, Bytes>, u: map<UploadId, Upload>, b: map<string, Bytes>,
                             v: map<UploadId, Upload>, key: string)
    requires AsLeft(others, a, u, key) && AsLeft(others, b, v, key)
    ensures forall q :: q != key ==> Lookup(a, q) == Lookup(b, q)
    ensures OthersKept(u, v, key)
  {
    forall id ensures UploadElse(u, key, id) == UploadElse(v, key, id) {
      assert UploadElse(others.uploads, key, id) == UploadElse(u, key, id);
    }
  }

  predicate IsPrefix(p: string, s: string) { |p| <= |s| && s[..|p|] == p }

  /** A complete request names stored parts, by number and ETag. */
  predicate Names(parts: map<int, Part>, list: seq<Slot>) {
    forall k :: 0 <= k < |list| ==>
      list[k].Filled? && list[k].n in parts && parts[list[k].n].etag == list[k].etag
  }

  /** It is refused when it names none. */
  predicate Acceptable(parts: map<int, Part>, list: seq<Slot>) { list != [] && Names(parts, list) }

  function Assemble(parts: map<int, Part>, list: seq<Slot>): Bytes
    requires Names(parts, list)
  {
    if list == [] then []
    else
      assert Names(parts, list[..|list| - 1]);
      Assemble(parts, list[..|list| - 1]) + parts[list[|list| - 1].n].content
  }

  /** The uploads after one part of one of them was stored. */
  function WithPart(uploads: map<UploadId, Upload>, id: UploadId, n: int, part: Part): map<UploadId, Upload>
    requires id in uploads
  {
    uploads[id := Upload(uploads[id].key, uploads[id].parts[n := part])]
  }

  predicate ListedOk(uploads: map<UploadId, Upload>, id: UploadId, e: Listed) {
    && id in uploads
    && e.n in uploads[id].parts
    && e.size == |uploads[id].parts[e.n].content|
    && e.etag == uploads[id].parts[e.n].etag
  }

  predicate PageEntryOk(uploads: map<UploadId, Upload>, prefix: string, e: (string, UploadId)) {
    IsPrefix(prefix, e.0) && e.1 in uploads && uploads[e.1].key == e.0
  }

  /** Uploads of one key are worked on at a time by one worker; others may work on other
      keys between any two of its calls, if the server is shared. */
  class Server {
    const shared: bool
    var objects: map<string, Bytes>
    var uploads: map<UploadId, Upload>
    ghost var others: Elsewhere
    ghost var log: seq<Call>

    /** Everything at other keys is as others have left it. */
    ghost predicate Apart(key: string)
      reads this
    {
      AsLeft(others, objects, uploads, key)
    }

    ghost predicate Tidy(key: string)
      reads this
    {
      HonestUploads(uploads) && Apart(key)
    }

    /** ... and so throughout, where others only act on a shared server. */
    twostate predicate Onward(key: string)
      reads this
    {
      Tidy(key) && (!shared ==> others == old(others))
    }

    /** This upload of this key is in progress. */
    predicate Has(id: UploadId, key: string)
      reads this
    {
      id in uploads && uploads[id].key == key
    }

    constructor (shared: bool)
      ensures this.shared == shared && objects == map[] && uploads == map[] && log == []
      ensures forall key :: Tidy(key)
    {
      this.shared, objects, uploads, others, log := shared, map[], map[], Elsewhere(map[], map[]), [];
    }

    /** Others do anything to other keys. */
    method Others(key: string)
      requires Tidy(key)
      modifies this`objects, this`uploads, this`others
      ensures Tidy(key) && Lookup(objects, key) == Lookup(old(objects), key) && OwnKept(old(uploads), uploads, key)
      ensures !shared ==> objects == old(objects) && uploads == old(uploads) && others == old(others)
    {
      if shared {
        var o: map<string, Bytes>, u: map<UploadId, Upload> := *, *;
        objects := if key in objects then o[key := objects[key]] else o - {key};
        if (forall id | id in u :: forall n | n in u[id].parts :: HonestPart(u[id].parts[n]))
           && (forall id | id in uploads :: uploads[id].key == key ==> id in u && u[id] == uploads[id])
           && (forall id | id in u :: u[id].key == key ==> id in uploads && u[id] == uploads[id])
        {
          uploads := u;
        }
        others := Elsewhere(objects, uploads);
      }
    }

    /** Whether an open or a read of the source fails. */
    method SourceFails() returns (failed: bool)
      modifies this`log
      ensures log == old(log) + if failed then [SourceFailed] else []
    {
      failed := *;
      if failed { log := log + [SourceFailed]; }
    }

    /** Whether the context is found done. */
    method ContextIsDone() returns (done: bool)
      modifies this`log
      ensures log == old(log) + [ContextLooked(done)]
    {
      done := *;
      log := log + [ContextLooked(done)];
    }

    /** The loop over the parts runs on past the last: does the process die of it? */
    method CounterOverruns() returns (dies: bool)
      modifies this`log
      ensures log == old(log) + [Overran]
    {
      dies := *;
      log := log + [Overran];
    }

    /** ListMultipartUploads: any page of real uploads whose key has the prefix. */
    method ListMultipartUploads(prefix: string) returns (err: bool, page: seq<(string, UploadId)>)
      modifies this`log
      ensures forall k :: 0 <= k < |page| ==> PageEntryOk(uploads, prefix, page[k])
      ensures log == old(log) + [ListedUploads(prefix, err, page)]
    {
      err := *;
      page := *;
      if exists k :: 0 <= k < |page| && !PageEntryOk(uploads, prefix, page[k]) {
        page := [];
      }
      log := log + [ListedUploads(prefix, err, page)];
    }

    /** ListParts: any subset, in any order, of the parts stored. */
    method ListParts(id: UploadId) returns (err: bool, page: seq<Listed>)
      modifies this`log
      ensures !err ==> id in uploads && forall k :: 0 <= k < |page| ==> ListedOk(uploads, id, page[k])
      ensures log == old(log) + [ListedParts(id, err, page)]
    {
      err := *;
      page := *;
      if id !in uploads { err := true; }
      if exists k :: 0 <= k < |page| && !ListedOk(uploads, id, page[k]) {
        page := [];
      }
      log := log + [ListedParts(id, err, page)];
    }

    /** UploadPart, first half: the request with its body leaves. */
    method BeginPart(id: UploadId, n: int, body: Bytes)
      modifies this`log
      ensures log == old(log) + [PartBegun(id, n, body)]
    {
      log := log + [PartBegun(id, n, body)];
    }

    /** UploadPart, second half: the part is stored, replacing one of that number, and the
        answer arrives; an error can come before or after the part was stored. */
    method EndPart(id: UploadId, n: int, body: Bytes) returns (err: bool, etag: ETag)
      requires HonestUploads(uploads) && PartBegun(id, n, body) in log
      modifies this`uploads, this`log
      ensures HonestUploads(uploads) && HonestPart(Part(body, etag))
      ensures uploads == old(uploads)
              || (id in old(uploads) && uploads == WithPart(old(uploads), id, n, Part(body, etag)))
      ensures !err ==> id in old(uploads) && uploads == WithPart(old(uploads), id, n, Part(body, etag))
      ensures log == old(log) + [PartEnded(id, n, err)]
    {
      err := *;
      etag := *;
      if !HonestPart(Part(body, etag)) { etag := Md5(body); }
      if id !in uploads {
        err := true;
      } else {
        var stored: bool := *;
        if stored || !err {
          uploads := WithPart(uploads, id, n, Part(body, etag));
        }
      }
      log := log + [PartEnded(id, n, err)];
    }

    /** CompleteMultipartUpload: an acceptable list becomes the object, atomically; the
        answer can still be lost. */
    method CompleteMultipartUpload(id: UploadId, list: seq<Slot>) returns (err: bool, ghost stored: Option<Bytes>)
      modifies this`objects, this`uploads, this`log
      ensures stored.None? ==> objects == old(objects) && uploads == old(uploads)
      ensures stored.Some? ==>
                && id in old(uploads) && Acceptable(old(uploads)[id].parts, list)
                && stored.value == Assemble(old(uploads)[id].parts, list)
                && objects == old(objects)[old(uploads)[id].key := stored.value]
                && uploads == old(uploads) - {id}
      ensures !err ==> stored.Some?
      ensures log == old(log) + [Completed(id, list, err, stored)]
    {
      err, stored := *, None;
      if id in uploads && Acceptable(uploads[id].parts, list) {
        var done: bool := *;
        if done || !err {
          stored := Some(Assemble(uploads[id].parts, list));
          objects := objects[uploads[id].key := Assemble(uploads[id].parts, list)];
          uploads := uploads - {id};
        }
      } else {
        err := true;
      }
      log := log + [Completed(id, list, err, stored)];
    }

    method AbortMultipartUpload(id: UploadId)
      modifies this`uploads, this`log
      ensures uploads == old(uploads) || uploads == old(uploads) - {id}
      ensures log == old(log) + [Aborted(id)]
    {
      var gone: bool := *;
      if gone { uploads := uploads - {id}; }
      log := log + [Aborted(id)];
    }

    /** The managed uploader: success stores the exact body; failure leaves the object
        alone, or stores it and loses the answer, and in either case may leave any
        multipart uploads of this key behind (LeavePartsOnError). */
    method ManagedUpload(key: string, body: Bytes) returns (err: bool, ghost stored: Option<Bytes>)
      requires HonestUploads(uploads)
      modifies this`objects, this`uploads, this`log
      ensures HonestUploads(uploads) && OthersKept(old(uploads), uploads, key)
      ensures stored.None? ==> objects == old(objects)
      ensures stored.Some? ==> stored.value == body && objects == old(objects)[key := body]
      ensures !err ==> stored.Some?
      ensures log == old(log) + [Managed(key, body, err, stored)]
    {
      err, stored := *, None;
      var done: bool := *;
      if done || !err {
        objects := objects[key := body];
        stored := Some(body);
      }
      LeaveBehind(key);
      log := log + [Managed(key, body, err, stored)];
    }

    /** Anything an interruption may do to the uploads of one key. */
    method LeaveBehind(key: string)
      requires HonestUploads(uploads)
      modifies this`uploads
      ensures HonestUploads(uploads) && OthersKept(old(uploads), uploads, key)
    {
      var leftovers: map<UploadId, Upload> := *;
      if (forall id | id in leftovers :: forall n | n in leftovers[id].parts :: HonestPart(leftovers[id].parts[n]))
         && (forall id | id in uploads :: uploads[id].key != key ==> id in leftovers && leftovers[id] == uploads[id])
         && (forall id | id in leftovers :: leftovers[id].key != key ==> id in uploads && leftovers[id] == uploads[id])
      {
        uploads := leftovers;
      }
    }
  }
}
