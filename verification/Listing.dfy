/** Object keys and listings of the S3 backend: when a relative path survives the trip
    through its key, and what a complete listing lets the worker pool conclude. */
module Listing {
  import opened Transfer
  import opened SyncRuns

  // ---- keys ----

  /** strings.ReplaceAll(s, "\\", "/") */
  function Slashed(s: string): (r: string)
    ensures |r| == |s|
    ensures forall i :: 0 <= i < |s| ==> r[i] == if s[i] == '\\' then '/' else s[i]
  {
    if s == "" then "" else [if s[0] == '\\' then '/' else s[0]] + Slashed(s[1..])
  }

  /** strings.TrimPrefix(s, p) */
  function TrimPrefix(s: string, p: string): string {
    if p <= s then s[|p|..] else s
  }

  function TrimLeft(s: string): string {
    if s != "" && s[0] == '/' then TrimLeft(s[1..]) else s
  }

  function TrimRight(s: string): string {
    if s != "" && s[|s| - 1] == '/' then TrimRight(s[..|s| - 1]) else s
  }

  /** strings.Trim(s, "/") */
  function Trim(s: string): string { TrimRight(TrimLeft(s)) }

  function Clean(relPath: string): string { TrimPrefix(Slashed(relPath), "/") }

  function BuildKey(prefix: string, relPath: string): string {
    if prefix == "" then Clean(relPath) else Trim(prefix) + "/" + Clean(relPath)
  }

  /** The prefix Scan and StatAll list under, and take off again. */
  function ListPrefix(prefix: string): string {
    if prefix == "" then "" else Trim(prefix) + "/"
  }

  function Relative(prefix: string, key: string): string { TrimPrefix(key, ListPrefix(prefix)) }

  /** A path with no backslash and no leading slash. */
  predicate Plain(relPath: string) {
    '\\' !in relPath && (relPath != "" ==> relPath[0] != '/')
  }

  lemma KeyParts(prefix: string, relPath: string)
    ensures BuildKey(prefix, relPath) == ListPrefix(prefix) + Clean(relPath)
    ensures Relative(prefix, BuildKey(prefix, relPath)) == Clean(relPath)
  {
    assert (ListPrefix(prefix) + Clean(relPath))[..|ListPrefix(prefix)|] == ListPrefix(prefix);
    if prefix == "" { assert ListPrefix(prefix) + Clean(relPath) == Clean(relPath); }
  }

  lemma CleanIsIdentityIff(relPath: string)
    ensures Clean(relPath) == relPath <==> Plain(relPath)
  {
    var s := Slashed(relPath);
    if '\\' in relPath {
      var i :| 0 <= i < |relPath| && relPath[i] == '\\';
      assert s[i] == '/';
      assert |Clean(relPath)| == |relPath| ==> Clean(relPath) == s;
    } else {
      assert s == relPath;
    }
  }

  /** A run of slashes. */
  predicate AllSlashes(s: string) { forall i :: 0 <= i < |s| ==> s[i] == '/' }

  lemma {:induction false} TrimLeftCuts(s: string)
    ensures exists a :: AllSlashes(a) && s == a + TrimLeft(s)
    ensures TrimLeft(s) != "" ==> TrimLeft(s)[0] != '/'
  {
    if s != "" && s[0] == '/' {
      TrimLeftCuts(s[1..]);
      var a :| AllSlashes(a) && s[1..] == a + TrimLeft(s[1..]);
      assert AllSlashes(['/'] + a) && s == (['/'] + a) + TrimLeft(s);
    } else {
      assert AllSlashes("") && s == "" + s;
    }
  }

  lemma {:induction false} TrimRightCuts(s: string)
    ensures exists b :: AllSlashes(b) && s == TrimRight(s) + b
    ensures TrimRight(s) != "" ==> TrimRight(s)[|TrimRight(s)| - 1] != '/' && TrimRight(s)[0] == s[0]
  {
    if s != "" && s[|s| - 1] == '/' {
      var init := s[..|s| - 1];
      TrimRightCuts(init);
      var b :| AllSlashes(b) && init == TrimRight(init) + b;
      assert AllSlashes(b + ['/']) && s == TrimRight(s) + (b + ['/']);
    } else {
      assert AllSlashes("") && s == s + "";
    }
  }

  /** A prefix loses the slashes at both ends and nothing else. */
  lemma TrimCutsSlashes(s: string)
    ensures exists a, b :: AllSlashes(a) && AllSlashes(b) && s == a + Trim(s) + b
    ensures Trim(s) != "" ==> Trim(s)[0] != '/' && Trim(s)[|Trim(s)| - 1] != '/'
  {
    TrimLeftCuts(s);
    TrimRightCuts(TrimLeft(s));
    var a :| AllSlashes(a) && s == a + TrimLeft(s);
    var b :| AllSlashes(b) && TrimLeft(s) == Trim(s) + b;
    assert s == a + Trim(s) + b;
  }

  /** So the key of a plain path is the bare prefix, one slash and the path, however many
      slashes the prefix was given with; and without a prefix it is the path. */
  lemma KeyOfPlainPath(a: string, bare: string, b: string, relPath: string)
    requires AllSlashes(a) && AllSlashes(b) && Plain(relPath)
    requires bare != "" ==> bare[0] != '/' && bare[|bare| - 1] != '/'
    requires a + bare + b != ""
    ensures BuildKey(a + bare + b, relPath) == bare + "/" + relPath
    ensures BuildKey("", relPath) == relPath
  {
    CleanIsIdentityIff(relPath);
    TrimIsBare(a, bare, b);
  }

  lemma {:induction false} TrimIsBare(a: string, bare: string, b: string)
    requires AllSlashes(a) && AllSlashes(b)
    requires bare != "" ==> bare[0] != '/' && bare[|bare| - 1] != '/'
    ensures Trim(a + bare + b) == bare
    decreases |a| + |b|
  {
    if a != "" {
      assert (a + bare + b)[1..] == a[1..] + bare + b;
      TrimIsBare(a[1..], bare, b);
    } else if bare == "" {
      SlashesTrimAway(b);
      assert a + bare + b == b;
    } else {
      assert a + bare + b == bare + b && TrimLeft(bare + b) == bare + b;
      TrimRightIsBare(bare, b);
    }
  }

  lemma {:induction false} SlashesTrimAway(b: string)
    requires AllSlashes(b)
    ensures Trim(b) == ""
  {
    if b != "" { SlashesTrimAway(b[1..]); }
  }

  lemma {:induction false} TrimRightIsBare(bare: string, b: string)
    requires AllSlashes(b) && bare != "" && bare[|bare| - 1] != '/'
    ensures TrimRight(bare + b) == bare
  {
    if b == "" {
      assert bare + b == bare;
    } else {
      assert (bare + b)[..|bare + b| - 1] == bare + b[..|b| - 1];
      TrimRightIsBare(bare, b[..|b| - 1]);
    }
  }

  /** Trimming the listing prefix gives the path back for exactly the plain paths. */
  lemma PathRoundTripIff(prefix: string, relPath: string)
    ensures Relative(prefix, BuildKey(prefix, relPath)) == relPath <==> Plain(relPath)
  {
    KeyParts(prefix, relPath);
    CleanIsIdentityIff(relPath);
  }

  /** BuildKey never maps two plain paths to one object. */
  lemma BuildKeyInjective(prefix: string, p: string, q: string)
    requires Plain(p) && Plain(q) && BuildKey(prefix, p) == BuildKey(prefix, q)
    ensures p == q
  {
    PathRoundTripIff(prefix, p);
    PathRoundTripIff(prefix, q);
  }

  /** Two different files of one Unix directory can map to one object. */
  lemma BuildKeyCollision(prefix: string)
    ensures BuildKey(prefix, "a\\b") == BuildKey(prefix, "a/b") && "a\\b" != "a/b"
  {
    assert Slashed("a\\b") == "a/b" && Slashed("a/b") == "a/b";
  }

  /** As a source: the path Scan reports for a listed key leads Open back to that key
      exactly when it is plain. */
  lemma ScanOpenRoundTripIff(prefix: string, key: string)
    requires ListPrefix(prefix) <= key
    ensures BuildKey(prefix, Relative(prefix, key)) == key <==> Plain(Relative(prefix, key))
  {
    var rel := Relative(prefix, key);
    KeyParts(prefix, rel);
    CleanIsIdentityIff(rel);
    assert key == ListPrefix(prefix) + rel;
    assert BuildKey(prefix, rel)[|ListPrefix(prefix)|..] == Clean(rel) && key[|ListPrefix(prefix)|..] == rel;
  }

  // ---- StatAll ----

  /** One entry of a ListObjectsV2 page; the key can be missing. */
  datatype Entry = Entry(key: Option<string>, size: nat)

  ghost predicate EntryOk(objects: Files, listPrefix: string, e: Entry) {
    e.key.Some? ==> listPrefix <= e.key.value && e.key.value in objects && e.size == |objects[e.key.value]|
  }

  ghost predicate Lists(pages: seq<seq<Entry>>, key: string) {
    exists i, j :: 0 <= i < |pages| && 0 <= j < |pages[i]| && pages[i][j].key == Some(key)
  }

  /** The pages of the paginator together list every object under the prefix. */
  ghost predicate IsListing(pages: seq<seq<Entry>>, objects: Files, listPrefix: string) {
    && (forall i, j :: 0 <= i < |pages| && 0 <= j < |pages[i]| ==> EntryOk(objects, listPrefix, pages[i][j]))
    && (forall k :: k in objects && listPrefix <= k ==> Lists(pages, k))
  }

  /** The relative paths of the stored objects. */
  ghost function RelPaths(objects: Files, listPrefix: string): set<string> {
    set k | k in objects && listPrefix < k :: k[|listPrefix|..]
  }

  ghost predicate PartOfSnapshot(found: map<string, nat>, objects: Files, listPrefix: string) {
    forall rel :: rel in found ==>
      rel != "" && listPrefix + rel in objects && found[rel] == |objects[listPrefix + rel]|
  }

  /** found is the destination's whole content, by relative path. */
  ghost predicate IsSnapshot(found: map<string, nat>, objects: Files, listPrefix: string) {
    && PartOfSnapshot(found, objects, listPrefix)
    && (forall rel :: rel != "" && listPrefix + rel in objects ==> rel in found)
  }

  lemma FoundWithin(found: map<string, nat>, objects: Files, listPrefix: string)
    requires PartOfSnapshot(found, objects, listPrefix)
    ensures found.Keys <= RelPaths(objects, listPrefix) && |found| <= |RelPaths(objects, listPrefix)|
  {
    forall rel | rel in found ensures rel in RelPaths(objects, listPrefix) {
      var k := listPrefix + rel;
      assert k[|listPrefix|..] == rel && listPrefix < k;
    }
    SubsetSize(found.Keys, RelPaths(objects, listPrefix));
  }

  lemma SubsetSize<T>(a: set<T>, b: set<T>)
    requires a <= b
    ensures |a| <= |b|
  {
    assert b == a + (b - a);
  }

  ghost predicate EntrySeen(found: map<string, nat>, e: Entry, listPrefix: string) {
    e.key.Some? ==> TrimPrefix(e.key.value, listPrefix) == "" || TrimPrefix(e.key.value, listPrefix) in found
  }

  ghost predicate PageSeen(found: map<string, nat>, page: seq<Entry>, listPrefix: string) {
    forall j :: 0 <= j < |page| ==> EntrySeen(found, page[j], listPrefix)
  }

  /** The loop over one page: adds its entries, or stops once there are too many. */
  method TakePage(start: map<string, nat>, page: seq<Entry>, listPrefix: string, limit: nat, ghost objects: Files)
    returns (found: map<string, nat>, tooMany: bool)
    requires PartOfSnapshot(start, objects, listPrefix) && (limit > 0 ==> |start| <= limit)
    requires forall j :: 0 <= j < |page| ==> EntryOk(objects, listPrefix, page[j])
    ensures PartOfSnapshot(found, objects, listPrefix) && start.Keys <= found.Keys
    ensures tooMany ==> limit > 0 && |found| > limit
    ensures !tooMany ==> PageSeen(found, page, listPrefix) && (limit > 0 ==> |found| <= limit)
  {
    found, tooMany := start, false;
    for j := 0 to |page|
      invariant PartOfSnapshot(found, objects, listPrefix) && start.Keys <= found.Keys
      invariant limit > 0 ==> |found| <= limit
      invariant PageSeen(found, page[..j], listPrefix)
    {
      var e := page[j];
      assert EntryOk(objects, listPrefix, e);
      ghost var before := found;
      if e.key.Some? {
        var rel := TrimPrefix(e.key.value, listPrefix);
        assert listPrefix + rel == e.key.value;
        if rel != "" {
          found := found[rel := e.size];
          if limit > 0 && |found| > limit { return found, true; }
        }
      }
      ghost var seen := page[..j + 1];
      forall k | 0 <= k < |seen| ensures EntrySeen(found, seen[k], listPrefix) {
        assert k < j ==> EntrySeen(before, page[..j][k], listPrefix);
      }
    }
    assert page[..|page|] == page;
  }

  /** StatAll; fails says which pages cannot be had. An error means that one of those needed
      could not, ok means the whole listing, within the limit; not ok without an error
      means that the destination holds more than the limit. */
  method StatAll(prefix: string, limit: nat, pages: seq<seq<Entry>>, fails: seq<bool>, ghost objects: Files)
    returns (found: map<string, nat>, ok: bool, err: bool)
    requires IsListing(pages, objects, ListPrefix(prefix)) && |fails| == |pages|
    ensures err ==> exists i :: 0 <= i < |fails| && fails[i]
    ensures ok ==> !err && forall i :: 0 <= i < |fails| ==> !fails[i]
    ensures !err && ok ==> IsSnapshot(found, objects, ListPrefix(prefix)) && (limit > 0 ==> |found| <= limit)
    ensures !err && !ok ==> limit > 0 && |RelPaths(objects, ListPrefix(prefix))| > limit
    ensures err || !ok ==> found == map[]
  {
    var listPrefix := ListPrefix(prefix);
    found, ok, err := map[], false, false;
    for i := 0 to |pages|
      invariant PartOfSnapshot(found, objects, listPrefix) && (limit > 0 ==> |found| <= limit)
      invariant forall a :: 0 <= a < i ==> PageSeen(found, pages[a], listPrefix) && !fails[a]
    {
      if fails[i] { return map[], false, true; }
      forall j | 0 <= j < |pages[i]| ensures EntryOk(objects, listPrefix, pages[i][j]) {}
      ghost var before := found;
      var tooMany;
      found, tooMany := TakePage(found, pages[i], listPrefix, limit, objects);
      if tooMany {
        FoundWithin(found, objects, listPrefix);
        return map[], false, false;
      }
      forall a | 0 <= a < i ensures PageSeen(found, pages[a], listPrefix) {
        assert PageSeen(before, pages[a], listPrefix);
        forall j | 0 <= j < |pages[a]| ensures EntrySeen(found, pages[a][j], listPrefix) {
          assert EntrySeen(before, pages[a][j], listPrefix);
        }
      }
    }
    ok := true;
    WholeListing(found, pages, objects, listPrefix);
  }

  lemma WholeListing(found: map<string, nat>, pages: seq<seq<Entry>>, objects: Files, listPrefix: string)
    requires IsListing(pages, objects, listPrefix) && PartOfSnapshot(found, objects, listPrefix)
    requires forall a :: 0 <= a < |pages| ==> PageSeen(found, pages[a], listPrefix)
    ensures IsSnapshot(found, objects, listPrefix)
  {
    forall rel | rel != "" && listPrefix + rel in objects ensures rel in found {
      assert TrimPrefix(listPrefix + rel, listPrefix) == rel;
      assert Lists(pages, listPrefix + rel);
      var a, b :| 0 <= a < |pages| && 0 <= b < |pages[a]| && pages[a][b].key == Some(listPrefix + rel);
      assert PageSeen(found, pages[a], listPrefix) && EntrySeen(found, pages[a][b], listPrefix);
    }
  }

  /** bulkStatCmd: an error or an oversized listing means per-item queries, nothing else
      does. */
  method BulkStat(prefix: string, limit: nat, pages: seq<seq<Entry>>, fails: seq<bool>, ghost objects: Files)
    returns (known: Option<map<string, nat>>)
    requires IsListing(pages, objects, ListPrefix(prefix)) && |fails| == |pages|
    ensures known.Some? ==> IsSnapshot(known.value, objects, ListPrefix(prefix))
    ensures known.Some? ==> forall i :: 0 <= i < |fails| ==> !fails[i]
    ensures known.None? ==>
              || (exists i :: 0 <= i < |fails| && fails[i])
              || (limit > 0 && |RelPaths(objects, ListPrefix(prefix))| > limit)
  {
    var found, ok, err := StatAll(prefix, limit, pages, fails, objects);
    known := if err || !ok then None else Some(found);
  }

  // ---- the pool's answer ----

  /** Stat of the S3 backend: a HeadObject of the item's key. */
  function Head(objects: Files, prefix: string, relPath: string): Stat {
    StatOf(Lookup(objects, BuildKey(prefix, relPath)))
  }

  /** For plain paths a snapshot answers as Stat does. */
  lemma SnapshotAnswersAsHead(found: map<string, nat>, objects: Files, prefix: string, relPath: string)
    requires IsSnapshot(found, objects, ListPrefix(prefix)) && Plain(relPath) && relPath != ""
    ensures Answer(Some(found), map[], relPath) == Head(objects, prefix, relPath)
  {
    KeyParts(prefix, relPath);
    CleanIsIdentityIff(relPath);
  }

  /** The relative view of a bucket: what is stored for each plain path. */
  ghost predicate RelativeView(view: Files, objects: Files, prefix: string, src: Files) {
    forall p :: p in src ==> Lookup(view, p) == Lookup(objects, BuildKey(prefix, p))
  }

  /** A listing of the bucket is exact for every plain item at the start of the run. */
  lemma ListingIsExactAtStart(known: Option<map<string, nat>>, objects: Files, prefix: string, src: Files, view: Files)
    requires known.Some? ==> IsSnapshot(known.value, objects, ListPrefix(prefix))
    requires RelativeView(view, objects, prefix, src)
    requires forall p :: p in src ==> Plain(p) && p != ""
    ensures ExactAtStart(known, src, view)
  {
    forall p | p in src ensures Answer(known, view, p) == StatOf(Lookup(view, p)) {
      if known.Some? { SnapshotAnswersAsHead(known.value, objects, prefix, p); }
    }
  }

  /** So, over a bucket and plain distinct paths, whatever the listing command hands to
      the pool (a whole listing, or nothing after an error or beyond the limit), the
      runs that trust it are exactly the runs that ask per item. */
  lemma ListingChangesNoRun(known: Option<map<string, nat>>, objects: Files, prefix: string, src: Files,
                            ds: seq<Files>, vs: seq<Visit>)
    requires known.Some? ==> IsSnapshot(known.value, objects, ListPrefix(prefix))
    requires |ds| == |vs| + 1 && RelativeView(ds[0], objects, prefix, src) && EachOnce(vs)
    requires forall p :: p in src ==> Plain(p) && p != ""
    ensures BulkRun(known, src, ds, vs) <==> Run(src, ds, vs) && StatsWork(vs)
  {
    ListingIsExactAtStart(known, objects, prefix, src, ds[0]);
    BulkRunsAreItemRuns(known, src, ds, vs);
  }

  /** A Put of one plain item's object is, in the relative view, a Put of that item
      that leaves every other item alone: distinct plain paths never share a key. */
  lemma PutIsLocalInView(before: Files, after: Files, prefix: string, src: Files, view: Files, p: string,
                        body: Option<Bytes>)
    requires RelativeView(view, before, prefix, src) && p in src
    requires forall q :: q in src ==> Plain(q)
    requires forall key :: key != BuildKey(prefix, p) ==> Lookup(after, key) == Lookup(before, key)
    requires Lookup(after, BuildKey(prefix, p)) == body
    ensures RelativeView(if body.Some? then view[p := body.value] else view - {p}, after, prefix, src)
  {
    forall q | q in src && q != p ensures BuildKey(prefix, q) != BuildKey(prefix, p) {
      if BuildKey(prefix, q) == BuildKey(prefix, p) { BuildKeyInjective(prefix, q, p); }
    }
  }
}
