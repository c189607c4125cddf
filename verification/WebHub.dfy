/** web/server.go and web/snapshot.go: one publisher, any number of browsers. The store
    holds the latest snapshot; each browser has a wake channel of capacity 1 and a
    dirty flag, and sends at most one frame per tick. Snapshots are numbered by the
    order of publication; 0 stands for "nothing published yet". */
module WebHub {
  import opened Transfer

  type SubId = nat

  /** Publish: between calls, after store.set, or in the loop over the channels. */
  datatype PubPc = Idle | Stored | Notifying(todo: set<SubId>)

  /** handleWS: about to read the store, writing what it read, or in the select. */
  datatype SubPc = Reading | Writing(version: nat) | Selecting

  /** One registered browser. seen: the version it read last; sent: frames delivered. */
  datatype Sub = Sub(pc: SubPc, wake: bool, dirty: bool, seen: Option<nat>, sent: seq<nat>)

  datatype Hub = Hub(store: nat, pub: PubPc, subs: map<SubId, Sub>)

  datatype Action =
    | Store                 // store.set in Publish
    | Lock                  // subsMu.Lock in Publish
    | Notify(id: SubId)     // one turn of the loop over subs
    | Unlock
    | Register(id: SubId)
    | Read(id: SubId)       // store.get in send
    | Write(id: SubId)      // the frame is on the socket
    | Wake(id: SubId)       // case <-updates
    | Tick(id: SubId)       // case <-ticker.C
    | Heartbeat(id: SubId)  // case <-heartbeat.C
    | Leave(id: SubId)      // a failed send or a closed connection

  predicate At(h: Hub, id: SubId, pc: SubPc) { id in h.subs && h.subs[id].pc == pc }

  predicate Enabled(h: Hub, a: Action) {
    match a
    case Store => h.pub.Idle?
    case Lock => h.pub.Stored?
    case Notify(id) => h.pub.Notifying? && id in h.pub.todo
    case Unlock => h.pub.Notifying? && h.pub.todo == {}
    case Register(id) => id !in h.subs && !h.pub.Notifying?
    case Read(id) => At(h, id, Reading)
    case Write(id) => id in h.subs && h.subs[id].pc.Writing?
    case Wake(id) => At(h, id, Selecting) && h.subs[id].wake
    case Tick(id) => At(h, id, Selecting)
    case Heartbeat(id) => At(h, id, Selecting)
    case Leave(id) => id in h.subs && !h.pub.Notifying?
  }

  function StepSub(store: nat, x: Sub, a: Action): Sub {
    match a
    case Notify(_) => x.(wake := true)
    case Read(_) => x.(pc := Writing(store), seen := Some(store))
    case Write(_) => if x.pc.Writing? then x.(pc := Selecting, sent := x.sent + [x.pc.version]) else x
    case Wake(_) => x.(wake := false, dirty := true)
    case Tick(_) => if x.dirty then x.(dirty := false, pc := Reading) else x
    case Heartbeat(_) => x.(pc := Reading)
    case _ => x
  }

  function Apply(h: Hub, a: Action): Hub
    requires Enabled(h, a)
  {
    match a
    case Store => h.(store := h.store + 1, pub := Stored)
    case Lock => h.(pub := Notifying(h.subs.Keys))
    case Unlock => h.(pub := Idle)
    case Register(id) => h.(subs := h.subs[id := Sub(Reading, false, false, None, [])])
    case Leave(id) => h.(subs := h.subs - {id})
    case Notify(id) =>
      if id in h.subs
      then h.(subs := h.subs[id := StepSub(h.store, h.subs[id], a)], pub := Notifying(h.pub.todo - {id}))
      else h.(pub := Notifying(h.pub.todo - {id}))
    case _ => h.(subs := h.subs[a.id := StepSub(h.store, h.subs[a.id], a)])
  }

  const INITIAL := Hub(0, Idle, map[])

  ghost predicate RunsTo(h: Hub, acts: seq<Action>, g: Hub)
    decreases |acts|
  {
    if acts == [] then h == g else Enabled(h, acts[0]) && RunsTo(Apply(h, acts[0]), acts[1..], g)
  }

  ghost predicate Reachable(g: Hub) { exists acts :: RunsTo(INITIAL, acts, g) }

  // ---- nothing is lost ----

  /** A newer snapshot than the browser has seen is still on its way to it. */
  predicate Coming(h: Hub, id: SubId, x: Sub) {
    x.wake || x.dirty || x.pc.Reading? || h.pub.Stored? || (h.pub.Notifying? && id in h.pub.todo)
  }

  predicate UpToDate(h: Hub, x: Sub) { x.seen == Some(h.store) }

  predicate Sorted(s: seq<nat>) { forall i, j :: 0 <= i < j < |s| ==> s[i] <= s[j] }

  /** What the browser was sent: versions never go back, and none is from the future. */
  predicate FramesOk(h: Hub, x: Sub) {
    && Sorted(x.sent)
    && (forall i :: 0 <= i < |x.sent| ==> x.sent[i] <= h.store)
    && (x.seen.Some? ==> x.seen.value <= h.store && forall i :: 0 <= i < |x.sent| ==> x.sent[i] <= x.seen.value)
    && (x.seen.None? ==> x.pc.Reading? && x.sent == [])
    && (x.pc.Writing? ==> x.seen == Some(x.pc.version))
    && (x.pc.Selecting? ==> x.sent != [] && x.seen == Some(x.sent[|x.sent| - 1]))
  }

  predicate SubOk(h: Hub, id: SubId, x: Sub) {
    FramesOk(h, x) && (UpToDate(h, x) || Coming(h, id, x))
  }

  ghost predicate Inv(h: Hub) {
    forall id :: id in h.subs ==> SubOk(h, id, h.subs[id])
  }

  lemma FramesStep(h: Hub, x: Sub, a: Action)
    requires FramesOk(h, x)
    requires a.Read? ==> x.pc.Reading?
    requires a.Tick? || a.Heartbeat? || a.Wake? ==> x.pc.Selecting?
    ensures FramesOk(h, StepSub(h.store, x, a))
  {}

  predicate OfBrowser(a: Action, id: SubId) {
    !a.Store? && !a.Lock? && !a.Unlock? && a.id == id
  }

  /** A browser's own step, or its turn in the publisher's loop. */
  lemma OwnStep(h: Hub, a: Action, id: SubId)
    requires Enabled(h, a) && OfBrowser(a, id) && id in h.subs && SubOk(h, id, h.subs[id])
    ensures id in Apply(h, a).subs ==> SubOk(Apply(h, a), id, Apply(h, a).subs[id])
  {
    FramesStep(h, h.subs[id], a);
  }

  /** Any other step leaves the browser as it was. */
  lemma ForeignStep(h: Hub, a: Action, id: SubId)
    requires Enabled(h, a) && !OfBrowser(a, id) && id in h.subs && SubOk(h, id, h.subs[id])
    ensures id in Apply(h, a).subs && SubOk(Apply(h, a), id, Apply(h, a).subs[id])
  {}

  lemma InvStep(h: Hub, a: Action)
    requires Inv(h) && Enabled(h, a)
    ensures Inv(Apply(h, a))
  {
    var g := Apply(h, a);
    forall id | id in g.subs ensures SubOk(g, id, g.subs[id]) {
      if id in h.subs {
        if OfBrowser(a, id) { OwnStep(h, a, id); } else { ForeignStep(h, a, id); }
      }
    }
  }

  lemma {:induction false} InvRun(h: Hub, acts: seq<Action>, g: Hub)
    requires Inv(h) && RunsTo(h, acts, g)
    ensures Inv(g)
    decreases |acts|
  {
    if acts != [] {
      InvStep(h, acts[0]);
      InvRun(Apply(h, acts[0]), acts[1..], g);
    }
  }

  /** In every interleaving, for every registered browser: it has read the latest
      snapshot, or a wake token, the dirty flag, a send about to read the store, or a
      publisher about to notify it still stands for the newer one. */
  lemma LatestIsNeverLost(h: Hub, id: SubId)
    requires Reachable(h) && id in h.subs
    ensures UpToDate(h, h.subs[id]) || Coming(h, id, h.subs[id])
  {
    var acts :| RunsTo(INITIAL, acts, h);
    InvRun(INITIAL, acts, h);
    assert SubOk(h, id, h.subs[id]);
  }

  /** Versions sent to a browser never go backwards. */
  lemma SentNeverGoesBack(h: Hub, id: SubId)
    requires Reachable(h) && id in h.subs
    ensures Sorted(h.subs[id].sent) && forall i :: 0 <= i < |h.subs[id].sent| ==> h.subs[id].sent[i] <= h.store
  {
    var acts :| RunsTo(INITIAL, acts, h);
    InvRun(INITIAL, acts, h);
    assert SubOk(h, id, h.subs[id]);
  }

  /** When nothing stirs, the last frame a browser got is the latest snapshot. */
  lemma QuietMeansLatestSent(h: Hub, id: SubId)
    requires Reachable(h) && h.pub.Idle? && At(h, id, Selecting)
    requires !h.subs[id].wake && !h.subs[id].dirty
    ensures h.subs[id].sent != [] && h.subs[id].sent[|h.subs[id].sent| - 1] == h.store
  {
    var acts :| RunsTo(INITIAL, acts, h);
    InvRun(INITIAL, acts, h);
    assert SubOk(h, id, h.subs[id]);
  }

  /** Otherwise a wake-up, a tick and a send get it there, with no help from a further
      Publish: the frame they deliver is the latest snapshot. */
  lemma NextTickDelivers(h: Hub, id: SubId) returns (g: Hub, acts: seq<Action>)
    requires Reachable(h) && h.pub.Idle? && At(h, id, Selecting)
    requires h.subs[id].seen != Some(h.store)
    ensures RunsTo(h, acts, g) && |acts| <= 4 && g.store == h.store
    ensures forall k :: 0 <= k < |acts| ==> !acts[k].Heartbeat? && !acts[k].Store?
    ensures At(g, id, Selecting) && g.subs[id].sent == h.subs[id].sent + [h.store]
  {
    LatestIsNeverLost(h, id);
    var h1 := if h.subs[id].wake then Apply(h, Wake(id)) else h;
    var h2 := Apply(h1, Tick(id));
    var h3 := Apply(h2, Read(id));
    g := Apply(h3, Write(id));
    var rest := [Tick(id), Read(id), Write(id)];
    assert RunsTo(g, [], g);
    assert rest[1..] == [Read(id), Write(id)] && rest[1..][1..] == [Write(id)] && [Write(id)][1..] == [];
    assert RunsTo(h3, [Write(id)], g);
    assert RunsTo(h2, [Read(id), Write(id)], g);
    assert RunsTo(h1, rest, g);
    if h.subs[id].wake {
      acts := [Wake(id)] + rest;
      assert acts[1..] == rest;
    } else {
      acts := rest;
    }
  }

  // ---- how often frames are sent ----

  /** What a browser has had since it registered. */
  datatype Beats = Beats(ticks: nat, wakes: nat, heartbeats: nat)

  function Beat(b: Beats, a: Action, id: SubId): Beats {
    match a
    case Register(j) => if j == id then Beats(0, 0, 0) else b
    case Tick(j) => if j == id then b.(ticks := b.ticks + 1) else b
    case Wake(j) => if j == id then b.(wakes := b.wakes + 1) else b
    case Heartbeat(j) => if j == id then b.(heartbeats := b.heartbeats + 1) else b
    case _ => b
  }

  function BeatsOf(acts: seq<Action>, id: SubId): Beats {
    if acts == [] then Beats(0, 0, 0) else Beat(BeatsOf(acts[..|acts| - 1], id), acts[|acts| - 1], id)
  }

  /** Frames sent or being sent. */
  function Frames(x: Sub): nat { |x.sent| + if x.pc.Selecting? then 0 else 1 }

  /** One frame on registration, then at most one for each tick, and for each wake-up, and
      exactly one for each heartbeat. */
  ghost predicate Paced(x: Sub, b: Beats) {
    && 1 + b.heartbeats <= Frames(x) <= 1 + b.heartbeats + b.ticks
    && Frames(x) + (if x.dirty then 1 else 0) <= 1 + b.heartbeats + b.wakes
  }

  /** A run read from its end. */
  ghost predicate LastRun(acts: seq<Action>, g: Hub)
    decreases |acts|
  {
    if acts == [] then g == INITIAL
    else
      var init, last := acts[..|acts| - 1], acts[|acts| - 1];
      exists h :: LastRun(init, h) && Steps(h, last, g)
  }

  predicate Steps(h: Hub, a: Action, g: Hub) { Enabled(h, a) && g == Apply(h, a) }

  lemma OneLast(h: Hub, done: seq<Action>, a: Action)
    requires LastRun(done, h) && Enabled(h, a)
    ensures LastRun(done + [a], Apply(h, a))
  {
    assert (done + [a])[..|done|] == done;
    assert Steps(h, a, Apply(h, a));
  }

  lemma {:induction false} RunsLast(h: Hub, done: seq<Action>, acts: seq<Action>, g: Hub)
    requires LastRun(done, h) && RunsTo(h, acts, g)
    ensures LastRun(done + acts, g)
    decreases |acts|
  {
    if acts == [] {
      assert done + acts == done;
    } else {
      OneLast(h, done, acts[0]);
      RunsLast(Apply(h, acts[0]), done + [acts[0]], acts[1..], g);
      assert done + [acts[0]] + acts[1..] == done + acts;
    }
  }

  lemma PacedStep(h: Hub, a: Action, id: SubId, b: Beats)
    requires Enabled(h, a) && id in Apply(h, a).subs && (id in h.subs ==> Paced(h.subs[id], b))
    ensures Paced(Apply(h, a).subs[id], Beat(b, a, id))
  {}

  lemma {:induction false} PacedRun(acts: seq<Action>, g: Hub, id: SubId)
    requires LastRun(acts, g) && id in g.subs
    ensures Paced(g.subs[id], BeatsOf(acts, id))
    decreases |acts|
  {
    var last := acts[|acts| - 1];
    var h :| LastRun(acts[..|acts| - 1], h) && Steps(h, last, g);
    if id in h.subs { PacedRun(acts[..|acts| - 1], h, id); }
    PacedStep(h, last, id, BeatsOf(acts[..|acts| - 1], id));
  }

  /** Coalescing: however often the publisher stores a snapshot, a browser is sent its first
      frame, one for each heartbeat, and beyond that at most one per tick, and at most one
      per wake-up. */
  lemma FramesArePaced(acts: seq<Action>, g: Hub, id: SubId)
    requires RunsTo(INITIAL, acts, g) && id in g.subs
    ensures Paced(g.subs[id], BeatsOf(acts, id))
  {
    RunsLast(INITIAL, [], acts, g);
    assert [] + acts == acts;
    PacedRun(acts, g, id);
  }

  // ---- Publish itself ----

  lemma {:induction false} RunsAppend(h: Hub, acts: seq<Action>, g: Hub, a: Action)
    requires RunsTo(h, acts, g) && Enabled(g, a)
    ensures RunsTo(h, acts + [a], Apply(g, a))
    decreases |acts|
  {
    if acts == [] {
      assert acts + [a] == [a] && [a][1..] == [];
      assert RunsTo(Apply(g, a), [], Apply(g, a));
    } else {
      assert (acts + [a])[1..] == acts[1..] + [a];
      RunsAppend(Apply(h, acts[0]), acts[1..], g, a);
    }
  }

  /** The server's own fields: the stored snapshot, and for each registered channel
      whether it holds a token. */
  class Server {
    var store: nat
    var wakes: map<SubId, bool>

    ghost predicate Shows(h: Hub)
      reads this
    {
      h.store == store && h.subs.Keys == wakes.Keys && forall id :: id in wakes ==> h.subs[id].wake == wakes[id]
    }

    /** Publish, undisturbed, is a run of the transition system that stores the new
        snapshot and leaves a token in every channel, full ones included. */
    method Publish(ghost h: Hub) returns (ghost g: Hub, ghost acts: seq<Action>)
      requires Shows(h) && h.pub.Idle?
      modifies this
      ensures Shows(g) && g.pub.Idle? && RunsTo(h, acts, g)
      ensures store == old(store) + 1 && wakes.Keys == old(wakes.Keys) && forall id :: id in wakes ==> wakes[id]
    {
      g, acts := h, [];
      store := store + 1;
      RunsAppend(h, acts, g, Store);
      g, acts := Apply(g, Store), acts + [Store];
      RunsAppend(h, acts, g, Lock);
      g, acts := Apply(g, Lock), acts + [Lock];
      g, acts := NotifyAll(h, g, acts);
      RunsAppend(h, acts, g, Unlock);
      g, acts := Apply(g, Unlock), acts + [Unlock];
    }

    /** The loop over the registered channels. */
    method NotifyAll(ghost h: Hub, ghost g0: Hub, ghost acts0: seq<Action>)
      returns (ghost g: Hub, ghost acts: seq<Action>)
      requires Shows(g0) && g0.pub == Notifying(wakes.Keys) && RunsTo(h, acts0, g0)
      modifies this`wakes
      ensures Shows(g) && g.pub == Notifying({}) && RunsTo(h, acts, g)
      ensures wakes.Keys == old(wakes.Keys) && forall id :: id in wakes ==> wakes[id]
    {
      g, acts := g0, acts0;
      var todo := wakes.Keys;
      while |todo| > 0
        invariant Shows(g) && g.pub == Notifying(todo) && todo <= wakes.Keys && RunsTo(h, acts, g)
        invariant wakes.Keys == old(wakes.Keys) && forall id :: id in wakes && id !in todo ==> wakes[id]
        decreases |todo|
      {
        ghost var some := Member(todo);
        var id: SubId :| id in todo;
        g, acts := NotifyOne(id, h, g, acts);
        todo := todo - {id};
      }
    }

    /** select { case ch <- struct{}{}: default: } */
    method NotifyOne(id: SubId, ghost h: Hub, ghost g0: Hub, ghost acts0: seq<Action>)
      returns (ghost g: Hub, ghost acts: seq<Action>)
      requires Shows(g0) && g0.pub.Notifying? && id in g0.pub.todo && id in wakes && RunsTo(h, acts0, g0)
      modifies this`wakes
      ensures Shows(g) && g.pub == Notifying(g0.pub.todo - {id}) && RunsTo(h, acts, g)
      ensures wakes == old(wakes)[id := true]
    {
      RunsAppend(h, acts0, g0, Notify(id));
      g, acts := Apply(g0, Notify(id)), acts0 + [Notify(id)];
      if !wakes[id] { wakes := wakes[id := true]; }
    }
  }
}
