/** ui/pause.go at the level of its mutex and condition variable. One waiter per call of
    wait; one setter, because only Update calls set; cancellation is permanent. Each
    waiter that finds the gate shut registers an AfterFunc hook whose Broadcast is issued
    without the mutex. A hook registered on a cancelled context is started at once, and one
    that has started can no longer be taken back. */
module PauseGate {
  import opened Sums

  /** Where a call of wait stands. From Locked to Enlisting the waiter owns the mutex. */
  datatype WaitPc =
    | Entering                        // past the worker's check of ctx.Err, before g.mu.Lock
    | Locked                          // first look at g.paused
    | Looping                         // evaluating g.paused in the loop condition
    | Checking                        // g.paused was true; evaluating ctx.Err
    | Enlisting                       // the condition held; entering cond.Wait
    | Asleep                          // on the notify list, mutex released
    | Woken                           // notified; must take the mutex again
    | Leaving(open: bool, live: bool) // mutex released; what the last look at the gate saw
    | Returned(open: bool, live: bool, ok: bool)  // wait returned ok

  datatype SetPc = Ready | Owning(value: bool) | Written | Unlocked

  /** The AfterFunc hook of a waiter. Started: its goroutine runs, the Broadcast is still
      to come. */
  datatype Hook = Unregistered | Armed | Started | Fired

  datatype Waiter = Waiter(pc: WaitPc, hook: Hook)

  datatype Gate = Gate(paused: bool, cancelled: bool, setter: SetPc, waiters: seq<Waiter>)

  datatype Action =
    | SetLock(value: bool) | SetWrite | SetUnlock | SetBroadcast
    | Cancel
    | HookStarts(w: nat)
    | HookFires(w: nat)
    | Waits(w: nat)

  predicate OwnsMutex(pc: WaitPc) {
    pc.Locked? || pc.Looping? || pc.Checking? || pc.Enlisting?
  }

  predicate MutexFree(g: Gate) {
    && (g.setter.Ready? || g.setter.Unlocked?)
    && forall w :: 0 <= w < |g.waiters| ==> !OwnsMutex(g.waiters[w].pc)
  }

  /** What a Broadcast does to one waiter. */
  function Notify(x: Waiter): Waiter {
    if x.pc.Asleep? then x.(pc := Woken) else x
  }

  function Broadcast(g: Gate): Gate {
    g.(waiters := seq(|g.waiters|, w requires 0 <= w < |g.waiters| => Notify(g.waiters[w])))
  }

  predicate WaitEnabled(g: Gate, pc: WaitPc) {
    match pc
    case Entering => MutexFree(g)
    case Woken => MutexFree(g)
    case Asleep => false
    case Returned(_, _, _) => false
    case _ => true
  }

  function WaitStep(g: Gate, x: Waiter): Waiter {
    match x.pc
    case Entering => x.(pc := Locked)
    case Locked =>
      if g.paused then x.(pc := Looping, hook := if g.cancelled then Started else Hook.Armed)
      else x.(pc := Leaving(true, !g.cancelled))
    case Looping => if g.paused then x.(pc := WaitPc.Checking) else x.(pc := Leaving(true, !g.cancelled))
    case Checking => if g.cancelled then x.(pc := Leaving(false, false)) else x.(pc := Enlisting)
    case Enlisting => x.(pc := Asleep)
    case Woken => x.(pc := Looping)
    case Leaving(open, live) => // the deferred stop() takes back a hook that has not started
      Waiter(Returned(open, live, !g.cancelled), if x.hook.Armed? then Unregistered else x.hook)
    case _ => x
  }

  predicate Enabled(g: Gate, a: Action) {
    match a
    case SetLock(_) => g.setter.Ready? && MutexFree(g)
    case SetWrite => g.setter.Owning?
    case SetUnlock => g.setter.Written?
    case SetBroadcast => g.setter.Unlocked?
    case Cancel => !g.cancelled
    case HookStarts(w) => w < |g.waiters| && g.cancelled && g.waiters[w].hook.Armed?
    case HookFires(w) => w < |g.waiters| && g.waiters[w].hook.Started?
    case Waits(w) => w < |g.waiters| && WaitEnabled(g, g.waiters[w].pc)
  }

  function Apply(g: Gate, a: Action): Gate
    requires Enabled(g, a)
  {
    match a
    case SetLock(v) => g.(setter := Owning(v))
    case SetWrite => g.(paused := g.setter.value, setter := Written)
    case SetUnlock => g.(setter := Unlocked)
    case SetBroadcast => Broadcast(g).(setter := Ready)
    case Cancel => g.(cancelled := true)
    case HookStarts(w) => g.(waiters := g.waiters[w := g.waiters[w].(hook := Started)])
    case HookFires(w) => Broadcast(g.(waiters := g.waiters[w := g.waiters[w].(hook := Fired)]))
    case Waits(w) => g.(waiters := g.waiters[w := WaitStep(g, g.waiters[w])])
  }

  function Initial(paused: bool, n: nat): Gate {
    Gate(paused, false, Ready, seq(n, _ => Waiter(Entering, Unregistered)))
  }

  ghost predicate RunsTo(g: Gate, acts: seq<Action>, h: Gate)
    decreases |acts|
  {
    if acts == [] then g == h
    else Enabled(g, acts[0]) && RunsTo(Apply(g, acts[0]), acts[1..], h)
  }

  ghost predicate Reachable(h: Gate) {
    exists paused, n, acts :: RunsTo(Initial(paused, n), acts, h)
  }

  // ---- invariants ----

  /** The setter has opened the gate but not yet broadcast. */
  predicate WakeupPending(g: Gate) { g.setter.Written? || g.setter.Unlocked? }

  /** One mutex: a waiter inside its critical section excludes the setter and every
      other waiter. */
  ghost predicate Exclusive(g: Gate) {
    && (forall w, v :: 0 <= w < v < |g.waiters| ==> !(OwnsMutex(g.waiters[w].pc) && OwnsMutex(g.waiters[v].pc)))
    && (g.setter.Owning? || g.setter.Written? ==>
          forall w :: 0 <= w < |g.waiters| ==> !OwnsMutex(g.waiters[w].pc))
  }

  ghost predicate WaiterOk(g: Gate, x: Waiter) {
    && (x.pc.Asleep? ==> g.paused || WakeupPending(g))
    && (x.pc.Checking? || x.pc.Enlisting? ==> g.paused)
    && (x.pc.Leaving? ==> g.cancelled || (x.pc.open && x.pc.live))
    && (x.pc.Returned? ==> if x.pc.ok then x.pc.open && x.pc.live else g.cancelled)
    && (x.hook.Started? || x.hook.Fired? ==> g.cancelled)
    && (x.pc.Looping? || x.pc.Checking? || x.pc.Enlisting? || x.pc.Asleep? || x.pc.Woken? ==> !x.hook.Unregistered?)
    && (x.pc.Returned? ==> !x.hook.Armed?)
  }

  ghost predicate Inv(g: Gate) {
    && Exclusive(g)
    && forall w :: 0 <= w < |g.waiters| ==> WaiterOk(g, g.waiters[w])
  }

  lemma WaitsKeepsInv(g: Gate, w: nat)
    requires Inv(g) && Enabled(g, Waits(w))
    ensures Inv(Apply(g, Waits(w)))
  {
    var h := Apply(g, Waits(w));
    assert WaiterOk(g, g.waiters[w]);
    assert WaiterOk(h, h.waiters[w]);
  }

  /** The setter, the context and the hooks do to a waiter at most what a Broadcast does. */
  lemma OtherStepKeeps(g: Gate, a: Action, w: nat)
    requires Inv(g) && Enabled(g, a) && !a.Waits? && w < |g.waiters|
    ensures WaiterOk(Apply(g, a), Apply(g, a).waiters[w])
  {
    assert WaiterOk(g, g.waiters[w]);
  }

  lemma OtherStepExclusive(g: Gate, a: Action)
    requires Inv(g) && Enabled(g, a) && !a.Waits?
    ensures Exclusive(Apply(g, a)) && |Apply(g, a).waiters| == |g.waiters|
  {
    var h := Apply(g, a);
    forall w | 0 <= w < |g.waiters| ensures OwnsMutex(h.waiters[w].pc) ==> OwnsMutex(g.waiters[w].pc) {}
  }

  lemma InvStep(g: Gate, a: Action)
    requires Inv(g) && Enabled(g, a)
    ensures Inv(Apply(g, a))
  {
    if a.Waits? {
      WaitsKeepsInv(g, a.w);
    } else {
      OtherStepExclusive(g, a);
      forall w | 0 <= w < |Apply(g, a).waiters| ensures WaiterOk(Apply(g, a), Apply(g, a).waiters[w]) {
        OtherStepKeeps(g, a, w);
      }
    }
  }

  lemma {:induction false} InvRun(g: Gate, acts: seq<Action>, h: Gate)
    requires Inv(g) && RunsTo(g, acts, h)
    ensures Inv(h)
    decreases |acts|
  {
    if acts != [] {
      InvStep(g, acts[0]);
      InvRun(Apply(g, acts[0]), acts[1..], h);
    }
  }

  lemma ReachableInv(h: Gate)
    requires Reachable(h)
    ensures Inv(h)
  {
    var paused, n, acts :| RunsTo(Initial(paused, n), acts, h);
    InvRun(Initial(paused, n), acts, h);
  }

  // ---- resume loses no wakeup ----

  /** A sleeper always has a reason: the gate is shut, or the broadcast is coming. */
  lemma SleepersWaitForAReason(g: Gate, w: nat)
    requires Reachable(g) && w < |g.waiters| && g.waiters[w].pc.Asleep?
    ensures g.paused || WakeupPending(g)
  {
    ReachableInv(g);
    assert WaiterOk(g, g.waiters[w]);
  }

  /** wait returning true saw the gate open while the context was live: it looks at the
      context only on the way out, but a cancellation before that is never undone. */
  lemma TrueMeansSawOpen(g: Gate, w: nat)
    requires Reachable(g) && w < |g.waiters| && g.waiters[w].pc.Returned? && g.waiters[w].pc.ok
    ensures g.waiters[w].pc.open && g.waiters[w].pc.live
  {
    ReachableInv(g);
    assert WaiterOk(g, g.waiters[w]);
  }

  /** wait returns false only after a cancellation. */
  lemma FalseMeansCancelled(g: Gate, w: nat)
    requires Reachable(g) && w < |g.waiters| && g.waiters[w].pc.Returned? && !g.waiters[w].pc.ok
    ensures g.cancelled
  {
    ReachableInv(g);
    assert WaiterOk(g, g.waiters[w]);
  }

  lemma {:induction false} CancellationIsPermanent(g: Gate, acts: seq<Action>, h: Gate)
    requires RunsTo(g, acts, h) && g.cancelled
    ensures h.cancelled
    decreases |acts|
  {
    if acts != [] { CancellationIsPermanent(Apply(g, acts[0]), acts[1..], h); }
  }

  // ---- set ----

  predicate SetsAgain(acts: seq<Action>) { exists k :: 0 <= k < |acts| && acts[k].SetLock? }

  /** What a call of set leaves: once it has written, the gate is as it was told, whatever
      else happens, until the next call. */
  lemma {:induction false} SetTakesEffect(g: Gate, v: bool, acts: seq<Action>, h: Gate)
    requires Enabled(g, SetLock(v)) && !SetsAgain(acts) && RunsTo(Apply(g, SetLock(v)), acts, h)
    requires !h.setter.Owning?
    ensures h.paused == v
  {
    SetterRun(Apply(g, SetLock(v)), v, acts, h);
  }

  lemma {:induction false} SetterRun(g: Gate, v: bool, acts: seq<Action>, h: Gate)
    requires RunsTo(g, acts, h) && !SetsAgain(acts)
    requires g.setter == Owning(v) || (!g.setter.Owning? && g.paused == v)
    ensures h.setter == Owning(v) || (!h.setter.Owning? && h.paused == v)
    decreases |acts|
  {
    if acts != [] {
      assert !acts[0].SetLock?;
      assert forall k :: 0 <= k < |acts[1..]| ==> acts[1..][k] == acts[k + 1];
      SetterRun(Apply(g, acts[0]), v, acts[1..], h);
    }
  }

  /** A call of wait that begins while the gate is shut, and stays shut, never returns true,
      whatever the waiters, the hooks and the context do. */
  lemma NobodyPassesAShutGate(g: Gate, acts: seq<Action>, h: Gate, w: nat)
    requires Reachable(g) && g.paused && g.setter.Ready? && w < |g.waiters| && g.waiters[w].pc.Entering?
    requires RunsTo(g, acts, h) && !SetsAgain(acts)
    ensures w < |h.waiters| && !(h.waiters[w].pc.Returned? && h.waiters[w].pc.ok)
  {
    ShutRun(g, acts, h, w);
  }

  /** It has not seen the gate open, and if it is on its way out the run is cancelled. */
  predicate KeptOut(g: Gate, w: nat) {
    && g.paused && g.setter.Ready? && w < |g.waiters|
    && (g.waiters[w].pc.Leaving? ==> g.cancelled)
    && (g.waiters[w].pc.Returned? ==> !g.waiters[w].pc.ok)
  }

  lemma {:induction false} ShutRun(g: Gate, acts: seq<Action>, h: Gate, w: nat)
    requires KeptOut(g, w) && RunsTo(g, acts, h) && !SetsAgain(acts)
    ensures KeptOut(h, w)
    decreases |acts|
  {
    if acts != [] {
      assert !acts[0].SetLock?;
      assert forall k :: 0 <= k < |acts[1..]| ==> acts[1..][k] == acts[k + 1];
      ShutRun(Apply(g, acts[0]), acts[1..], h, w);
    }
  }

  // ---- every calm run comes to rest ----

  predicate IsWaiterAction(a: Action) { a.Waits? || a.HookStarts? || a.HookFires? || a.Cancel? }

  /** Any step but the beginning of another call of set. */
  predicate IsOpenAction(a: Action) { IsWaiterAction(a) || a.SetWrite? || a.SetUnlock? || a.SetBroadcast? }

  /** The gate is open or about to be opened, or the run is cancelled; a call of set under
      way opens it. */
  ghost predicate Calm(g: Gate) {
    && Inv(g)
    && (g.cancelled || !g.paused || g.setter.Owning?)
    && (g.setter.Owning? ==> !g.setter.value)
  }

  function SetterRank(setter: SetPc): nat {
    match setter
    case Owning(_) => 3
    case Written => 2
    case Unlocked => 1
    case Ready => 0
  }

  function PcRank(pc: WaitPc): nat {
    match pc
    case Enlisting => 10
    case Asleep => 9
    case Entering => 9
    case Woken => 8
    case Locked => 8
    case Looping => 7
    case Checking => 6
    case Leaving(_, _) => 1
    case Returned(_, _, _) => 0
  }

  /** The steps a hook still has to take. */
  function HookRank(x: Waiter): nat {
    match x.hook
    case Unregistered => if x.pc.Entering? || x.pc.Locked? then 2 else 0
    case Armed => 2
    case Started => 1
    case Fired => 0
  }

  function WaiterRank(x: Waiter): nat { 3 * PcRank(x.pc) + HookRank(x) }

  function RankOf(g: Gate): nat -> int {
    (w: nat) => if w < |g.waiters| then WaiterRank(g.waiters[w]) else 0
  }

  function Rank(g: Gate): int {
    SumTo(RankOf(g), |g.waiters|) + (if g.cancelled then 0 else 1) + SetterRank(g.setter)
  }

  lemma OwnStepRank(g: Gate, x: Waiter)
    requires WaiterOk(g, x) && WaitEnabled(g, x.pc) && (x.pc.Checking? ==> g.cancelled)
    ensures WaiterRank(WaitStep(g, x)) < WaiterRank(x)
  {}

  lemma WaitsRank(g: Gate, w: nat)
    requires Calm(g) && Enabled(g, Waits(w))
    ensures Rank(Apply(g, Waits(w))) < Rank(g)
  {
    assert WaiterOk(g, g.waiters[w]);
    OwnStepRank(g, g.waiters[w]);
    SumPointUpdate(RankOf(g), RankOf(Apply(g, Waits(w))), |g.waiters|, w);
  }

  lemma HookStartsRank(g: Gate, w: nat)
    requires Enabled(g, HookStarts(w))
    ensures Rank(Apply(g, HookStarts(w))) < Rank(g)
  {
    SumPointUpdate(RankOf(g), RankOf(Apply(g, HookStarts(w))), |g.waiters|, w);
  }

  lemma HookFiresRank(g: Gate, w: nat)
    requires Enabled(g, HookFires(w))
    ensures Rank(Apply(g, HookFires(w))) < Rank(g)
  {
    var h := Apply(g, HookFires(w));
    var mid := g.(waiters := g.waiters[w := g.waiters[w].(hook := Fired)]);
    SumPointUpdate(RankOf(g), RankOf(mid), |g.waiters|, w);
    forall v: nat | v < |g.waiters| ensures RankOf(h)(v) <= RankOf(mid)(v) {
      assert h.waiters[v] == Notify(mid.waiters[v]);
    }
    SumMonotone(RankOf(h), RankOf(mid), |g.waiters|);
  }

  lemma SetterStepRank(g: Gate, a: Action)
    requires (a.SetWrite? || a.SetUnlock? || a.SetBroadcast?) && Enabled(g, a)
    ensures Rank(Apply(g, a)) < Rank(g)
  {
    var h := Apply(g, a);
    forall v: nat | v < |g.waiters| ensures RankOf(h)(v) <= RankOf(g)(v) {
      assert h.waiters[v] == g.waiters[v] || h.waiters[v] == Notify(g.waiters[v]);
    }
    SumMonotone(RankOf(h), RankOf(g), |g.waiters|);
  }

  lemma CalmStep(g: Gate, a: Action)
    requires Calm(g) && IsOpenAction(a) && Enabled(g, a)
    ensures Calm(Apply(g, a)) && 0 <= Rank(Apply(g, a)) < Rank(g)
    ensures IsWaiterAction(a) ==> Apply(g, a).paused == g.paused && Apply(g, a).setter == g.setter
  {
    InvStep(g, a);
    SumNonNegative(RankOf(Apply(g, a)), |g.waiters|);
    match a
    case SetWrite => SetterStepRank(g, a);
    case SetUnlock => SetterStepRank(g, a);
    case SetBroadcast => SetterStepRank(g, a);
    case Cancel => SumSame(RankOf(g), RankOf(Apply(g, a)), |g.waiters|);
    case Waits(w) => WaitsRank(g, w);
    case HookStarts(w) => HookStartsRank(g, w);
    case HookFires(w) => HookFiresRank(g, w);
  }

  predicate AtRest(g: Gate) {
    && (forall w: nat :: w < |g.waiters| ==> !Enabled(g, Waits(w)))
    && (forall w: nat :: w < |g.waiters| ==> !Enabled(g, HookStarts(w)) && !Enabled(g, HookFires(w)))
  }

  ghost predicate WaiterMove(g: Gate, h: Gate) {
    exists a :: IsWaiterAction(a) && Enabled(g, a) && h == Apply(g, a)
  }

  ghost predicate OpenMove(g: Gate, h: Gate) {
    exists a :: IsOpenAction(a) && Enabled(g, a) && h == Apply(g, a)
  }

  lemma MoveCalms(g: Gate, h: Gate)
    requires Calm(g) && OpenMove(g, h)
    ensures Calm(h) && |h.waiters| == |g.waiters|
    ensures Rank(g) >= 0 && Rank(h) < Rank(g)
  {
    var a :| IsOpenAction(a) && Enabled(g, a) && h == Apply(g, a);
    CalmStep(g, a);
    SumNonNegative(RankOf(g), |g.waiters|);
  }

  /** However the waiters, the hooks and the call of set under way are scheduled, they come
      to rest. */
  lemma {:induction false} CalmRunRests(run: nat -> Gate, i: nat) returns (n: nat)
    requires Calm(run(i))
    requires forall k: nat :: k >= i && !(AtRest(run(k)) && run(k).setter.Ready?) ==> OpenMove(run(k), run(k + 1))
    ensures n >= i && AtRest(run(n)) && run(n).setter.Ready? && Calm(run(n))
    ensures forall k: nat :: i <= k < n ==> OpenMove(run(k), run(k + 1))
    decreases Rank(run(i))
  {
    if AtRest(run(i)) && run(i).setter.Ready? {
      n := i;
    } else {
      MoveCalms(run(i), run(i + 1));
      n := CalmRunRests(run, i + 1);
    }
  }

  /** At rest the mutex is free, so a waiter has returned or sleeps. */
  lemma RestingWaiter(g: Gate, w: nat)
    requires Inv(g) && g.setter.Ready? && AtRest(g) && w < |g.waiters|
    ensures g.waiters[w].pc.Returned? || g.waiters[w].pc.Asleep?
  {
    forall v | 0 <= v < |g.waiters| ensures !OwnsMutex(g.waiters[v].pc) {
      assert !Enabled(g, Waits(v));
    }
    assert !Enabled(g, Waits(w));
  }

  lemma {:induction false} MovesAreARun(run: nat -> Gate, n: nat) returns (acts: seq<Action>)
    requires forall k: nat :: k < n ==> OpenMove(run(k), run(k + 1))
    ensures RunsTo(run(0), acts, run(n)) && !SetsAgain(acts)
  {
    if n == 0 {
      acts := [];
    } else {
      var before := MovesAreARun(run, n - 1);
      assert OpenMove(run(n - 1), run(n - 1 + 1));
      var a :| IsOpenAction(a) && Enabled(run(n - 1), a) && run(n) == Apply(run(n - 1), a);
      assert RunsTo(run(n), [], run(n));
      Prepend(run(n - 1), a, [], run(n));
      Join(run(0), before, run(n - 1), [a] + [], run(n));
      acts := before + ([a] + []);
    }
  }

  /** Resuming releases everyone: from any state in which set(false) begins, however its
      steps, the waiters, the hooks and a cancellation interleave, every call of wait
      returns, and returns true unless the run was cancelled. */
  lemma ResumeReleasesAll(g: Gate, run: nat -> Gate)
    requires Reachable(g) && Enabled(g, SetLock(false)) && run(0) == Apply(g, SetLock(false))
    requires forall k: nat :: !(AtRest(run(k)) && run(k).setter.Ready?) ==> OpenMove(run(k), run(k + 1))
    ensures exists n: nat :: !run(n).paused && AllReturned(run(n))
              && forall w: nat :: w < |run(n).waiters| ==> run(n).waiters[w].pc.ok || run(n).cancelled
  {
    ReachableInv(g);
    InvStep(g, SetLock(false));
    var n := CalmRunRests(run, 0);
    var acts := MovesAreARun(run, n);
    SetTakesEffect(g, false, acts, run(n));
    forall w: nat | w < |run(n).waiters| ensures run(n).waiters[w].pc.Returned? {
      RestingWaiter(run(n), w);
      assert WaiterOk(run(n), run(n).waiters[w]);
    }
    forall w: nat | w < |run(n).waiters| ensures run(n).waiters[w].pc.ok || run(n).cancelled {
      assert WaiterOk(run(n), run(n).waiters[w]);
    }
  }

  // ---- cancelling while paused ----

  /** No waiter is in the gap between its check of ctx.Err and the notify list. */
  ghost predicate NoneEnlisting(g: Gate) {
    forall w: nat :: w < |g.waiters| ==> !g.waiters[w].pc.Enlisting?
  }

  /** Some waiter has yet to take the mutex; if it then finds the context cancelled, its
      hook is certain to fire. */
  ghost predicate SomeEntering(g: Gate) {
    exists v: nat :: v < |g.waiters| && g.waiters[v].pc.Entering?
  }

  predicate Rescues(x: Waiter) { x.pc.Entering? || x.pc.Locked? || x.hook.Started? }

  predicate HookPending(x: Waiter) { x.hook.Armed? || x.hook.Started? }

  ghost predicate RescueComes(g: Gate) {
    exists v: nat :: v < |g.waiters| && Rescues(g.waiters[v])
  }

  /** After a cancellation: a waiter in the gap has another to rescue it, and every sleeper
      has a hook of its own or another's Broadcast to come. */
  ghost predicate Covered(g: Gate) {
    && Inv(g) && g.cancelled && g.setter.Ready?
    && (NoneEnlisting(g) || SomeEntering(g))
    && forall w: nat :: w < |g.waiters| && g.waiters[w].pc.Asleep? ==> HookPending(g.waiters[w]) || RescueComes(g)
  }

  lemma CancelCovers(g: Gate)
    requires Inv(g) && !g.cancelled && g.setter.Ready? && (NoneEnlisting(g) || SomeEntering(g))
    ensures Covered(Apply(g, Cancel))
  {
    var h := Apply(g, Cancel);
    InvStep(g, Cancel);
    forall w: nat | w < |g.waiters| && g.waiters[w].pc.Asleep? ensures HookPending(h.waiters[w]) {
      assert WaiterOk(g, g.waiters[w]);
    }
    if SomeEntering(g) {
      var v: nat :| v < |g.waiters| && g.waiters[v].pc.Entering?;
      assert h.waiters[v].pc.Entering?;
    }
  }

  lemma HookKeepsCovered(g: Gate, a: Action)
    requires Covered(g) && (a.HookStarts? || a.HookFires?) && Enabled(g, a)
    ensures Covered(Apply(g, a))
  {
    var h := Apply(g, a);
    InvStep(g, a);
    if SomeEntering(g) {
      var v: nat :| v < |g.waiters| && g.waiters[v].pc.Entering?;
      assert h.waiters[v].pc.Entering?;
    }
    if a.HookStarts? && RescueComes(g) {
      var v: nat :| v < |g.waiters| && Rescues(g.waiters[v]);
      assert Rescues(h.waiters[v]);
    }
  }

  /** The mutex keeps the rescuer out until the waiter in the gap is asleep. */
  lemma GapKeepsRescuer(g: Gate, w: nat)
    requires Covered(g) && Enabled(g, Waits(w))
    ensures var h := Apply(g, Waits(w)); NoneEnlisting(h) || SomeEntering(h)
    ensures g.waiters[w].pc.Enlisting? ==> SomeEntering(Apply(g, Waits(w)))
  {
    var h := Apply(g, Waits(w));
    if !NoneEnlisting(g) {
      var u: nat :| u < |g.waiters| && g.waiters[u].pc.Enlisting?;
      var v: nat :| v < |g.waiters| && g.waiters[v].pc.Entering?;
      assert OwnsMutex(g.waiters[u].pc);
      assert h.waiters[v].pc.Entering?;
    }
  }

  lemma SleeperKeepsCover(g: Gate, w: nat, u: nat)
    requires Covered(g) && Enabled(g, Waits(w)) && u < |g.waiters| && Apply(g, Waits(w)).waiters[u].pc.Asleep?
    ensures HookPending(Apply(g, Waits(w)).waiters[u]) || RescueComes(Apply(g, Waits(w)))
  {
    var h := Apply(g, Waits(w));
    GapKeepsRescuer(g, w);
    if u == w {
      var v: nat :| v < |h.waiters| && h.waiters[v].pc.Entering?;
      assert Rescues(h.waiters[v]);
    } else if !HookPending(g.waiters[u]) {
      assert WaiterOk(g, g.waiters[u]);
      var v: nat :| v < |g.waiters| && Rescues(g.waiters[v]);
      assert Rescues(h.waiters[v]);
    }
  }

  lemma CoveredStep(g: Gate, a: Action)
    requires Covered(g) && IsWaiterAction(a) && Enabled(g, a)
    ensures Covered(Apply(g, a))
  {
    InvStep(g, a);
    if a.Waits? {
      GapKeepsRescuer(g, a.w);
      forall u: nat | u < |g.waiters| && Apply(g, a).waiters[u].pc.Asleep?
        ensures HookPending(Apply(g, a).waiters[u]) || RescueComes(Apply(g, a))
      {
        SleeperKeepsCover(g, a.w, u);
      }
    } else {
      HookKeepsCovered(g, a);
    }
  }

  lemma CoveredCalms(g: Gate, h: Gate)
    requires Covered(g) && WaiterMove(g, h)
    ensures Rank(g) >= 0 && Rank(h) < Rank(g)
  {
    var a :| IsWaiterAction(a) && Enabled(g, a) && h == Apply(g, a);
    CalmStep(g, a);
    SumNonNegative(RankOf(g), |g.waiters|);
  }

  lemma MoveCovers(g: Gate, h: Gate)
    requires Covered(g) && WaiterMove(g, h)
    ensures Covered(h)
  {
    var a :| IsWaiterAction(a) && Enabled(g, a) && h == Apply(g, a);
    CoveredStep(g, a);
  }

  lemma {:induction false} CoveredRun(g: Gate, acts: seq<Action>, h: Gate)
    requires Covered(g) && RunsTo(g, acts, h) && WaiterActions(acts)
    ensures Covered(h)
    decreases |acts|
  {
    if acts != [] {
      CoveredStep(g, acts[0]);
      CoveredRun(Apply(g, acts[0]), acts[1..], h);
    }
  }

  lemma RestCovered(g: Gate, w: nat)
    requires Covered(g) && AtRest(g) && w < |g.waiters|
    ensures g.waiters[w].pc.Returned?
  {
    RestingWaiter(g, w);
    assert !Enabled(g, HookStarts(w)) && !Enabled(g, HookFires(w));
    forall v: nat | v < |g.waiters| ensures !Rescues(g.waiters[v]) {
      RestingWaiter(g, v);
      assert !Enabled(g, HookFires(v));
    }
  }

  predicate WaiterActions(acts: seq<Action>) {
    forall k :: 0 <= k < |acts| ==> IsWaiterAction(acts[k])
  }

  ghost predicate AllReturned(g: Gate) {
    forall w: nat :: w < |g.waiters| ==> g.waiters[w].pc.Returned?
  }

  /** Wherever the waiters and hooks come to rest, every call of wait has returned. */
  ghost predicate AlwaysReleases(g: Gate) {
    forall acts, h :: RunsTo(g, acts, h) && WaiterActions(acts) && AtRest(h) ==> AllReturned(h)
  }

  // ---- a waiter alone in the gap ----

  /** The waiter in the gap, with nobody left to come; until it lets go of the mutex hooks
      are all that moves. */
  ghost predicate InGap(g: Gate, w: nat) {
    && Inv(g) && g.cancelled && g.paused && g.setter.Ready? && w < |g.waiters|
    && g.waiters[w].pc.Enlisting? && !SomeEntering(g)
    && forall v: nat :: v < |g.waiters| && g.waiters[v].pc.Asleep? ==> HookPending(g.waiters[v])
  }

  /** It sleeps, every hook is spent, and nobody is left who could register one. */
  ghost predicate SleepsOn(g: Gate, w: nat) {
    && Inv(g) && g.cancelled && g.paused && g.setter.Ready? && w < |g.waiters|
    && g.waiters[w].pc.Asleep?
    && forall v: nat :: v < |g.waiters| ==> Spent(g.waiters[v]) && (v != w ==> !g.waiters[v].pc.Asleep?)
  }

  predicate Spent(x: Waiter) {
    !HookPending(x) && !x.pc.Entering? && !x.pc.Locked? && !x.pc.Enlisting?
  }

  lemma HookKeepsInGap(g: Gate, w: nat, a: Action)
    requires InGap(g, w) && (a.HookStarts? || a.HookFires?) && Enabled(g, a)
    ensures InGap(Apply(g, a), w) && 0 <= Rank(Apply(g, a)) < Rank(g)
  {
    var h := Apply(g, a);
    InvStep(g, a);
    SumNonNegative(RankOf(h), |h.waiters|);
    if a.HookStarts? { HookStartsRank(g, a.w); } else { HookFiresRank(g, a.w); }
    forall v: nat | v < |h.waiters| ensures !h.waiters[v].pc.Entering? {
      assert !g.waiters[v].pc.Entering?;
    }
  }

  /** Every hook starts and fires while the waiter is in the gap; none is taken back. */
  lemma {:induction false} FireAllHooks(g: Gate, w: nat) returns (acts: seq<Action>, h: Gate)
    requires InGap(g, w)
    ensures RunsTo(g, acts, h) && WaiterActions(acts) && InGap(h, w)
    ensures forall v: nat :: v < |h.waiters| ==> !HookPending(h.waiters[v])
    decreases Rank(g)
  {
    SumNonNegative(RankOf(g), |g.waiters|);
    if v: nat :| v < |g.waiters| && HookPending(g.waiters[v]) {
      var a := if g.waiters[v].hook.Armed? then HookStarts(v) else HookFires(v);
      HookKeepsInGap(g, w, a);
      acts, h := FireAllHooks(Apply(g, a), w);
      Prepend(g, a, acts, h);
      acts := [a] + acts;
    } else {
      acts, h := [], g;
    }
  }

  lemma IntoSleep(g: Gate, w: nat)
    requires InGap(g, w) && forall v: nat :: v < |g.waiters| ==> !HookPending(g.waiters[v])
    ensures Enabled(g, Waits(w)) && SleepsOn(Apply(g, Waits(w)), w)
  {
    var h := Apply(g, Waits(w));
    InvStep(g, Waits(w));
    forall v: nat | v < |g.waiters| ensures Spent(h.waiters[v]) && (v != w ==> !h.waiters[v].pc.Asleep?) {
      assert v < w ==> !(OwnsMutex(g.waiters[v].pc) && OwnsMutex(g.waiters[w].pc));
      assert w < v ==> !(OwnsMutex(g.waiters[w].pc) && OwnsMutex(g.waiters[v].pc));
      assert !g.waiters[v].pc.Entering?;
    }
  }

  lemma OthersStep(g: Gate, w: nat, v: nat)
    requires SleepsOn(g, w) && v < |g.waiters| && Enabled(g, Waits(v))
    ensures SleepsOn(Apply(g, Waits(v)), w) && 0 <= Rank(Apply(g, Waits(v))) < Rank(g)
  {
    InvStep(g, Waits(v));
    WaitsRank(g, v);
    SumNonNegative(RankOf(Apply(g, Waits(v))), |g.waiters|);
  }

  /** Then every other waiter returns, and rest is reached. */
  lemma {:induction false} OthersReturn(g: Gate, w: nat) returns (acts: seq<Action>, h: Gate)
    requires SleepsOn(g, w)
    ensures RunsTo(g, acts, h) && WaiterActions(acts) && AtRest(h) && SleepsOn(h, w)
    decreases Rank(g)
  {
    SumNonNegative(RankOf(g), |g.waiters|);
    if v: nat :| v < |g.waiters| && Enabled(g, Waits(v)) {
      OthersStep(g, w, v);
      acts, h := OthersReturn(Apply(g, Waits(v)), w);
      Prepend(g, Waits(v), acts, h);
      acts := [Waits(v)] + acts;
    } else {
      acts, h := [], g;
    }
  }

  /** From any gate with a waiter in the gap and nobody Entering, a cancellation can leave
      the waiter asleep for good. */
  lemma GapCanSleepOn(g: Gate, w: nat) returns (acts: seq<Action>, h: Gate)
    requires Inv(g) && !g.cancelled && g.setter.Ready? && !SomeEntering(g)
    requires w < |g.waiters| && g.waiters[w].pc.Enlisting?
    ensures RunsTo(Apply(g, Cancel), acts, h) && WaiterActions(acts) && AtRest(h)
    ensures SleepsOn(h, w)
  {
    var g0 := Apply(g, Cancel);
    CancelIntoGap(g, w);
    var fires, g1 := FireAllHooks(g0, w);
    IntoSleep(g1, w);
    var rest, h1 := OthersReturn(Apply(g1, Waits(w)), w);
    Prepend(g1, Waits(w), rest, h1);
    Join(g0, fires, g1, [Waits(w)] + rest, h1);
    acts, h := fires + ([Waits(w)] + rest), h1;
  }

  lemma CancelIntoGap(g: Gate, w: nat)
    requires Inv(g) && !g.cancelled && g.setter.Ready? && !SomeEntering(g)
    requires w < |g.waiters| && g.waiters[w].pc.Enlisting?
    ensures InGap(Apply(g, Cancel), w)
  {
    var h := Apply(g, Cancel);
    InvStep(g, Cancel);
    assert WaiterOk(g, g.waiters[w]);
    forall v: nat | v < |g.waiters| && g.waiters[v].pc.Asleep? ensures HookPending(h.waiters[v]) {
      assert WaiterOk(g, g.waiters[v]);
    }
    forall v: nat | v < |g.waiters| ensures !h.waiters[v].pc.Entering? {
      assert !g.waiters[v].pc.Entering?;
    }
  }

  /** Quitting releases every call of wait, whatever the scheduling, if and only if no
      waiter is in the gap between its check of ctx.Err and cond.Wait when the context is
      cancelled, or some other has yet to take the mutex: the hooks' Broadcasts are issued
      without the mutex and can slip into the gap, but the one of a waiter that comes later
      cannot. */
  lemma CancelReleasesIff(g: Gate)
    requires Reachable(g) && !g.cancelled && g.setter.Ready?
    ensures AlwaysReleases(Apply(g, Cancel)) <==> NoneEnlisting(g) || SomeEntering(g)
  {
    ReachableInv(g);
    if NoneEnlisting(g) || SomeEntering(g) {
      CancelCovers(g);
      forall acts, h | RunsTo(Apply(g, Cancel), acts, h) && WaiterActions(acts) && AtRest(h) ensures AllReturned(h) {
        CoveredRun(Apply(g, Cancel), acts, h);
        forall w: nat | w < |h.waiters| ensures h.waiters[w].pc.Returned? { RestCovered(h, w); }
      }
    } else {
      var w: nat :| w < |g.waiters| && g.waiters[w].pc.Enlisting?;
      var acts, h := GapCanSleepOn(g, w);
      assert !AllReturned(h);
    }
  }

  /** And rest is always reached: under that condition every endless schedule passes a
      state in which all calls have returned. */
  lemma CancelReleasesAll(g: Gate, run: nat -> Gate)
    requires Reachable(g) && !g.cancelled && g.setter.Ready? && (NoneEnlisting(g) || SomeEntering(g))
    requires run(0) == Apply(g, Cancel)
    requires forall k: nat :: !AtRest(run(k)) ==> WaiterMove(run(k), run(k + 1))
    ensures exists n: nat :: AllReturned(run(n))
  {
    ReachableInv(g);
    CancelCovers(g);
    var n := CoveredRunRests(run, 0);
    forall w: nat | w < |run(n).waiters| ensures run(n).waiters[w].pc.Returned? { RestCovered(run(n), w); }
  }

  lemma {:induction false} CoveredRunRests(run: nat -> Gate, i: nat) returns (n: nat)
    requires Covered(run(i))
    requires forall k: nat :: k >= i && !AtRest(run(k)) ==> WaiterMove(run(k), run(k + 1))
    ensures AtRest(run(n)) && Covered(run(n))
    decreases Rank(run(i))
  {
    n := i;
    if !AtRest(run(i)) {
      CoveredCalms(run(i), run(i + 1));
      MoveCovers(run(i), run(i + 1));
      n := CoveredRunRests(run, i + 1);
    }
  }

  // ---- both cases are reached ----

  /** A waiter does reach the gap: the sleeper above is not hypothetical. */
  lemma CancelCanLeaveASleeper() returns (g: Gate, h: Gate)
    ensures Reachable(g) && !g.cancelled && g.setter.Ready? && |g.waiters| == 1
    ensures !NoneEnlisting(g) && !SomeEntering(g)
    ensures Reachable(h) && h.cancelled && h.paused && h.setter.Ready? && AtRest(h)
    ensures |h.waiters| == 1 && h.waiters[0].pc.Asleep?
  {
    g := Shut(Waiter(Enlisting, Hook.Armed), []);
    assert Initial(true, 1) == Shut(Waiter(Entering, Unregistered), []);
    UpToTheGap([]);
    assert Reachable(g);
    ReachableInv(g);
    assert g.waiters[0].pc.Enlisting?;
    var acts;
    acts, h := GapCanSleepOn(g, 0);
    Prepend(g, Cancel, acts, h);
    Join(Initial(true, 1), FOUR, g, [Cancel] + acts, h);
    StillAsMany(Initial(true, 1), FOUR + ([Cancel] + acts), h);
  }

  /** With a second worker waiting for the mutex the same waiter is always released: the
      second finds the context cancelled, and its Broadcast comes when the first sleeps. */
  lemma LatecomerRescues() returns (g: Gate)
    ensures g == Gate(true, false, Ready, [Waiter(Enlisting, Hook.Armed), Waiter(Entering, Unregistered)])
    ensures Reachable(g) && !NoneEnlisting(g) && AlwaysReleases(Apply(g, Cancel))
  {
    var second := [Waiter(Entering, Unregistered)];
    g := Shut(Waiter(Enlisting, Hook.Armed), second);
    assert Initial(true, 2) == Shut(Waiter(Entering, Unregistered), second);
    UpToTheGap(second);
    assert Reachable(g);
    assert g.waiters[0].pc.Enlisting? && g.waiters[1].pc.Entering?;
    CancelReleasesIff(g);
  }

  lemma {:induction false} StillAsMany(g: Gate, acts: seq<Action>, h: Gate)
    requires RunsTo(g, acts, h)
    ensures |h.waiters| == |g.waiters|
    decreases |acts|
  {
    if acts != [] { StillAsMany(Apply(g, acts[0]), acts[1..], h); }
  }

  /** A shut gate, not cancelled. */
  function Shut(first: Waiter, others: seq<Waiter>): Gate {
    Gate(true, false, Ready, [first] + others)
  }

  const FOUR := [Waits(0)] + ([Waits(0)] + ([Waits(0)] + ([Waits(0)] + [])))

  lemma UpToTheGap(others: seq<Waiter>)
    requires forall v :: 0 <= v < |others| ==> others[v].pc.Entering?
    ensures RunsTo(Shut(Waiter(Entering, Unregistered), others), FOUR, Shut(Waiter(Enlisting, Hook.Armed), others))
  {
    var g0 := Shut(Waiter(Entering, Unregistered), others);
    var g1 := Shut(Waiter(Locked, Unregistered), others);
    var g2 := Shut(Waiter(Looping, Hook.Armed), others);
    var g3 := Shut(Waiter(WaitPc.Checking, Hook.Armed), others);
    var g4 := Shut(Waiter(Enlisting, Hook.Armed), others);
    FirstStep(others, Waiter(Entering, Unregistered), Waiter(Locked, Unregistered));
    FirstStep(others, Waiter(Locked, Unregistered), Waiter(Looping, Hook.Armed));
    FirstStep(others, Waiter(Looping, Hook.Armed), Waiter(WaitPc.Checking, Hook.Armed));
    FirstStep(others, Waiter(WaitPc.Checking, Hook.Armed), Waiter(Enlisting, Hook.Armed));
    assert RunsTo(g4, [], g4);
    Prepend(g3, Waits(0), [], g4);
    Prepend(g2, Waits(0), [Waits(0)] + [], g4);
    Prepend(g1, Waits(0), [Waits(0)] + ([Waits(0)] + []), g4);
    Prepend(g0, Waits(0), [Waits(0)] + ([Waits(0)] + ([Waits(0)] + [])), g4);
  }

  lemma FirstStep(others: seq<Waiter>, x: Waiter, y: Waiter)
    requires forall v :: 0 <= v < |others| ==> others[v].pc.Entering?
    requires !x.pc.Asleep? && !x.pc.Returned? && WaitStep(Shut(x, others), x) == y
    ensures x.pc.Entering? || OwnsMutex(x.pc) ==>
              Enabled(Shut(x, others), Waits(0)) && Apply(Shut(x, others), Waits(0)) == Shut(y, others)
  {
    assert Shut(x, others).waiters[0 := y] == Shut(y, others).waiters;
  }

  lemma {:induction false} Join(g: Gate, acts: seq<Action>, h: Gate, more: seq<Action>, i: Gate)
    requires RunsTo(g, acts, h) && RunsTo(h, more, i)
    ensures RunsTo(g, acts + more, i)
    decreases |acts|
  {
    if acts == [] {
      assert acts + more == more;
    } else {
      assert (acts + more)[1..] == acts[1..] + more;
      Join(Apply(g, acts[0]), acts[1..], h, more, i);
    }
  }

  lemma Prepend(g: Gate, a: Action, acts: seq<Action>, h: Gate)
    requires Enabled(g, a) && RunsTo(Apply(g, a), acts, h)
    ensures RunsTo(g, [a] + acts, h)
  {
    assert ([a] + acts)[1..] == acts;
  }
}
