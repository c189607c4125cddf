/** The Model object of the ui package and the arms of Update that run a sync, in place
    on its fields. View() is the value the pool's transition system folds messages
    into, so what is proved there holds of this object. */
module UiModel {
  import opened Arithmetic
  import opened Transfer
  import opened Reducer
  import opened PoolStreams
  import opened WorkerPool
  import opened Sums

  // maxHistory of ui/model.go
  const MAX_HISTORY := 200

  // ---- history rings ----

  /** The last n entries, or all of them. */
  function LastN(s: seq<Record>, n: nat): seq<Record> {
    if |s| > n then s[|s| - n..] else s
  }

  /** The ring of a log is its end, of 200 entries as soon as there are so many. */
  lemma RingIsTheEnd(log: seq<Record>)
    ensures var ring := LastN(log, MAX_HISTORY);
            && |ring| == (if |log| < 200 then |log| else 200)
            && forall k :: 0 <= k < |ring| ==> ring[k] == log[|log| - |ring| + k]
  {}

  /** Append, then cut down to n entries, as recordHistory does to a slice. */
  function Push(ring: seq<Record>, r: Record, n: nat): seq<Record> {
    var longer := ring + [r];
    if |longer| > n then longer[|longer| - n..] else longer
  }

  /** A ring filled by Push holds exactly the last n entries of everything pushed. */
  lemma PushIsLastN(log: seq<Record>, r: Record, n: nat)
    ensures Push(LastN(log, n), r, n) == LastN(log + [r], n)
  {}

  /** The part of the log that worker w wrote. */
  function Projected(log: seq<Record>, w: nat): seq<Record> {
    if log == [] then []
    else
      var r := log[|log| - 1];
      Projected(log[..|log| - 1], w) + (if r.worker == w then [r] else [])
  }

  lemma ProjectedAppend(log: seq<Record>, r: Record, w: nat)
    ensures Projected(log + [r], w) == Projected(log, w) + (if r.worker == w then [r] else [])
  {
    assert (log + [r])[..|log|] == log;
  }

  /** One entry of m.Workers: its slot, its history ring and its running totals. */
  datatype WorkerState = WorkerState(slot: Slot, history: seq<Record>, bytesMoved: nat, filesDone: nat)

  /** Done and skipped files, as FilesDone counts them. */
  function Finishing(): (Status, Item) -> nat {
    (s: Status, it: Item) => OneIf(s.Done? || s.Skipped?)
  }

  /** A worker's entry is a reading of its part of the log. */
  ghost predicate WorkerAgrees(x: WorkerState, log: seq<Record>, w: nat) {
    && x.history == LastN(Projected(log, w), MAX_HISTORY)
    && x.bytesMoved == LogWeight(Projected(log, w), BytesOf(Done))
    && x.filesDone == LogWeight(Projected(log, w), Finishing())
  }

  function CountFor(x: WorkerState, st: Status, item: Item): WorkerState {
    x.(bytesMoved := if st.Done? then x.bytesMoved + item.size else x.bytesMoved,
       filesDone := if st.Done? || st.Skipped? then x.filesDone + 1 else x.filesDone)
  }

  /** What a finished item does to the worker that finished it ... */
  lemma FinishedWorkerAgrees(x: WorkerState, log: seq<Record>, r: Record, slot: Slot)
    requires WorkerAgrees(x, log, r.worker)
    ensures WorkerAgrees(CountFor(x, r.status, r.item).(history := Push(x.history, r, MAX_HISTORY), slot := slot),
                         log + [r], r.worker)
  {
    ProjectedAppend(log, r, r.worker);
    PushIsLastN(Projected(log, r.worker), r, MAX_HISTORY);
    LogWeightAppend(Projected(log, r.worker), r, BytesOf(Done));
    LogWeightAppend(Projected(log, r.worker), r, Finishing());
  }

  /** ... and to any other. */
  lemma OtherWorkerAgrees(x: WorkerState, log: seq<Record>, r: Record, w: nat)
    requires WorkerAgrees(x, log, w) && w != r.worker
    ensures WorkerAgrees(x, log + [r], w)
  {
    ProjectedAppend(log, r, w);
    assert Projected(log, w) + [] == Projected(log, w);
  }

  function Slots(workers: seq<WorkerState>): seq<Slot> {
    seq(|workers|, i requires 0 <= i < |workers| => workers[i].slot)
  }

  /** What a worker's status message does to its slot and to nobody else's ... */
  lemma StatusSlotMeans(ui: Ui, w: nat, st: Status, item: Item, queueIndex: nat)
    requires w < |ui.slots|
    ensures var r := Reduce(ui, StatusMsg(w, st, item, queueIndex));
            && |r.slots| == |ui.slots|
            && (forall v: nat :: v < |r.slots| && v != w ==> r.slots[v] == ui.slots[v])
            && (st.Uploading? ==> r.slots[w] == Slot(Uploading, item.path, item.size, 0, 0, 0))
            && (Terminal(st) ==> r.slots[w] == Slot(Idle, "", 0, 0, 0, 0))
            && (!st.Uploading? && !Terminal(st) ==> r.slots[w] == ui.slots[w].(status := st, file := item.path))
  {}

  /** ... to the counters ... */
  lemma StatusCountsMean(ui: Ui, w: nat, st: Status, item: Item, queueIndex: nat)
    requires w < |ui.slots|
    ensures var r := Reduce(ui, StatusMsg(w, st, item, queueIndex));
            && r.uploadedFiles == ui.uploadedFiles + (if st == Done then 1 else 0)
            && r.completedBytes == ui.completedBytes + (if st == Done then item.size else 0)
            && r.skippedFiles == ui.skippedFiles + (if st == Skipped then 1 else 0)
            && r.skippedBytes == ui.skippedBytes + (if st == Skipped then item.size else 0)
            && r.failedFiles == ui.failedFiles + (if st == Error then 1 else 0)
  {}

  /** ... to the queue position ... */
  lemma StatusPosMeans(ui: Ui, w: nat, st: Status, item: Item, queueIndex: nat)
    requires w < |ui.slots|
    ensures Reduce(ui, StatusMsg(w, st, item, queueIndex)).queuePos
            == if queueIndex > ui.queuePos then queueIndex else ui.queuePos
  {}

  /** ... and to the phase. */
  lemma StatusPhaseMeans(ui: Ui, w: nat, st: Status, item: Item, queueIndex: nat)
    ensures var r := Reduce(ui, StatusMsg(w, st, item, queueIndex));
            r.phase == if 0 < r.totalFiles <= r.uploadedFiles + r.skippedFiles + r.failedFiles then StateDone
                       else if w < |ui.slots| && st == Uploading && ui.phase == StateCatchingUp
                       then StateUploading else ui.phase
  {}

  lemma TallyKeepsScreen(ui: Ui, st: Status, item: Item)
    ensures Tally(ui, st, item).log == ui.log && Tally(ui, st, item).slots == ui.slots
  {}

  /** One more finished item, and its worker idle again. */
  function Logged(ui: Ui, w: nat, st: Status, item: Item): Ui
    requires w < |ui.slots|
  {
    ui.(log := ui.log + [Record(w, st, item)], slots := ui.slots[w := IDLE_SLOT])
  }

  lemma TerminalOn(ui: Ui, w: nat, st: Status, item: Item)
    requires w < |ui.slots| && Terminal(st)
    ensures |Tally(ui, st, item).slots| == |ui.slots|
    ensures StatusOn(ui, w, st, item) == Logged(Tally(ui, st, item), w, st, item)
  {
    TallyKeepsScreen(ui, st, item);
  }

  class Model {
    var state: Phase
    var pausedFrom: Phase
    var gatePaused: bool
    var cancelled: bool
    var totalFiles: nat
    var totalBytes: nat
    var uploadedFiles: nat
    var skippedFiles: nat
    var failedFiles: nat
    var completedBytes: nat
    var skippedBytes: nat
    var queuePos: nat
    const workers: array<WorkerState>
    var recentFiles: seq<Record>
    ghost var log: seq<Record>  // every finished item, oldest first

    ghost function View(): Ui
      reads this, workers
    {
      Ui(state, pausedFrom, gatePaused, cancelled, totalFiles, totalBytes, uploadedFiles, skippedFiles, failedFiles,
         completedBytes, skippedBytes, queuePos, Slots(workers[..]), log)
    }

    ghost predicate HistoryOk()
      reads this`recentFiles, this`log, workers
    {
      && recentFiles == LastN(log, MAX_HISTORY)
      && forall w :: 0 <= w < workers.Length ==> WorkerAgrees(workers[w], log, w)
    }

    /** Counters, rings and per-worker totals are all readings of one log. */
    ghost predicate Valid()
      reads this, workers
    {
      CountersAgree(View()) && HistoryOk()
    }

    /** InitialModel */
    constructor (jobs: nat)
      ensures Valid() && View() == InitialUi(jobs) && fresh(workers)
    {
      state, pausedFrom, gatePaused, cancelled := StateScanning, StateScanning, false, false;
      totalFiles, totalBytes, uploadedFiles, skippedFiles, failedFiles := 0, 0, 0, 0, 0;
      completedBytes, skippedBytes, queuePos := 0, 0, 0;
      workers := new WorkerState[jobs](_ => WorkerState(IDLE_SLOT, [], 0, 0));
      recentFiles, log := [], [];
    }

    /** recordHistory followed by resetWorker. */
    method Finish(w: nat, st: Status, item: Item)
      requires w < workers.Length && HistoryOk()
      modifies this`recentFiles, this`log, workers
      ensures HistoryOk()
      ensures View() == Logged(old(View()), w, st, item)
      ensures workers[w].bytesMoved == old(workers[w].bytesMoved) + (if st == Done then item.size else 0)
      ensures workers[w].filesDone == old(workers[w].filesDone) + (if st == Done || st == Skipped then 1 else 0)
    {
      var rec := Record(w, st, item);
      ghost var before := log;
      FinishedWorkerAgrees(workers[w], log, rec, IDLE_SLOT);
      forall v: nat | v < workers.Length && v != w ensures WorkerAgrees(workers[v], log + [rec], v) {
        OtherWorkerAgrees(workers[v], log, rec, v);
      }
      PushIsLastN(log, rec, MAX_HISTORY);
      var history := Push(workers[w].history, rec, MAX_HISTORY);
      workers[w] := CountFor(workers[w], st, item).(history := history, slot := IDLE_SLOT);
      recentFiles := Push(recentFiles, rec, MAX_HISTORY);
      log := before + [rec];
      assert Slots(workers[..]) == old(Slots(workers[..]))[w := IDLE_SLOT];
    }

    method CountItem(st: Status, item: Item)
      modifies this`uploadedFiles, this`completedBytes, this`skippedFiles, this`skippedBytes, this`failedFiles
      ensures View() == Tally(old(View()), st, item)
    {
      match st {
        case Done =>
          uploadedFiles := uploadedFiles + 1;
          completedBytes := completedBytes + item.size;
        case Skipped =>
          skippedFiles := skippedFiles + 1;
          skippedBytes := skippedBytes + item.size;
        case Error =>
          failedFiles := failedFiles + 1;
        case _ =>
      }
    }

    /** The Done, Skipped and Error cases of the WorkerStatusMsg arm. */
    method CountFinished(w: nat, st: Status, item: Item)
      requires HistoryOk() && w < workers.Length && Terminal(st)
      modifies this, workers
      ensures HistoryOk() && View() == StatusOn(old(View()), w, st, item)
    {
      ghost var before := View();
      CountItem(st, item);
      Finish(w, st, item);
      TerminalOn(before, w, st, item);
    }

    /** Its other cases: the slot shows the new status, and the first transfer ends the
        catch-up phase. */
    method ShowStatus(w: nat, st: Status, item: Item)
      requires HistoryOk() && w < workers.Length && !Terminal(st)
      modifies this`state, workers
      ensures HistoryOk() && View() == StatusOn(old(View()), w, st, item)
    {
      ghost var before := Slots(workers[..]);
      if st.Uploading? {
        workers[w] := workers[w].(slot := Slot(Uploading, item.path, item.size, 0, 0, 0));
        if state.StateCatchingUp? { state := StateUploading; }
      } else {
        workers[w] := workers[w].(slot := workers[w].slot.(status := st, file := item.path));
      }
      assert Slots(workers[..]) == before[w := StatusSlot(before[w], st, item)];
    }

    method RaiseQueuePos(queueIndex: nat)
      modifies this`queuePos
      ensures View() == NotePos(old(View()), queueIndex)
    {
      if queueIndex > queuePos { queuePos := queueIndex; }
    }

    /** The end of the arm: Done, or ask for the next message. */
    method SettlePhase() returns (rearm: bool)
      modifies this`state
      ensures View() == Settle(old(View())) && rearm == !AllCounted(old(View()))
    {
      rearm := !(uploadedFiles + skippedFiles + failedFiles >= totalFiles && totalFiles > 0);
      if !rearm { state := StateDone; }
    }

    /** The part of the arm that concerns a worker of this run. */
    method HandleWorker(w: nat, st: Status, item: Item, queueIndex: nat)
      requires HistoryOk() && w < workers.Length
      modifies this, workers
      ensures HistoryOk() && View() == NotePos(StatusOn(old(View()), w, st, item), queueIndex)
    {
      if Terminal(st) {
        CountFinished(w, st, item);
      } else {
        ShowStatus(w, st, item);
      }
      RaiseQueuePos(queueIndex);
    }

    /** The WorkerStatusMsg arm. */
    method HandleStatus(w: nat, st: Status, item: Item, queueIndex: nat) returns (rearm: bool)
      requires Valid()
      modifies this, workers
      ensures Valid()
      ensures View() == Reduce(old(View()), StatusMsg(w, st, item, queueIndex))
      ensures rearm == Rearms(old(View()), StatusMsg(w, st, item, queueIndex))
      ensures w < workers.Length ==>
                && uploadedFiles == old(uploadedFiles) + (if st == Done then 1 else 0)
                && completedBytes == old(completedBytes) + (if st == Done then item.size else 0)
                && skippedFiles == old(skippedFiles) + (if st == Skipped then 1 else 0)
                && skippedBytes == old(skippedBytes) + (if st == Skipped then item.size else 0)
                && failedFiles == old(failedFiles) + (if st == Error then 1 else 0)
                && queuePos == (if queueIndex > old(queuePos) then queueIndex else old(queuePos))
      ensures !rearm <==> 0 < totalFiles <= uploadedFiles + skippedFiles + failedFiles
      ensures state == if !rearm then StateDone
                       else if w < workers.Length && st == Uploading && old(state) == StateCatchingUp
                       then StateUploading else old(state)
    {
      ghost var before := View();
      ReduceKeepsCounters(before, StatusMsg(w, st, item, queueIndex));
      if w < workers.Length {
        StatusCountsMean(before, w, st, item, queueIndex);
        StatusPosMeans(before, w, st, item, queueIndex);
        HandleWorker(w, st, item, queueIndex);
      }
      rearm := SettlePhase();
      StatusPhaseMeans(before, w, st, item, queueIndex);
    }

    /** The WorkerProgressMsg arm; it always asks for the next message. */
    method HandleProgress(w: nat, item: Item, committed: nat, uploaded: nat, buffered: nat)
      requires Valid()
      modifies workers
      ensures Valid()
      ensures View() == Reduce(old(View()), ProgressMsg(w, item, committed, uploaded, buffered))
      ensures w < workers.Length ==>
                && workers[w].slot.committed == committed
                && workers[w].slot.uploaded == uploaded
                && workers[w].slot.buffered == buffered
                && workers[w].slot.total == item.size
                && workers[w].slot.status == old(workers[w].slot.status)
                && workers[w].slot.file == (if item.path != "" then item.path else old(workers[w].slot.file))
      ensures forall v: nat :: v < workers.Length && v != w ==> workers[v] == old(workers[v])
    {
      ghost var before := View();
      ghost var msg := ProgressMsg(w, item, committed, uploaded, buffered);
      if w < workers.Length {
        var slot := workers[w].slot;
        slot := slot.(committed := committed, uploaded := uploaded, buffered := buffered, total := item.size);
        workers[w] := workers[w].(slot := if item.path != "" then slot.(file := item.path) else slot);
        assert Slots(workers[..]) == before.slots[w := ApplySlot(before.slots[w], msg)];
      }
    }

    /** The total startScanCmd hands to Update. */
    static method ScanTotal(items: seq<Item>) returns (total: nat)
      ensures total == SumSizes(items)
    {
      total := 0;
      assert items[..|items|] == items;
      for i := 0 to |items|
        invariant total + SumSizes(items[i..]) == SumSizes(items)
      {
        assert items[i..][1..] == items[i + 1..];
        total := total + items[i].size;
      }
    }

    /** The ScanCompleteMsg arm: start says whether workers are to run at all, bulk
        whether the destination is listed before them. */
    method HandleScan(items: seq<Item>, err: bool, lister: bool) returns (start: bool, bulk: bool)
      requires Valid()
      modifies this
      ensures Valid()
      ensures View() == if err then ScanFailed(old(View())) else ScanComplete(old(View()), items, SumSizes(items))
      ensures start <==> !err && items != []
      ensures bulk <==> start && lister && |items| >= 200
      ensures !err ==> totalFiles == |items| && totalBytes == SumSizes(items)
      ensures state == if err then StateError else if start then StateCatchingUp else StateDone
    {
      if err {
        state := StateError;
        return false, false;
      }
      totalFiles := |items|;
      totalBytes := ScanTotal(items);
      state := StateCatchingUp;
      if totalFiles == 0 {
        state := StateDone;
        return false, false;
      }
      return true, lister && totalFiles >= BULK_STAT_THRESHOLD;
    }

    /** The p key. */
    method PressP()
      requires Valid()
      modifies this
      ensures Valid() && View() == PressPause(old(View()))
      ensures old(state) == StateUploading || old(state) == StateCatchingUp ==>
                state == StatePaused && pausedFrom == old(state) && gatePaused
      ensures old(state) == StatePaused ==>
                && !gatePaused
                && state == (if old(pausedFrom) == StatePaused then StateUploading else old(pausedFrom))
      ensures old(state) !in {StateUploading, StateCatchingUp, StatePaused} ==>
                state == old(state) && gatePaused == old(gatePaused) && pausedFrom == old(pausedFrom)
    {
      if state.StateUploading? || state.StateCatchingUp? {
        pausedFrom := state;
        state := StatePaused;
        gatePaused := true;
      } else if state.StatePaused? {
        state := pausedFrom;
        if state.StatePaused? { state := StateUploading; }
        gatePaused := false;
      }
    }

    /** The q key. */
    method PressQ()
      requires Valid()
      modifies this
      ensures Valid() && View() == PressQuit(old(View()))
      ensures cancelled && state == if old(state) in {StateDone, StateError} then old(state) else StateCancelled
    {
      cancelled := true;
      if !state.StateDone? && !state.StateError? { state := StateCancelled; }
    }

    /** liveTransferredBytes */
    method LiveTransferredBytes() returns (total: nat)
      ensures total == LiveTransferred(View())
    {
      total := completedBytes;
      for i := 0 to workers.Length
        invariant total == completedBytes + SumTo(LiveOf(View()), i)
      {
        if workers[i].slot.status.Uploading? { total := total + workers[i].slot.uploaded; }
      }
    }

    /** totalBarRatio, over exact reals. */
    method TotalBarRatio() returns (r: real)
      ensures 0.0 <= r <= 1.0
      ensures totalBytes > 0 && LiveTransferred(View()) + skippedBytes <= totalBytes ==>
                r * totalBytes as real == (LiveTransferred(View()) + skippedBytes) as real
    {
      if totalBytes == 0 { return 0.0; }
      var live := LiveTransferredBytes();
      r := (live + skippedBytes) as real / totalBytes as real;
      if r > 1.0 { r := 1.0; }
    }
  }
}
