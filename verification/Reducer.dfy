/** The value-level meaning of Model.Update (ui/update.go): how one message or key
    press changes the run's phase, counters and worker slots. */
module Reducer {
  import opened Arithmetic
  import opened Transfer

  datatype Phase =
    | StateScanning
    | StateCatchingUp
    | StateUploading
    | StatePaused
    | StateDone
    | StateError
    | StateCancelled

  datatype Status = Idle | Checking | Queued | Uploading | Done | Skipped | Error

  predicate Terminal(st: Status) {
    st.Done? || st.Skipped? || st.Error?
  }

  /** The per-file part of WorkerState. */
  datatype Slot = Slot(status: Status, file: string, total: nat, committed: nat, uploaded: nat, buffered: nat)

  const IDLE_SLOT := Slot(Idle, "", 0, 0, 0, 0)

  datatype Msg =
    | StatusMsg(worker: nat, status: Status, item: Item, queueIndex: nat)
    | ProgressMsg(worker: nat, item: Item, committed: nat, uploaded: nat, buffered: nat)
    | BulkStatProgressMsg(found: nat)

  /** One finished item, as recorded in the history panels. */
  datatype Record = Record(worker: nat, status: Status, item: Item)

  datatype Ui = Ui(
    phase: Phase,
    pausedFrom: Phase,
    gatePaused: bool,
    cancelled: bool,
    totalFiles: nat,
    totalBytes: nat,
    uploadedFiles: nat,
    skippedFiles: nat,
    failedFiles: nat,
    completedBytes: nat,
    skippedBytes: nat,
    queuePos: nat,
    slots: seq<Slot>,
    log: seq<Record>)

  // ---- one slot ----

  function StatusSlot(slot: Slot, st: Status, item: Item): Slot {
    if st.Uploading? then Slot(Uploading, item.path, item.size, 0, 0, 0)
    else if Terminal(st) then IDLE_SLOT
    else slot.(status := st, file := item.path)
  }

  function ApplySlot(slot: Slot, msg: Msg): Slot {
    match msg
    case StatusMsg(_, st, item, _) => StatusSlot(slot, st, item)
    case ProgressMsg(_, item, c, u, b) =>
      slot.(committed := c, uploaded := u, buffered := b, total := item.size,
            file := if item.path != "" then item.path else slot.file)
    case BulkStatProgressMsg(_) => slot
  }

  // ---- the whole model ----

  function Finished(ui: Ui): nat {
    ui.uploadedFiles + ui.skippedFiles + ui.failedFiles
  }

  predicate AllCounted(ui: Ui) {
    Finished(ui) >= ui.totalFiles && ui.totalFiles > 0
  }

  /** The counter and byte total that a finished item adds to. */
  function Tally(ui: Ui, st: Status, item: Item): Ui {
    match st
    case Done => ui.(uploadedFiles := ui.uploadedFiles + 1, completedBytes := ui.completedBytes + item.size)
    case Skipped => ui.(skippedFiles := ui.skippedFiles + 1, skippedBytes := ui.skippedBytes + item.size)
    case Error => ui.(failedFiles := ui.failedFiles + 1)
    case _ => ui
  }

  /** The counters, the log and the phase of one worker status message. */
  function CountStatus(ui: Ui, w: nat, st: Status, item: Item): Ui {
    if Terminal(st) then Tally(ui, st, item).(log := ui.log + [Record(w, st, item)])
    else if st.Uploading? && ui.phase.StateCatchingUp? then ui.(phase := StateUploading)
    else ui
  }

  function StatusOn(ui: Ui, w: nat, st: Status, item: Item): Ui
    requires w < |ui.slots|
  {
    CountStatus(ui, w, st, item).(slots := ui.slots[w := StatusSlot(ui.slots[w], st, item)])
  }

  /** QueuePos only grows. */
  function NotePos(ui: Ui, queueIndex: nat): Ui {
    if queueIndex > ui.queuePos then ui.(queuePos := queueIndex) else ui
  }

  function Settle(ui: Ui): Ui {
    if AllCounted(ui) then ui.(phase := StateDone) else ui
  }

  function Reduce(ui: Ui, msg: Msg): Ui {
    match msg
    case StatusMsg(w, st, item, qi) =>
      Settle(if w < |ui.slots| then NotePos(StatusOn(ui, w, st, item), qi) else ui)
    case ProgressMsg(w, _, _, _, _) =>
      if w < |ui.slots| then ui.(slots := ui.slots[w := ApplySlot(ui.slots[w], msg)]) else ui
    case BulkStatProgressMsg(_) => ui
  }

  /** Does Update hand back a new waitForMsgCmd after this message? */
  predicate Rearms(ui: Ui, msg: Msg) {
    msg.StatusMsg? ==> !AllCounted(Reduce(ui, msg))
  }

  function PressPause(ui: Ui): Ui {
    match ui.phase
    case StateUploading => ui.(pausedFrom := StateUploading, phase := StatePaused, gatePaused := true)
    case StateCatchingUp => ui.(pausedFrom := StateCatchingUp, phase := StatePaused, gatePaused := true)
    case StatePaused =>
      ui.(phase := if ui.pausedFrom.StatePaused? then StateUploading else ui.pausedFrom, gatePaused := false)
    case _ => ui
  }

  function PressQuit(ui: Ui): Ui {
    ui.(cancelled := true,
        phase := if ui.phase.StateDone? || ui.phase.StateError? then ui.phase else StateCancelled)
  }

  function ScanComplete(ui: Ui, items: seq<Item>, totalBytes: nat): Ui {
    ui.(totalFiles := |items|, totalBytes := totalBytes,
        phase := if |items| == 0 then StateDone else StateCatchingUp)
  }

  function ScanFailed(ui: Ui): Ui {
    ui.(phase := StateError)
  }

  function InitialUi(jobs: nat): Ui {
    Ui(StateScanning, StateScanning, false, false, 0, 0, 0, 0, 0, 0, 0, 0, seq(jobs, _ => IDLE_SLOT), [])
  }

  // ---- weighing the log ----

  /** The total weight of the records with one of the wanted statuses. */
  function LogWeight(log: seq<Record>, wt: (Status, Item) -> nat): nat {
    if log == [] then 0
    else LogWeight(log[..|log| - 1], wt) + wt(log[|log| - 1].status, log[|log| - 1].item)
  }

  function SizeIf(b: bool, item: Item): nat { if b then item.size else 0 }

  function CountOf(st: Status): (Status, Item) -> nat {
    (s: Status, it: Item) => OneIf(s == st)
  }

  function BytesOf(st: Status): (Status, Item) -> nat {
    (s: Status, it: Item) => SizeIf(s == st, it)
  }

  /** Every counter is a reading of the completion log. */
  ghost predicate CountersAgree(ui: Ui) {
    && ui.uploadedFiles == LogWeight(ui.log, CountOf(Done))
    && ui.skippedFiles == LogWeight(ui.log, CountOf(Skipped))
    && ui.failedFiles == LogWeight(ui.log, CountOf(Error))
    && ui.completedBytes == LogWeight(ui.log, BytesOf(Done))
    && ui.skippedBytes == LogWeight(ui.log, BytesOf(Skipped))
    && Finished(ui) == |ui.log|
  }

  lemma LogWeightAppend(log: seq<Record>, r: Record, wt: (Status, Item) -> nat)
    ensures LogWeight(log + [r], wt) == LogWeight(log, wt) + wt(r.status, r.item)
  {
    assert (log + [r])[..|log|] == log;
  }

  lemma CountKeepsCounters(ui: Ui, w: nat, st: Status, item: Item)
    requires CountersAgree(ui)
    ensures CountersAgree(CountStatus(ui, w, st, item))
    ensures CountStatus(ui, w, st, item).log == if Terminal(st) then ui.log + [Record(w, st, item)] else ui.log
  {
    if Terminal(st) {
      var r := Record(w, st, item);
      LogWeightAppend(ui.log, r, CountOf(Done));
      LogWeightAppend(ui.log, r, CountOf(Skipped));
      LogWeightAppend(ui.log, r, CountOf(Error));
      LogWeightAppend(ui.log, r, BytesOf(Done));
      LogWeightAppend(ui.log, r, BytesOf(Skipped));
    }
  }

  predicate SameCounts(a: Ui, b: Ui) {
    && b.log == a.log
    && b.uploadedFiles == a.uploadedFiles && b.skippedFiles == a.skippedFiles && b.failedFiles == a.failedFiles
    && b.completedBytes == a.completedBytes && b.skippedBytes == a.skippedBytes
  }

  /** The counters and the log do not depend on the screen. */
  lemma CountersFrame(a: Ui, b: Ui)
    requires CountersAgree(a) && SameCounts(a, b)
    ensures CountersAgree(b)
  {}

  lemma ScreenKeepsCounts(a: Ui, slots: seq<Slot>, queueIndex: nat)
    ensures SameCounts(a, Settle(NotePos(a.(slots := slots), queueIndex)))
  {}

  lemma StatusKeepsCounters(ui: Ui, w: nat, st: Status, item: Item, queueIndex: nat)
    requires CountersAgree(ui) && w < |ui.slots|
    ensures CountersAgree(Settle(NotePos(StatusOn(ui, w, st, item), queueIndex)))
  {
    var counted := CountStatus(ui, w, st, item);
    CountKeepsCounters(ui, w, st, item);
    ScreenKeepsCounts(counted, ui.slots[w := StatusSlot(ui.slots[w], st, item)], queueIndex);
    CountersFrame(counted, Settle(NotePos(StatusOn(ui, w, st, item), queueIndex)));
  }

  /** No message can make the counters drift from the log. */
  lemma ReduceKeepsCounters(ui: Ui, msg: Msg)
    requires CountersAgree(ui)
    ensures CountersAgree(Reduce(ui, msg))
  {
    if msg.StatusMsg? && msg.worker < |ui.slots| {
      StatusKeepsCounters(ui, msg.worker, msg.status, msg.item, msg.queueIndex);
    } else {
      CountersFrame(ui, Reduce(ui, msg));
    }
  }

  /** What handling a message can do to the phase, the totals and the slots. */
  ghost predicate Handled(ui: Ui, r: Ui) {
    && r.totalFiles == ui.totalFiles && r.totalBytes == ui.totalBytes
    && r.cancelled == ui.cancelled && r.gatePaused == ui.gatePaused && r.pausedFrom == ui.pausedFrom
    && |r.slots| == |ui.slots|
    && Finished(r) >= Finished(ui)
    && (Finished(r) > Finished(ui) && AllCounted(r) ==> r.phase.StateDone?)
    && (r.phase == ui.phase
        || (r.phase.StateDone? && AllCounted(r))
        || (r.phase.StateUploading? && ui.phase.StateCatchingUp?))
  }

  lemma StatusHandled(ui: Ui, w: nat, st: Status, item: Item, queueIndex: nat)
    requires w < |ui.slots|
    ensures Handled(ui, Settle(NotePos(StatusOn(ui, w, st, item), queueIndex)))
  {}

  lemma ReduceFrame(ui: Ui, msg: Msg)
    ensures Handled(ui, Reduce(ui, msg))
  {
    if msg.StatusMsg? && msg.worker < |ui.slots| {
      StatusHandled(ui, msg.worker, msg.status, msg.item, msg.queueIndex);
    }
  }
}
