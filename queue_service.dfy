/**
 * The truck-queue service (`backend/src/services/queue.service.js`): the
 * status machine MENUNGGU → IN_WH → PROSES → SELESAI with cancellation to
 * BATAL, the entry store with its audit log, the date-only parser and the
 * day ranges used to filter the queue list.
 */
module QueueService {
  import opened Common
  import opened Text

  // ---------------------------------------------------------------------
  // Statuses and the transition rule
  // ---------------------------------------------------------------------

  datatype Status = Menunggu | InWh | Proses | Selesai | Batal

  /** The status as the database and the API spell it. */
  function Name(s: Status): string
  {
    match s
    case Menunggu => "MENUNGGU"
    case InWh => "IN_WH"
    case Proses => "PROSES"
    case Selesai => "SELESAI"
    case Batal => "BATAL"
  }

  /** The status a string names, if any. */
  function StatusNamed(name: string): (r: Option<Status>)
    ensures r.Some? ==> Name(r.value) == name
    ensures r.None? ==> forall s: Status :: Name(s) != name
  {
    if name == "MENUNGGU" then Some(Menunggu)
    else if name == "IN_WH" then Some(InWh)
    else if name == "PROSES" then Some(Proses)
    else if name == "SELESAI" then Some(Selesai)
    else if name == "BATAL" then Some(Batal)
    else None
  }

  /** The forward path of an entry; BATAL is off the path. */
  const STATUS_FLOW: seq<string> := ["MENUNGGU", "IN_WH", "PROSES", "SELESAI"]

  predicate IsTerminal(s: Status)
  {
    s == Selesai || s == Batal
  }

  /** `isNextStatus(current, next)`: `next` is one place after `current` on the path. */
  function IsNextStatus(current: string, next: string): (b: bool)
    ensures b <==> (current, next) in {("MENUNGGU", "IN_WH"), ("IN_WH", "PROSES"), ("PROSES", "SELESAI")}
  {
    FlowIndex(current);
    FlowIndex(next);
    var idx := IndexOf(STATUS_FLOW, current);
    var nextIdx := IndexOf(STATUS_FLOW, next);
    if idx == -1 || nextIdx == -1 then false else nextIdx == idx + 1
  }

  /** `isPrevStatus(current, prev)`: `prev` is one place before `current` on the path. */
  function IsPrevStatus(current: string, prev: string): (b: bool)
    ensures b <==> (current, prev) in {("IN_WH", "MENUNGGU"), ("PROSES", "IN_WH"), ("SELESAI", "PROSES")}
  {
    FlowIndex(current);
    FlowIndex(prev);
    var idx := IndexOf(STATUS_FLOW, current);
    var prevIdx := IndexOf(STATUS_FLOW, prev);
    if idx == -1 || prevIdx == -1 then false else prevIdx == idx - 1
  }

  lemma FlowIndex(x: string)
    ensures IndexOf(STATUS_FLOW, x) ==
      if x == "MENUNGGU" then 0 else if x == "IN_WH" then 1
      else if x == "PROSES" then 2 else if x == "SELESAI" then 3 else -1
  {
    var i := IndexOf(STATUS_FLOW, x);
    if x !in ["MENUNGGU", "IN_WH", "PROSES", "SELESAI"] {
      assert i == -1;
    }
  }

  /** Stepping back is stepping forward read the other way round. */
  lemma NextPrevDual(a: string, b: string)
    ensures IsPrevStatus(a, b) <==> IsNextStatus(b, a)
  {
  }

  /**
   * The moves the status machine allows, written out as a table: one step
   * along the path in either direction, or cancellation from MENUNGGU or
   * IN_WH. SELESAI and BATAL have no way out.
   */
  predicate Edge(from: Status, to: Status)
  {
    match from
    case Menunggu => to == InWh || to == Batal
    case InWh => to == Menunggu || to == Proses || to == Batal
    case Proses => to == InWh || to == Selesai
    case Selesai => false
    case Batal => false
  }

  const MSG_NOT_FOUND := "Data tidak ditemukan"
  const MSG_LOCKED := "Data tidak bisa diubah karena status sudah final"
  const MSG_SAME := "Status baru sama dengan status saat ini"
  const MSG_FINAL := "Status sudah final dan tidak bisa diubah"
  const MSG_CANCEL := "Batal hanya bisa dilakukan sampai status IN_WH"
  const MSG_INVALID := "Perubahan status tidak valid"

  /**
   * The checks `changeQueueStatus` runs on an existing entry, in its order:
   * the error it throws, or None when the change goes ahead. A change is
   * accepted exactly when the target names a status reachable by one edge.
   */
  function TransitionError(current: Status, newStatus: string): (r: Option<HttpError>)
    ensures r.Some? ==> r.value.status == 400 && r.value.details == None
  {
    var cur := Name(current);
    if cur == newStatus then Some(Fail400(MSG_SAME))
    else if cur == "SELESAI" || cur == "BATAL" then Some(Fail400(MSG_FINAL))
    else if newStatus == "BATAL" then
      (if cur != "MENUNGGU" && cur != "IN_WH" then Some(Fail400(MSG_CANCEL)) else None)
    else if !IsNextStatus(cur, newStatus) && !IsPrevStatus(cur, newStatus) then Some(Fail400(MSG_INVALID))
    else None
  }

  /**
   * The status checks accept a change exactly when the target names a status one
   * edge of the table away.
   */
  lemma TransitionAllowed(current: Status, newStatus: string)
    ensures TransitionError(current, newStatus).None? <==>
      StatusNamed(newStatus).Some? && Edge(current, StatusNamed(newStatus).value)
  {
    var target := StatusNamed(newStatus);
    if target.None? {
      RejectedUnnamed(current, newStatus);
    } else {
      AllowedNamed(current, target.value);
    }
  }

  /** A target that names no status is always refused. */
  lemma RejectedUnnamed(current: Status, newStatus: string)
    requires StatusNamed(newStatus).None?
    ensures TransitionError(current, newStatus).Some?
  {
  }

  /** A change to a named status goes ahead exactly along an edge. */
  lemma AllowedNamed(current: Status, target: Status)
    ensures TransitionError(current, Name(target)).None? <==> Edge(current, target)
  {
    match current
    case Menunggu => AllowedFromMenunggu(target);
    case InWh => AllowedFromInWh(target);
    case Proses => AllowedFromProses(target);
    case Selesai =>
    case Batal =>
  }

  lemma AllowedFromMenunggu(target: Status)
    ensures TransitionError(Menunggu, Name(target)).None? <==> Edge(Menunggu, target)
  {
  }

  lemma AllowedFromInWh(target: Status)
    ensures TransitionError(InWh, Name(target)).None? <==> Edge(InWh, target)
  {
  }

  lemma AllowedFromProses(target: Status)
    ensures TransitionError(Proses, Name(target)).None? <==> Edge(Proses, target)
  {
  }

  /**
   * Which message a refused change carries: the same status, a final
   * status, a late cancellation, or any other move off the path.
   */
  lemma TransitionMessages(current: Status, newStatus: string)
    ensures var r := TransitionError(current, newStatus);
      && (Name(current) == newStatus ==> r == Some(Fail400(MSG_SAME)))
      && (Name(current) != newStatus && IsTerminal(current) ==> r == Some(Fail400(MSG_FINAL)))
      && (current == Proses && newStatus == "BATAL" ==> r == Some(Fail400(MSG_CANCEL)))
      && (r == Some(Fail400(MSG_INVALID)) <==>
            !IsTerminal(current) && newStatus != Name(current) && newStatus != "BATAL" && r.Some?)
  {
  }

  /** The three moves singled out as illegal skips or reversals are rejected with 400. */
  lemma RejectedMoves()
    ensures TransitionError(Menunggu, "PROSES") == Some(Fail400(MSG_INVALID))
    ensures TransitionError(Proses, "MENUNGGU") == Some(Fail400(MSG_INVALID))
    ensures TransitionError(InWh, "SELESAI") == Some(Fail400(MSG_INVALID))
    ensures TransitionError(Selesai, "SELESAI") == Some(Fail400(MSG_SAME))
  {
  }

  // ---------------------------------------------------------------------
  // Entries and their audit log
  // ---------------------------------------------------------------------

  datatype LogAction = Create | Update | StatusChange

  /** A `QueueLog` row; `oldStatus`/`newStatus` are null where the source leaves them out. */
  datatype QueueLog = QueueLog(action: LogAction, userName: string, oldStatus: Option<Status>, newStatus: Option<Status>)

  /**
   * A stored queue entry. Times are epoch milliseconds; `logs` lists the
   * entry's audit rows in creation order.
   */
  datatype QueueEntry = QueueEntry(
    category: string,
    customerId: string,
    driverName: string,
    truckNumber: string,
    containerNumber: Option<string>,
    notes: Option<string>,
    status: Status,
    registerTime: int,
    inWhTime: Option<int>,
    startTime: Option<int>,
    finishTime: Option<int>,
    logs: seq<QueueLog>)

  /**
   * The body of a create request after validation. `registerTime` is the
   * instant of `new Date(registerTime)` when the body's value is truthy.
   */
  datatype QueueInput = QueueInput(
    category: string,
    customerId: string,
    driverName: string,
    truckNumber: string,
    containerNumber: Option<string>,
    notes: Option<string>,
    registerTime: Option<int>)

  /** The body of an update request: None stands for null or undefined. */
  datatype QueuePatch = QueuePatch(
    category: Option<string>,
    customerId: Option<string>,
    driverName: Option<string>,
    truckNumber: Option<string>,
    containerNumber: Option<string>,
    notes: Option<string>)

  /** The status the latest status-carrying log row records. */
  function LastStatus(logs: seq<QueueLog>): Option<Status>
  {
    if logs == [] then None
    else if logs[|logs| - 1].newStatus.Some? then logs[|logs| - 1].newStatus
    else LastStatus(logs[..|logs| - 1])
  }

  /**
   * The audit log tells a legal story: one CREATE row into MENUNGGU first,
   * every STATUS_CHANGE row leaves the status the log had reached along an
   * edge of the machine, and no UPDATE row follows a final status.
   */
  predicate LegalHistory(logs: seq<QueueLog>)
  {
    if logs == [] then true
    else
      var prefix := logs[..|logs| - 1];
      var l := logs[|logs| - 1];
      LegalHistory(prefix) &&
      match l.action
      case Create => prefix == [] && l.oldStatus == None && l.newStatus == Some(Menunggu)
      case Update =>
        prefix != [] && l.oldStatus == None && l.newStatus == None &&
        LastStatus(prefix).Some? && !IsTerminal(LastStatus(prefix).value)
      case StatusChange =>
        prefix != [] && l.oldStatus.Some? && l.newStatus.Some? &&
        l.oldStatus == LastStatus(prefix) && Edge(l.oldStatus.value, l.newStatus.value)
  }

  /**
   * What every stored entry satisfies: its log is a legal history ending in
   * its status, and its timestamps match the statuses it has passed through.
   */
  predicate WellFormed(e: QueueEntry)
  {
    && e.logs != []
    && LegalHistory(e.logs)
    && LastStatus(e.logs) == Some(e.status)
    && (e.status in {InWh, Proses, Selesai} ==> e.inWhTime.Some?)
    && (e.status in {Proses, Selesai} ==> e.startTime.Some?)
    && (e.startTime.Some? ==> e.inWhTime.Some?)
    && (e.finishTime.Some? <==> e.status == Selesai)
  }

  /**
   * `getUserName`: the `x-user-name` header when it is present and non-empty,
   * "system" otherwise, so a log row always names someone.
   */
  function GetUserName(header: Option<string>): (r: string)
    ensures Present(header) ==> r == header.value
    ensures !Present(header) ==> r == "system"
    ensures r != ""
  {
    if Present(header) then header.value else "system"
  }

  /** `field || null` on an optional text. */
  function NullIfEmpty(s: Option<string>): (r: Option<string>)
    ensures r.Some? <==> s.Some? && s.value != ""
    ensures r.Some? ==> r == s
  {
    if s.Some? && s.value != "" then s else None
  }

  /** The entry `createQueueEntry` stores, with `now` as the database default time. */
  function NewEntry(input: QueueInput, userName: string, now: int): (e: QueueEntry)
    ensures e.status == Menunggu
    ensures e.containerNumber.Some? <==> input.containerNumber.Some? && input.containerNumber.value != ""
    ensures e.notes.Some? <==> input.notes.Some? && input.notes.value != ""
    ensures e.registerTime == if input.registerTime.Some? then input.registerTime.value else now
    ensures e.inWhTime == None && e.startTime == None && e.finishTime == None
    ensures e.logs == [QueueLog(Create, userName, None, Some(Menunggu))]
    ensures WellFormed(e)
  {
    var e := QueueEntry(
      input.category, input.customerId, input.driverName, input.truckNumber,
      NullIfEmpty(input.containerNumber), NullIfEmpty(input.notes),
      Menunggu,
      if input.registerTime.Some? then input.registerTime.value else now,
      None, None, None,
      [QueueLog(Create, userName, None, Some(Menunggu))]);
    assert e.logs[..0] == [];
    e
  }

  /** `value ?? current` for an optional patch field. */
  function OrKeep<T>(patch: Option<T>, current: T): (r: T)
    ensures patch.Some? ==> r == patch.value
    ensures patch.None? ==> r == current
  {
    if patch.Some? then patch.value else current
  }

  /** What `updateQueueEntry` does to an existing entry. */
  function UpdateSpec(e: QueueEntry, patch: QueuePatch, userName: string): (r: Result<QueueEntry>)
    ensures r.Err? <==> IsTerminal(e.status)
    ensures r.Err? ==> r.error == Fail400(MSG_LOCKED)
    ensures r.Ok? ==>
      && r.value.status == e.status
      && r.value.registerTime == e.registerTime
      && r.value.inWhTime == e.inWhTime && r.value.startTime == e.startTime && r.value.finishTime == e.finishTime
      && r.value.logs == e.logs + [QueueLog(Update, userName, None, None)]
    ensures r.Ok? ==>
      && r.value.category == OrKeep(patch.category, e.category)
      && r.value.customerId == OrKeep(patch.customerId, e.customerId)
      && r.value.driverName == OrKeep(patch.driverName, e.driverName)
      && r.value.truckNumber == OrKeep(patch.truckNumber, e.truckNumber)
      && r.value.containerNumber == (if patch.containerNumber.Some? then patch.containerNumber else e.containerNumber)
      && r.value.notes == (if patch.notes.Some? then patch.notes else e.notes)
  {
    if IsTerminal(e.status) then Err(Fail400(MSG_LOCKED))
    else Ok(e.(
      category := OrKeep(patch.category, e.category),
      customerId := OrKeep(patch.customerId, e.customerId),
      driverName := OrKeep(patch.driverName, e.driverName),
      truckNumber := OrKeep(patch.truckNumber, e.truckNumber),
      containerNumber := if patch.containerNumber.Some? then patch.containerNumber else e.containerNumber,
      notes := if patch.notes.Some? then patch.notes else e.notes,
      logs := e.logs + [QueueLog(Update, userName, None, None)]))
  }

  /** `if (!field) timeUpdates.field = now`: a timestamp is written only when unset. */
  function StampIfUnset(t: Option<int>, now: int): (r: Option<int>)
    ensures r.Some?
    ensures t.Some? ==> r == t
    ensures t.None? ==> r == Some(now)
  {
    if t.Some? then t else Some(now)
  }

  /** What `changeQueueStatus` does to an existing entry at time `now`. */
  function ChangeStatusSpec(e: QueueEntry, newStatus: string, userName: string, now: int): (r: Result<QueueEntry>)
    ensures r.Ok? <==> TransitionError(e.status, newStatus).None?
    ensures r.Err? ==> r.error == TransitionError(e.status, newStatus).value
    ensures r.Ok? ==>
      && Name(r.value.status) == newStatus
      && r.value.logs == e.logs + [QueueLog(StatusChange, userName, Some(e.status), Some(r.value.status))]
      && r.value == e.(status := r.value.status, inWhTime := r.value.inWhTime, startTime := r.value.startTime,
                       finishTime := r.value.finishTime, logs := r.value.logs)
  {
    match TransitionError(e.status, newStatus)
    case Some(err) => Err(err)
    case None =>
      TransitionAllowed(e.status, newStatus);
      var target := StatusNamed(newStatus).value;
      Ok(e.(
        status := target,
        inWhTime := if target == InWh then StampIfUnset(e.inWhTime, now) else e.inWhTime,
        startTime := if target == Proses then StampIfUnset(e.startTime, now) else e.startTime,
        finishTime := if target == Selesai then StampIfUnset(e.finishTime, now) else e.finishTime,
        logs := e.logs + [QueueLog(StatusChange, userName, Some(e.status), Some(target))]))
  }

  /**
   * Timestamps are written once: a set timestamp keeps its value through any
   * change, backward moves included, and a timestamp changes only by being
   * set to `now` on entering its own status.
   */
  lemma StampsWrittenOnce(e: QueueEntry, newStatus: string, userName: string, now: int)
    requires ChangeStatusSpec(e, newStatus, userName, now).Ok?
    ensures var n := ChangeStatusSpec(e, newStatus, userName, now).value;
      && (e.inWhTime.Some? ==> n.inWhTime == e.inWhTime)
      && (e.startTime.Some? ==> n.startTime == e.startTime)
      && (e.finishTime.Some? ==> n.finishTime == e.finishTime)
      && (n.inWhTime != e.inWhTime ==> n.status == InWh && n.inWhTime == Some(now))
      && (n.startTime != e.startTime ==> n.status == Proses && n.startTime == Some(now))
      && (n.finishTime != e.finishTime ==> n.status == Selesai && n.finishTime == Some(now))
      && (n.status == InWh ==> n.inWhTime.Some?)
  {
  }

  lemma {:induction false} LastStatusAppend(logs: seq<QueueLog>, l: QueueLog)
    requires l.newStatus.Some?
    ensures LastStatus(logs + [l]) == l.newStatus
    ensures (logs + [l])[..|logs|] == logs
  {
    assert (logs + [l])[..|logs|] == logs;
  }

  /** A successful status change keeps an entry well formed. */
  lemma {:induction false} ChangeStatusPreservesWellFormed(e: QueueEntry, newStatus: string, userName: string, now: int)
    requires WellFormed(e)
    requires ChangeStatusSpec(e, newStatus, userName, now).Ok?
    ensures WellFormed(ChangeStatusSpec(e, newStatus, userName, now).value)
  {
    var n := ChangeStatusSpec(e, newStatus, userName, now).value;
    var l := QueueLog(StatusChange, userName, Some(e.status), Some(n.status));
    TransitionAllowed(e.status, newStatus);
    LastStatusAppend(e.logs, l);
    assert n.logs[..|n.logs| - 1] == e.logs;
    assert Edge(e.status, n.status);
  }

  /** A successful update keeps an entry well formed. */
  lemma {:induction false} UpdatePreservesWellFormed(e: QueueEntry, patch: QueuePatch, userName: string)
    requires WellFormed(e)
    requires UpdateSpec(e, patch, userName).Ok?
    ensures WellFormed(UpdateSpec(e, patch, userName).value)
  {
    var n := UpdateSpec(e, patch, userName).value;
    assert n.logs[..|n.logs| - 1] == e.logs;
    assert LastStatus(n.logs) == LastStatus(e.logs);
  }

  /** A final status admits neither a status change nor an edit. */
  lemma TerminalIsFinal(e: QueueEntry, newStatus: string, patch: QueuePatch, userName: string, now: int)
    requires IsTerminal(e.status)
    ensures ChangeStatusSpec(e, newStatus, userName, now).Err?
    ensures UpdateSpec(e, patch, userName).Err?
  {
  }

  /** One status-change request as the route receives it, with its time. */
  datatype StatusRequest = StatusRequest(newStatus: string, userName: string, now: int)

  /** The entry after a series of status-change requests; rejected ones leave it as it was. */
  function ApplyRequests(e: QueueEntry, reqs: seq<StatusRequest>): QueueEntry
    decreases |reqs|
  {
    if reqs == [] then e
    else
      var r := ChangeStatusSpec(e, reqs[0].newStatus, reqs[0].userName, reqs[0].now);
      ApplyRequests(if r.Ok? then r.value else e, reqs[1..])
  }

  /**
   * Over any series of requests the log only grows at its end, a set
   * timestamp never changes, and the entry stays well formed.
   */
  lemma {:induction false} RequestsPreserve(e: QueueEntry, reqs: seq<StatusRequest>)
    requires WellFormed(e)
    decreases |reqs|
    ensures var f := ApplyRequests(e, reqs);
      && e.logs <= f.logs
      && (e.inWhTime.Some? ==> f.inWhTime == e.inWhTime)
      && (e.startTime.Some? ==> f.startTime == e.startTime)
      && (e.finishTime.Some? ==> f.finishTime == e.finishTime)
      && WellFormed(f)
  {
    if reqs != [] {
      var q := reqs[0];
      var r := ChangeStatusSpec(e, q.newStatus, q.userName, q.now);
      if r.Ok? {
        ChangeStatusPreservesWellFormed(e, q.newStatus, q.userName, q.now);
        StampsWrittenOnce(e, q.newStatus, q.userName, q.now);
        RequestsPreserve(r.value, reqs[1..]);
        assert e.logs <= r.value.logs;
      } else {
        RequestsPreserve(e, reqs[1..]);
      }
    }
  }

  // ---------------------------------------------------------------------
  // The store
  // ---------------------------------------------------------------------

  /** The `queueEntry` table: entries by id, and the next id the database hands out. */
  class QueueStore {
    var entries: map<nat, QueueEntry>
    var nextId: nat

    ghost predicate Valid()
      reads this
    {
      forall id :: id in entries ==> id < nextId && WellFormed(entries[id])
    }

    constructor ()
      ensures Valid() && entries == map[]
    {
      entries := map[];
      nextId := 0;
    }

    /** `createQueueEntry`: a new entry under a fresh id. */
    method CreateEntry(input: QueueInput, userName: string, now: int) returns (id: nat, entry: QueueEntry)
      requires Valid()
      modifies this
      ensures Valid()
      ensures id !in old(entries)
      ensures entry == NewEntry(input, userName, now)
      ensures entries == old(entries)[id := entry]
    {
      id := nextId;
      var containerNumber := if input.containerNumber.Some? && input.containerNumber.value != "" then input.containerNumber else None;
      var notes := if input.notes.Some? && input.notes.value != "" then input.notes else None;
      var registerTime := now;
      if input.registerTime.Some? {
        registerTime := input.registerTime.value;
      }
      entry := QueueEntry(
        input.category, input.customerId, input.driverName, input.truckNumber,
        containerNumber, notes, Menunggu, registerTime, None, None, None,
        [QueueLog(Create, userName, None, Some(Menunggu))]);
      assert entry == NewEntry(input, userName, now);
      entries := entries[id := entry];
      nextId := nextId + 1;
    }

    /** `getQueueEntryById`: the entry, or 404. */
    method GetEntry(id: nat) returns (r: Result<QueueEntry>)
      requires Valid()
      ensures r.Ok? <==> id in entries
      ensures r.Ok? ==> r.value == entries[id] && WellFormed(r.value)
      ensures r.Err? ==> r.error == Fail404(MSG_NOT_FOUND)
    {
      if id !in entries {
        return Err(Fail404(MSG_NOT_FOUND));
      }
      r := Ok(entries[id]);
    }

    /** `updateQueueEntry`: edits a non-final entry; a rejection changes nothing. */
    method UpdateEntry(id: nat, patch: QueuePatch, userName: string) returns (r: Result<QueueEntry>)
      requires Valid()
      modifies this
      ensures Valid() && nextId == old(nextId)
      ensures id !in old(entries) ==> r == Err(Fail404(MSG_NOT_FOUND))
      ensures id in old(entries) ==> r == UpdateSpec(old(entries)[id], patch, userName)
      ensures r.Ok? ==> entries == old(entries)[id := r.value]
      ensures r.Err? ==> entries == old(entries)
    {
      if id !in entries {
        return Err(Fail404(MSG_NOT_FOUND));
      }
      var entry := entries[id];
      if entry.status == Selesai || entry.status == Batal {
        return Err(Fail400(MSG_LOCKED));
      }
      var updated := entry.(
        category := OrKeep(patch.category, entry.category),
        customerId := OrKeep(patch.customerId, entry.customerId),
        driverName := OrKeep(patch.driverName, entry.driverName),
        truckNumber := OrKeep(patch.truckNumber, entry.truckNumber),
        containerNumber := if patch.containerNumber.Some? then patch.containerNumber else entry.containerNumber,
        notes := if patch.notes.Some? then patch.notes else entry.notes,
        logs := entry.logs + [QueueLog(Update, userName, None, None)]);
      UpdatePreservesWellFormed(entry, patch, userName);
      entries := entries[id := updated];
      r := Ok(updated);
    }

    /**
     * `changeQueueStatus` at time `now`: 404 for a missing entry, the first
     * failing check's 400 otherwise, and on success the entry moved to the
     * target with one STATUS_CHANGE row appended. A rejection changes nothing.
     */
    method ChangeStatus(id: nat, newStatus: string, userName: string, now: int) returns (r: Result<QueueEntry>)
      requires Valid()
      modifies this
      ensures Valid() && nextId == old(nextId)
      ensures id !in old(entries) ==> r == Err(Fail404(MSG_NOT_FOUND))
      ensures id in old(entries) ==> r == ChangeStatusSpec(old(entries)[id], newStatus, userName, now)
      ensures r.Ok? ==> entries == old(entries)[id := r.value]
      ensures r.Err? ==> entries == old(entries)
    {
      if id !in entries {
        return Err(Fail404(MSG_NOT_FOUND));
      }
      var entry := entries[id];
      var currentStatus := Name(entry.status);
      if currentStatus == newStatus {
        return Err(Fail400(MSG_SAME));
      }
      if currentStatus == "SELESAI" || currentStatus == "BATAL" {
        return Err(Fail400(MSG_FINAL));
      }
      if newStatus == "BATAL" {
        if currentStatus != "MENUNGGU" && currentStatus != "IN_WH" {
          return Err(Fail400(MSG_CANCEL));
        }
      } else if !IsNextStatus(currentStatus, newStatus) && !IsPrevStatus(currentStatus, newStatus) {
        return Err(Fail400(MSG_INVALID));
      }
      assert TransitionError(entry.status, newStatus).None?;
      var updated := ApplyTimeUpdates(entry, newStatus, userName, now);
      ChangeStatusPreservesWellFormed(entry, newStatus, userName, now);
      entries := entries[id := updated];
      r := Ok(updated);
    }
  }

  /**
   * The accepted branch of `changeQueueStatus`: fill `timeUpdates` for the
   * timestamps the target status sets when unset, then write the status, the
   * timestamps and one STATUS_CHANGE log row.
   */
  method ApplyTimeUpdates(entry: QueueEntry, newStatus: string, userName: string, now: int) returns (updated: QueueEntry)
    requires TransitionError(entry.status, newStatus).None?
    ensures updated == ChangeStatusSpec(entry, newStatus, userName, now).value
  {
    var target := StatusNamed(newStatus).value;
    var inWhTime, startTime, finishTime := entry.inWhTime, entry.startTime, entry.finishTime;
    if newStatus == "IN_WH" && inWhTime.None? {
      inWhTime := Some(now);
    }
    if newStatus == "PROSES" && startTime.None? {
      startTime := Some(now);
    }
    if newStatus == "SELESAI" && finishTime.None? {
      finishTime := Some(now);
    }
    updated := entry.(status := target, inWhTime := inWhTime, startTime := startTime,
      finishTime := finishTime, logs := entry.logs + [QueueLog(StatusChange, userName, Some(entry.status), Some(target))]);
  }

  // ---------------------------------------------------------------------
  // Dates and the list filter
  // ---------------------------------------------------------------------

  /**
   * The day `new Date(year, month - 1, day)` denotes, kept as the numbers the
   * parser read (calendar rollover is not modelled), or the server's
   * current day.
   */
  datatype Day = DayOf(year: Numeric, month: Numeric, day: Numeric) | Today

  /**
   * A bound of the `registerTime` filter: a time of day on a local day, or
   * `new Date(text)` for a bound the client gave as text.
   */
  datatype Instant = AtTime(day: Day, hour: int, minute: int, second: int, millisecond: int) | Parsed(text: string)

  function StartOfDay(d: Day): Instant { AtTime(d, 0, 0, 0, 0) }
  function EndOfDay(d: Day): Instant { AtTime(d, 23, 59, 59, 999) }

  /**
   * `parseDateOnly`: a non-empty string of exactly three dash-separated parts
   * whose numeric values are all truthy (neither 0 nor NaN).
   */
  function ParseDateOnly(q: Option<string>): (r: Option<Day>)
    ensures r.Some? ==> Present(q) && |Split(q.value, '-')| == 3 && r.value.DayOf?
    ensures r.Some? ==> r.value.year.IsTruthy() && r.value.month.IsTruthy() && r.value.day.IsTruthy()
    ensures Present(q) && |Split(q.value, '-')| != 3 ==> r.None?
  {
    if !Present(q) then None
    else
      var parts := Split(q.value, '-');
      if |parts| != 3 then None
      else
        var year := StringToNumber(parts[0]);
        var month := StringToNumber(parts[1]);
        var day := StringToNumber(parts[2]);
        if !year.IsTruthy() || !month.IsTruthy() || !day.IsTruthy() then None
        else Some(DayOf(year, month, day))
  }

  lemma ParseThreeParts(s: string, a: string, b: string, c: string)
    requires s != "" && Split(s, '-') == [a, b, c]
    requires StringToNumber(a).IsTruthy() && StringToNumber(b).IsTruthy() && StringToNumber(c).IsTruthy()
    ensures ParseDateOnly(Some(s)) == Some(DayOf(StringToNumber(a), StringToNumber(b), StringToNumber(c)))
  {
  }

  /** Printing a day as `year-month-day` and parsing it back gives that day's numbers. */
  lemma ParseDateOnlyOfPrinted(y: nat, m: nat, d: nat)
    requires y >= 1 && m >= 1 && d >= 1
    ensures ParseDateOnly(Some(NatToString(y) + "-" + NatToString(m) + "-" + NatToString(d)))
         == Some(DayOf(Finite(y as real), Finite(m as real), Finite(d as real)))
  {
    var ys, ms, ds := NatToString(y), NatToString(m), NatToString(d);
    DigitsHaveNoDash(ys);
    DigitsHaveNoDash(ms);
    DigitsHaveNoDash(ds);
    SplitThree(ys, ms, ds);
    NumberOfDigits(ys);
    NumberOfDigits(ms);
    NumberOfDigits(ds);
    ParseThreeParts(ys + "-" + ms + "-" + ds, ys, ms, ds);
  }

  /** The query parameters the queue list reads. */
  datatype ListQuery = ListQuery(
    status: Option<string>,
    category: Option<string>,
    search: Option<string>,
    date: Option<string>,
    dateFrom: Option<string>,
    dateTo: Option<string>)

  datatype DateRange = DateRange(from: Option<Instant>, to: Option<Instant>)

  /**
   * `buildDateRange`: explicit bounds as given, a missing side open-ended;
   * without them, the whole of the parsed `date` or of today.
   */
  function BuildDateRange(q: ListQuery): (r: DateRange)
    ensures Present(q.dateFrom) || Present(q.dateTo) ==>
      && (r.from.Some? <==> Present(q.dateFrom))
      && (r.to.Some? <==> Present(q.dateTo))
      && (r.from.Some? ==> r.from.value == Parsed(q.dateFrom.value))
      && (r.to.Some? ==> r.to.value == Parsed(q.dateTo.value))
    ensures !Present(q.dateFrom) && !Present(q.dateTo) ==>
      && r.from.Some? && r.to.Some? && r.from.value.AtTime? && r.to.value.AtTime?
      && r.from.value.day == r.to.value.day
      && r.from.value.day == (if ParseDateOnly(q.date).Some? then ParseDateOnly(q.date).value else Today)
      && (r.from.value.hour, r.from.value.minute, r.from.value.second, r.from.value.millisecond) == (0, 0, 0, 0)
      && (r.to.value.hour, r.to.value.minute, r.to.value.second, r.to.value.millisecond) == (23, 59, 59, 999)
  {
    if Present(q.dateFrom) || Present(q.dateTo) then
      DateRange(
        if Present(q.dateFrom) then Some(Parsed(q.dateFrom.value)) else None,
        if Present(q.dateTo) then Some(Parsed(q.dateTo.value)) else None)
    else
      var day := match ParseDateOnly(q.date) case Some(d) => d case None => Today;
      DateRange(Some(StartOfDay(day)), Some(EndOfDay(day)))
  }

  /** `buildExportDateRange`: a range only when both ends are given and parse. */
  function BuildExportDateRange(dateFrom: Option<string>, dateTo: Option<string>): (r: Option<(Instant, Instant)>)
    ensures r.Some? <==> ParseDateOnly(dateFrom).Some? && ParseDateOnly(dateTo).Some?
    ensures r.Some? ==> (r.value.0 == StartOfDay(ParseDateOnly(dateFrom).value)
                     && r.value.1 == EndOfDay(ParseDateOnly(dateTo).value))
  {
    if !Present(dateFrom) || !Present(dateTo) then None
    else
      match (ParseDateOnly(dateFrom), ParseDateOnly(dateTo))
      case (Some(f), Some(t)) => Some((StartOfDay(f), EndOfDay(t)))
      case _ => None
  }

  /** A Prisma `contains` clause (case-insensitive matching is the database's). */
  datatype SearchClause = SearchClause(field: string, text: string)

  datatype RangeFilter = RangeFilter(gte: Option<Instant>, lte: Option<Instant>)

  /** The `where` object of `listQueueEntries`; None is an absent key. */
  datatype QueueWhere = QueueWhere(
    status: Option<string>,
    category: Option<string>,
    registerTime: Option<RangeFilter>,
    anyOf: Option<seq<SearchClause>>)

  const SEARCH_FIELDS: seq<string> := ["customer.name", "driverName", "truckNumber", "containerNumber"]

  /** The `where` construction of `listQueueEntries`. */
  method BuildListWhere(q: ListQuery) returns (w: QueueWhere)
    ensures w.status == (if Present(q.status) then q.status else None)
    ensures w.category == (if Present(q.category) then q.category else None)
    ensures w.registerTime.Some?
    ensures w.registerTime.value.gte == BuildDateRange(q).from
    ensures w.registerTime.value.lte == BuildDateRange(q).to
    ensures w.anyOf.Some? <==> Present(q.search)
    ensures w.anyOf.Some? ==> |w.anyOf.value| == |SEARCH_FIELDS|
    ensures w.anyOf.Some? ==>
      forall i :: 0 <= i < |SEARCH_FIELDS| ==> w.anyOf.value[i] == SearchClause(SEARCH_FIELDS[i], q.search.value)
  {
    var range := BuildDateRange(q);
    w := QueueWhere(None, None, None, None);
    if Present(q.status) {
      w := w.(status := q.status);
    }
    if Present(q.category) {
      w := w.(category := q.category);
    }
    if range.from.Some? || range.to.Some? {
      var filter := RangeFilter(None, None);
      if range.from.Some? {
        filter := filter.(gte := range.from);
      }
      if range.to.Some? {
        filter := filter.(lte := range.to);
      }
      w := w.(registerTime := Some(filter));
    }
    if Present(q.search) {
      var text := q.search.value;
      w := w.(anyOf := Some([
        SearchClause("customer.name", text),
        SearchClause("driverName", text),
        SearchClause("truckNumber", text),
        SearchClause("containerNumber", text)]));
    }
  }
}
