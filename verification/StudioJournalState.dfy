/** What packages/decorator-agent/src/studio-journal.ts remembers, and what its operations do to it. */
module StudioJournalState {
  import opened Outcomes
  import opened StudioContract
  import opened StudioRecords

  const STALE_LIMIT := 3

  /** The last three fields are stored with the session; the others are lost when the process ends. */
  datatype Journal = Journal(admissions: map<Id, Admission>, current: map<Id, CommandRecord>, blocked: set<Id>,
                             binding: Option<Binding>, storedAdmissions: map<Id, Admission>, storedCommands: map<Id,
                               CommandRecord>)

  function Admit(j: Journal, op: Id, card: Option<PromptAction>, writes: bool): (Journal, Option<JournalError>)
  {
    var record := Admission(j.binding, card);
    if writes then
      (j.(admissions := j.admissions[op := record], storedAdmissions := j.storedAdmissions[op := record]), None)
    else
      (j.(admissions := j.admissions - {op}), Some(NotStored))
  }

  function Discard(j: Journal, op: Id, writes: bool): Journal
  {
    j.(admissions := j.admissions - {op},
       blocked := j.blocked - {op},
       current := map id | id in j.current && j.current[id].operationId != op :: j.current[id],
       storedAdmissions := if writes then j.storedAdmissions - {op} else j.storedAdmissions)
  }

  function AdmissionOf(j: Journal, op: Id): Option<Admission>
  {
    if op in j.admissions then Some(j.admissions[op])
    else if op in j.storedAdmissions then Some(j.storedAdmissions[op])
    else None
  }

  function Cached(j: Journal, op: Id): Journal
  {
    if op !in j.admissions
    && op in j.storedAdmissions then j.(admissions := j.admissions[op := j.storedAdmissions[op]]) else j
  }

  function Get(j: Journal, id: Id): Option<CommandRecord>
  {
    if id in j.current then Some(j.current[id])
    else if id in j.storedCommands then Some(j.storedCommands[id])
    else None
  }

  predicate IsStale(r: CommandRecord)
  {
    r.result.Some? && r.result.value.Rejected? && r.result.value.code == StaleRevision
  }

  function StaleOf(j: Journal, op: Id): set<Id>
  {
    set id | id in j.current && j.current[id].operationId == op && IsStale(j.current[id])
  }

  function CountKind(edits: seq<Edit>, kind: Kind): nat
  {
    if edits == [] then 0 else CountKind(edits[1..], kind) + if edits[0].action.Kind() == kind then 1 else 0
  }

  /** Neither rejected nor cancelled before it was sent. */
  predicate IsLive(r: CommandRecord)
  {
    !r.state.StateRejected? && !r.state.StateCancelled?
  }

  predicate LiveWith(r: CommandRecord, op: Id, kind: Kind)
  {
    r.operationId == op && IsLive(r) && CountKind(r.command.payload.Edits(), kind) > 0
  }

  function AdmittedKind(admission: Option<Admission>): Option<Kind>
  {
    if admission.None? || admission.value.card.None? then None
    else if admission.value.card.value.AddAsset? then Some(AddKind)
    else Some(ReplaceKind)
  }

  /** A recommendation card admits one edit of its kind, and one that adds is not submitted twice. */
  predicate WithinAdmission(j: Journal, command: Command, op: Id)
  {
    var kind := AdmittedKind(AdmissionOf(j, op));
    kind.Some? ==>
      var count := CountKind(command.payload.Edits(), kind.value);
      && count <= 1
      && !(count > 0 && kind.value.AddKind? && exists id | id in j.current :: LiveWith(j.current[id], op, AddKind))
  }

  function Prepare(j: Journal, command: Command, op: Id): (Journal, Result<CommandRecord, JournalError>)
  {
    if op in j.blocked then
      (j, Err(Blocked))
    else if command.payload.Batch? && |StaleOf(j, op)| >= STALE_LIMIT then
      (j, Err(Blocked))
    else if Get(j, command.commandId).Some? then
      (j, Ok(Get(j, command.commandId).value))
    else
      var cached := Cached(j, op);
      if !WithinAdmission(j, command, op) then
        (cached, Err(BadRequest))
      else
        var record := CommandRecord(command, op, StatePrepared, None);
        (cached.(current := j.current[command.commandId := record]), Ok(record))
  }

  function Dispatch(j: Journal, id: Id, aborted: bool): (Journal, Result<CommandRecord, JournalError>)
  {
    if id !in j.current then
      (j, Err(Unlisted))
    else if !j.current[id].state.StatePrepared? then
      (j, Ok(j.current[id]))
    else
      var record := j.current[id].(state := if aborted then StateCancelled else StateUnknown);
      (j.(current := j.current[id := record]), Ok(record))
  }

  function Settled(r: CommandRecord, result: CommandResult): CommandRecord
  {
    r.(state := match result
                case Saved(_, _, _, _) => StateCommitted
                case Rejected(_, _) => StateRejected
                case Unknown(_) => StateUnknown,
       result := Some(result))
  }

  function Settle(j: Journal, result: CommandResult, writes: bool): (Journal, Result<CommandRecord, JournalError>)
  {
    var id := result.commandId;
    if id !in j.current then
      (j, Err(Unlisted))
    else if j.current[id].result.Some? then
      (j, Ok(j.current[id]))
    else
      var record := Settled(j.current[id], result);
      (j.(current := j.current[id := record],
          blocked := if result.Unknown?
          && record.command.payload.Batch? then j.blocked + {record.operationId} else j.blocked,
          storedCommands := if result.Saved? && writes then j.storedCommands[id := record] else j.storedCommands),
       Ok(record))
  }

  function CancelPrepared(j: Journal, op: Id): Journal
  {
    j.(current := map id | id in j.current ::
                    if j.current[id].operationId == op && j.current[id].state.StatePrepared?
                    then j.current[id].(state := StateCancelled) else j.current[id])
  }

  /** What is left when the process ends, and what a new one blocks at once: the operations it finds open. */
  function Reopened(j: Journal, open: set<Id>): Journal
  {
    j.(admissions := map[], current := map[], blocked := open)
  }

  /** `prepare` either leaves the records as they are or adds one that its limits allow. */
  ghost predicate AddsRecord(j: Journal, k: Journal, command: Command, op: Id)
  {
    && op !in j.blocked && Get(j, command.commandId).None? && WithinAdmission(j, command, op)
    && (command.payload.Batch? ==> |StaleOf(j, op)| < STALE_LIMIT)
    && k.current == j.current[command.commandId := CommandRecord(command, op, StatePrepared, None)]
  }

  lemma PrepareForm(j: Journal, command: Command, op: Id)
    ensures var k := Prepare(j, command, op).0;
            && k.blocked == j.blocked && k.storedCommands == j.storedCommands
               && k.storedAdmissions == j.storedAdmissions
            && (forall x :: AdmissionOf(k, x) == AdmissionOf(j, x))
            && (k.current == j.current || AddsRecord(j, k, command, op))
  {
  }

  /** `settle` changes at most the record it is about. */
  lemma SettleForm(j: Journal, result: CommandResult, writes: bool)
    ensures var k, id := Settle(j, result, writes).0, result.commandId;
            && k.current.Keys == j.current.Keys
            && (forall x | x in j.current && x != id :: k.current[x] == j.current[x])
            && j.blocked <= k.blocked
  {
  }
}
