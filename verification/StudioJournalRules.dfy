/** What packages/decorator-agent/src/studio-journal.ts promises of each of its operations, and what is left of a
    conversation when its process ends. */
module StudioJournalRules {
  import opened Outcomes
  import opened StudioContract
  import opened StudioRecords
  import opened StudioSession
  import B = StudioBrokerState
  import J = StudioJournalState

  // ---- Preparing ------------------------------------------------------------------------

  /** Batches of the operation that were made for an older room. */
  ghost function TurnedStale(j: JournalState, op: Id): set<Id>
  {
    set id | id in j.current && j.current[id].operationId == op
             && match j.current[id].result {
                case Some(Rejected(_, StaleRevision)) => true
                case _ => false
                }
  }

  function EditsOf(command: Command): seq<Edit>
  {
    match command.payload
    case Single(edit) => [edit]
    case Batch(edits) => edits
  }

  predicate SomeEdit(command: Command, kind: Kind)
  {
    exists i :: 0 <= i < |EditsOf(command)| && EditsOf(command)[i].action.Kind() == kind
  }

  predicate OneEditAtMost(command: Command, kind: Kind)
  {
    forall i, k | 0 <= i < k < |EditsOf(command)| ::
      !(EditsOf(command)[i].action.Kind() == kind && EditsOf(command)[k].action.Kind() == kind)
  }

  /** The operation has already added, or may still: its command was neither rejected nor cancelled. */
  ghost predicate AddsAlready(j: JournalState, op: Id)
  {
    exists id :: id in j.current && j.current[id].operationId == op && SomeEdit(j.current[id].command, AddKind)
                 && j.current[id].state !in {StateRejected, StateCancelled}
  }

  function AdmissionKnown(j: JournalState, op: Id): Option<Admission>
  {
    if op in j.admissions then Some(j.admissions[op])
    else if op in j.storedAdmissions then Some(j.storedAdmissions[op])
    else None
  }

  /** What the card of the operation admits: one add, once, or one replacement in each command. */
  ghost predicate CardAdmits(j: JournalState, command: Command, op: Id)
  {
    match AdmissionKnown(j, op)
    case Some(Admission(_, Some(AddAsset(_, _)))) =>
      OneEditAtMost(command, AddKind) && !(SomeEdit(command, AddKind) && AddsAlready(j, op))
    case Some(Admission(_, Some(ReplaceAsset(_, _, _)))) => OneEditAtMost(command, ReplaceKind)
    case _ => true
  }

  function RecordKnown(j: JournalState, id: Id): Option<CommandRecord>
  {
    if id in j.current then Some(j.current[id])
    else if id in j.storedCommands then Some(j.storedCommands[id])
    else None
  }

  /** What else the journal remembers is as before; an admission may have been read from the store. */
  ghost predicate OnlyRecordsDiffer(j: JournalState, k: JournalState)
  {
    && k.blocked == j.blocked && k.binding == j.binding && k.storedCommands == j.storedCommands
    && k.storedAdmissions == j.storedAdmissions
    && forall op :: AdmissionKnown(k, op) == AdmissionKnown(j, op)
  }

  /** `prepare`: refused for a blocked operation or after three stale batches; what is recorded is given back;
      and a new command is recorded as prepared exactly if the card admits it. */
  ghost predicate PreparedAs(j: JournalState, command: Command, op: Id, k: JournalState,
                             r: Result<CommandRecord, JournalError>)
  {
    var known := RecordKnown(j, command.commandId);
    if op in j.blocked || (command.payload.Batch? && |TurnedStale(j, op)| >= 3) then k == j && r == Err(Blocked)
    else if known.Some? then k == j && r == Ok(known.value)
    else
      && OnlyRecordsDiffer(j, k)
      && if CardAdmits(j, command, op)
         then r == Ok(CommandRecord(command, op, StatePrepared, None))
              && k.current == j.current[command.commandId := r.value]
         else r == Err(BadRequest) && k.current == j.current
  }

  lemma {:induction false} CountOne(edits: seq<Edit>, kind: Kind)
    ensures J.CountKind(edits, kind) > 0 <==> exists i :: 0 <= i < |edits| && edits[i].action.Kind() == kind
    ensures J.CountKind(edits, kind) <= 1
            <==> forall i, k | 0 <= i < k < |edits| ::
                   !(edits[i].action.Kind() == kind && edits[k].action.Kind() == kind)
  {
    if edits != [] {
      var rest := edits[1..];
      CountOne(rest, kind);
      assert forall i | 1 <= i < |edits| :: edits[i] == rest[i - 1];
      assert forall i | 0 <= i < |rest| :: rest[i] == edits[i + 1];
      if edits[0].action.Kind() == kind && J.CountKind(rest, kind) > 0 {
        var i :| 0 <= i < |rest| && rest[i].action.Kind() == kind;
        assert edits[i + 1].action.Kind() == kind;
      }
      if J.CountKind(rest, kind) > 1 {
        var i, k :| 0 <= i < k < |rest| && rest[i].action.Kind() == kind && rest[k].action.Kind() == kind;
        assert edits[i + 1].action.Kind() == kind && edits[k + 1].action.Kind() == kind;
      }
    }
  }

  lemma {:induction false} CountIs(command: Command, kind: Kind)
    ensures J.CountKind(command.payload.Edits(), kind) > 0 <==> SomeEdit(command, kind)
    ensures J.CountKind(command.payload.Edits(), kind) <= 1 <==> OneEditAtMost(command, kind)
  {
    assert command.payload.Edits() == EditsOf(command);
    CountOne(EditsOf(command), kind);
  }

  lemma {:induction false} LiveAddsAre(j: JournalState, op: Id)
    ensures (exists id | id in j.current :: J.LiveWith(j.current[id], op, AddKind)) <==> AddsAlready(j, op)
  {
    forall id | id in j.current
      ensures J.LiveWith(j.current[id], op, AddKind)
              <==> j.current[id].operationId == op && SomeEdit(j.current[id].command, AddKind)
                   && j.current[id].state !in {StateRejected, StateCancelled}
    {
      CountIs(j.current[id].command, AddKind);
    }
  }

  lemma {:induction false} CardAdmitsIs(j: JournalState, command: Command, op: Id)
    ensures J.WithinAdmission(j, command, op) <==> CardAdmits(j, command, op)
  {
    CountIs(command, AddKind);
    CountIs(command, ReplaceKind);
    LiveAddsAre(j, op);
    assert J.AdmissionOf(j, op) == AdmissionKnown(j, op);
  }

  lemma {:induction false} StaleAre(j: JournalState, op: Id)
    ensures J.StaleOf(j, op) == TurnedStale(j, op)
  {
  }

  lemma {:induction false} PreparedExactly(j: JournalState, command: Command, op: Id)
    ensures var (k, r) := J.Prepare(j, command, op); PreparedAs(j, command, op, k, r)
  {
    StaleAre(j, op);
    CardAdmitsIs(j, command, op);
  }

  // ---- Sending and settling -------------------------------------------------------------

  /** Only this record differs. */
  ghost predicate OneRecordDiffers(j: JournalState, k: JournalState, id: Id)
  {
    && k.current.Keys == j.current.Keys && k.admissions == j.admissions && k.storedAdmissions == j.storedAdmissions
    && k.binding == j.binding
    && forall x | x in j.current && x != id :: k.current[x] == j.current[x]
  }

  /** `dispatch`: a prepared command is sent, its outcome not known yet, unless the caller has given up; a command
      that is not prepared is left alone. */
  ghost predicate DispatchedAs(j: JournalState, id: Id, aborted: bool, k: JournalState,
                               r: Result<CommandRecord, JournalError>)
  {
    if id !in j.current then k == j && r == Err(Unlisted)
    else if j.current[id].state != StatePrepared then k == j && r == Ok(j.current[id])
    else
      && OneRecordDiffers(j, k, id) && r == Ok(k.current[id]) && k.blocked == j.blocked
      && k.storedCommands == j.storedCommands
      && k.current[id] == j.current[id].(state := k.current[id].state)
      && (k.current[id].state == StateCancelled <==> aborted) && (k.current[id].state == StateUnknown <==> !aborted)
  }

  lemma {:induction false} DispatchedExactly(j: JournalState, id: Id, aborted: bool)
    ensures var (k, r) := J.Dispatch(j, id, aborted); DispatchedAs(j, id, aborted, k, r)
  {
  }

  /** `settle`: the first result stays. It decides the state of the record; a batch whose outcome is unknown
      blocks its operation; and a save is stored exactly if the store can be written. */
  ghost predicate SettledAs(j: JournalState, result: CommandResult, writes: bool, k: JournalState,
                            r: Result<CommandRecord, JournalError>)
  {
    var id := result.commandId;
    if id !in j.current then k == j && r == Err(Unlisted)
    else if j.current[id].result.Some? then k == j && r == Ok(j.current[id])
    else
      var was, now := j.current[id], if id in k.current then k.current[id] else j.current[id];
      && OneRecordDiffers(j, k, id) && r == Ok(now)
      && now.command == was.command && now.operationId == was.operationId && now.result == Some(result)
      && (match result
          case Saved(_, _, _, _) => now.state == StateCommitted
          case Rejected(_, _) => now.state == StateRejected
          case Unknown(_) => now.state == StateUnknown)
      && (forall op :: op in k.blocked <==>
            op in j.blocked || (op == was.operationId && result.Unknown? && was.command.payload.Batch?))
      && (forall x | x != id :: x in k.storedCommands <==> x in j.storedCommands)
      && (forall x | x != id && x in j.storedCommands :: k.storedCommands[x] == j.storedCommands[x])
      && (if result.Saved? && writes then id in k.storedCommands && k.storedCommands[id] == now
          else k.storedCommands == j.storedCommands)
  }

  lemma {:induction false} SettledExactly(j: JournalState, result: CommandResult, writes: bool)
    ensures var (k, r) := J.Settle(j, result, writes); SettledAs(j, result, writes, k, r)
  {
  }

  // ---- Operations -----------------------------------------------------------------------

  /** `discardAdmission` forgets an operation and nothing else: its records, its card, and that it was blocked; what
      is stored of its commands stays. */
  lemma {:induction false} DiscardForgetsOne(j: JournalState, op: Id, writes: bool)
    ensures var k := J.Discard(j, op, writes);
            && (forall id :: id in k.current <==> id in j.current && j.current[id].operationId != op)
            && (forall id | id in k.current :: k.current[id] == j.current[id])
            && (forall x :: x in k.blocked <==> x in j.blocked && x != op)
            && (forall x | x != op :: AdmissionKnown(k, x) == AdmissionKnown(j, x))
            && (writes ==> AdmissionKnown(k, op).None?)
            && k.storedCommands == j.storedCommands && k.binding == j.binding
  {
  }

  /** `cancelPrepared` cancels the commands of an operation that were not sent, and nothing else. */
  lemma {:induction false} CancelsThePrepared(j: JournalState, op: Id)
    ensures var k := J.CancelPrepared(j, op);
            && k.current.Keys == j.current.Keys && k == j.(current := k.current)
            && forall id | id in j.current ::
                 if j.current[id].operationId == op && j.current[id].state == StatePrepared
                 then k.current[id].state == StateCancelled && k.current[id] == j.current[id].(state := StateCancelled)
                 else k.current[id] == j.current[id]
  {
  }

  /** `admit` records the room that the conversation is bound to with the card, if it can be stored, and leaves
      no trace of the operation in memory otherwise. */
  lemma {:induction false} AdmittedExactly(j: JournalState, op: Id, card: Option<PromptAction>, writes: bool)
    ensures var (k, error) := J.Admit(j, op, card, writes);
            && (error.None? <==> writes)
            && (writes ==> AdmissionKnown(k, op) == Some(Admission(j.binding, card))
                           && op in k.storedAdmissions && k.storedAdmissions[op] == Admission(j.binding, card))
            && (!writes ==> op !in k.admissions && k.storedAdmissions == j.storedAdmissions)
            && (forall x | x != op :: AdmissionKnown(k, x) == AdmissionKnown(j, x))
            && k.current == j.current && k.blocked == j.blocked && k.binding == j.binding
            && k.storedCommands == j.storedCommands
  {
  }

  // ---- The session ----------------------------------------------------------------------

  /** The record of one command is now `r`; of all else only the blocked operations may differ. */
  ghost predicate Becomes(s: System, t: System, id: Id, r: CommandRecord)
  {
    && id in s.journal.current && t.journal.current == s.journal.current[id := r]
    && t.journal.admissions == s.journal.admissions && t.journal.storedAdmissions == s.journal.storedAdmissions
    && t.journal.storedCommands == s.journal.storedCommands && t.journal.binding == s.journal.binding
    && t.open == s.open && t.used == s.used && t.made == s.made && t.recovered == s.recovered
  }

  /** What the broker does with a command: it takes it, and a reply is awaited; or it does not, and its outcome is
      unknown at once, which blocks the operation if it was a batch. */
  ghost predicate SentAs(s: System, was: CommandRecord, id: Id, requestId: Id, abortedLater: bool, t: System)
  {
    && t.handed == s.handed + [id]
    && match B.Send(s.broker, was.command.binding, B.AskExecute(was.command), requestId, abortedLater)
       case Ok(broker) =>
         && Becomes(s, t, id, if was.state == StatePrepared then was.(state := StateUnknown) else was)
         && t.broker == broker && t.waiting == s.waiting[requestId := id] && t.journal.blocked == s.journal.blocked
       case Err(_) =>
         && Becomes(s, t, id, if was.result.None? then was.(state := StateUnknown, result := Some(Unknown(id)))
                              else if was.state == StatePrepared then was.(state := StateUnknown) else was)
         && t.broker == s.broker && t.waiting == s.waiting
         && t.journal.blocked == if was.result.None? && was.command.payload.Batch?
                                 then s.journal.blocked + {was.operationId} else s.journal.blocked
  }

  /** `execute` up to the reply: a command goes out if its caller has it as prepared and the journal lists it as
      anything but cancelled; one that is given up before is cancelled. */
  ghost predicate ExecutedAs(s: System, record: CommandRecord, requestId: Id, aborted: bool, abortedLater: bool,
                             t: System)
  {
    var id := record.command.commandId;
    if record.state != StatePrepared || id !in s.journal.current || s.journal.current[id].state == StateCancelled then
      t == s
    else if s.journal.current[id].state == StatePrepared && aborted then
      && Becomes(s, t, id, s.journal.current[id].(state := StateCancelled)) && t.handed == s.handed
      && t.broker == s.broker && t.waiting == s.waiting && t.journal.blocked == s.journal.blocked
    else
      SentAs(s, s.journal.current[id], id, requestId, abortedLater, t)
  }

  lemma {:induction false} SentExecutes(s: System, record: CommandRecord, requestId: Id, aborted: bool,
                                        abortedLater: bool)
    requires var id := record.command.commandId;
             && record.state == StatePrepared && id in s.journal.current
             && s.journal.current[id].state != StateCancelled
             && (s.journal.current[id].state == StatePrepared ==> !aborted)
    ensures var id := record.command.commandId;
            SentAs(s, s.journal.current[id], id, requestId, abortedLater,
                   Execute(s, record, requestId, aborted, abortedLater))
  {
    var id := record.command.commandId;
    var (journal, _) := J.Dispatch(s.journal, id, aborted);
    DispatchedExactly(s.journal, id, aborted);
    SameRecord(s.journal.current, id);
    SettledExactly(journal, Unknown(id), false);
  }

  lemma {:induction false} ExecutedExactly(s: System, record: CommandRecord, requestId: Id, aborted: bool,
                                           abortedLater: bool)
    ensures ExecutedAs(s, record, requestId, aborted, abortedLater,
                       Execute(s, record, requestId, aborted, abortedLater))
  {
    var id := record.command.commandId;
    if record.state == StatePrepared && id in s.journal.current && s.journal.current[id].state != StateCancelled
       && (s.journal.current[id].state == StatePrepared ==> !aborted) {
      SentExecutes(s, record, requestId, aborted, abortedLater);
    }
  }

  lemma {:induction false} SameRecord(current: map<Id, CommandRecord>, id: Id)
    requires id in current
    ensures current[id := current[id]] == current
  {
  }

  /** How a request ended, as the record of its command tells it: a result is taken as it is, an error means that
      the command was rejected, and anything else leaves its outcome unknown. */
  predicate ToldBy(outcome: B.Outcome, id: Id, result: CommandResult)
  {
    match outcome
    case Resolved(ResultBody(told, _)) => result == told
    case Resolved(ErrorBody(code)) => result == Rejected(id, code)
    case Resolved(ContextBody(_)) => result == Unknown(id)
    case Resolved(OtherBody) => result == Unknown(id)
    case Failed(_) => result == Unknown(id)
  }

  /** A reply settles the record of the command that waits for it, and nothing else does. */
  lemma {:induction false} ReturnedExactly(s: System, rid: Id, writes: bool)
    returns (result: CommandResult, r: Result<CommandRecord, JournalError>)
    ensures var t := Next(s, Returns(rid, writes));
            if rid in s.waiting && rid in s.broker.finished then
              && ToldBy(s.broker.finished[rid], s.waiting[rid], result)
              && SettledAs(s.journal, result, writes, t.journal, r)
              && t == s.(journal := t.journal, waiting := s.waiting - {rid})
            else
              t == s
  {
    result, r := Unknown(rid), Err(Unlisted);
    if rid in s.waiting && rid in s.broker.finished {
      result := ResultOf(s.waiting[rid], s.broker.finished[rid]);
      r := J.Settle(s.journal, result, writes).1;
      SettledExactly(s.journal, result, writes);
    }
  }

  /** A command is prepared only for the room that the conversation is bound to, while that room is connected. */
  lemma {:induction false} PreparedForItsRoom(s: System, op: Id, command: Command)
    ensures var (t, r) := PrepareIn(s, op, command);
            var to := if command.binding.tabId in s.broker.connections
                      then s.broker.connections[command.binding.tabId] else |s.broker.endpoints|;
            var connected := to < |s.broker.endpoints|
              && match s.broker.endpoints[to].connection {
                 case Some(c) => c.binding.designId == command.binding.designId && c.phase == B.Online
                 case None => false
                 };
            if s.journal.binding == Some(command.binding) && connected
            then PreparedAs(s.journal, command, op, t.journal, r) && t == s.(journal := t.journal, made := t.made)
            else t == s && r == Err(BadRequest)
  {
    PreparedExactly(s.journal, command, op);
  }

  // ---- What is left of a conversation ---------------------------------------------------

  /** What is stored is also what the journal lists, as long as it lists it. */
  ghost predicate StoredMatches(j: JournalState)
  {
    forall id | id in j.storedCommands && id in j.current :: j.current[id] == j.storedCommands[id]
  }

  ghost predicate KeepsStored(j: JournalState, k: JournalState)
  {
    forall id | id in j.storedCommands :: id in k.storedCommands && k.storedCommands[id] == j.storedCommands[id]
  }

  lemma {:induction false} SettleKeepsStored(j: JournalState, result: CommandResult, writes: bool)
    requires AllHonest(j) && StoredMatches(j)
    ensures var k := J.Settle(j, result, writes).0; StoredMatches(k) && KeepsStored(j, k)
  {
    var id := result.commandId;
    if id in j.storedCommands {
      assert Honest(id, j.storedCommands[id]);
    }
  }

  lemma {:induction false} DispatchKeepsStored(j: JournalState, id: Id, aborted: bool)
    requires AllHonest(j) && StoredMatches(j)
    ensures var k := J.Dispatch(j, id, aborted).0; StoredMatches(k) && KeepsStored(j, k)
  {
  }

  lemma {:induction false} ExecuteKeepsStored(s: System, id: Id, requestId: Id, aborted: bool, abortedLater: bool)
    requires AllHonest(s.journal) && StoredMatches(s.journal)
    ensures var k := Next(s, Executes(id, requestId, aborted, abortedLater)).journal;
            StoredMatches(k) && KeepsStored(s.journal, k)
  {
    DispatchKeepsStored(s.journal, id, aborted);
    if id in s.journal.current && s.journal.current[id].state.StatePrepared? {
      assert Honest(id, s.journal.current[id]);
    }
  }

  lemma {:induction false} StepKeepsStored(s: System, e: Event)
    requires AllHonest(s.journal) && StoredMatches(s.journal)
    ensures StoredMatches(Next(s, e).journal) && KeepsStored(s.journal, Next(s, e).journal)
  {
    match e
    case Executes(id, requestId, aborted, abortedLater) => ExecuteKeepsStored(s, id, requestId, aborted, abortedLater);
    case Returns(rid, writes) =>
      if rid in s.waiting && rid in s.broker.finished {
        SettleKeepsStored(s.journal, ResultOf(s.waiting[rid], s.broker.finished[rid]), writes);
      }
    case Prepares(op, command) => J.PrepareForm(s.journal, command, op);
    case _ =>
  }

  lemma {:induction false} AlwaysStored(states: seq<System>, events: seq<Event>, owner: Owner, j: nat, k: nat)
    requires Run(states, events, owner) && j <= k < |states|
    ensures StoredMatches(states[k].journal) && KeepsStored(states[j].journal, states[k].journal)
    decreases k
  {
    if k > 0 {
      AlwaysStored(states, events, owner, if j < k then j else k - 1, k - 1);
      AlwaysInvariant(states, events, owner, k - 1);
      StepKeepsStored(states[k - 1], events[k - 1]);
    }
  }

  /** Over every run: when a save returns to a command that waits for it and the store can be written, the
      committed record is stored, and it can be read ever after, also when the process has ended: undo finds it. */
  lemma {:induction false} CommittedIsStoredForGood(states: seq<System>, events: seq<Event>, owner: Owner, j: nat,
                                                    k: nat, id: Id)
    requires Run(states, events, owner) && j < k < |states| && events[j].Returns? && events[j].writes
    requires var rid := events[j].requestId;
             && rid in states[j].waiting && states[j].waiting[rid] == id && rid in states[j].broker.finished
             && id in states[j].journal.current
             && ResultOf(id, states[j].broker.finished[rid]).Saved?
    ensures var result := ResultOf(id, states[j].broker.finished[events[j].requestId]);
            && result.commandId == id
            && RecordKnown(states[k].journal, id)
               == Some(CommandRecord(states[j].journal.current[id].command, states[j].journal.current[id].operationId,
                                     StateCommitted, Some(result)))
            && id in states[k].journal.storedCommands
  {
    var rid := events[j].requestId;
    AlwaysInvariant(states, events, owner, j);
    var command := ReturnedResult(states[j], rid);
    assert Undecided(states[j], rid);
    SettledExactly(states[j].journal, ResultOf(id, states[j].broker.finished[rid]), true);
    AlwaysStored(states, events, owner, j + 1, k);
  }

  /** And only so is anything stored. */
  lemma {:induction false} StoredByItsReturn(s: System, e: Event, id: Id)
    requires id !in s.journal.storedCommands && id in Next(s, e).journal.storedCommands && AllHonest(s.journal)
    ensures e.Returns? && e.writes && e.requestId in s.waiting && e.requestId in s.broker.finished
            && ResultOf(s.waiting[e.requestId], s.broker.finished[e.requestId]).Saved?
  {
    if e.Prepares? {
      J.PrepareForm(s.journal, e.command, e.operationId);
    }
  }
}
