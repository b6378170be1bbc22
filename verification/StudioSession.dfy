/** One conversation: packages/decorator-agent/src/studio-session.ts over the journal and the broker, with
    the admission, abort and recovery of decorator-session.ts. Each step is what happens between two awaits. */
module StudioSession {
  import opened Outcomes
  import opened StudioContract
  import opened StudioRecords
  import opened StudioReplies
  import opened StudioBrokerState
  import J = StudioJournalState

  type JournalState = J.Journal

  /** `open` are the operations that the lane has accepted and not yet settled, `used` all there ever were.
      `waiting` maps the requests on which an `execute` waits to their commands. History: `made` are the
      commands ever prepared, `handed` those handed to the broker, in order, and `recovered` the operations
      that were open when the process ended. */
  datatype System = System(journal: JournalState, broker: State, open: set<Id>, used: set<Id>, waiting: map<Id, Id>,
                           made: set<Id>, handed: seq<Id>, recovered: set<Id>)

  datatype Event =
    | Prompts(operationId: Id, card: Option<PromptAction>, writes: bool, accepted: bool)
    | Prepares(operationId: Id, command: Command)
    | Executes(commandId: Id, requestId: Id, aborted: bool, abortedLater: bool)
    | Brokered(step: Step)
    | Returns(requestId: Id, writes: bool)
    | Aborts(operationId: Id)
    | Finishes(operationId: Id, closing: bool, writes: bool)
    | Binds(binding: Option<Binding>)
    | Restarts(anew: bool)

  /** The invocation that a command ID names belongs to one operation. */
  type Owner = Id -> Id

  /** `prepare`: the conversation must still be bound to the room, and the room connected. */
  function PrepareIn(s: System, op: Id, command: Command): (System, Result<CommandRecord, JournalError>)
  {
    if s.journal.binding != Some(command.binding) || !IsOnline(s.broker, command.binding) then
      (s, Err(BadRequest))
    else
      var (journal, r) := J.Prepare(s.journal, command, op);
      (s.(journal := journal,
          made := if command.commandId in journal.current then s.made + {command.commandId} else s.made), r)
  }

  /** `broker.getState(binding).phase === "ready"` */
  predicate IsOnline(b: State, binding: Binding)
  {
    && binding.tabId in b.connections && b.connections[binding.tabId] < |b.endpoints|
    && var c := b.endpoints[b.connections[binding.tabId]].connection;
       c.Some? && c.value.binding.designId == binding.designId && c.value.phase.Online?
  }

  /** `execute`, up to the point where it waits for a reply, with whatever record the caller holds. */
  function Execute(s: System, record: CommandRecord, requestId: Id, aborted: bool, abortedLater: bool): System
  {
    var id := record.command.commandId;
    if !record.state.StatePrepared? then
      s
    else
      var (journal, dispatched) := J.Dispatch(s.journal, id, aborted);
      if dispatched.Err? then
        s
      else if dispatched.value.state.StateCancelled? then
        s.(journal := journal)
      else
        var sent := Send(s.broker, dispatched.value.command.binding, AskExecute(dispatched.value.command), requestId,
                         abortedLater);
        var handed := s.(journal := journal, handed := s.handed + [id]);
        if sent.Ok? then
          handed.(broker := sent.value, waiting := s.waiting[requestId := id])
        else
          handed.(journal := J.Settle(journal, Unknown(id), false).0)
  }

  /** What `broker.execute` returns for a request that ended like this, or what `execute` makes of its failure. */
  function ResultOf(id: Id, outcome: Outcome): CommandResult
  {
    match outcome
    case Resolved(ResultBody(result, _)) => result
    case Resolved(ErrorBody(code)) => Rejected(id, code)
    case _ => Unknown(id)
  }

  function Next(s: System, e: Event): System
  {
    match e
    case Prompts(op, card, writes, accepted) =>
      var (journal, error) := J.Admit(s.journal, op, card, writes);
      var started := s.(used := s.used + {op});
      if error.Some? then started.(journal := journal)
      else if accepted then started.(journal := journal, open := s.open + {op})
      else started.(journal := J.Discard(journal, op, true))
    case Prepares(op, command) => PrepareIn(s, op, command).0
    case Executes(id, requestId, aborted, abortedLater) =>
      if id in s.journal.current then Execute(s, s.journal.current[id], requestId, aborted, abortedLater) else s
    case Brokered(step) => s.(broker := StudioBrokerState.Next(s.broker, step))
    case Returns(requestId, writes) =>
      if requestId in s.waiting && requestId in s.broker.finished then
        var result := ResultOf(s.waiting[requestId], s.broker.finished[requestId]);
        s.(journal := J.Settle(s.journal, result, writes).0, waiting := s.waiting - {requestId})
      else s
    case Aborts(op) => s.(journal := J.CancelPrepared(s.journal, op))
    case Finishes(op, closing, writes) =>
      s.(open := s.open - {op}, journal := if closing then s.journal else J.Discard(s.journal, op, writes))
    case Binds(binding) => s.(journal := s.journal.(binding := binding))
    case Restarts(anew) =>
      s.(journal := J.Reopened(s.journal, s.open), waiting := map[], recovered := s.recovered + s.open,
         broker := if anew then INITIAL else s.broker)
  }

  /** When an event can happen: operation and request IDs are new, and tools run only for open operations,
      one invocation for each command ID. */
  predicate Enabled(s: System, e: Event, owner: Owner)
  {
    match e
    case Prompts(op, _, _, _) => op !in s.used
    case Prepares(op, command) => op in s.open && owner(command.commandId) == op
    case Executes(id, requestId, _, _) => owner(id) in s.open && NewId(s.broker, requestId)
    case Brokered(step) => step.Sends? ==> NewId(s.broker, step.requestId)
    case _ => true
  }

  // ---- What holds in every reachable state ------------------------------------------

  /** The state of a record and its result tell the same story; what is committed was checked. */
  predicate Honest(id: Id, r: CommandRecord)
  {
    && r.command.commandId == id
    && match r.state
       case StatePrepared => r.result.None?
       case StateCancelled => r.result.None?
       case StateUnknown => r.result.Some? ==> r.result.value.Unknown?
       case StateRejected => r.result.Some? && r.result.value.Rejected?
       case StateCommitted =>
         && r.result.Some? && r.result.value.Saved?
         && RefuseResult(r.command.binding.designId, r.command, r.result.value).None?
  }

  ghost predicate AllHonest(j: JournalState)
  {
    && (forall id | id in j.current :: Honest(id, j.current[id]))
    && (forall id | id in j.storedCommands ::
          Honest(id, j.storedCommands[id]) && j.storedCommands[id].state.StateCommitted?)
  }

  /** Records belong to operations that may have any; a recovered operation has none and gets none. */
  ghost predicate WellOwned(s: System, owner: Owner)
  {
    && s.open <= s.used && s.recovered <= s.used
    && (forall id | id in s.journal.current :: owner(id) == s.journal.current[id].operationId && Owned(s, id, owner))
    && (forall id | id in s.made :: owner(id) in s.used && (id in s.journal.current || Over(s, owner(id))))
    && (forall op | op in s.recovered :: Over(s, op))
  }

  predicate Owned(s: System, id: Id, owner: Owner)
  {
    id in s.made && owner(id) !in s.recovered
  }

  /** No command of this operation can be prepared any more. */
  predicate Over(s: System, op: Id)
  {
    op !in s.open || (op in s.journal.blocked && op in s.recovered)
  }

  ghost predicate HandedOnce(s: System)
  {
    && (forall i, j | 0 <= i < j < |s.handed| :: s.handed[i] != s.handed[j])
    && (forall i | 0 <= i < |s.handed| :: IsHanded(s, s.handed[i]))
  }

  predicate IsHanded(s: System, id: Id)
  {
    id in s.made
    && (id in s.journal.current ==>
          !s.journal.current[id].state.StatePrepared? && !s.journal.current[id].state.StateCancelled?)
  }

  /** Every wait is for a request that carries its command, whose outcome is not known yet. */
  ghost predicate WaitsMatch(s: System)
  {
    && (forall rid | rid in s.waiting :: exists i: nat :: i < |s.broker.sent| && Carries(s, rid, i))
    && (forall rid | rid in s.waiting :: s.waiting[rid] in s.made && Undecided(s, rid))
    && (forall a, b | a in s.waiting && b in s.waiting && a != b :: s.waiting[a] != s.waiting[b])
  }

  predicate Carries(s: System, rid: Id, i: nat)
    requires rid in s.waiting && i < |s.broker.sent|
  {
    var request := s.broker.sent[i].request;
    && request.requestId == rid && request.ask.AskExecute? && request.ask.command.commandId == s.waiting[rid]
    && request.binding == request.ask.command.binding
    && (s.waiting[rid] in s.journal.current ==> s.journal.current[s.waiting[rid]].command == request.ask.command)
  }

  predicate Undecided(s: System, rid: Id)
    requires rid in s.waiting
  {
    s.waiting[rid] in s.journal.current ==>
      var r := s.journal.current[s.waiting[rid]]; r.state.StateUnknown? && r.result.None?
  }

  ghost predicate Invariant(s: System, owner: Owner)
  {
    Sound(s.broker, {}) && AllHonest(s.journal) && WellOwned(s, owner) && HandedOnce(s) && WaitsMatch(s)
  }

  // ---- Preservation -----------------------------------------------------------------

  /** What a step may do to the records that matter to the rest of the state: forget some, or advance
      some that no request waits for, never back to prepared. */
  ghost predicate Advances(s: System, t: System)
  {
    && t.waiting == s.waiting && t.broker == s.broker && t.handed == s.handed && t.made == s.made
    && forall id | id in t.journal.current :: id in s.journal.current && AdvancedRecord(s, id, t.journal.current[id])
  }

  predicate AdvancedRecord(s: System, id: Id, r: CommandRecord)
    requires id in s.journal.current
  {
    var was := s.journal.current[id];
    r == was || (was.state.StatePrepared? && r == was.(state := StateCancelled))
  }

  lemma {:induction false} AdvancesKeeps(s: System, t: System)
    requires HandedOnce(s) && WaitsMatch(s) && Advances(s, t)
    ensures HandedOnce(t) && WaitsMatch(t)
  {
    forall i | 0 <= i < |t.handed| ensures IsHanded(t, t.handed[i]) {
      assert IsHanded(s, s.handed[i]);
    }
    forall rid | rid in t.waiting ensures exists i: nat :: i < |t.broker.sent| && Carries(t, rid, i) {
      var i: nat :| i < |s.broker.sent| && Carries(s, rid, i);
      assert Carries(t, rid, i);
    }
    forall rid | rid in t.waiting ensures Undecided(t, rid) {
      assert Undecided(s, rid);
    }
  }

  lemma {:induction false} AdvancesHonest(s: System, t: System)
    requires AllHonest(s.journal) && Advances(s, t) && t.journal.storedCommands == s.journal.storedCommands
    ensures AllHonest(t.journal)
  {
    forall id | id in t.journal.current ensures Honest(id, t.journal.current[id]) {
      assert Honest(id, s.journal.current[id]) && AdvancedRecord(s, id, t.journal.current[id]);
    }
  }

  lemma {:induction false} PromptsKeeps(s: System, e: Event, owner: Owner)
    requires Invariant(s, owner) && Enabled(s, e, owner) && e.Prompts?
    ensures Invariant(Next(s, e), owner)
  {
    LosesKeeps(s, e);
    LosesOwned(s, e, owner);
  }

  lemma {:induction false} FinishesKeeps(s: System, e: Event, owner: Owner)
    requires Invariant(s, owner) && Enabled(s, e, owner) && e.Finishes?
    ensures Invariant(Next(s, e), owner)
  {
    LosesKeeps(s, e);
    LosesOwned(s, e, owner);
  }

  lemma {:induction false} LosesKeeps(s: System, e: Event)
    requires AllHonest(s.journal) && HandedOnce(s) && WaitsMatch(s) && (e.Prompts? || e.Finishes?)
    ensures AllHonest(Next(s, e).journal) && HandedOnce(Next(s, e)) && WaitsMatch(Next(s, e))
  {
    LosesAdvances(s, e);
    AdvancesKeeps(s, Next(s, e));
    AdvancesHonest(s, Next(s, e));
  }

  lemma {:induction false} LosesAdvances(s: System, e: Event)
    requires e.Prompts? || e.Finishes?
    ensures Advances(s, Next(s, e)) && Next(s, e).journal.storedCommands == s.journal.storedCommands
  {
  }

  lemma LosesOwned(s: System, e: Event, owner: Owner)
    requires WellOwned(s, owner) && Enabled(s, e, owner) && (e.Prompts? || e.Finishes?)
    ensures WellOwned(Next(s, e), owner)
  {
  }

  lemma {:induction false} AbortsKeeps(s: System, e: Event, owner: Owner)
    requires Invariant(s, owner) && Enabled(s, e, owner) && e.Aborts?
    ensures Invariant(Next(s, e), owner)
  {
    CancelAdvances(s, Next(s, e), e.operationId);
    AdvancesKeeps(s, Next(s, e));
    AdvancesHonest(s, Next(s, e));
    CancelOwned(s, Next(s, e), e.operationId, owner);
  }

  lemma {:induction false} CancelAdvances(s: System, t: System, op: Id)
    requires t == s.(journal := J.CancelPrepared(s.journal, op))
    ensures Advances(s, t)
  {
  }

  lemma {:induction false} CancelOwned(s: System, t: System, op: Id, owner: Owner)
    requires WellOwned(s, owner) && t == s.(journal := J.CancelPrepared(s.journal, op))
    ensures WellOwned(t, owner)
  {
    forall id | id in t.journal.current ensures t.journal.current[id].operationId == owner(id) && Owned(t, id, owner) {
      assert Owned(s, id, owner);
    }
  }

  lemma {:induction false} RestartsKeeps(s: System, e: Event, owner: Owner)
    requires Invariant(s, owner) && Enabled(s, e, owner) && e.Restarts?
    ensures Invariant(Next(s, e), owner)
  {
    var t := Next(s, e);
    forall i | 0 <= i < |t.handed| ensures IsHanded(t, t.handed[i]) {
      assert IsHanded(s, s.handed[i]);
    }
  }

  lemma {:induction false} BrokeredKeeps(s: System, e: Event, owner: Owner)
    requires Invariant(s, owner) && Enabled(s, e, owner) && e.Brokered?
    ensures Invariant(Next(s, e), owner)
  {
    StepKeeps(s.broker, e.step);
    BrokerGrows(s, Next(s, e));
  }

  lemma {:induction false} BrokerGrows(s: System, t: System)
    requires HandedOnce(s) && WaitsMatch(s) && s.broker.sent <= t.broker.sent && t == s.(broker := t.broker)
    ensures HandedOnce(t) && WaitsMatch(t)
  {
    forall i | 0 <= i < |t.handed| ensures IsHanded(t, t.handed[i]) {
      assert IsHanded(s, s.handed[i]);
    }
    forall rid | rid in t.waiting ensures exists i: nat :: i < |t.broker.sent| && Carries(t, rid, i) {
      var i: nat :| i < |s.broker.sent| && Carries(s, rid, i);
      assert Carries(t, rid, i);
    }
    forall rid | rid in t.waiting ensures Undecided(t, rid) {
      assert Undecided(s, rid);
    }
  }

  /** Preparing leaves the records as they are, or adds the one of a command that was never prepared before. */
  ghost predicate Prepared(s: System, t: System, command: Command, op: Id)
  {
    && t.journal.blocked == s.journal.blocked && t.journal.storedCommands == s.journal.storedCommands
    && (|| (t == s.(journal := t.journal) && t.journal.current == s.journal.current)
        || (t == s.(journal := t.journal, made := s.made + {command.commandId})
            && op !in s.journal.blocked && command.commandId !in s.journal.current
            && t.journal.current
               == s.journal.current[command.commandId := CommandRecord(command, op, StatePrepared, None)]))
  }

  lemma {:induction false} PreparedForm(s: System, command: Command, op: Id)
    requires forall id | id in s.journal.current :: id in s.made
    ensures Prepared(s, PrepareIn(s, op, command).0, command, op)
  {
    J.PrepareForm(s.journal, command, op);
    if command.commandId in s.journal.current {
      assert s.made + {command.commandId} == s.made;
    }
  }

  lemma {:induction false} PreparesKeeps(s: System, e: Event, owner: Owner)
    requires Invariant(s, owner) && Enabled(s, e, owner) && e.Prepares?
    ensures Invariant(Next(s, e), owner)
  {
    forall id | id in s.journal.current ensures id in s.made {
      assert Owned(s, id, owner);
    }
    PreparedForm(s, e.command, e.operationId);
    PreparedKeeps(s, PrepareIn(s, e.operationId, e.command).0, e.command, e.operationId, owner);
  }

  lemma {:induction false} PreparedKeeps(s: System, t: System, command: Command, op: Id, owner: Owner)
    requires Invariant(s, owner) && op in s.open && owner(command.commandId) == op && Prepared(s, t, command, op)
    ensures Invariant(t, owner)
  {
    if t.journal.current == s.journal.current {
      AdvancesKeeps(s, t);
    } else {
      assert command.commandId !in s.made;
      AddsKeeps(s, t, command, op, owner);
    }
  }

  lemma {:induction false} AddsKeeps(s: System, t: System, command: Command, op: Id, owner: Owner)
    requires HandedOnce(s) && WaitsMatch(s) && WellOwned(s, owner)
    requires op in s.open && owner(command.commandId) == op && op !in s.journal.blocked && command.commandId !in s.made
    requires t == s.(journal := t.journal, made := s.made + {command.commandId})
             && t.journal.blocked == s.journal.blocked
    requires t.journal.current
             == s.journal.current[command.commandId := CommandRecord(command, op, StatePrepared, None)]
    ensures HandedOnce(t) && WaitsMatch(t) && WellOwned(t, owner)
  {
    forall i | 0 <= i < |t.handed| ensures IsHanded(t, t.handed[i]) {
      assert IsHanded(s, s.handed[i]);
    }
    forall rid | rid in t.waiting ensures exists i: nat :: i < |t.broker.sent| && Carries(t, rid, i) {
      var i: nat :| i < |s.broker.sent| && Carries(s, rid, i);
      assert Carries(t, rid, i);
    }
    forall rid | rid in t.waiting ensures Undecided(t, rid) {
      assert Undecided(s, rid);
    }
  }

  /** The record that a command has after it is handed over, or instead is cancelled or fails at once. */
  ghost predicate Moves(s: System, t: System, id: Id, r: CommandRecord)
  {
    && id in s.journal.current && s.journal.current[id].state.StatePrepared? && !r.state.StatePrepared?
    && r.command == s.journal.current[id].command && r.operationId == s.journal.current[id].operationId
    && t.journal.current == s.journal.current[id := r] && s.journal.blocked <= t.journal.blocked
    && t.journal.storedCommands == s.journal.storedCommands
    && t.open == s.open && t.used == s.used && t.recovered == s.recovered && t.made == s.made
  }

  /** What `execute` does with the journal's own record of a command. */
  lemma {:induction false} ExecuteForm(s: System, id: Id, requestId: Id, aborted: bool, abortedLater: bool)
    returns (r: CommandRecord)
    requires id in s.journal.current && s.journal.current[id].command.commandId == id
             && s.journal.current[id].state.StatePrepared?
    ensures var t, was := Execute(s, s.journal.current[id], requestId, aborted, abortedLater), s.journal.current[id];
            var sent := Send(s.broker, was.command.binding, AskExecute(was.command), requestId, abortedLater);
            && Moves(s, t, id, r)
            && (if aborted then
                  r == was.(state := StateCancelled) && t.handed == s.handed && t.waiting == s.waiting
                  && t.broker == s.broker
                else if sent.Ok? then
                  && r == was.(state := StateUnknown) && t.handed == s.handed + [id]
                  && t.waiting == s.waiting[requestId := id] && t.broker == sent.value
                     && t.journal.blocked == s.journal.blocked
                else
                  && r == was.(state := StateUnknown, result := if was.result.Some? then was.result
                               else Some(Unknown(id)))
                  && t.handed == s.handed + [id] && t.waiting == s.waiting && t.broker == s.broker
                  && (was.result.None? && was.command.payload.Batch? ==> was.operationId in t.journal.blocked))
  {
    r := Execute(s, s.journal.current[id], requestId, aborted, abortedLater).journal.current[id];
  }

  lemma {:induction false} MovesKeeps(s: System, t: System, id: Id, r: CommandRecord, owner: Owner)
    requires WellOwned(s, owner) && AllHonest(s.journal) && Moves(s, t, id, r) && Honest(id, r)
    ensures WellOwned(t, owner) && AllHonest(t.journal)
  {
    assert Honest(id, s.journal.current[id]);
  }

  lemma {:induction false} HandsOver(s: System, t: System, id: Id, r: CommandRecord)
    requires HandedOnce(s) && Moves(s, t, id, r) && id in s.made
    requires t.handed == s.handed || (t.handed == s.handed + [id] && !r.state.StateCancelled?)
    ensures HandedOnce(t)
  {
    forall i | 0 <= i < |s.handed| ensures IsHanded(t, s.handed[i]) && s.handed[i] != id {
      assert IsHanded(s, s.handed[i]);
    }
    assert t.handed != s.handed ==> IsHanded(t, id);
  }

  lemma {:induction false} MovesWaits(s: System, t: System, id: Id, r: CommandRecord)
    requires WaitsMatch(s) && Moves(s, t, id, r) && t.waiting == s.waiting && t.broker == s.broker
    ensures WaitsMatch(t)
  {
    forall rid | rid in t.waiting ensures exists i: nat :: i < |t.broker.sent| && Carries(t, rid, i) {
      var i: nat :| i < |s.broker.sent| && Carries(s, rid, i);
      assert Carries(t, rid, i);
    }
    forall rid | rid in t.waiting ensures Undecided(t, rid) {
      assert Undecided(s, rid);
    }
  }

  /** The request that now carries the command. */
  lemma {:induction false} SentCarries(s: System, t: System, id: Id, r: CommandRecord, requestId: Id,
                                       abortedLater: bool)
    requires Routed(s.broker) && Moves(s, t, id, r) && r.command.commandId == id
    requires Send(s.broker, r.command.binding, AskExecute(r.command), requestId, abortedLater) == Ok(t.broker)
    requires requestId in t.waiting && t.waiting[requestId] == id
    ensures |t.broker.sent| > |s.broker.sent| && s.broker.sent <= t.broker.sent
            && Carries(t, requestId, |s.broker.sent|)
  {
    var p := SendForm(s.broker, r.command.binding, AskExecute(r.command), requestId, abortedLater);
    SendBinding(s.broker, r.command.binding, AskExecute(r.command), requestId, abortedLater);
    assert t.broker.sent[|s.broker.sent|] == p;
  }

  lemma {:induction false} WaitingElsewhere(s: System, id: Id, requestId: Id)
    requires WaitsMatch(s) && NewId(s.broker, requestId) && id in s.journal.current
             && s.journal.current[id].state.StatePrepared?
    ensures forall rid | rid in s.waiting :: rid != requestId && s.waiting[rid] != id
  {
    forall rid | rid in s.waiting ensures rid != requestId && s.waiting[rid] != id {
      var i: nat :| i < |s.broker.sent| && Carries(s, rid, i);
      assert SentId(s.broker.sent, i) == rid;
      assert Undecided(s, rid);
    }
  }

  lemma {:induction false} SentWaits(s: System, t: System, id: Id, r: CommandRecord, requestId: Id, abortedLater: bool)
    requires Routed(s.broker) && WaitsMatch(s) && Moves(s, t, id, r) && id in s.made && NewId(s.broker, requestId)
    requires r.command.commandId == id && r.state.StateUnknown? && r.result.None?
    requires Send(s.broker, r.command.binding, AskExecute(r.command), requestId, abortedLater) == Ok(t.broker)
    requires t.waiting == s.waiting[requestId := id]
    ensures WaitsMatch(t)
  {
    SentCarries(s, t, id, r, requestId, abortedLater);
    WaitingElsewhere(s, id, requestId);
    StillCarried(s, t, id, r, requestId);
    StillUndecided(s, t, id, r, requestId);
    WaitsApart(s, t, id, requestId);
  }

  lemma {:induction false} StillUndecided(s: System, t: System, id: Id, r: CommandRecord, requestId: Id)
    requires Moves(s, t, id, r) && id in s.made && r.state.StateUnknown? && r.result.None?
    requires forall rid | rid in s.waiting :: s.waiting[rid] in s.made && Undecided(s, rid)
    requires t.waiting == s.waiting[requestId := id]
    ensures forall rid | rid in t.waiting :: t.waiting[rid] in t.made && Undecided(t, rid)
  {
    forall rid | rid in t.waiting ensures t.waiting[rid] in t.made && Undecided(t, rid) {
      assert rid != requestId ==> Undecided(s, rid);
    }
  }

  lemma {:induction false} WaitsApart(s: System, t: System, id: Id, requestId: Id)
    requires forall a, b | a in s.waiting && b in s.waiting && a != b :: s.waiting[a] != s.waiting[b]
    requires t.waiting == s.waiting[requestId := id] && forall rid | rid in s.waiting :: s.waiting[rid] != id
    ensures forall a, b | a in t.waiting && b in t.waiting && a != b :: t.waiting[a] != t.waiting[b]
  {
  }

  lemma {:induction false} StillCarried(s: System, t: System, id: Id, r: CommandRecord, requestId: Id)
    requires WaitsMatch(s) && Moves(s, t, id, r) && s.broker.sent <= t.broker.sent
             && t.waiting == s.waiting[requestId := id]
    requires |t.broker.sent| > |s.broker.sent| && Carries(t, requestId, |s.broker.sent|)
    ensures forall rid | rid in t.waiting :: exists i: nat :: i < |t.broker.sent| && Carries(t, rid, i)
  {
    forall rid | rid in t.waiting ensures exists i: nat :: i < |t.broker.sent| && Carries(t, rid, i) {
      if rid != requestId {
        var i: nat :| i < |s.broker.sent| && Carries(s, rid, i);
        assert t.broker.sent[i] == s.broker.sent[i];
        assert Carries(t, rid, i);
      }
    }
  }

  lemma {:induction false} ExecutesKeeps(s: System, e: Event, owner: Owner)
    requires Invariant(s, owner) && Enabled(s, e, owner) && e.Executes?
    ensures Invariant(Next(s, e), owner)
  {
    var t, id := Next(s, e), e.commandId;
    if id in s.journal.current && s.journal.current[id].state.StatePrepared? {
      assert Honest(id, s.journal.current[id]) && Owned(s, id, owner);
      var r := ExecuteForm(s, id, e.requestId, e.aborted, e.abortedLater);
      MovesKeeps(s, t, id, r, owner);
      HandsOver(s, t, id, r);
      if t.waiting == s.waiting && t.broker == s.broker {
        MovesWaits(s, t, id, r);
      } else {
        SentWaits(s, t, id, r, e.requestId, e.abortedLater);
        SendKeeps(s.broker, r.command.binding, AskExecute(r.command), e.requestId, e.abortedLater);
      }
    }
  }

  /** The result that an ended request yields for its command. */
  lemma {:induction false} ReturnedResult(s: System, requestId: Id) returns (command: Command)
    requires Sound(s.broker, {}) && WaitsMatch(s) && requestId in s.waiting && requestId in s.broker.finished
    ensures var id := s.waiting[requestId];
            var result := ResultOf(id, s.broker.finished[requestId]);
            && command.commandId == id && result.commandId == id
            && (id in s.journal.current ==> s.journal.current[id].command == command)
            && (result.Saved? ==> RefuseResult(command.binding.designId, command, result).None?)
  {
    var i: nat :| i < |s.broker.sent| && Carries(s, requestId, i);
    assert SentId(s.broker.sent, i) == requestId;
    assert Believed(s.broker.sent[i].request, s.broker.finished[requestId]);
    command := s.broker.sent[i].request.ask.command;
  }

  lemma {:induction false} ReturnsKeeps(s: System, e: Event, owner: Owner)
    requires Invariant(s, owner) && Enabled(s, e, owner) && e.Returns?
    ensures Invariant(Next(s, e), owner)
  {
    if e.requestId in s.waiting && e.requestId in s.broker.finished {
      var command := ReturnedResult(s, e.requestId);
      var id := s.waiting[e.requestId];
      var result := ResultOf(id, s.broker.finished[e.requestId]);
      assert Undecided(s, e.requestId);
      SettleKeeps(s, Next(s, e), e.requestId, result, e.writes, owner);
    }
  }

  lemma {:induction false} SettleKeeps(s: System, t: System, rid: Id, result: CommandResult, writes: bool, owner: Owner)
    requires AllHonest(s.journal) && WellOwned(s, owner) && HandedOnce(s) && WaitsMatch(s)
    requires rid in s.waiting && result.commandId == s.waiting[rid] && Undecided(s, rid)
    requires s.waiting[rid] in s.journal.current && result.Saved? ==>
               var command := s.journal.current[s.waiting[rid]].command;
               RefuseResult(command.binding.designId, command, result).None?
    requires t == s.(journal := J.Settle(s.journal, result, writes).0, waiting := s.waiting - {rid})
    ensures AllHonest(t.journal) && WellOwned(t, owner) && HandedOnce(t) && WaitsMatch(t)
  {
    SettleHonest(s.journal, result, writes);
    J.SettleForm(s.journal, result, writes);
    OtherWaits(s, t, rid);
    forall i | 0 <= i < |t.handed| ensures IsHanded(t, t.handed[i]) {
      assert IsHanded(s, s.handed[i]);
    }
  }

  lemma SettleHonest(j: JournalState, result: CommandResult, writes: bool)
    requires AllHonest(j)
    requires result.commandId in j.current && result.Saved? ==>
               var command := j.current[result.commandId].command;
               RefuseResult(command.binding.designId, command, result).None?
    ensures AllHonest(J.Settle(j, result, writes).0)
  {
  }

  /** One wait is over; the records that the others wait for are as before. */
  lemma {:induction false} OtherWaits(s: System, t: System, rid: Id)
    requires WaitsMatch(s) && rid in s.waiting && t.waiting == s.waiting - {rid}
    requires t.broker == s.broker && t.made == s.made
    requires forall id | id in t.journal.current && id != s.waiting[rid] ::
               id in s.journal.current && t.journal.current[id] == s.journal.current[id]
    ensures WaitsMatch(t)
  {
    forall other | other in t.waiting ensures exists i: nat :: i < |t.broker.sent| && Carries(t, other, i) {
      var i: nat :| i < |s.broker.sent| && Carries(s, other, i);
      assert Carries(t, other, i);
    }
    forall other | other in t.waiting ensures Undecided(t, other) {
      assert Undecided(s, other);
    }
  }

  lemma {:induction false} BindsKeeps(s: System, e: Event, owner: Owner)
    requires Invariant(s, owner) && Enabled(s, e, owner) && e.Binds?
    ensures Invariant(Next(s, e), owner)
  {
    BoundKeeps(s, Next(s, e), e.binding, owner);
  }

  lemma {:induction false} BoundKeeps(s: System, t: System, binding: Option<Binding>, owner: Owner)
    requires Invariant(s, owner) && t == s.(journal := s.journal.(binding := binding))
    ensures Invariant(t, owner)
  {
    AdvancesKeeps(s, t);
  }

  lemma {:induction false} NextKeeps(s: System, e: Event, owner: Owner)
    requires Invariant(s, owner) && Enabled(s, e, owner)
    ensures Invariant(Next(s, e), owner)
  {
    match e
    case Prompts(_, _, _, _) => PromptsKeeps(s, e, owner);
    case Prepares(_, _) => PreparesKeeps(s, e, owner);
    case Executes(_, _, _, _) => ExecutesKeeps(s, e, owner);
    case Brokered(_) => BrokeredKeeps(s, e, owner);
    case Returns(_, _) => ReturnsKeeps(s, e, owner);
    case Aborts(_) => AbortsKeeps(s, e, owner);
    case Finishes(_, _, _) => FinishesKeeps(s, e, owner);
    case Binds(_) => BindsKeeps(s, e, owner);
    case Restarts(_) => RestartsKeeps(s, e, owner);
  }

  // ---- Whole runs -------------------------------------------------------------------

  const START := System(J.Journal(map[], map[], {}, None, map[], map[]), INITIAL, {}, {}, map[], {}, [], {})

  ghost predicate Run(states: seq<System>, events: seq<Event>, owner: Owner)
  {
    && |states| == |events| + 1 && states[0] == START
    && forall k: nat | k < |events| ::
         Enabled(states[k], events[k], owner) && states[k + 1] == Next(states[k], events[k])
  }

  lemma {:induction false} AlwaysInvariant(states: seq<System>, events: seq<Event>, owner: Owner, k: nat)
    requires Run(states, events, owner) && k < |states|
    ensures Invariant(states[k], owner)
  {
    if k > 0 {
      AlwaysInvariant(states, events, owner, k - 1);
      NextKeeps(states[k - 1], events[k - 1], owner);
    }
  }

  /** Through aborts, cancellations and restarts, no command is handed to the broker twice. */
  lemma {:induction false} AtMostOnce(states: seq<System>, events: seq<Event>, owner: Owner, k: nat)
    requires Run(states, events, owner) && k < |states|
    ensures var handed := states[k].handed; forall i, j | 0 <= i < j < |handed| :: handed[i] != handed[j]
  {
    AlwaysInvariant(states, events, owner, k);
  }

  /** What a committed record claims was checked against its command, in the journal and in what it stores. */
  lemma {:induction false} CommittedWasChecked(states: seq<System>, events: seq<Event>, owner: Owner, k: nat, id: Id)
    requires Run(states, events, owner) && k < |states| && J.Get(states[k].journal, id).Some?
    requires J.Get(states[k].journal, id).value.state.StateCommitted?
    ensures var r := J.Get(states[k].journal, id).value;
            && r.command.commandId == id && r.result.Some? && r.result.value.Saved?
            && RefuseResult(r.command.binding.designId, r.command, r.result.value).None?
  {
    AlwaysInvariant(states, events, owner, k);
    assert Honest(id, J.Get(states[k].journal, id).value);
  }

  /** A step hands over at most the commands of operations that were not recovered. */
  lemma {:induction false} HandsOverOwn(s: System, e: Event, owner: Owner)
    requires Invariant(s, owner) && Enabled(s, e, owner)
    ensures var t := Next(s, e);
            && s.recovered <= t.recovered
            && (t.handed == s.handed || (exists id :: t.handed == s.handed + [id] && owner(id) !in s.recovered))
  {
    if e.Executes? {
      if e.commandId in s.journal.current {
        assert Honest(e.commandId, s.journal.current[e.commandId]) && Owned(s, e.commandId, owner);
        HandsOverOne(s, Next(s, e), s.journal.current[e.commandId], e.requestId, e.aborted, e.abortedLater);
      }
    } else {
      HandsOverNothing(s, e);
    }
  }

  lemma {:induction false} HandsOverOne(s: System, t: System, record: CommandRecord, requestId: Id, aborted: bool,
                                        abortedLater: bool)
    requires t == Execute(s, record, requestId, aborted, abortedLater)
    ensures t.recovered == s.recovered
    ensures t.handed == s.handed || t.handed == s.handed + [record.command.commandId]
  {
  }

  lemma {:induction false} HandsOverNothing(s: System, e: Event)
    requires !e.Executes?
    ensures Next(s, e).handed == s.handed && s.recovered <= Next(s, e).recovered
  {
  }

  /** Nothing of this operation is handed over between the two lists. */
  ghost predicate NothingOf(was: seq<Id>, now: seq<Id>, owner: Owner, op: Id)
  {
    |was| <= |now| && forall i | |was| <= i < |now| :: owner(now[i]) != op
  }

  lemma {:induction false} NothingMore(was: seq<Id>, now: seq<Id>, later: seq<Id>, id: Id, owner: Owner, op: Id)
    requires NothingOf(was, now, owner, op) && (later == now || (later == now + [id] && owner(id) != op))
    ensures NothingOf(was, later, owner, op)
  {
  }

  lemma {:induction false} SendsNothing(s: System, e: Event, owner: Owner, was: seq<Id>, op: Id)
    requires Invariant(s, owner) && Enabled(s, e, owner) && op in s.recovered && NothingOf(was, s.handed, owner, op)
    ensures op in Next(s, e).recovered && NothingOf(was, Next(s, e).handed, owner, op)
  {
    HandsOverOwn(s, e, owner);
    var later := Next(s, e).handed;
    if later != s.handed {
      var id :| later == s.handed + [id] && owner(id) !in s.recovered;
      NothingMore(was, s.handed, later, id, owner, op);
    }
  }

  /** An operation that was open when the process ended never sends anything again. */
  lemma {:induction false} RecoveredNeverSends(states: seq<System>, events: seq<Event>, owner: Owner, j: nat, k: nat,
                                               op: Id)
    requires Run(states, events, owner) && j <= k < |states| && op in states[j].recovered
    ensures op in states[k].recovered && NothingOf(states[j].handed, states[k].handed, owner, op)
    decreases k
  {
    if j < k {
      RecoveredNeverSends(states, events, owner, j, k - 1, op);
      AlwaysInvariant(states, events, owner, k - 1);
      SendsNothing(states[k - 1], events[k - 1], owner, states[j].handed, op);
    }
  }

  /** A record never comes back, and one that has a result stays as it is. */
  ghost predicate KeepsDecided(s: System, t: System, id: Id)
  {
    && id in t.made
    && (id in t.journal.current ==>
          id in s.journal.current
          && (s.journal.current[id].result.Some? ==> t.journal.current[id] == s.journal.current[id]))
  }

  lemma {:induction false} DecidedStays(s: System, e: Event, owner: Owner, id: Id)
    requires Invariant(s, owner) && Enabled(s, e, owner) && id in s.made
    ensures KeepsDecided(s, Next(s, e), id)
  {
    if e.Prepares? {
      PrepareKeepsDecided(s, e, owner, id);
    } else if e.Executes? {
      ExecuteKeepsDecided(s, e, id);
    } else {
      OthersKeepDecided(s, e, id);
    }
  }

  lemma {:induction false} OthersKeepDecided(s: System, e: Event, id: Id)
    requires AllHonest(s.journal) && !e.Prepares? && !e.Executes? && id in s.made
    ensures KeepsDecided(s, Next(s, e), id)
  {
    assert id in s.journal.current ==> Honest(id, s.journal.current[id]);
  }

  lemma {:induction false} PrepareKeepsDecided(s: System, e: Event, owner: Owner, id: Id)
    requires WellOwned(s, owner) && Enabled(s, e, owner) && e.Prepares? && id in s.made
    ensures KeepsDecided(s, Next(s, e), id)
  {
    J.PrepareForm(s.journal, e.command, e.operationId);
  }

  lemma {:induction false} ExecuteKeepsDecided(s: System, e: Event, id: Id)
    requires AllHonest(s.journal) && e.Executes? && id in s.made
    ensures KeepsDecided(s, Next(s, e), id)
  {
    if e.commandId in s.journal.current && s.journal.current[e.commandId].state.StatePrepared? {
      assert Honest(e.commandId, s.journal.current[e.commandId]);
      var r := ExecuteForm(s, e.commandId, e.requestId, e.aborted, e.abortedLater);
    }
  }

  lemma {:induction false} Decided(states: seq<System>, events: seq<Event>, owner: Owner, j: nat, k: nat, id: Id)
    requires Run(states, events, owner) && j <= k < |states| && id in states[j].journal.current
    ensures id in states[k].made
    ensures id in states[k].journal.current && states[j].journal.current[id].result.Some? ==>
              states[k].journal.current[id] == states[j].journal.current[id]
    ensures id in states[k].journal.current ==> forall i: nat | j <= i <= k :: id in states[i].journal.current
    decreases k
  {
    AlwaysInvariant(states, events, owner, j);
    if j < k {
      Decided(states, events, owner, j, k - 1, id);
      AlwaysInvariant(states, events, owner, k - 1);
      DecidedStays(states[k - 1], events[k - 1], owner, id);
    } else {
      assert Owned(states[j], id, owner);
    }
  }

  /** The first result wins: as long as the journal lists a command that has a result, it is that result. */
  lemma {:induction false} FirstResultWins(states: seq<System>, events: seq<Event>, owner: Owner, j: nat, k: nat,
                                           id: Id)
    requires Run(states, events, owner) && j <= k < |states|
    requires id in states[j].journal.current && states[j].journal.current[id].result.Some?
             && id in states[k].journal.current
    ensures states[k].journal.current[id] == states[j].journal.current[id]
  {
    Decided(states, events, owner, j, k, id);
  }

  /** Unless the process ends, a request stays sent, its outcome stays, and so does the command that waits for it. */
  ghost predicate Recalls(s: System, rid: Id, id: Id, outcome: Option<Outcome>)
  {
    && WasSent(s.broker.sent, rid) && (rid in s.waiting ==> s.waiting[rid] == id)
    && (outcome.Some? ==> rid in s.broker.finished && s.broker.finished[rid] == outcome.value)
  }

  lemma {:induction false} StillRecalls(s: System, e: Event, owner: Owner, rid: Id, id: Id, outcome: Option<Outcome>)
    requires Invariant(s, owner) && Enabled(s, e, owner) && !e.Restarts? && Recalls(s, rid, id, outcome)
    ensures Recalls(Next(s, e), rid, id, outcome)
  {
    var t := Next(s, e);
    if e.Brokered? {
      StepKeeps(s.broker, e.step);
      StillSent(s.broker, t.broker, rid);
    } else if e.Executes? {
      ExecuteRecalls(s, e, owner);
      StillSent(s.broker, t.broker, rid);
    } else {
      OthersRecall(s, e, rid);
    }
  }

  lemma OthersRecall(s: System, e: Event, rid: Id)
    requires !e.Restarts? && !e.Brokered? && !e.Executes?
    ensures Next(s, e).broker == s.broker
    ensures rid in Next(s, e).waiting ==> rid in s.waiting && Next(s, e).waiting[rid] == s.waiting[rid]
  {
  }

  lemma {:induction false} StillSent(a: State, b: State, rid: Id)
    requires Evolves(a, b) && WasSent(a.sent, rid)
    ensures WasSent(b.sent, rid)
  {
    var i: nat :| i < |a.sent| && SentId(a.sent, i) == rid;
    assert SentId(b.sent, i) == rid;
  }

  lemma {:induction false} ExecuteRecalls(s: System, e: Event, owner: Owner)
    requires Invariant(s, owner) && Enabled(s, e, owner) && e.Executes?
    ensures Evolves(s.broker, Next(s, e).broker)
    ensures forall rid | WasSent(s.broker.sent, rid) && rid in Next(s, e).waiting ::
              rid in s.waiting && Next(s, e).waiting[rid] == s.waiting[rid]
  {
    var id := e.commandId;
    if id in s.journal.current && s.journal.current[id].state.StatePrepared? {
      assert Honest(id, s.journal.current[id]);
      var r := ExecuteForm(s, id, e.requestId, e.aborted, e.abortedLater);
      SentRecalls(s, Next(s, e), r.command, e.requestId, e.abortedLater);
    }
  }

  lemma {:induction false} SentRecalls(s: System, t: System, command: Command, requestId: Id, abortedLater: bool)
    requires Sound(s.broker, {}) && NewId(s.broker, requestId)
    requires || (t.broker == s.broker && t.waiting == s.waiting)
             || (Send(s.broker, command.binding, AskExecute(command), requestId, abortedLater) == Ok(t.broker)
                 && t.waiting == s.waiting[requestId := command.commandId])
    ensures Evolves(s.broker, t.broker)
    ensures forall rid | WasSent(s.broker.sent, rid) && rid in t.waiting ::
              rid in s.waiting && t.waiting[rid] == s.waiting[rid]
  {
    if t.broker != s.broker {
      SendKeeps(s.broker, command.binding, AskExecute(command), requestId, abortedLater);
    }
    assert !WasSent(s.broker.sent, requestId);
  }

  lemma {:induction false} Recalled(states: seq<System>, events: seq<Event>, owner: Owner, j: nat, k: nat, rid: Id,
                                    id: Id, outcome: Option<Outcome>)
    requires Run(states, events, owner) && j <= k < |states| && Recalls(states[j], rid, id, outcome)
    requires forall i | j <= i < k :: !events[i].Restarts?
    ensures Recalls(states[k], rid, id, outcome)
    decreases k
  {
    if j < k {
      Recalled(states, events, owner, j, k - 1, rid, id, outcome);
      AlwaysInvariant(states, events, owner, k - 1);
      StillRecalls(states[k - 1], events[k - 1], owner, rid, id, outcome);
    }
  }

  /** The reply reaches the broker through the connection that the open request belongs to. */
  ghost predicate RepliesSaved(b: State, e: Event, rid: Id)
  {
    && e.Brokered? && e.step.Responds? && e.step.endpoint < |b.endpoints|
    && var response := e.step.response;
       && response.requestId == rid && Authorize(b, e.step.endpoint, response.generation).Ok?
       && rid in b.pending && b.pending[rid].endpoint == e.step.endpoint
       && response.body.ResultBody? && response.body.result.Saved?
  }

  lemma {:induction false} AsksExecute(s: System, rid: Id)
    requires EndsOnce(s.broker) && WaitsMatch(s) && rid in s.waiting
    ensures WasSent(s.broker.sent, rid) && (rid in s.broker.pending ==> s.broker.pending[rid].request.ask.AskExecute?)
  {
    var i: nat :| i < |s.broker.sent| && Carries(s, rid, i);
    assert SentId(s.broker.sent, i) == rid;
  }

  lemma {:induction false} SavedReplyRecalled(s: System, e: Event, owner: Owner, rid: Id) returns (outcome: Outcome)
    requires Invariant(s, owner) && Enabled(s, e, owner) && rid in s.waiting && RepliesSaved(s.broker, e, rid)
    ensures Recalls(Next(s, e), rid, s.waiting[rid], Some(outcome))
    ensures outcome == Resolved(e.step.response.body) || outcome == Failed(OutcomeUnknown)
  {
    AsksExecute(s, rid);
    outcome := SavedReplyEnds(s.broker, e, rid);
    StepKeeps(s.broker, e.step);
    StillSent(s.broker, Next(s, e).broker, rid);
  }

  lemma {:induction false} SavedReplyEnds(b: State, e: Event, rid: Id) returns (outcome: Outcome)
    requires Sound(b, {}) && RepliesSaved(b, e, rid) && b.pending[rid].request.ask.AskExecute?
    ensures var after := StudioBrokerState.Next(b, e.step); rid in after.finished && after.finished[rid] == outcome
    ensures outcome == Resolved(e.step.response.body) || outcome == Failed(OutcomeUnknown)
  {
    SavedIsNotRejected(b, e.step.endpoint, e.step.response);
    outcome := Respond(b, e.step.endpoint, e.step.response).0.finished[rid];
  }

  lemma {:induction false} ReturnsRecord(s: System, rid: Id, writes: bool)
    requires Sound(s.broker, {}) && WaitsMatch(s) && rid in s.waiting && rid in s.broker.finished
    ensures var id, t := s.waiting[rid], Next(s, Returns(rid, writes));
            id in t.journal.current ==>
              && id in s.journal.current
              && t.journal.current[id] == J.Settled(s.journal.current[id], ResultOf(id, s.broker.finished[rid]))
  {
    assert Undecided(s, rid);
    var command := ReturnedResult(s, rid);
  }

  lemma {:induction false} SavedReplyKept(states: seq<System>, events: seq<Event>, owner: Owner, j: nat, k: nat,
                                          rid: Id) returns (outcome: Outcome)
    requires Run(states, events, owner) && j < k < |events| && forall i | j <= i < k :: !events[i].Restarts?
    requires rid in states[j].waiting && RepliesSaved(states[j].broker, events[j], rid)
    ensures Recalls(states[k], rid, states[j].waiting[rid], Some(outcome))
    ensures outcome == Resolved(events[j].step.response.body) || outcome == Failed(OutcomeUnknown)
  {
    AlwaysInvariant(states, events, owner, j);
    outcome := SavedReplyRecalled(states[j], events[j], owner, rid);
    Recalled(states, events, owner, j + 1, k, rid, states[j].waiting[rid], Some(outcome));
  }

  /** A save that Studio reports while the command still waits for it is never recorded as a rejection,
      whatever happens before the reply is processed: the command is committed with exactly that
      result, or its outcome is recorded as unknown. */
  lemma {:induction false} SavedReplyIsNeverRejected(states: seq<System>, events: seq<Event>, owner: Owner, j: nat,
                                                     k: nat, rid: Id)
    requires Run(states, events, owner) && j < k < |events| && forall i | j <= i < k :: !events[i].Restarts?
    requires rid in states[j].waiting && RepliesSaved(states[j].broker, events[j], rid)
    requires rid in states[k].waiting && events[k].Returns? && events[k].requestId == rid
    ensures var id, current := states[j].waiting[rid], states[k + 1].journal.current;
            id in current ==>
              || (current[id].state.StateCommitted? && current[id].result == Some(events[j].step.response.body.result))
              || current[id].state.StateUnknown?
  {
    var outcome := SavedReplyKept(states, events, owner, j, k, rid);
    AlwaysInvariant(states, events, owner, k);
    ReturnsSaved(states[k], rid, events[k].writes, states[j].waiting[rid], outcome, events[j].step.response.body);
  }

  lemma {:induction false} ReturnsSaved(s: System, rid: Id, writes: bool, id: Id, outcome: Outcome, body: Body)
    requires Sound(s.broker, {}) && WaitsMatch(s) && Recalls(s, rid, id, Some(outcome)) && rid in s.waiting
    requires body.ResultBody? && body.result.Saved? && (outcome == Resolved(body) || outcome == Failed(OutcomeUnknown))
    ensures var current := Next(s, Returns(rid, writes)).journal.current;
            id in current ==>
              || (current[id].state.StateCommitted? && current[id].result == Some(body.result))
              || current[id].state.StateUnknown?
  {
    ReturnsRecord(s, rid, writes);
  }

  // ---- The record that the caller passes --------------------------------------------

  /** `execute` believes the record it is given. It hands a command over if and only if that record
      says prepared and the journal's own record is neither cancelled nor being cancelled. So a caller
      that kept an old record can send a command again, exactly if the journal no longer says
      prepared or cancelled; a caller that passes the journal's own record cannot. */
  lemma {:induction false} HandsOverExactlyWhen(s: System, record: CommandRecord, requestId: Id, aborted: bool,
                                                abortedLater: bool)
    ensures var id := record.command.commandId;
            var t := Execute(s, record, requestId, aborted, abortedLater);
            && (t.handed == s.handed + [id] <==>
                  && record.state.StatePrepared? && id in s.journal.current
                  && !s.journal.current[id].state.StateCancelled?
                     && (s.journal.current[id].state.StatePrepared? ==> !aborted))
            && (t.handed == s.handed || t.handed == s.handed + [id])
  {
    assert s.handed != s.handed + [record.command.commandId];
  }
}
