/** The limits on what one operation may do to the room, over whole runs of a conversation. */
module StudioLimits {
  import opened Outcomes
  import opened StudioContract
  import opened StudioRecords
  import B = StudioBrokerState
  import J = StudioJournalState
  import opened StudioSession

  // ---- What a step does to the journal ----------------------------------------------

  /** Prepared, or sent and not decided. */
  predicate Outstanding(r: CommandRecord)
  {
    r.state.StatePrepared? || (r.state.StateUnknown? && r.result.None?)
  }

  predicate UnknownBatch(r: CommandRecord)
  {
    r.state.StateUnknown? && r.command.payload.Batch? && r.result.Some?
  }

  /** One record that was outstanding moves on, and not back. */
  predicate MovesOn(j: JournalState, k: JournalState, id: Id)
  {
    && id in j.current && id in k.current && k.current == j.current[id := k.current[id]] && j.blocked <= k.blocked
    && var was, r := j.current[id], k.current[id];
       && r.command == was.command && r.operationId == was.operationId && Outstanding(was) && !r.state.StatePrepared?
       && (UnknownBatch(r) ==> r.operationId in k.blocked)
  }

  ghost predicate OneMovesOn(j: JournalState, k: JournalState)
  {
    (k.current == j.current && k.blocked == j.blocked) || exists id :: MovesOn(j, k, id)
  }

  /** Records are cancelled or forgotten, and a block is lifted only with all records of its operation. */
  ghost predicate Loses(s: System, t: System)
  {
    && (forall id | id in t.journal.current :: id in s.journal.current && AdvancedRecord(s, id, t.journal.current[id]))
    && (forall op | op in s.journal.blocked && op !in t.journal.blocked :: op !in t.open && NoRecords(t.journal, op))
  }

  ghost predicate NoRecords(j: JournalState, op: Id)
  {
    forall id | id in j.current :: j.current[id].operationId != op
  }

  ghost predicate StepForm(s: System, e: Event, t: System)
  {
    if e.Prepares? then t.journal == s.journal || t.journal == J.Prepare(s.journal, e.command, e.operationId).0
    else if e.Executes? || e.Returns? then OneMovesOn(s.journal, t.journal)
    else Loses(s, t)
  }

  lemma {:induction false} EveryStepForm(s: System, e: Event, owner: Owner)
    requires Invariant(s, owner) && Enabled(s, e, owner)
    ensures StepForm(s, e, Next(s, e))
  {
    if e.Executes? {
      ExecuteMovesOn(s, e);
    } else if e.Returns? {
      ReturnMovesOn(s, e);
    } else if !e.Prepares? {
      OthersLose(s, e);
    }
  }

  lemma {:induction false} ExecuteMovesOn(s: System, e: Event)
    requires AllHonest(s.journal) && e.Executes?
    ensures OneMovesOn(s.journal, Next(s, e).journal)
  {
    var id := e.commandId;
    if id in s.journal.current && s.journal.current[id].state.StatePrepared? {
      assert Honest(id, s.journal.current[id]);
      var r := ExecuteForm(s, id, e.requestId, e.aborted, e.abortedLater);
      assert MovesOn(s.journal, Next(s, e).journal, id);
    }
  }

  lemma {:induction false} ReturnMovesOn(s: System, e: Event)
    requires B.Sound(s.broker, {}) && WaitsMatch(s) && e.Returns?
    ensures OneMovesOn(s.journal, Next(s, e).journal)
  {
    if e.requestId in s.waiting && e.requestId in s.broker.finished {
      var id, k := s.waiting[e.requestId], Next(s, e).journal;
      assert Undecided(s, e.requestId);
      var command := ReturnedResult(s, e.requestId);
      if id in k.current {
        assert MovesOn(s.journal, k, id);
      }
    }
  }

  lemma OthersLose(s: System, e: Event)
    requires s.open <= s.used && (e.Prompts? ==> e.operationId !in s.used)
    requires !e.Prepares? && !e.Executes? && !e.Returns?
    ensures Loses(s, Next(s, e))
  {
  }

  // ---- One add ----------------------------------------------------------------------

  predicate AdmitsAdd(j: JournalState, op: Id)
  {
    J.AdmittedKind(J.AdmissionOf(j, op)) == Some(AddKind)
  }

  /** The live commands of the operation hold at most one edit that adds, all together. */
  ghost predicate OneAdd(j: JournalState, op: Id)
  {
    && (forall id | id in j.current && J.LiveWith(j.current[id], op, AddKind) ::
          J.CountKind(j.current[id].command.payload.Edits(), AddKind) == 1)
    && (forall a, b | a in j.current && b in j.current && J.LiveWith(j.current[a], op, AddKind)
        && J.LiveWith(j.current[b], op, AddKind) ::
          a == b)
  }

  /** No command of the operation becomes live. */
  ghost predicate OnlyFewer(j: JournalState, k: JournalState, op: Id)
  {
    forall id | id in k.current && J.LiveWith(k.current[id], op, AddKind) ::
      id in j.current && J.LiveWith(j.current[id], op, AddKind) && k.current[id].command == j.current[id].command
  }

  lemma FewerLive(s: System, e: Event, t: System, op: Id)
    requires StepForm(s, e, t) && !e.Prepares?
    ensures OnlyFewer(s.journal, t.journal, op)
  {
  }

  lemma FewerAdds(j: JournalState, k: JournalState, op: Id)
    requires OneAdd(j, op) && OnlyFewer(j, k, op)
    ensures OneAdd(k, op)
  {
  }

  /** An admission is fixed while its operation has records. */
  lemma {:induction false} AdmissionFixed(s: System, e: Event, owner: Owner, op: Id)
    requires WellOwned(s, owner) && AllHonest(s.journal) && Enabled(s, e, owner)
    ensures var t := Next(s, e);
            J.AdmissionOf(t.journal, op) == J.AdmissionOf(s.journal, op) || NoRecords(t.journal, op)
  {
    match e
    case Prepares(o, command) => J.PrepareForm(s.journal, command, o);
    case Prompts(o, _, _, _) => NewHasNoRecords(s, owner, o);
    case Executes(id, requestId, aborted, abortedLater) => ExecuteAdmissions(s, e, op);
    case _ =>
  }

  lemma {:induction false} NewHasNoRecords(s: System, owner: Owner, op: Id)
    requires WellOwned(s, owner) && op !in s.used
    ensures NoRecords(s.journal, op)
  {
    forall id | id in s.journal.current ensures s.journal.current[id].operationId != op {
      assert Owned(s, id, owner);
    }
  }

  lemma ExecuteAdmissions(s: System, e: Event, op: Id)
    requires e.Executes?
    ensures J.AdmissionOf(Next(s, e).journal, op) == J.AdmissionOf(s.journal, op)
  {
  }

  lemma {:induction false} PreparesOneAdd(j: JournalState, command: Command, op: Id, other: Id)
    requires AdmitsAdd(j, other) && OneAdd(j, other)
    ensures OneAdd(J.Prepare(j, command, op).0, other)
  {
    J.PrepareForm(j, command, op);
  }

  lemma {:induction false} AddsStayLimited(s: System, e: Event, owner: Owner, op: Id)
    requires Invariant(s, owner) && Enabled(s, e, owner) && (AdmitsAdd(s.journal, op) ==> OneAdd(s.journal, op))
    ensures AdmitsAdd(Next(s, e).journal, op) ==> OneAdd(Next(s, e).journal, op)
  {
    var t := Next(s, e);
    EveryStepForm(s, e, owner);
    AdmissionFixed(s, e, owner, op);
    if AdmitsAdd(t.journal, op) && AdmitsAdd(s.journal, op) {
      if e.Prepares? {
        PreparesOneAdd(s.journal, e.command, e.operationId, op);
      } else {
        FewerLive(s, e, t, op);
        FewerAdds(s.journal, t.journal, op);
      }
    }
  }

  /** An operation admitted with a product to add never has more than one add edit in commands that
      were neither rejected nor cancelled before sending. */
  lemma {:induction false} OneAddPerOperation(states: seq<System>, events: seq<Event>, owner: Owner, k: nat, op: Id)
    requires Run(states, events, owner) && k < |states|
    ensures AdmitsAdd(states[k].journal, op) ==> OneAdd(states[k].journal, op)
  {
    if k > 0 {
      OneAddPerOperation(states, events, owner, k - 1, op);
      AlwaysInvariant(states, events, owner, k - 1);
      AddsStayLimited(states[k - 1], events[k - 1], owner, op);
    }
  }

  // ---- Stale batches ----------------------------------------------------------------

  function StaleBatches(j: JournalState, op: Id): set<Id>
  {
    set id | id in j.current && j.current[id].operationId == op && j.current[id].command.payload.Batch?
    && J.IsStale(j.current[id])
  }

  function StaleOrOpen(j: JournalState, op: Id): set<Id>
  {
    set id | id in j.current && j.current[id].operationId == op && j.current[id].command.payload.Batch?
             && (J.IsStale(j.current[id]) || Outstanding(j.current[id]))
  }

  /** Tools run one after the other: a command is prepared when the operation has no other outstanding. */
  predicate InTurn(s: System, e: Event)
  {
    e.Prepares? ==>
      forall id | id in s.journal.current && s.journal.current[id].operationId == e.operationId ::
        !Outstanding(s.journal.current[id])
  }

  lemma {:induction false} SubsetSize(a: set<Id>, b: set<Id>)
    requires a <= b
    ensures |a| <= |b|
  {
    assert b == a + (b - a);
  }

  lemma {:induction false} AddedStale(j: JournalState, k: JournalState, command: Command, op: Id)
    requires forall id | id in j.current && j.current[id].operationId == op :: !Outstanding(j.current[id])
    requires |StaleOrOpen(j, op)| <= J.STALE_LIMIT && J.AddsRecord(j, k, command, op)
    ensures |StaleOrOpen(k, op)| <= J.STALE_LIMIT
  {
    if command.payload.Batch? {
      SubsetSize(StaleOrOpen(k, op), J.StaleOf(j, op) + {command.commandId});
    } else {
      assert StaleOrOpen(k, op) == StaleOrOpen(j, op);
    }
  }

  lemma {:induction false} PreparesStale(j: JournalState, command: Command, op: Id)
    requires forall id | id in j.current && j.current[id].operationId == op :: !Outstanding(j.current[id])
    requires |StaleOrOpen(j, op)| <= J.STALE_LIMIT
    ensures |StaleOrOpen(J.Prepare(j, command, op).0, op)| <= J.STALE_LIMIT
  {
    J.PrepareForm(j, command, op);
    var k := J.Prepare(j, command, op).0;
    if k.current == j.current {
      assert StaleOrOpen(k, op) == StaleOrOpen(j, op);
    } else {
      AddedStale(j, k, command, op);
    }
  }

  lemma {:induction false} StaleOnlyLose(s: System, e: Event, t: System, op: Id)
    requires StepForm(s, e, t) && !(e.Prepares? && e.operationId == op)
    ensures StaleOrOpen(t.journal, op) <= StaleOrOpen(s.journal, op)
  {
    if e.Prepares? {
      J.PrepareForm(s.journal, e.command, e.operationId);
    }
  }

  lemma {:induction false} StaleStayLimited(s: System, e: Event, t: System, op: Id)
    requires StepForm(s, e, t) && InTurn(s, e) && |StaleOrOpen(s.journal, op)| <= J.STALE_LIMIT
    ensures |StaleOrOpen(t.journal, op)| <= J.STALE_LIMIT
  {
    if e.Prepares? && e.operationId == op {
      PreparesStale(s.journal, e.command, op);
    } else {
      StaleOnlyLose(s, e, t, op);
      SubsetSize(StaleOrOpen(t.journal, op), StaleOrOpen(s.journal, op));
    }
  }

  lemma {:induction false} StaleLimited(states: seq<System>, events: seq<Event>, owner: Owner, k: nat, op: Id)
    requires Run(states, events, owner) && k < |states| && forall i: nat | i < |events| :: InTurn(states[i], events[i])
    ensures |StaleOrOpen(states[k].journal, op)| <= J.STALE_LIMIT
  {
    if k == 0 {
      assert StaleOrOpen(START.journal, op) == {};
    } else {
      StaleLimited(states, events, owner, k - 1, op);
      AlwaysInvariant(states, events, owner, k - 1);
      EveryStepForm(states[k - 1], events[k - 1], owner);
      StaleStayLimited(states[k - 1], events[k - 1], states[k], op);
    }
  }

  /** With one outstanding command at a time, at most three batches of an operation end stale. */
  lemma {:induction false} ThreeStaleBatches(states: seq<System>, events: seq<Event>, owner: Owner, k: nat, op: Id)
    requires Run(states, events, owner) && k < |states| && forall i: nat | i < |events| :: InTurn(states[i], events[i])
    ensures |StaleBatches(states[k].journal, op)| <= 3
  {
    StaleLimited(states, events, owner, k, op);
    SubsetSize(StaleBatches(states[k].journal, op), StaleOrOpen(states[k].journal, op));
  }

  // ---- Unknown batches --------------------------------------------------------------

  ghost predicate UnknownBlocks(j: JournalState)
  {
    forall id | id in j.current && UnknownBatch(j.current[id]) :: j.current[id].operationId in j.blocked
  }

  lemma {:induction false} UnknownStaysBlocked(s: System, e: Event, t: System)
    requires StepForm(s, e, t) && UnknownBlocks(s.journal)
    ensures UnknownBlocks(t.journal)
  {
    if e.Prepares? {
      J.PrepareForm(s.journal, e.command, e.operationId);
    }
  }

  lemma {:induction false} AlwaysUnknownBlocks(states: seq<System>, events: seq<Event>, owner: Owner, k: nat)
    requires Run(states, events, owner) && k < |states|
    ensures UnknownBlocks(states[k].journal)
  {
    if k > 0 {
      AlwaysUnknownBlocks(states, events, owner, k - 1);
      AlwaysInvariant(states, events, owner, k - 1);
      EveryStepForm(states[k - 1], events[k - 1], owner);
      UnknownStaysBlocked(states[k - 1], events[k - 1], states[k]);
    }
  }

  function RecordsOf(j: JournalState, op: Id): set<Id>
  {
    set id | id in j.current && j.current[id].operationId == op
  }

  /** A blocked operation that is still open stays blocked, and gets no further command. */
  lemma {:induction false} BlockedStays(s: System, e: Event, t: System, op: Id)
    requires StepForm(s, e, t) && op in t.open && op in s.journal.blocked
    ensures op in t.journal.blocked && RecordsOf(t.journal, op) <= RecordsOf(s.journal, op)
  {
    if e.Prepares? {
      J.PrepareForm(s.journal, e.command, e.operationId);
    }
  }

  lemma {:induction false} OpenBefore(states: seq<System>, events: seq<Event>, owner: Owner, j: nat, k: nat, op: Id)
    requires Run(states, events, owner) && j <= k < |states| && op in states[j].used
    ensures op in states[k].used && (op in states[k].open ==> op in states[j].open)
    decreases k
  {
    if j < k {
      OpenBefore(states, events, owner, j, k - 1, op);
    }
  }

  lemma {:induction false} BlockedUntilFinished(states: seq<System>, events: seq<Event>, owner: Owner, j: nat, k: nat,
                                                op: Id)
    requires Run(states, events, owner) && j <= k < |states| && op in states[j].journal.blocked && op in states[j].used
             && op in states[k].open
    ensures op in states[k].journal.blocked && RecordsOf(states[k].journal, op) <= RecordsOf(states[j].journal, op)
    decreases k
  {
    if j < k {
      OpenBefore(states, events, owner, j, k - 1, op);
      OpenBefore(states, events, owner, k - 1, k, op);
      BlockedUntilFinished(states, events, owner, j, k - 1, op);
      BlockedStep(states, events, owner, k - 1, op);
    }
  }

  lemma {:induction false} BlockedStep(states: seq<System>, events: seq<Event>, owner: Owner, k: nat, op: Id)
    requires Run(states, events, owner) && k < |events| && op in states[k].journal.blocked && op in states[k + 1].open
    ensures op in states[k + 1].journal.blocked
            && RecordsOf(states[k + 1].journal, op) <= RecordsOf(states[k].journal, op)
  {
    AlwaysInvariant(states, events, owner, k);
    EveryStepForm(states[k], events[k], owner);
    BlockedStays(states[k], events[k], states[k + 1], op);
  }

  /** Once the outcome of a batch is unknown, its operation is blocked and prepares no further command
      for as long as it is open. */
  lemma {:induction false} UnknownBatchEndsMutations(states: seq<System>, events: seq<Event>, owner: Owner, j: nat,
                                                     k: nat, id: Id)
    requires Run(states, events, owner) && j <= k < |states|
    requires id in states[j].journal.current && UnknownBatch(states[j].journal.current[id])
    requires states[j].journal.current[id].operationId in states[k].open
    ensures var op := states[j].journal.current[id].operationId;
            op in states[k].journal.blocked && RecordsOf(states[k].journal, op) <= RecordsOf(states[j].journal, op)
  {
    AlwaysInvariant(states, events, owner, j);
    AlwaysUnknownBlocks(states, events, owner, j);
    assert Owned(states[j], id, owner);
    BlockedUntilFinished(states, events, owner, j, k, states[j].journal.current[id].operationId);
  }
}
