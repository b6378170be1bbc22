/** packages/decorator-agent/src/studio-journal.ts itself. */
module StudioJournal {
  import opened Outcomes
  import opened StudioContract
  import opened StudioRecords
  import J = StudioJournalState

  class Journal {
    var admissions: map<Id, Admission>
    var current: map<Id, CommandRecord>
    var blocked: set<Id>
    /** The values stored with the session. */
    var binding: Option<Binding>
    var storedAdmissions: map<Id, Admission>
    var storedCommands: map<Id, CommandRecord>

    ghost function Now(): J.Journal
      reads this
    {
      J.Journal(admissions, current, blocked, binding, storedAdmissions, storedCommands)
    }

    /** A journal over what earlier processes stored. */
    constructor (binding: Option<Binding>, storedAdmissions: map<Id, Admission>, storedCommands: map<Id, CommandRecord>)
      ensures Now() == J.Journal(map[], map[], {}, binding, storedAdmissions, storedCommands)
    {
      admissions, current, blocked := map[], map[], {};
      this.binding, this.storedAdmissions, this.storedCommands := binding, storedAdmissions, storedCommands;
    }

    method MutationBlocked(op: Id) returns (b: bool)
      ensures b <==> op in Now().blocked
    {
      b := op in blocked;
    }

    method BlockMutations(op: Id)
      modifies this
      ensures Now() == old(Now()).(blocked := old(blocked) + {op})
    {
      blocked := blocked + {op};
    }

    method Admit(op: Id, card: Option<PromptAction>, writes: bool) returns (error: Option<JournalError>)
      modifies this
      ensures (Now(), error) == J.Admit(old(Now()), op, card, writes)
    {
      var record := Admission(binding, card);
      admissions := admissions[op := record];
      if writes {
        storedAdmissions := storedAdmissions[op := record];
        error := None;
      } else {
        assert admissions - {op} == old(admissions) - {op};
        admissions := admissions - {op};
        error := Some(NotStored);
      }
    }

    method DiscardAdmission(op: Id, writes: bool)
      modifies this
      ensures Now() == J.Discard(old(Now()), op, writes)
    {
      admissions := admissions - {op};
      blocked := blocked - {op};
      var todo := current.Keys;
      while todo != {}
        invariant todo <= old(current).Keys
        invariant current == map id | id in old(current)
                  && (id in todo || old(current)[id].operationId != op) :: old(current)[id]
        modifies `current
        decreases todo
      {
        var id :| id in todo;
        if current[id].operationId == op {
          current := current - {id};
        }
        todo := todo - {id};
      }
      assert current == J.Discard(old(Now()), op, writes).current;
      if writes {
        storedAdmissions := storedAdmissions - {op};
      }
    }

    method AdmissionFor(op: Id) returns (admission: Option<Admission>)
      modifies this`admissions
      ensures Now() == J.Cached(old(Now()), op) && admission == J.AdmissionOf(old(Now()), op)
    {
      if op in admissions {
        return Some(admissions[op]);
      }
      if op !in storedAdmissions {
        return None;
      }
      admissions := admissions[op := storedAdmissions[op]];
      admission := Some(storedAdmissions[op]);
    }

    method Get(id: Id) returns (record: Option<CommandRecord>)
      ensures record == J.Get(Now(), id)
    {
      if id in current {
        return Some(current[id]);
      }
      record := if id in storedCommands then Some(storedCommands[id]) else None;
    }

    /** Counts the edits of one kind. */
    static method Count(edits: seq<Edit>, kind: Kind) returns (count: nat)
      ensures count == J.CountKind(edits, kind)
    {
      count := 0;
      var k := |edits|;
      while k > 0
        invariant 0 <= k <= |edits| && count == J.CountKind(edits[k..], kind)
      {
        k := k - 1;
        assert edits[k..][1..] == edits[k + 1..];
        count := count + if edits[k].action.Kind() == kind then 1 else 0;
      }
    }

    method Prepare(command: Command, op: Id) returns (result: Result<CommandRecord, JournalError>)
      modifies this
      ensures (Now(), result) == J.Prepare(old(Now()), command, op)
    {
      if op in blocked {
        return Err(Blocked);
      }
      var stale := set id | id in current && current[id].operationId == op && J.IsStale(current[id]);
      assert stale == J.StaleOf(Now(), op);
      if command.payload.Batch? && |stale| >= J.STALE_LIMIT {
        return Err(Blocked);
      }
      var existing := Get(command.commandId);
      if existing.Some? {
        return Ok(existing.value);
      }
      var admission := AdmissionFor(op);
      var admitted := J.AdmittedKind(admission);
      if admitted.Some? {
        var count := Count(command.payload.Edits(), admitted.value);
        if count > 1 {
          return Err(BadRequest);
        }
        if count > 0 && admitted.value.AddKind? && exists id | id in current :: J.LiveWith(current[id], op, AddKind) {
          return Err(BadRequest);
        }
      }
      var next := CommandRecord(command, op, StatePrepared, None);
      current := current[command.commandId := next];
      result := Ok(next);
    }

    method Dispatch(id: Id, aborted: bool) returns (result: Result<CommandRecord, JournalError>)
      modifies this
      ensures (Now(), result) == J.Dispatch(old(Now()), id, aborted)
      ensures result.Ok? ==> id in current && current[id] == result.value && !result.value.state.StatePrepared?
    {
      if id !in current {
        return Err(Unlisted);
      }
      var record := current[id];
      if !record.state.StatePrepared? {
        return Ok(record);
      }
      var next := record.(state := if aborted then StateCancelled else StateUnknown);
      current := current[id := next];
      result := Ok(next);
    }

    method Settle(outcome: CommandResult, writes: bool) returns (result: Result<CommandRecord, JournalError>)
      modifies this
      ensures (Now(), result) == J.Settle(old(Now()), outcome, writes)
      ensures result.Ok? ==>
                var first := old(current)[outcome.commandId].result;
                result.value.result == (if first.Some? then first else Some(outcome))
                && (first.Some? ==> Now() == old(Now()))
    {
      if outcome.commandId !in current {
        return Err(Unlisted);
      }
      var record := current[outcome.commandId];
      if record.result.Some? {
        return Ok(record);
      }
      var state := if outcome.Saved? then StateCommitted else if outcome.Rejected? then StateRejected else StateUnknown;
      var next := record.(state := state, result := Some(outcome));
      current := current[outcome.commandId := next];
      if outcome.Unknown? && record.command.payload.Batch? {
        blocked := blocked + {record.operationId};
      }
      if outcome.Saved? && writes {
        storedCommands := storedCommands[outcome.commandId := next];
      }
      result := Ok(next);
    }

    method CancelPrepared(op: Id)
      modifies this
      ensures Now() == J.CancelPrepared(old(Now()), op)
    {
      ghost var done := J.CancelPrepared(Now(), op).current;
      var todo := current.Keys;
      while todo != {}
        invariant todo <= old(current).Keys && current.Keys == old(current).Keys
        invariant forall id | id in current :: current[id] == if id in todo then old(current)[id] else done[id]
        modifies `current
        decreases todo
      {
        var id :| id in todo;
        if current[id].operationId == op && current[id].state.StatePrepared? {
          current := current[id := current[id].(state := StateCancelled)];
        }
        todo := todo - {id};
      }
      assert current == done;
    }
  }
}
