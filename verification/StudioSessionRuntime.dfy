/** packages/decorator-agent/src/studio-session.ts itself, over the journal and the broker. `execute` is
    split where it waits for the reply. */
module StudioSessionRuntime {
  import opened Outcomes
  import opened StudioContract
  import opened StudioRecords
  import opened StudioBrokerState
  import J = StudioJournalState
  import Protocol = StudioSession
  import StudioJournal
  import StudioBroker

  class SessionRuntime {
    const journal: StudioJournal.Journal
    const broker: StudioBroker.Broker
    /** The requests on which an `execute` waits, and the commands it waits for. */
    var waiting: map<Id, Id>
    ghost var open: set<Id>
    ghost var used: set<Id>
    ghost var made: set<Id>
    ghost var handed: seq<Id>
    ghost var recovered: set<Id>

    ghost function Now(): Protocol.System
      reads this, journal, broker
    {
      Protocol.System(journal.Now(), broker.Now(), open, used, waiting, made, handed, recovered)
    }

    constructor (journal: StudioJournal.Journal, broker: StudioBroker.Broker)
      ensures this.journal == journal && this.broker == broker && waiting == map[] && handed == []
      ensures open == {} && used == {} && made == {} && recovered == {}
    {
      this.journal, this.broker := journal, broker;
      waiting, open, used, made, handed, recovered := map[], {}, {}, {}, [], {};
    }

    method Prepare(op: Id, command: Command) returns (result: Result<CommandRecord, JournalError>)
      requires broker.Valid()
      modifies this, journal
      ensures (Now(), result) == Protocol.PrepareIn(old(Now()), op, command)
    {
      if journal.binding != Some(command.binding) {
        return Err(BadRequest);
      }
      var tab := command.binding.tabId;
      if tab !in broker.connections {
        return Err(BadRequest);
      }
      assert Serves(broker.Now(), tab, broker.connections[tab]);
      var connection := broker.endpoints[broker.connections[tab]].connection.value;
      if connection.binding.designId != command.binding.designId || connection.phase.Offline? {
        return Err(BadRequest);
      }
      result := journal.Prepare(command, op);
      made := if command.commandId in journal.current then made + {command.commandId} else made;
    }

    /** Up to the reply; `sent` says that there is one to wait for. */
    method Execute(record: CommandRecord, requestId: Id, aborted: bool, abortedLater: bool) returns (sent: bool)
      requires broker.Valid() && NewId(broker.Now(), requestId)
      modifies this, journal, broker
      ensures broker.Valid() && Now() == Protocol.Execute(old(Now()), record, requestId, aborted, abortedLater)
      ensures sent ==> requestId in waiting && waiting[requestId] == record.command.commandId
    {
      sent := false;
      if !record.state.StatePrepared? {
        return;
      }
      var dispatched := journal.Dispatch(record.command.commandId, aborted);
      if dispatched.Err? || dispatched.value.state.StateCancelled? {
        return;
      }
      handed := handed + [record.command.commandId];
      sent := HandOver(record.command.commandId, dispatched.value.command, requestId, abortedLater);
    }

    /** The broker gets the command, or its failure settles the record at once. */
    method HandOver(id: Id, command: Command, requestId: Id, abortedLater: bool) returns (sent: bool)
      requires broker.Valid() && NewId(broker.Now(), requestId)
      modifies this`waiting, journal, broker
      ensures broker.Valid() && (sent ==> requestId in waiting && waiting[requestId] == id)
      ensures var s := old(Now());
              var reply := Send(s.broker, command.binding, AskExecute(command), requestId, abortedLater);
              Now() == if reply.Ok? then s.(broker := reply.value, waiting := s.waiting[requestId := id])
                       else s.(journal := J.Settle(s.journal, Unknown(id), false).0)
    {
      var error := broker.Request(command.binding, AskExecute(command), requestId, abortedLater);
      sent := error.None?;
      if sent {
        waiting := waiting[requestId := id];
      } else {
        var settled := journal.Settle(Unknown(id), false);
      }
    }

    /** After the reply, or what came instead of it. */
    method Return(requestId: Id, outcome: Outcome, writes: bool) returns (settled: Result<CommandRecord, JournalError>)
      requires requestId in waiting
      requires requestId in broker.finished && broker.finished[requestId] == outcome
      modifies this, journal
      ensures Now() == Protocol.Next(old(Now()), Protocol.Returns(requestId, writes))
    {
      var id := waiting[requestId];
      var result := match outcome
        case Resolved(ResultBody(reply, _)) => reply
        case Resolved(ErrorBody(code)) => Rejected(id, code)
        case _ => Unknown(id);
      settled := journal.Settle(result, writes);
      waiting := waiting - {requestId};
    }
  }
}
