/** A run in which a caller keeps a record that is out of date: packages/decorator-agent/src/studio-session.ts.
    The conversation is bound, a Studio connects, and a command is prepared, sent, saved and settled; then
    `execute` is given the record that `prepare` returned. */
module StudioStaleRecord {
  import opened Outcomes
  import opened StudioContract
  import opened StudioRecords
  import opened StudioReplies
  import opened StudioBrokerState
  import opened StudioSession
  import J = StudioJournalState

  const ROOM := Binding("design", "tab")
  const PLACE := Transform(Vector3(0.0, 0.0, 0.0), Vector3(0.0, 0.0, 0.0), Vector3(1.0, 1.0, 1.0))
  const REMOVAL := Edit(Some("chair"), Remove, None)
  const COMMAND := Command("c", "conversation", ROOM, "1", Batch([REMOVAL]))
  const EMPTIED := Snapshot("design", "2", [], 2.5, [], [], [], None)
  const SAVED := CommandResult.Saved("c", BatchResults([Edited(PLACE, None)]), "2", EMPTIED)
  const REPLY := Response("first", "generation", ResultBody(SAVED, None))

  const REGISTERS := Registers(0, Registration(1, "tab", "design", "Room"), "generation")

  // ---- The states in between ----------------------------------------------------------

  const WAITING_ROOM := Connection(ROOM, "Room", "generation", -1, Offline, None, false)
  const ONLINE_ROOM := Connection(ROOM, "Room", "generation", -1, Online, None, true)

  function Asked(requestId: Id): Request { Request(requestId, "generation", ROOM, AskExecute(COMMAND)) }

  function Studio(connection: Connection, open: seq<Request>, pending: map<Id, Pending>, sent: seq<Pending>,
                  finished: map<Id, Outcome>): State
  {
    State([Endpoint(false, Some(connection), open)], map["tab" := 0], pending, false, sent, finished)
  }

  const READY := Studio(ONLINE_ROOM, [], map[], [], map[])
  const ASKED := Studio(ONLINE_ROOM, [Asked("first")], map["first" := Pending(0, Asked("first"))],
                        [Pending(0, Asked("first"))], map[])
  const ANSWERED := Studio(ONLINE_ROOM, [], map[], [Pending(0, Asked("first"))],
                           map["first" := Resolved(ResultBody(SAVED, None))])

  const ADMITTED: map<Id, Admission> := map["operation" := Admission(Some(ROOM), None)]
  const PREPARED := CommandRecord(COMMAND, "operation", StatePrepared, None)
  const DISPATCHED := CommandRecord(COMMAND, "operation", StateUnknown, None)
  const COMMITTED := CommandRecord(COMMAND, "operation", StateCommitted, Some(SAVED))

  function Journalled(current: map<Id, CommandRecord>, stored: map<Id, CommandRecord>): J.Journal
  {
    J.Journal(ADMITTED, current, {}, Some(ROOM), ADMITTED, stored)
  }

  const BOUND := START.(journal := START.journal.(binding := Some(ROOM)))

  function Conversing(journal: J.Journal, broker: State, waiting: map<Id, Id>, made: set<Id>, handed: seq<Id>): System
  {
    System(journal, broker, {"operation"}, {"operation"}, waiting, made, handed, {})
  }

  const ATTACHED := BOUND.(broker := State([Endpoint(false, None, [])], map[], map[], false, [], map[]))
  const REGISTERED := BOUND.(broker := Studio(WAITING_ROOM, [], map[], [], map[]))
  const CONNECTED := BOUND.(broker := READY)
  const PROMPTED := Conversing(Journalled(map[], map[]), READY, map[], {}, [])
  const LISTED := Conversing(Journalled(map["c" := PREPARED], map[]), READY, map[], {"c"}, [])
  const HANDED := Conversing(Journalled(map["c" := DISPATCHED], map[]), ASKED, map["first" := "c"], {"c"}, ["c"])
  const REPLIED := Conversing(Journalled(map["c" := DISPATCHED], map[]), ANSWERED, map["first" := "c"], {"c"}, ["c"])
  const SETTLED := Conversing(Journalled(map["c" := COMMITTED], map["c" := COMMITTED]), ANSWERED, map[], {"c"}, ["c"])

  function EventAt(k: nat): Event
  {
    if k == 0 then Binds(Some(ROOM))
    else if k == 1 then Brokered(Attaches)
    else if k == 2 then Brokered(REGISTERS)
    else if k == 3 then Brokered(IsReady(0, "generation"))
    else if k == 4 then Prompts("operation", None, true, true)
    else if k == 5 then Prepares("operation", COMMAND)
    else if k == 6 then Executes("c", "first", false, false)
    else if k == 7 then Brokered(Responds(0, REPLY))
    else Returns("first", true)
  }

  function StateAt(k: nat): System
  {
    if k == 0 then START
    else if k == 1 then BOUND
    else if k == 2 then ATTACHED
    else if k == 3 then REGISTERED
    else if k == 4 then CONNECTED
    else if k == 5 then PROMPTED
    else if k == 6 then LISTED
    else if k == 7 then HANDED
    else if k == 8 then REPLIED
    else SETTLED
  }

  const EVENTS: seq<Event> := seq(9, k requires 0 <= k => EventAt(k))
  const STATES: seq<System> := seq(10, k requires 0 <= k => StateAt(k))

  ghost predicate Happens(s: System, e: Event, t: System, owner: Owner)
  {
    Enabled(s, e, owner) && t == StudioSession.Next(s, e)
  }

  lemma {:induction false} Attaching(owner: Owner)
    ensures Happens(BOUND, Brokered(Attaches), ATTACHED, owner)
  {
  }

  lemma {:induction false} Registering(owner: Owner)
    ensures Happens(ATTACHED, Brokered(REGISTERS), REGISTERED, owner)
  {
  }

  lemma {:induction false} Connecting(owner: Owner)
    ensures Happens(REGISTERED, Brokered(IsReady(0, "generation")), CONNECTED, owner)
  {
  }

  lemma {:induction false} Prompting(owner: Owner)
    ensures Happens(CONNECTED, Prompts("operation", None, true, true), PROMPTED, owner)
  {
  }

  lemma {:induction false} Preparing()
    ensures PrepareIn(PROMPTED, "operation", COMMAND) == (LISTED, Ok(PREPARED))
  {
  }

  lemma {:induction false} PreparingHappens(owner: Owner)
    requires owner("c") == "operation"
    ensures Happens(PROMPTED, Prepares("operation", COMMAND), LISTED, owner)
  {
    Preparing();
  }

  lemma {:induction false} Dispatching()
    ensures J.Dispatch(LISTED.journal, "c", false) == (HANDED.journal, Ok(DISPATCHED))
  {
    assert map["c" := PREPARED]["c" := DISPATCHED] == map["c" := DISPATCHED];
  }

  /** The connected Studio is asked, whatever it was asked before. */
  lemma {:induction false} Asking(open: seq<Request>, pending: map<Id, Pending>, sent: seq<Pending>, finished: map<Id,
                                  Outcome>, requestId: Id)
    ensures Send(Studio(ONLINE_ROOM, open, pending, sent, finished), ROOM, AskExecute(COMMAND), requestId, false)
            == Ok(Studio(ONLINE_ROOM, open + [Asked(requestId)], pending[requestId := Pending(0, Asked(requestId))],
                         sent + [Pending(0, Asked(requestId))], finished))
  {
    var at := Endpoint(false, Some(ONLINE_ROOM), open);
    Only(at, at.(mailbox := open + [Asked(requestId)]));
  }

  lemma {:induction false} Only<T>(x: T, y: T)
    ensures [x][0 := y] == [y]
  {
  }

  lemma {:induction false} Sending(owner: Owner)
    requires owner("c") == "operation"
    ensures Happens(LISTED, Executes("c", "first", false, false), HANDED, owner)
  {
    Dispatching();
    Asking([], map[], [], map[], "first");
    assert [] + [Asked("first")] == [Asked("first")];
    assert [] + [Pending(0, Asked("first"))] == [Pending(0, Asked("first"))];
    assert [] + ["c"] == ["c"];
  }

  lemma {:induction false} ReplyIsBelieved()
    ensures RefuseResult("design", COMMAND, SAVED).None?
  {
  }

  lemma {:induction false} Finishing()
    ensures Finish(ASKED, {"first"}, Resolved(ResultBody(SAVED, None))) == ANSWERED
  {
    var t := Finish(ASKED, {"first"}, Resolved(ResultBody(SAVED, None)));
    assert {"first"} * ASKED.pending.Keys == {"first"};
    assert OpenAt(ASKED, 0) == {"first"};
    assert {"first"} * {"first"} == {"first"};
    Dropping();
    assert t.pending == map[];
    assert t.finished == ANSWERED.finished;
    assert t.endpoints == ANSWERED.endpoints;
  }

  lemma {:induction false} Dropping()
    ensures DropRequests([Asked("first")], {"first"}) == []
  {
    assert [Asked("first")][1..] == [];
  }

  lemma {:induction false} Replying(owner: Owner)
    ensures Happens(HANDED, Brokered(Responds(0, REPLY)), REPLIED, owner)
  {
    ReplyIsBelieved();
    Finishing();
  }

  lemma {:induction false} Settling(owner: Owner)
    ensures Happens(REPLIED, Returns("first", true), SETTLED, owner)
  {
  }

  // ---- The run --------------------------------------------------------------------------

  lemma {:induction false} EveryStep(owner: Owner, k: nat)
    requires owner("c") == "operation" && k < 9
    ensures Happens(StateAt(k), EventAt(k), StateAt(k + 1), owner)
  {
    if k == 1 {
      Attaching(owner);
    } else if k == 2 {
      Registering(owner);
    } else if k == 3 {
      Connecting(owner);
    } else if k == 4 {
      Prompting(owner);
    } else if k == 5 {
      PreparingHappens(owner);
    } else if k == 6 {
      Sending(owner);
    } else if k == 7 {
      Replying(owner);
    } else if k == 8 {
      Settling(owner);
    }
  }

  lemma {:induction false} RunHappens(owner: Owner)
    requires owner("c") == "operation"
    ensures StudioSession.Run(STATES, EVENTS, owner)
  {
    forall k: nat | k < |EVENTS| ensures Enabled(STATES[k], EVENTS[k], owner)
    && STATES[k + 1] == StudioSession.Next(STATES[k], EVENTS[k]) {
      EveryStep(owner, k);
    }
  }

  lemma {:induction false} SendsAgain()
    ensures Execute(SETTLED, PREPARED, "second", false, false).broker
            == Studio(ONLINE_ROOM, [Asked("second")], map["second" := Pending(0, Asked("second"))],
                      [Pending(0, Asked("first")), Pending(0, Asked("second"))], ANSWERED.finished)
    ensures Execute(SETTLED, PREPARED, "second", false, false).handed == ["c", "c"]
  {
    Asking([], map[], [Pending(0, Asked("first"))], ANSWERED.finished, "second");
    assert [] + [Asked("second")] == [Asked("second")];
  }

  /** The saved command is sent a second time: `execute`, given the record that `prepare` returned, puts a
      second request for it into the Studio's mailbox. The run that leads there is one of those for which
      everything else is proved. */
  lemma {:induction false} StaleRecordSendsAgain(owner: Owner) returns (record: CommandRecord, t: System)
    requires owner("c") == "operation"
    ensures StudioSession.Run(STATES, EVENTS, owner) && STATES[|EVENTS|] == SETTLED
    ensures PrepareIn(STATES[5], "operation", COMMAND).1 == Ok(record) && EVENTS[5] == Prepares("operation", COMMAND)
    ensures SETTLED.journal.current["c"].state.StateCommitted? && SETTLED.broker.sent == [Pending(0, Asked("first"))]
    ensures NewId(SETTLED.broker, "second") && t == Execute(SETTLED, record, "second", false, false)
    ensures t.broker.sent == [Pending(0, Asked("first")), Pending(0, Asked("second"))]
    ensures t.broker.endpoints[0].mailbox == [Asked("second")] && t.handed == ["c", "c"]
  {
    RunHappens(owner);
    Preparing();
    record := PREPARED;
    t := Execute(SETTLED, record, "second", false, false);
    SendsAgain();
  }
}
