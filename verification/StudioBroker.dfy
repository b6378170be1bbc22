/** packages/decorator-agent/src/studio-broker.ts itself. Connections are numbered by the endpoints they
    belong to; `sent` and `finished` record the history that the specification speaks about. */
module StudioBroker {
  import opened Outcomes
  import opened StudioContract
  import opened StudioReplies
  import opened StudioBrokerState

  class Broker {
    var endpoints: seq<Endpoint>
    var connections: map<Id, nat>
    var pending: map<Id, Pending>
    var closed: bool
    ghost var sent: seq<Pending>
    ghost var finished: map<Id, Outcome>

    ghost function Now(): State
      reads this
    {
      State(endpoints, connections, pending, closed, sent, finished)
    }

    ghost predicate Valid()
      reads this
    {
      Sound(Now(), {})
    }

    constructor ()
      ensures Valid() && Now() == INITIAL
    {
      endpoints, connections, pending, closed, sent, finished := [], map[], map[], false, [], map[];
    }

    method Attach() returns (e: nat)
      requires Valid()
      modifies this
      ensures Valid() && Now() == Next(old(Now()), Attaches) && e == |old(endpoints)|
    {
      StepKeeps(Now(), Attaches);
      e := |endpoints|;
      endpoints := endpoints + [Endpoint(false, None, [])];
    }

    method Register(e: nat, r: Registration, generation: Id) returns (result: Result<Id, ErrorCode>)
      requires Valid() && e < |endpoints|
      modifies this
      ensures Valid() && Now() == Next(old(Now()), Registers(e, r, generation))
      ensures var done := StudioBrokerState.Register(old(Now()), e, r, generation);
              result == if done.Ok? then Ok(generation) else Err(done.error)
    {
      StepKeeps(Now(), Registers(e, r, generation));
      var at := endpoints[e];
      if at.released || closed || at.connection.Some? {
        return Err(WrongBinding);
      }
      if r.contractVersion != STUDIO_CONTRACT_VERSION || r.tabId == "" || r.designId == "" {
        return Err(InvalidArguments);
      }
      if r.tabId in connections {
        return Err(WrongBinding);
      }
      var connection := Connection(Binding(r.designId, r.tabId), r.caption, generation, -1, Offline, None, false);
      endpoints := endpoints[e := at.(connection := Some(connection))];
      connections := connections[r.tabId := e];
      result := Ok(generation);
    }

    method Authorized(e: nat, generation: Id) returns (result: Result<Connection, ErrorCode>)
      requires e < |endpoints|
      ensures result == Authorize(Now(), e, generation)
    {
      var at := endpoints[e];
      if at.released || at.connection.None? || closed || at.connection.value.generation != generation {
        return Err(WrongBinding);
      }
      var tab := at.connection.value.binding.tabId;
      if tab !in connections || connections[tab] != e {
        return Err(WrongBinding);
      }
      result := Ok(at.connection.value);
    }

    method BecomeReady(e: nat, generation: Id) returns (error: Option<ErrorCode>)
      requires Valid() && e < |endpoints|
      modifies this
      ensures Valid() && Now() == Next(old(Now()), IsReady(e, generation))
      ensures var r := Ready(old(Now()), e, generation); error == if r.Err? then Some(r.error) else None
    {
      StepKeeps(Now(), IsReady(e, generation));
      var current := Authorized(e, generation);
      if current.Err? {
        return Some(current.error);
      }
      if !current.value.subscribed {
        var online := current.value.(subscribed := true, phase := Online);
        endpoints := endpoints[e := endpoints[e].(connection := Some(online))];
      }
      error := None;
    }

    method Apply(e: nat, update: ContextUpdate) returns (error: Option<ErrorCode>)
      requires e < |endpoints| && endpoints[e].connection.Some?
      modifies this
      ensures var applied := ApplyContext(old(Now()), e, update);
              && Now() == Or(applied, old(Now()))
              && error == if applied.Err? then Some(applied.error) else None
    {
      var connection := endpoints[e].connection.value;
      if update.generation != connection.generation || update.snapshot.designId != connection.binding.designId {
        return Some(WrongBinding);
      }
      if !GoodSequence(update.sequence) {
        return Some(InvalidArguments);
      }
      error := None;
      if update.sequence > connection.sequence {
        if !NamesRoom(update.snapshot) {
          return Some(InvalidArguments);
        }
        connection := connection.(sequence := update.sequence);
        connection := connection.(snapshot := Some(update.snapshot));
        endpoints := endpoints[e := endpoints[e].(connection := Some(connection))];
      }
    }

    method Publish(e: nat, update: ContextUpdate) returns (error: Option<ErrorCode>)
      requires Valid() && e < |endpoints|
      modifies this
      ensures Valid() && Now() == Next(old(Now()), Publishes(e, update))
      ensures var r := PublishContext(old(Now()), e, update); error == if r.Err? then Some(r.error) else None
    {
      StepKeeps(Now(), Publishes(e, update));
      var current := Authorized(e, update.generation);
      if current.Err? {
        return Some(current.error);
      }
      error := Apply(e, update);
    }

    method Select(e: nat, update: SelectionUpdate) returns (error: Option<ErrorCode>)
      requires Valid() && e < |endpoints|
      modifies this
      ensures Valid() && Now() == Next(old(Now()), Selects(e, update))
      ensures var r := PublishSelection(old(Now()), e, update); error == if r.Err? then Some(r.error) else None
    {
      StepKeeps(Now(), Selects(e, update));
      var current := Authorized(e, update.generation);
      if current.Err? {
        return Some(current.error);
      }
      if !GoodSequence(update.sequence) {
        return Some(InvalidArguments);
      }
      error := None;
      var connection := current.value;
      if update.sequence > connection.sequence && connection.snapshot.Some? {
        if "" in update.selected {
          return Some(InvalidTarget);
        }
        connection := connection.(sequence := update.sequence);
        connection := connection.(snapshot := Some(connection.snapshot.value.(selected := update.selected)));
        endpoints := endpoints[e := endpoints[e].(connection := Some(connection))];
      }
    }

    /** Ends one request, if it is still open, and takes it out of the mailbox that lists it. */
    method FinishOne(id: Id, outcome: Outcome)
      requires forall k | k in pending :: pending[k].endpoint < |endpoints|
      modifies this
      ensures Now() == Finish(old(Now()), {id}, outcome)
    {
      if id in pending {
        ghost var s := Now();
        var e := pending[id].endpoint;
        pending := pending - {id};
        endpoints := endpoints[e := endpoints[e].(mailbox := DropRequests(endpoints[e].mailbox, {id}))];
        finished := finished[id := outcome];
        FinishedState(s, id, outcome);
      } else {
        FinishNone(Now(), outcome);
        FinishAbsent(Now(), id, outcome);
      }
    }

    method FinishAll(ids: set<Id>, outcome: Outcome)
      requires forall k | k in pending :: pending[k].endpoint < |endpoints|
      modifies this
      ensures Now() == Finish(old(Now()), ids, outcome)
    {
      ghost var s := Now();
      var todo := ids;
      FinishNone(s, outcome);
      assert ids - todo == {};
      while todo != {}
        invariant todo <= ids
        invariant Now() == Finish(s, ids - todo, outcome)
        invariant forall k | k in pending :: pending[k].endpoint < |endpoints|
        decreases todo
      {
        var id :| id in todo;
        FinishMore(s, ids - todo, id, outcome);
        assert ids - todo + {id} == ids - (todo - {id});
        FinishOne(id, outcome);
        todo := todo - {id};
      }
      assert ids - todo == ids;
    }

    method Respond(e: nat, response: Response) returns (error: Option<ErrorCode>)
      requires Valid() && e < |endpoints|
      modifies this
      ensures Valid() && Now() == Next(old(Now()), Responds(e, response))
      ensures error == StudioBrokerState.Respond(old(Now()), e, response).1
    {
      StepKeeps(Now(), Responds(e, response));
      var current := Authorized(e, response.generation);
      if current.Err? {
        return Some(current.error);
      }
      if response.requestId !in pending {
        return None;
      }
      var asked := pending[response.requestId];
      if asked.endpoint != e {
        return Some(WrongBinding);
      }
      assert Live(Now(), asked);
      DeliverKeeps(Now(), e, asked.request, response);
      error := Check(e, asked.request, response);
      OwnersExist(Now());
      if error.Some? && asked.request.ask.AskExecute? && response.body.ResultBody? && response.body.result.Saved? {
        FinishOne(response.requestId, Failed(OutcomeUnknown));
      }
    }

    method CheckResult(e: nat, request: Request, response: Response) returns (error: Option<ErrorCode>)
      requires Valid() && e < |endpoints| && endpoints[e].connection.Some? && response.body.ResultBody?
      modifies this
      ensures (Now(), error) == Deliver(old(Now()), e, request, response)
    {
      if !request.ask.AskExecute? {
        return Some(WrongBinding);
      }
      var result, context := response.body.result, response.body.context;
      OwnersExist(Now());
      error := RefuseResult(endpoints[e].connection.value.binding.designId, request.ask.command, result);
      if error.None? {
        FinishOne(response.requestId, Resolved(response.body));
        if context.Some? {
          error := Apply(e, context.value);
        }
      }
    }

    method Check(e: nat, request: Request, response: Response) returns (error: Option<ErrorCode>)
      requires Valid() && e < |endpoints| && endpoints[e].connection.Some?
      modifies this
      ensures (Now(), error) == Deliver(old(Now()), e, request, response)
    {
      OwnersExist(Now());
      error := None;
      match response.body {
        case ContextBody(update) =>
          if !request.ask.AskContext? {
            return Some(InvalidArguments);
          }
          error := Apply(e, update);
          if error.None? {
            FinishOne(response.requestId, Resolved(response.body));
          }
        case ResultBody(_, _) =>
          error := CheckResult(e, request, response);
        case ErrorBody(_) =>
          FinishOne(response.requestId, Resolved(response.body));
        case OtherBody =>
          error := Some(InvalidArguments);
      }
    }

    method Release(e: nat)
      requires Valid() && e < |endpoints|
      modifies this
      ensures Valid() && Now() == Next(old(Now()), Releases(e))
      ensures endpoints[e].mailbox == [] && forall id | id in pending :: pending[id].endpoint != e
    {
      ReleaseKeeps(Now(), e);
      NoneOpenAt(StudioBrokerState.Release(Now(), e), e);
      OwnersExist(Now());
      Retire(e);
    }

    method Retire(e: nat)
      requires e < |endpoints| && forall k | k in pending :: pending[k].endpoint < |endpoints|
      modifies this
      ensures Now() == StudioBrokerState.Release(old(Now()), e)
    {
      var at := endpoints[e];
      if !at.released {
        endpoints := endpoints[e := at.(released := true)];
        if at.connection.Some? && at.connection.value.binding.tabId in connections
        && connections[at.connection.value.binding.tabId] == e {
          CutOff(e, at.connection.value);
        }
      }
    }

    /** The rest of a release: the connection is forgotten and its requests are ended. */
    method CutOff(e: nat, connection: Connection)
      requires e < |endpoints| && forall k | k in pending :: pending[k].endpoint < |endpoints|
      modifies this
      ensures var gone := connection.(phase := Offline, subscribed := false, snapshot := None);
              var cut := WithConnection(old(Now()), e, gone).(
                connections := old(connections) - {connection.binding.tabId});
              var done := Finish(cut, OpenAt(cut, e), Failed(StudioUnavailable));
              Now() == done.(endpoints := done.endpoints[e := done.endpoints[e].(mailbox := [])])
    {
      connections := connections - {connection.binding.tabId};
      var gone := connection.(phase := Offline, subscribed := false, snapshot := None);
      endpoints := endpoints[e := endpoints[e].(connection := Some(gone))];
      var open := set id | id in pending && pending[id].endpoint == e;
      assert open == OpenAt(Now(), e);
      FinishAll(open, Failed(StudioUnavailable));
      endpoints := endpoints[e := endpoints[e].(mailbox := [])];
    }

    method ConnectionFor(binding: Binding) returns (result: Result<nat, ErrorCode>)
      requires Valid()
      ensures result == Connected(Now(), binding)
      ensures result.Ok? ==> result.value < |endpoints| && endpoints[result.value].connection.Some?
    {
      if closed || binding.tabId !in connections {
        return Err(StudioUnavailable);
      }
      var e := connections[binding.tabId];
      assert Serves(Now(), binding.tabId, e);
      var connection := endpoints[e].connection.value;
      if connection.phase.Offline? || !connection.subscribed {
        return Err(StudioUnavailable);
      }
      if connection.binding.designId != binding.designId {
        return Err(WrongBinding);
      }
      result := Ok(e);
    }

    method Request(binding: Binding, ask: Ask, requestId: Id, aborted: bool) returns (error: Option<ErrorCode>)
      requires Valid() && NewId(Now(), requestId)
      modifies this
      ensures Valid() && Now() == Next(old(Now()), Sends(binding, ask, requestId, aborted))
      ensures var r := Send(old(Now()), binding, ask, requestId, aborted);
              error == if r.Err? then Some(r.error) else None
    {
      StepKeeps(Now(), Sends(binding, ask, requestId, aborted));
      var to := ConnectionFor(binding);
      if to.Err? {
        return Some(to.error);
      }
      if aborted {
        return Some(OutcomeUnknown);
      }
      Enqueue(to.value, ask, requestId);
      error := None;
    }

    method Enqueue(e: nat, ask: Ask, requestId: Id)
      requires e < |endpoints| && endpoints[e].connection.Some?
      modifies this
      ensures var s := old(Now());
              var connection := s.endpoints[e].connection.value;
              var request := StudioBrokerState.Request(requestId, connection.generation, connection.binding, ask);
              Now() == s.(pending := s.pending[requestId := Pending(e, request)],
                          endpoints := s.endpoints[e := s.endpoints[e].(mailbox := s.endpoints[e].mailbox + [request])],
                          sent := s.sent + [Pending(e, request)])
    {
      var connection := endpoints[e].connection.value;
      var request := StudioBrokerState.Request(requestId, connection.generation, connection.binding, ask);
      pending := pending[requestId := Pending(e, request)];
      endpoints := endpoints[e := endpoints[e].(mailbox := endpoints[e].mailbox + [request])];
      sent := sent + [Pending(e, request)];
    }

    method TimeOut(id: Id)
      requires Valid()
      modifies this
      ensures Valid() && Now() == Next(old(Now()), TimesOut(id))
    {
      OwnersExist(Now());
      if id in pending {
        FinishKeeps(Now(), {id}, Failed(if pending[id].request.ask.AskContext? then StudioUnavailable
                                        else OutcomeUnknown));
        FinishOne(id, Failed(if pending[id].request.ask.AskContext? then StudioUnavailable else OutcomeUnknown));
      }
    }

    method Stop(id: Id)
      requires Valid()
      modifies this
      ensures Valid() && Now() == Next(old(Now()), Stops(id))
    {
      FinishKeeps(Now(), {id}, Failed(OutcomeUnknown));
      OwnersExist(Now());
      FinishOne(id, Failed(OutcomeUnknown));
    }

    method Close()
      requires Valid()
      modifies this
      ensures Valid() && Now() == Next(old(Now()), Closes) && pending == map[]
    {
      CloseKeeps(Now());
      OwnersExist(Now());
      closed := true;
      FinishAll(pending.Keys, Failed(StudioUnavailable));
    }
  }
}
