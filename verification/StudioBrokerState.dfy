/** The states of packages/decorator-agent/src/studio-broker.ts: requests are routed to the Studio that
    is connected for a tab, and every request ends once, whatever ends it. */
module StudioBrokerState {
  import opened Outcomes
  import opened StudioContract
  import opened StudioReplies

  const STUDIO_CONTRACT_VERSION := 1
  const MAX_SAFE_INTEGER := 0x1F_FFFF_FFFF_FFFF

  datatype Registration = Registration(contractVersion: int, tabId: Id, designId: Id, caption: string)
  datatype ContextUpdate = ContextUpdate(generation: Id, sequence: int, snapshot: Snapshot)
  datatype SelectionUpdate = SelectionUpdate(generation: Id, sequence: int, selected: seq<Id>)

  datatype Ask = AskContext | AskExecute(command: Command)
  datatype Request = Request(requestId: Id, generation: Id, binding: Binding, ask: Ask)

  datatype Body =
    | ContextBody(update: ContextUpdate)
    | ResultBody(result: CommandResult, context: Option<ContextUpdate>)
    | ErrorBody(code: ErrorCode)
    | OtherBody

  datatype Response = Response(requestId: Id, generation: Id, body: Body)

  /** How the promise of a request was settled. */
  datatype Outcome = Resolved(body: Body) | Failed(code: ErrorCode)

  datatype Phase = Offline | Online

  datatype Connection = Connection(binding: Binding, caption: string, generation: Id, sequence: int, phase: Phase,
                                   snapshot: Option<Snapshot>, subscribed: bool)

  /** What one call of `attach` returns; its index among all of them is the identity of its connection. */
  datatype Endpoint = Endpoint(released: bool, connection: Option<Connection>, mailbox: seq<Request>)

  datatype Pending = Pending(endpoint: nat, request: Request)

  /** `sent` and `finished` are history: every request ever sent, in order, and how those that are over ended. */
  datatype State = State(endpoints: seq<Endpoint>, connections: map<Id, nat>, pending: map<Id, Pending>, closed: bool,
                         sent: seq<Pending>, finished: map<Id, Outcome>)

  const INITIAL := State([], map[], map[], false, [], map[])

  // ---- What the operations do -------------------------------------------------------

  function Authorize(s: State, e: nat, generation: Id): Result<Connection, ErrorCode>
    requires e < |s.endpoints|
  {
    var at := s.endpoints[e];
    if at.released || at.connection.None? || s.closed || at.connection.value.generation != generation then
      Err(WrongBinding)
    else
      var tab := at.connection.value.binding.tabId;
      if tab in s.connections && s.connections[tab] == e then Ok(at.connection.value) else Err(WrongBinding)
  }

  function WithConnection(s: State, e: nat, connection: Connection): State
    requires e < |s.endpoints|
  {
    s.(endpoints := s.endpoints[e := s.endpoints[e].(connection := Some(connection))])
  }

  function Register(s: State, e: nat, r: Registration, generation: Id): Result<State, ErrorCode>
    requires e < |s.endpoints|
  {
    var at := s.endpoints[e];
    if at.released || s.closed || at.connection.Some? then
      Err(WrongBinding)
    else if r.contractVersion != STUDIO_CONTRACT_VERSION || r.tabId == "" || r.designId == "" then
      Err(InvalidArguments)
    else if r.tabId in s.connections then
      Err(WrongBinding)
    else
      var connection := Connection(Binding(r.designId, r.tabId), r.caption, generation, -1, Offline, None, false);
      Ok(WithConnection(s, e, connection).(connections := s.connections[r.tabId := e]))
  }

  function Ready(s: State, e: nat, generation: Id): Result<State, ErrorCode>
    requires e < |s.endpoints|
  {
    var current := Authorize(s, e, generation);
    if current.Err? then Err(current.error)
    else if current.value.subscribed then Ok(s)
    else Ok(WithConnection(s, e, current.value.(subscribed := true, phase := Online)))
  }

  predicate GoodSequence(sequence: int) { 0 <= sequence <= MAX_SAFE_INTEGER }

  function ApplyContext(s: State, e: nat, update: ContextUpdate): Result<State, ErrorCode>
    requires e < |s.endpoints| && s.endpoints[e].connection.Some?
  {
    var connection := s.endpoints[e].connection.value;
    if update.generation != connection.generation || update.snapshot.designId != connection.binding.designId then
      Err(WrongBinding)
    else if !GoodSequence(update.sequence) then
      Err(InvalidArguments)
    else if update.sequence <= connection.sequence then
      Ok(s)
    else if !NamesRoom(update.snapshot) then
      Err(InvalidArguments)
    else
      Ok(WithConnection(s, e, connection.(sequence := update.sequence, snapshot := Some(update.snapshot))))
  }

  function PublishContext(s: State, e: nat, update: ContextUpdate): Result<State, ErrorCode>
    requires e < |s.endpoints|
  {
    var current := Authorize(s, e, update.generation);
    if current.Err? then Err(current.error) else ApplyContext(s, e, update)
  }

  function PublishSelection(s: State, e: nat, update: SelectionUpdate): Result<State, ErrorCode>
    requires e < |s.endpoints|
  {
    var current := Authorize(s, e, update.generation);
    if current.Err? then
      Err(current.error)
    else if !GoodSequence(update.sequence) then
      Err(InvalidArguments)
    else if update.sequence <= current.value.sequence || current.value.snapshot.None? then
      Ok(s)
    else if "" in update.selected then
      Err(InvalidTarget)
    else
      var snapshot := current.value.snapshot.value.(selected := update.selected);
      Ok(WithConnection(s, e, current.value.(sequence := update.sequence, snapshot := Some(snapshot))))
  }

  /** The open requests of an endpoint. */
  function OpenAt(s: State, e: nat): set<Id>
  {
    set id | id in s.pending && s.pending[id].endpoint == e
  }

  /** `requests.filter` on the requests that are not in `ids`. */
  function DropRequests(mailbox: seq<Request>, ids: set<Id>): seq<Request>
  {
    if mailbox == [] then []
    else if mailbox[0].requestId in ids then DropRequests(mailbox[1..], ids)
    else [mailbox[0]] + DropRequests(mailbox[1..], ids)
  }

  /** `finish`, for every request of `ids` that is still open. */
  function Finish(s: State, ids: set<Id>, outcome: Outcome): State
  {
    var open := ids * s.pending.Keys;
    s.(pending := s.pending - open,
       endpoints := seq(|s.endpoints|, e requires 0 <= e < |s.endpoints| =>
                          s.endpoints[e].(mailbox := DropRequests(s.endpoints[e].mailbox, OpenAt(s, e) * ids))),
       finished := s.finished + map id | id in open :: outcome)
  }

  /** `respond` inside the broker: the reply is checked against the request it answers. */
  function Deliver(s: State, e: nat, request: Request, response: Response): (State, Option<ErrorCode>)
    requires e < |s.endpoints| && s.endpoints[e].connection.Some?
  {
    match response.body
    case ContextBody(update) =>
      if !request.ask.AskContext? then
        (s, Some(InvalidArguments))
      else
        var applied := ApplyContext(s, e, update);
        if applied.Err? then (s, Some(applied.error))
        else (Finish(applied.value, {response.requestId}, Resolved(response.body)), None)
    case ResultBody(result, context) =>
      if !request.ask.AskExecute? then
        (s, Some(WrongBinding))
      else
        var refused := RefuseResult(s.endpoints[e].connection.value.binding.designId, request.ask.command, result);
        if refused.Some? then
          (s, refused)
        else
          var done := Finish(s, {response.requestId}, Resolved(response.body));
          var applied := if context.Some? then ApplyContext(done, e, context.value) else Ok(done);
          if applied.Err? then (done, Some(applied.error)) else (applied.value, None)
    case ErrorBody(_) => (Finish(s, {response.requestId}, Resolved(response.body)), None)
    case OtherBody => (s, Some(InvalidArguments))
  }

  /** The service's `respond`: a save whose report cannot be validated leaves an unknown outcome. */
  function Respond(s: State, e: nat, response: Response): (State, Option<ErrorCode>)
    requires e < |s.endpoints|
  {
    var current := Authorize(s, e, response.generation);
    if current.Err? then
      (s, Some(current.error))
    else if response.requestId !in s.pending then
      (s, None)
    else
      var pending := s.pending[response.requestId];
      if pending.endpoint != e then
        (s, Some(WrongBinding))
      else
        var (next, error) := Deliver(s, e, pending.request, response);
        if error.Some? && pending.request.ask.AskExecute? && response.body.ResultBody?
        && response.body.result.Saved? then
          (Finish(next, {response.requestId}, Failed(OutcomeUnknown)), error)
        else
          (next, error)
  }

  function Release(s: State, e: nat): State
    requires e < |s.endpoints|
  {
    var at := s.endpoints[e];
    var out := s.(endpoints := s.endpoints[e := at.(released := true)]);
    if at.released then
      s
    else if at.connection.None? || at.connection.value.binding.tabId !in s.connections
            || s.connections[at.connection.value.binding.tabId] != e then
      out
    else
      var gone := at.connection.value.(phase := Offline, subscribed := false, snapshot := None);
      var cut := WithConnection(out, e, gone).(connections := s.connections - {at.connection.value.binding.tabId});
      var done := Finish(cut, OpenAt(cut, e), Failed(StudioUnavailable));
      done.(endpoints := done.endpoints[e := done.endpoints[e].(mailbox := [])])
  }

  function Connected(s: State, binding: Binding): Result<nat, ErrorCode>
  {
    if s.closed || binding.tabId !in s.connections || s.connections[binding.tabId] >= |s.endpoints| then
      Err(StudioUnavailable)
    else
      var e := s.connections[binding.tabId];
      var c := s.endpoints[e].connection;
      if c.None? || c.value.phase.Offline? || !c.value.subscribed then Err(StudioUnavailable)
      else if c.value.binding.designId != binding.designId then Err(WrongBinding)
      else Ok(e)
  }

  /** `request`, after `connection`: the promise stays open until it is finished. */
  function Send(s: State, binding: Binding, ask: Ask, requestId: Id, aborted: bool): Result<State, ErrorCode>
  {
    var to := Connected(s, binding);
    if to.Err? then
      Err(to.error)
    else if aborted || s.endpoints[to.value].connection.None? then
      Err(OutcomeUnknown)
    else
      var e, at := to.value, s.endpoints[to.value];
      var request := Request(requestId, at.connection.value.generation, at.connection.value.binding, ask);
      Ok(s.(pending := s.pending[requestId := Pending(e, request)],
            endpoints := s.endpoints[e := at.(mailbox := at.mailbox + [request])],
            sent := s.sent + [Pending(e, request)]))
  }

  function Timeout(s: State, id: Id): State
  {
    if id !in s.pending then s
    else Finish(s, {id}, Failed(if s.pending[id].request.ask.AskContext? then StudioUnavailable else OutcomeUnknown))
  }

  function StopWaiting(s: State, id: Id): State
  {
    Finish(s, {id}, Failed(OutcomeUnknown))
  }

  function Close(s: State): State
  {
    Finish(s.(closed := true), s.pending.Keys, Failed(StudioUnavailable))
  }

  datatype Step =
    | Attaches
    | Registers(endpoint: nat, registration: Registration, generation: Id)
    | IsReady(endpoint: nat, generation: Id)
    | Publishes(endpoint: nat, update: ContextUpdate)
    | Selects(endpoint: nat, selection: SelectionUpdate)
    | Responds(endpoint: nat, response: Response)
    | Releases(endpoint: nat)
    | Sends(binding: Binding, ask: Ask, requestId: Id, aborted: bool)
    | TimesOut(requestId: Id)
    | Stops(requestId: Id)
    | Closes

  function Or(r: Result<State, ErrorCode>, s: State): State { if r.Ok? then r.value else s }

  function Next(s: State, step: Step): State
  {
    match step
    case Attaches => s.(endpoints := s.endpoints + [Endpoint(false, None, [])])
    case Registers(e, r, generation) => if e < |s.endpoints| then Or(Register(s, e, r, generation), s) else s
    case IsReady(e, generation) => if e < |s.endpoints| then Or(Ready(s, e, generation), s) else s
    case Publishes(e, update) => if e < |s.endpoints| then Or(PublishContext(s, e, update), s) else s
    case Selects(e, selection) => if e < |s.endpoints| then Or(PublishSelection(s, e, selection), s) else s
    case Responds(e, response) => if e < |s.endpoints| then Respond(s, e, response).0 else s
    case Releases(e) => if e < |s.endpoints| then Release(s, e) else s
    case Sends(binding, ask, requestId, aborted) => Or(Send(s, binding, ask, requestId, aborted), s)
    case TimesOut(id) => Timeout(s, id)
    case Stops(id) => StopWaiting(s, id)
    case Closes => Close(s)
  }

  // ---- What every reachable state satisfies -----------------------------------------

  /** The requests sent to an endpoint that are among `open`, in the order in which they were sent. */
  function OpenOf(sent: seq<Pending>, open: set<Id>, e: nat): seq<Request>
  {
    if sent == [] then
      []
    else
      var n := |sent| - 1;
      OpenOf(sent[..n], open, e) + if sent[n].endpoint == e
      && sent[n].request.requestId in open then [sent[n].request] else []
  }

  function SentId(sent: seq<Pending>, i: nat): Id
    requires i < |sent|
  {
    sent[i].request.requestId
  }

  /** The connections are live endpoints, each registered for its tab. */
  ghost predicate Routed(s: State)
  {
    forall tab | tab in s.connections :: Serves(s, tab, s.connections[tab])
  }

  predicate Serves(s: State, tab: Id, e: nat)
  {
    e < |s.endpoints| && !s.endpoints[e].released && s.endpoints[e].connection.Some?
    && s.endpoints[e].connection.value.binding.tabId == tab
  }

  /** Only live connections of an open broker have open requests, which are addressed to them. */
  predicate Live(s: State, p: Pending)
  {
    && !s.closed && p.endpoint < |s.endpoints| && s.endpoints[p.endpoint].connection.Some?
    && p.request.binding == s.endpoints[p.endpoint].connection.value.binding
    && p.request.binding.tabId in s.connections && s.connections[p.request.binding.tabId] == p.endpoint
  }

  ghost predicate OpenLive(s: State, except: set<Id>)
  {
    forall id | id in s.pending && id !in except :: Live(s, s.pending[id])
  }

  /** Each mailbox lists exactly the open requests of its connection, in send order. */
  ghost predicate MailboxesListOpen(s: State)
  {
    forall e: nat | e < |s.endpoints| :: s.endpoints[e].mailbox == OpenOf(s.sent, s.pending.Keys, e)
  }

  ghost predicate SentDistinct(sent: seq<Pending>)
  {
    forall i, j | 0 <= i < j < |sent| :: SentId(sent, i) != SentId(sent, j)
  }

  /** Every request that was sent is either open or over, once. */
  ghost predicate EndsOnce(s: State)
  {
    && SentDistinct(s.sent)
    && (forall i: nat | i < |s.sent| :: (SentId(s.sent, i) in s.pending <==> SentId(s.sent, i) !in s.finished))
    && (forall i: nat | i < |s.sent| && SentId(s.sent, i) in s.pending :: s.pending[SentId(s.sent, i)] == s.sent[i])
    && (forall i: nat | i < |s.sent| :: s.sent[i].endpoint < |s.endpoints|)
    && (forall id | id in s.pending || id in s.finished :: WasSent(s.sent, id))
  }

  ghost predicate WasSent(sent: seq<Pending>, id: Id)
  {
    exists i: nat :: i < |sent| && SentId(sent, i) == id
  }

  ghost predicate SnapshotsBelong(s: State)
  {
    forall e: nat | e < |s.endpoints| :: SnapshotBelongs(s.endpoints[e].connection)
  }

  predicate SnapshotBelongs(c: Option<Connection>)
  {
    c.Some? && c.value.snapshot.Some? ==> c.value.snapshot.value.designId == c.value.binding.designId
  }

  /** An outcome fits its request: a result was checked against the command it is about. */
  predicate Believed(request: Request, outcome: Outcome)
  {
    match outcome
    case Failed(_) => true
    case Resolved(ContextBody(_)) => request.ask.AskContext?
    case Resolved(ResultBody(result, _)) =>
      request.ask.AskExecute? && RefuseResult(request.binding.designId, request.ask.command, result).None?
    case Resolved(ErrorBody(_)) => true
    case Resolved(OtherBody) => false
  }

  ghost predicate AnswersBelieved(s: State)
  {
    forall i: nat | i < |s.sent| && SentId(s.sent, i) in s.finished ::
      Believed(s.sent[i].request, s.finished[SentId(s.sent, i)])
  }

  ghost predicate Shape(s: State, except: set<Id>)
  {
    Routed(s) && OpenLive(s, except) && SnapshotsBelong(s)
  }

  ghost predicate Log(s: State)
  {
    EndsOnce(s) && AnswersBelieved(s)
  }

  ghost predicate Sound(s: State, except: set<Id>)
  {
    Shape(s, except) && MailboxesListOpen(s) && Log(s)
  }

  /** How one state may follow another. */
  ghost predicate Evolves(a: State, b: State)
  {
    && |a.endpoints| <= |b.endpoints| && a.sent <= b.sent && (a.closed ==> b.closed)
    && (forall id | id in a.finished :: id in b.finished && b.finished[id] == a.finished[id])
    && (forall e: nat | e < |a.endpoints| :: ConnectionEvolves(a.endpoints[e].connection, b.endpoints[e].connection))
  }

  /** A registration is for ever, and a room that is shown later was published with a greater number. */
  predicate ConnectionEvolves(a: Option<Connection>, b: Option<Connection>)
  {
    a.Some? ==>
      && b.Some? && b.value.binding == a.value.binding && b.value.generation == a.value.generation
      && a.value.sequence <= b.value.sequence
      && (b.value.snapshot.Some? && b.value.snapshot != a.value.snapshot ==> a.value.sequence < b.value.sequence)
  }

  // ---- Preservation -----------------------------------------------------------------

  lemma {:induction false} DropOpenOf(sent: seq<Pending>, open: set<Id>, e: nat, ids: set<Id>)
    ensures DropRequests(OpenOf(sent, open, e), ids) == OpenOf(sent, open - ids, e)
  {
    if sent != [] {
      var n := |sent| - 1;
      DropOpenOf(sent[..n], open, e, ids);
      DropAppend(OpenOf(sent[..n], open, e),
                 if sent[n].endpoint == e && sent[n].request.requestId in open then [sent[n].request] else [], ids);
    }
  }

  lemma {:induction false} DropAppend(a: seq<Request>, b: seq<Request>, ids: set<Id>)
    ensures DropRequests(a + b, ids) == DropRequests(a, ids) + DropRequests(b, ids)
  {
    if a == [] {
      assert a + b == b;
    } else {
      assert (a + b)[0] == a[0] && (a + b)[1..] == a[1..] + b;
      DropAppend(a[1..], b, ids);
    }
  }

  /** Only which of the requests sent to the endpoint are open matters. */
  lemma {:induction false} OpenOfSame(sent: seq<Pending>, open: set<Id>, other: set<Id>, e: nat)
    requires forall i | 0 <= i < |sent| && sent[i].endpoint == e ::
               sent[i].request.requestId in open <==> sent[i].request.requestId in other
    ensures OpenOf(sent, open, e) == OpenOf(sent, other, e)
  {
    if sent != [] {
      OpenOfSame(sent[..|sent| - 1], open, other, e);
    }
  }

  lemma {:induction false} FinishKeeps(s: State, ids: set<Id>, outcome: Outcome)
    requires Sound(s, ids)
    requires forall id | id in ids && id in s.pending :: Believed(s.pending[id].request, outcome)
    ensures Sound(Finish(s, ids, outcome), {}) && Evolves(s, Finish(s, ids, outcome))
  {
    FinishEnds(s, ids, outcome);
    FinishMailboxes(s, ids, outcome);
    FinishShape(s, ids, outcome);
  }

  lemma {:induction false} FinishShape(s: State, ids: set<Id>, outcome: Outcome)
    requires Shape(s, ids)
    ensures Shape(Finish(s, ids, outcome), {})
    ensures SameButMail(s, Finish(s, ids, outcome))
  {
    var t := Finish(s, ids, outcome);
    forall tab | tab in t.connections ensures Serves(t, tab, t.connections[tab]) {
      assert Serves(s, tab, s.connections[tab]);
    }
    forall id | id in t.pending ensures Live(t, t.pending[id]) {
      assert Live(s, s.pending[id]);
    }
  }

  /** Only mailboxes differ. */
  ghost predicate SameButMail(s: State, t: State)
  {
    |s.endpoints| == |t.endpoints|
    && forall e: nat | e < |s.endpoints| :: t.endpoints[e] == s.endpoints[e].(mailbox := t.endpoints[e].mailbox)
  }

  lemma {:induction false} FinishEnds(s: State, ids: set<Id>, outcome: Outcome)
    requires Log(s)
    requires forall id | id in ids && id in s.pending :: Believed(s.pending[id].request, outcome)
    ensures Log(Finish(s, ids, outcome))
    ensures forall id | id in s.finished ::
              id in Finish(s, ids, outcome).finished && Finish(s, ids, outcome).finished[id] == s.finished[id]
  {
    FinishOnce(s, ids, outcome);
    var t := Finish(s, ids, outcome);
    forall i: nat | i < |t.sent| && SentId(t.sent, i) in t.finished
      ensures Believed(t.sent[i].request, t.finished[SentId(t.sent, i)])
    {
      if SentId(s.sent, i) in s.pending {
        assert s.pending[SentId(s.sent, i)] == s.sent[i];
      }
    }
  }

  lemma {:induction false} FinishOnce(s: State, ids: set<Id>, outcome: Outcome)
    requires EndsOnce(s)
    ensures EndsOnce(Finish(s, ids, outcome))
    ensures forall id | id in s.finished ::
              id in Finish(s, ids, outcome).finished && Finish(s, ids, outcome).finished[id] == s.finished[id]
  {
    forall id | id in s.finished ensures id !in s.pending {
      var i: nat :| i < |s.sent| && SentId(s.sent, i) == id;
    }
  }

  lemma {:induction false} FinishMailboxes(s: State, ids: set<Id>, outcome: Outcome)
    requires MailboxesListOpen(s) && EndsOnce(s)
    ensures MailboxesListOpen(Finish(s, ids, outcome))
  {
    var t := Finish(s, ids, outcome);
    assert t.pending.Keys == s.pending.Keys - ids;
    forall e: nat | e < |s.endpoints| ensures t.endpoints[e].mailbox == OpenOf(t.sent, t.pending.Keys, e) {
      FinishedMailbox(s, ids, e);
    }
  }

  lemma {:induction false} FinishedMailbox(s: State, ids: set<Id>, e: nat)
    requires e < |s.endpoints| && MailboxesListOpen(s) && EndsOnce(s)
    ensures DropRequests(s.endpoints[e].mailbox, OpenAt(s, e) * ids) == OpenOf(s.sent, s.pending.Keys - ids, e)
  {
    var mine := OpenAt(s, e) * ids;
    DropOpenOf(s.sent, s.pending.Keys, e, mine);
    forall i: nat | i < |s.sent| && s.sent[i].endpoint == e
      ensures s.sent[i].request.requestId in s.pending.Keys - mine
              <==> s.sent[i].request.requestId in s.pending.Keys - ids
    {
      assert SentId(s.sent, i) in s.pending ==> s.pending[SentId(s.sent, i)] == s.sent[i];
    }
    OpenOfSame(s.sent, s.pending.Keys - mine, s.pending.Keys - ids, e);
  }

  /** Changing what is known about a registered connection. */
  lemma {:induction false} ConnectionKeeps(s: State, e: nat, c: Connection, except: set<Id>)
    requires Sound(s, except) && e < |s.endpoints| && s.endpoints[e].connection.Some? && SnapshotBelongs(Some(c))
    requires ConnectionEvolves(s.endpoints[e].connection, Some(c))
    ensures Sound(WithConnection(s, e, c), except) && Evolves(s, WithConnection(s, e, c))
  {
    ConnectionShape(s, e, c, except);
    LogKept(s, WithConnection(s, e, c));
  }

  lemma {:induction false} ConnectionShape(s: State, e: nat, c: Connection, except: set<Id>)
    requires Shape(s, except) && e < |s.endpoints| && s.endpoints[e].connection.Some? && SnapshotBelongs(Some(c))
    requires ConnectionEvolves(s.endpoints[e].connection, Some(c))
    ensures Shape(WithConnection(s, e, c), except)
  {
    var t := WithConnection(s, e, c);
    forall tab | tab in t.connections ensures Serves(t, tab, t.connections[tab]) {
      assert Serves(s, tab, s.connections[tab]);
    }
    forall id | id in t.pending && id !in except ensures Live(t, t.pending[id]) {
      assert Live(s, s.pending[id]);
    }
  }

  /** Nothing was sent or finished. */
  lemma LogKept(s: State, t: State)
    requires Log(s)
    requires t.sent == s.sent && t.pending == s.pending && t.finished == s.finished && |t.endpoints| >= |s.endpoints|
    ensures Log(t)
  {
  }

  lemma {:induction false} ApplyContextKeeps(s: State, e: nat, update: ContextUpdate)
    requires Sound(s, {}) && e < |s.endpoints| && s.endpoints[e].connection.Some?
    ensures ApplyContext(s, e, update).Ok? ==>
              Sound(ApplyContext(s, e, update).value, {}) && Evolves(s, ApplyContext(s, e, update).value)
  {
    var c := s.endpoints[e].connection.value;
    if c.sequence < update.sequence && update.snapshot.designId == c.binding.designId {
      ConnectionKeeps(s, e, c.(sequence := update.sequence, snapshot := Some(update.snapshot)), {});
    }
  }

  lemma {:induction false} PublishKeeps(s: State, e: nat, update: ContextUpdate)
    requires Sound(s, {}) && e < |s.endpoints|
    ensures PublishContext(s, e, update).Ok? ==>
              Sound(PublishContext(s, e, update).value, {}) && Evolves(s, PublishContext(s, e, update).value)
  {
    if s.endpoints[e].connection.Some? {
      ApplyContextKeeps(s, e, update);
    }
  }

  lemma {:induction false} SelectionKeeps(s: State, e: nat, update: SelectionUpdate)
    requires Sound(s, {}) && e < |s.endpoints|
    ensures PublishSelection(s, e, update).Ok? ==>
              Sound(PublishSelection(s, e, update).value, {}) && Evolves(s, PublishSelection(s, e, update).value)
  {
    if Authorize(s, e, update.generation).Ok? {
      var c := s.endpoints[e].connection.value;
      if c.sequence < update.sequence && c.snapshot.Some? {
        SelectedKeeps(s, e, c, c.snapshot.value.(selected := update.selected), update.sequence);
      }
    }
  }

  lemma {:induction false} SelectedKeeps(s: State, e: nat, c: Connection, snapshot: Snapshot, sequence: int)
    requires Sound(s, {}) && e < |s.endpoints| && s.endpoints[e].connection == Some(c)
    requires c.sequence < sequence && snapshot.designId == c.binding.designId
    ensures var t := WithConnection(s, e, c.(sequence := sequence, snapshot := Some(snapshot)));
            Sound(t, {}) && Evolves(s, t)
  {
    ConnectionKeeps(s, e, c.(sequence := sequence, snapshot := Some(snapshot)), {});
  }

  lemma {:induction false} ReadyKeeps(s: State, e: nat, generation: Id)
    requires Sound(s, {}) && e < |s.endpoints|
    ensures Ready(s, e, generation).Ok? ==>
              Sound(Ready(s, e, generation).value, {}) && Evolves(s, Ready(s, e, generation).value)
  {
    if Authorize(s, e, generation).Ok? {
      ConnectionKeeps(s, e, s.endpoints[e].connection.value.(subscribed := true, phase := Online), {});
    }
  }

  lemma {:induction false} RegisterKeeps(s: State, e: nat, r: Registration, generation: Id)
    requires Sound(s, {}) && e < |s.endpoints| && Register(s, e, r, generation).Ok?
    ensures Sound(Register(s, e, r, generation).value, {}) && Evolves(s, Register(s, e, r, generation).value)
  {
    RegisterShape(s, e, r, generation);
    LogKept(s, Register(s, e, r, generation).value);
  }

  lemma {:induction false} RegisterShape(s: State, e: nat, r: Registration, generation: Id)
    requires Shape(s, {}) && e < |s.endpoints| && Register(s, e, r, generation).Ok?
    ensures Shape(Register(s, e, r, generation).value, {})
  {
    var t := Register(s, e, r, generation).value;
    forall id | id in t.pending ensures Live(t, t.pending[id]) {
      assert Live(s, s.pending[id]);
    }
    forall tab | tab in t.connections ensures Serves(t, tab, t.connections[tab]) {
      assert tab != r.tabId ==> Serves(s, tab, s.connections[tab]);
    }
  }

  lemma {:induction false} OpenOfNone(sent: seq<Pending>, open: set<Id>, e: nat)
    requires forall i | 0 <= i < |sent| && sent[i].endpoint == e :: sent[i].request.requestId !in open
    ensures OpenOf(sent, open, e) == []
  {
    if sent != [] {
      OpenOfNone(sent[..|sent| - 1], open, e);
    }
  }

  lemma {:induction false} AttachKeeps(s: State)
    requires Sound(s, {})
    ensures Sound(Next(s, Attaches), {}) && Evolves(s, Next(s, Attaches))
  {
    AttachMailboxes(s);
    AttachShape(s);
    LogKept(s, Next(s, Attaches));
    AttachEvolves(s);
  }

  lemma {:induction false} AttachMailboxes(s: State)
    requires EndsOnce(s) && MailboxesListOpen(s)
    ensures MailboxesListOpen(Next(s, Attaches))
  {
    var t := Next(s, Attaches);
    OpenOfNone(s.sent, s.pending.Keys, |s.endpoints|);
    forall e: nat | e < |t.endpoints| ensures t.endpoints[e].mailbox == OpenOf(t.sent, t.pending.Keys, e) {
      assert e < |s.endpoints| ==> t.endpoints[e] == s.endpoints[e];
    }
  }

  lemma {:induction false} AttachEvolves(s: State)
    ensures Evolves(s, Next(s, Attaches))
  {
    var t := Next(s, Attaches);
    forall e: nat | e < |s.endpoints| ensures t.endpoints[e] == s.endpoints[e] {
    }
  }

  lemma {:induction false} AttachShape(s: State)
    requires Shape(s, {})
    ensures Shape(Next(s, Attaches), {})
  {
    var t := Next(s, Attaches);
    forall id | id in t.pending ensures Live(t, t.pending[id]) {
      assert Live(s, s.pending[id]);
    }
    forall tab | tab in t.connections ensures Serves(t, tab, t.connections[tab]) {
      assert Serves(s, tab, s.connections[tab]);
    }
  }

  predicate NewId(s: State, id: Id)
  {
    forall i: nat | i < |s.sent| :: SentId(s.sent, i) != id
  }

  lemma {:induction false} SendKeeps(s: State, binding: Binding, ask: Ask, requestId: Id, aborted: bool)
    requires Sound(s, {}) && NewId(s, requestId) && Send(s, binding, ask, requestId, aborted).Ok?
    ensures Sound(Send(s, binding, ask, requestId, aborted).value, {})
            && Evolves(s, Send(s, binding, ask, requestId, aborted).value)
  {
    var t := Send(s, binding, ask, requestId, aborted).value;
    SendShape(s, binding, ask, requestId, aborted);
    var p := SendForm(s, binding, ask, requestId, aborted);
    SentKeeps(s, t, p);
  }

  lemma {:induction false} SentKeeps(s: State, t: State, p: Pending)
    requires Sound(s, {}) && NewId(s, p.request.requestId) && OneMore(s, t, p) && Shape(t, {}) && SameButMail(s, t)
             && t.closed == s.closed
    ensures Sound(t, {}) && Evolves(s, t)
  {
    SendEnds(s, t, p);
    SendMailboxes(s, t, p);
    SendEvolves(s, t, p);
  }

  lemma SendEvolves(s: State, t: State, p: Pending)
    requires OneMore(s, t, p) && SameButMail(s, t) && t.closed == s.closed
    ensures Evolves(s, t)
  {
  }

  /** The parts of the state that a new request changes. */
  ghost predicate OneMore(s: State, t: State, p: Pending)
  {
    && p.endpoint < |s.endpoints| == |t.endpoints| && t.sent == s.sent + [p] && t.finished == s.finished
    && t.pending == s.pending[p.request.requestId := p]
    && forall e: nat | e < |s.endpoints| ::
         t.endpoints[e].mailbox == if e == p.endpoint then s.endpoints[e].mailbox + [p.request]
         else s.endpoints[e].mailbox
  }

  lemma {:induction false} SendForm(s: State, binding: Binding, ask: Ask, requestId: Id, aborted: bool)
    returns (p: Pending)
    requires Send(s, binding, ask, requestId, aborted).Ok?
    ensures OneMore(s, Send(s, binding, ask, requestId, aborted).value, p) && p.request.requestId == requestId
  {
    var e := Connected(s, binding).value;
    var c := s.endpoints[e].connection.value;
    p := Pending(e, Request(requestId, c.generation, c.binding, ask));
  }

  /** A request is addressed to the binding that it was meant for. */
  lemma {:induction false} SendBinding(s: State, binding: Binding, ask: Ask, requestId: Id, aborted: bool)
    requires Routed(s) && Send(s, binding, ask, requestId, aborted).Ok?
    ensures var t := Send(s, binding, ask, requestId, aborted).value;
            |t.sent| == |s.sent| + 1 && t.sent[|s.sent|].request.binding == binding
            && t.sent[|s.sent|].request.ask == ask
  {
    assert Serves(s, binding.tabId, s.connections[binding.tabId]);
  }

  lemma {:induction false} SendShape(s: State, binding: Binding, ask: Ask, requestId: Id, aborted: bool)
    requires Shape(s, {}) && Send(s, binding, ask, requestId, aborted).Ok?
    ensures Shape(Send(s, binding, ask, requestId, aborted).value, {})
    ensures SameButMail(s, Send(s, binding, ask, requestId, aborted).value)
  {
    var t := Send(s, binding, ask, requestId, aborted).value;
    forall tab | tab in t.connections ensures Serves(t, tab, t.connections[tab]) {
      assert Serves(s, tab, s.connections[tab]);
    }
    assert Serves(s, binding.tabId, s.connections[binding.tabId]);
    forall id | id in t.pending ensures Live(t, t.pending[id]) {
      assert id != requestId ==> Live(s, s.pending[id]);
    }
  }

  lemma {:induction false} SendMailboxes(s: State, t: State, p: Pending)
    requires MailboxesListOpen(s) && NewId(s, p.request.requestId) && OneMore(s, t, p)
    ensures MailboxesListOpen(t)
  {
    forall e: nat | e < |t.endpoints| ensures t.endpoints[e].mailbox == OpenOf(t.sent, t.pending.Keys, e) {
      forall i: nat | i < |s.sent| ensures s.sent[i].request.requestId != p.request.requestId {
        assert SentId(s.sent, i) != p.request.requestId;
      }
      OpenOfSame(s.sent, s.pending.Keys, t.pending.Keys, e);
      assert t.sent[..|s.sent|] == s.sent;
    }
  }

  lemma {:induction false} SendEnds(s: State, t: State, p: Pending)
    requires Log(s) && NewId(s, p.request.requestId) && OneMore(s, t, p)
    ensures Log(t)
  {
    SendEndsOnce(s, t, p);
    SendHistory(s.sent, p);
    assert !WasSent(s.sent, p.request.requestId);
    forall i: nat | i < |t.sent|
           && SentId(t.sent, i) in t.finished
      ensures Believed(t.sent[i].request, t.finished[SentId(t.sent, i)])
    {
      assert i < |s.sent| ==> t.sent[i] == s.sent[i];
    }
  }

  lemma {:induction false} SendDistinct(sent: seq<Pending>, p: Pending)
    requires SentDistinct(sent) && !WasSent(sent, p.request.requestId)
    ensures SentDistinct(sent + [p])
  {
    SendHistory(sent, p);
    forall i: nat | i < |sent| ensures SentId(sent + [p], i) == SentId(sent, i) != p.request.requestId {
    }
  }

  lemma {:induction false} SendEndsOnce(s: State, t: State, p: Pending)
    requires EndsOnce(s) && NewId(s, p.request.requestId) && OneMore(s, t, p)
    ensures EndsOnce(t)
  {
    var id := p.request.requestId;
    assert !WasSent(s.sent, id);
    SendDistinct(s.sent, p);
    SendHistory(s.sent, p);
    forall i: nat | i < |s.sent| ensures t.sent[i] == s.sent[i] && SentId(t.sent, i) == SentId(s.sent, i) != id {
    }
    forall other | other in t.pending || other in t.finished ensures WasSent(t.sent, other) {
      assert other != id ==> WasSent(s.sent, other);
    }
  }

  lemma {:induction false} SendHistory(sent: seq<Pending>, p: Pending)
    ensures SentId(sent + [p], |sent|) == p.request.requestId
    ensures forall i: nat | i < |sent| :: SentId(sent + [p], i) == SentId(sent, i)
    ensures forall id :: WasSent(sent, id) || id == p.request.requestId ==> WasSent(sent + [p], id)
  {
    assert SentId(sent + [p], |sent|) == p.request.requestId;
    forall id | WasSent(sent, id) ensures WasSent(sent + [p], id) {
      var i: nat :| i < |sent| && SentId(sent, i) == id;
      assert SentId(sent + [p], i) == id;
    }
  }

  lemma {:induction false} DeliverKeeps(s: State, e: nat, request: Request, response: Response)
    requires Sound(s, {}) && e < |s.endpoints| && s.endpoints[e].connection.Some?
    requires response.requestId in s.pending && s.pending[response.requestId] == Pending(e, request)
    ensures var t := Deliver(s, e, request, response).0; Sound(t, {}) && Evolves(s, t)
  {
    match response.body
    case ContextBody(update) => DeliverContextKeeps(s, e, request, response);
    case ResultBody(result, context) => DeliverResultKeeps(s, e, request, response);
    case ErrorBody(_) => FinishKeeps(s, {response.requestId}, Resolved(response.body));
    case OtherBody =>
  }

  /** What became of a room sent as an answer: it was refused, or it was applied and ended the request. */
  lemma DeliveredContext(s: State, e: nat, request: Request, response: Response)
    requires e < |s.endpoints| && s.endpoints[e].connection.Some? && response.body.ContextBody?
    ensures var t, applied := Deliver(s, e, request, response).0, ApplyContext(s, e, response.body.update);
            || t == s
            || (request.ask.AskContext? && applied.Ok?
                && t == Finish(applied.value, {response.requestId}, Resolved(response.body)))
  {
  }

  lemma {:induction false} DeliverContextKeeps(s: State, e: nat, request: Request, response: Response)
    requires Sound(s, {}) && e < |s.endpoints| && s.endpoints[e].connection.Some? && response.body.ContextBody?
    requires response.requestId in s.pending && s.pending[response.requestId] == Pending(e, request)
    ensures var t := Deliver(s, e, request, response).0; Sound(t, {}) && Evolves(s, t)
  {
    DeliveredContext(s, e, request, response);
    if Deliver(s, e, request, response).0 != s {
      ApplyContextKeeps(s, e, response.body.update);
      SameLog(s, e, response.body.update);
      FinishAnswered(s, ApplyContext(s, e, response.body.update).value, e, request, response);
    }
  }

  lemma {:induction false} FinishAnswered(s: State, t: State, e: nat, request: Request, response: Response)
    requires Sound(t, {}) && Evolves(s, t) && t.pending == s.pending && Believed(request, Resolved(response.body))
    requires response.requestId in s.pending && s.pending[response.requestId] == Pending(e, request)
    ensures var u := Finish(t, {response.requestId}, Resolved(response.body)); Sound(u, {}) && Evolves(s, u)
  {
    FinishAfter(s, t, {response.requestId}, Resolved(response.body));
  }

  lemma SameLog(s: State, e: nat, update: ContextUpdate)
    requires e < |s.endpoints| && s.endpoints[e].connection.Some? && ApplyContext(s, e, update).Ok?
    ensures var t := ApplyContext(s, e, update).value; t.pending == s.pending && t.finished == s.finished
  {
  }

  lemma {:induction false} FinishAfter(s: State, t: State, ids: set<Id>, outcome: Outcome)
    requires Sound(t, {}) && Evolves(s, t)
    requires forall id | id in ids && id in t.pending :: Believed(t.pending[id].request, outcome)
    ensures Sound(Finish(t, ids, outcome), {}) && Evolves(s, Finish(t, ids, outcome))
  {
    FinishKeeps(t, ids, outcome);
    EvolvesTrans(s, t, Finish(t, ids, outcome));
  }

  lemma {:induction false} ContextAfter(s: State, t: State, e: nat, update: ContextUpdate)
    requires Sound(t, {}) && Evolves(s, t) && e < |t.endpoints| && t.endpoints[e].connection.Some?
    ensures ApplyContext(t, e, update).Ok? ==>
              Sound(ApplyContext(t, e, update).value, {}) && Evolves(s, ApplyContext(t, e, update).value)
  {
    ApplyContextKeeps(t, e, update);
    if ApplyContext(t, e, update).Ok? {
      EvolvesTrans(s, t, ApplyContext(t, e, update).value);
    }
  }

  /** What became of a result: it was refused, or it was believed and perhaps brought a room with it. */
  lemma {:induction false} DeliveredResult(s: State, e: nat, request: Request, response: Response) returns (done: State)
    requires e < |s.endpoints| && s.endpoints[e].connection.Some? && response.body.ResultBody?
    requires request.binding == s.endpoints[e].connection.value.binding
    ensures done == Finish(s, {response.requestId}, Resolved(response.body))
    ensures var t, update := Deliver(s, e, request, response).0, response.body.context;
            || t == s
            || (Believed(request, Resolved(response.body))
                && (t == done || (update.Some? && ApplyContext(done, e, update.value) == Ok(t))))
  {
    done := Finish(s, {response.requestId}, Resolved(response.body));
  }

  lemma {:induction false} BelievedKeeps(s: State, done: State, t: State, e: nat, update: Option<ContextUpdate>)
    requires Sound(done, {}) && Evolves(s, done) && e < |done.endpoints| && done.endpoints[e].connection.Some?
    requires t == done || (update.Some? && ApplyContext(done, e, update.value) == Ok(t))
    ensures Sound(t, {}) && Evolves(s, t)
  {
    if t != done {
      ContextAfter(s, done, e, update.value);
    }
  }

  lemma {:induction false} FinishOneKeeps(s: State, e: nat, request: Request, id: Id, outcome: Outcome)
    requires Sound(s, {}) && id in s.pending && s.pending[id] == Pending(e, request) && Believed(request, outcome)
    ensures Sound(Finish(s, {id}, outcome), {}) && Evolves(s, Finish(s, {id}, outcome))
  {
    FinishKeeps(s, {id}, outcome);
  }

  lemma {:induction false} DeliverResultKeeps(s: State, e: nat, request: Request, response: Response)
    requires Sound(s, {}) && e < |s.endpoints| && s.endpoints[e].connection.Some? && response.body.ResultBody?
    requires response.requestId in s.pending && s.pending[response.requestId] == Pending(e, request)
    ensures var t := Deliver(s, e, request, response).0; Sound(t, {}) && Evolves(s, t)
  {
    assert Live(s, s.pending[response.requestId]);
    var done := DeliveredResult(s, e, request, response);
    ResultKeeps(s, Deliver(s, e, request, response).0, e, request, response);
  }

  lemma {:induction false} ResultKeeps(s: State, t: State, e: nat, request: Request, response: Response)
    requires Sound(s, {}) && e < |s.endpoints| && s.endpoints[e].connection.Some? && response.body.ResultBody?
    requires response.requestId in s.pending && s.pending[response.requestId] == Pending(e, request)
    requires var done, update := Finish(s, {response.requestId}, Resolved(response.body)), response.body.context;
             || t == s
             || (Believed(request, Resolved(response.body))
                 && (t == done || (update.Some? && ApplyContext(done, e, update.value) == Ok(t))))
    ensures Sound(t, {}) && Evolves(s, t)
  {
    if t != s {
      FinishOneKeeps(s, e, request, response.requestId, Resolved(response.body));
      BelievedKeeps(s, Finish(s, {response.requestId}, Resolved(response.body)), t, e, response.body.context);
    }
  }

  lemma {:induction false} EvolvesTrans(a: State, b: State, c: State)
    requires Evolves(a, b) && Evolves(b, c)
    ensures Evolves(a, c)
  {
    forall e: nat | e < |a.endpoints| ensures ConnectionEvolves(a.endpoints[e].connection, c.endpoints[e].connection) {
      assert ConnectionEvolves(b.endpoints[e].connection, c.endpoints[e].connection);
    }
  }

  /** A reply is ignored, delivered, or delivered in vain. */
  lemma Responded(s: State, e: nat, response: Response)
    requires e < |s.endpoints|
    ensures var t, id := Respond(s, e, response).0, response.requestId;
            || t == s
            || (&& id in s.pending && s.pending[id].endpoint == e && s.endpoints[e].connection.Some?
                && var next := Deliver(s, e, s.pending[id].request, response).0;
                   t == next || t == Finish(next, {id}, Failed(OutcomeUnknown)))
  {
  }

  lemma {:induction false} RespondKeeps(s: State, e: nat, response: Response)
    requires Sound(s, {}) && e < |s.endpoints|
    ensures var t := Respond(s, e, response).0; Sound(t, {}) && Evolves(s, t)
  {
    Responded(s, e, response);
    if Respond(s, e, response).0 != s {
      var request := s.pending[response.requestId].request;
      DeliverKeeps(s, e, request, response);
      FinishAfter(s, Deliver(s, e, request, response).0, {response.requestId}, Failed(OutcomeUnknown));
    }
  }

  /** A connection that is cut off has no more open requests. */
  lemma {:induction false} NothingOpenAt(s: State, e: nat)
    requires Sound(s, {}) && e < |s.endpoints|
    requires s.endpoints[e].released || forall tab | tab in s.connections :: s.connections[tab] != e
    ensures OpenAt(s, e) == {} && s.endpoints[e].mailbox == []
  {
    forall id | id in s.pending ensures s.pending[id].endpoint != e {
      assert Live(s, s.pending[id]);
      var tab := s.pending[id].request.binding.tabId;
      assert Serves(s, tab, s.connections[tab]);
    }
    forall i | 0 <= i < |s.sent| && s.sent[i].endpoint == e ensures s.sent[i].request.requestId !in s.pending.Keys {
      assert SentId(s.sent, i) == s.sent[i].request.requestId;
    }
    OpenOfNone(s.sent, s.pending.Keys, e);
  }

  function Retired(s: State, e: nat): State
    requires e < |s.endpoints|
  {
    s.(endpoints := s.endpoints[e := s.endpoints[e].(released := true)])
  }

  predicate Registered(s: State, e: nat)
    requires e < |s.endpoints|
  {
    && s.endpoints[e].connection.Some?
    && var tab := s.endpoints[e].connection.value.binding.tabId;
       tab in s.connections && s.connections[tab] == e
  }

  /** What a release amounts to. */
  lemma {:induction false} Released(s: State, e: nat)
    requires e < |s.endpoints|
    ensures s.endpoints[e].released ==> Release(s, e) == s
    ensures !s.endpoints[e].released && !Registered(s, e) ==> Release(s, e) == Retired(s, e)
    ensures !s.endpoints[e].released && Registered(s, e) ==>
              var done := Finish(Cut(s, e), OpenAt(Cut(s, e), e), Failed(StudioUnavailable));
              e < |done.endpoints| && (done.endpoints[e].mailbox == [] ==> Release(s, e) == done)
  {
    if !s.endpoints[e].released && Registered(s, e) {
      var done := Finish(Cut(s, e), OpenAt(Cut(s, e), e), Failed(StudioUnavailable));
      if done.endpoints[e].mailbox == [] {
        assert done.endpoints[e := done.endpoints[e].(mailbox := [])] == done.endpoints;
      }
    }
  }

  /** Whatever state its connection is in, releasing an endpoint ends all its requests. */
  lemma {:induction false} ReleaseKeeps(s: State, e: nat)
    requires Sound(s, {}) && e < |s.endpoints|
    ensures Sound(Release(s, e), {}) && Evolves(s, Release(s, e))
    ensures OpenAt(Release(s, e), e) == {} && Release(s, e).endpoints[e].mailbox == []
  {
    Released(s, e);
    if s.endpoints[e].released {
      NothingOpenAt(s, e);
    } else if Registered(s, e) {
      CutKeeps(s, e);
      CutFinished(s, Cut(s, e), e);
    } else {
      NotRegistered(s, e);
      ReleaseOutKeeps(s, e);
      NothingOpenAt(Retired(s, e), e);
    }
  }

  lemma {:induction false} NotRegistered(s: State, e: nat)
    requires Shape(s, {}) && e < |s.endpoints| && !Registered(s, e)
    ensures forall tab | tab in s.connections :: s.connections[tab] != e
  {
    forall tab | tab in s.connections ensures s.connections[tab] != e {
      assert Serves(s, tab, s.connections[tab]);
    }
  }

  lemma {:induction false} CutFinished(s: State, cut: State, e: nat)
    requires Sound(cut, OpenAt(cut, e)) && Evolves(s, cut) && e < |cut.endpoints|
    requires forall tab | tab in cut.connections :: cut.connections[tab] != e
    ensures var done := Finish(cut, OpenAt(cut, e), Failed(StudioUnavailable));
            Sound(done, {}) && Evolves(s, done) && OpenAt(done, e) == {} && done.endpoints[e].mailbox == []
  {
    var done := Finish(cut, OpenAt(cut, e), Failed(StudioUnavailable));
    FinishKeeps(cut, OpenAt(cut, e), Failed(StudioUnavailable));
    NothingOpenAt(done, e);
    EvolvesTrans(s, cut, done);
  }

  /** A release, up to the point where the open requests are ended. */
  function Cut(s: State, e: nat): State
    requires e < |s.endpoints| && s.endpoints[e].connection.Some?
  {
    var c := s.endpoints[e].connection.value;
    var out := s.(endpoints := s.endpoints[e := s.endpoints[e].(released := true)]);
    WithConnection(out, e, c.(phase := Offline, subscribed := false,
                              snapshot := None)).(connections := s.connections - {c.binding.tabId})
  }

  lemma {:induction false} CutKeeps(s: State, e: nat)
    requires Sound(s, {}) && e < |s.endpoints| && s.endpoints[e].connection.Some?
    requires var tab := s.endpoints[e].connection.value.binding.tabId; tab in s.connections && s.connections[tab] == e
    ensures Sound(Cut(s, e), OpenAt(Cut(s, e), e)) && Evolves(s, Cut(s, e))
    ensures forall tab | tab in Cut(s, e).connections :: Cut(s, e).connections[tab] != e
  {
    LogKept(s, Cut(s, e));
    CutShape(s, e);
  }

  lemma {:induction false} CutShape(s: State, e: nat)
    requires Shape(s, {}) && e < |s.endpoints| && s.endpoints[e].connection.Some?
    requires var tab := s.endpoints[e].connection.value.binding.tabId; tab in s.connections && s.connections[tab] == e
    ensures Shape(Cut(s, e), OpenAt(Cut(s, e), e))
    ensures forall tab | tab in Cut(s, e).connections :: Cut(s, e).connections[tab] != e
  {
    var t := Cut(s, e);
    forall tab | tab in t.connections ensures Serves(t, tab, t.connections[tab]) && t.connections[tab] != e {
      assert Serves(s, tab, s.connections[tab]);
    }
    forall id | id in t.pending && id !in OpenAt(t, e) ensures Live(t, t.pending[id]) {
      assert Live(s, s.pending[id]);
      assert Serves(s, s.pending[id].request.binding.tabId, s.pending[id].endpoint);
    }
  }

  lemma {:induction false} ReleaseOutKeeps(s: State, e: nat)
    requires Sound(s, {}) && e < |s.endpoints|
    requires forall tab | tab in s.connections :: s.connections[tab] != e
    ensures Sound(Retired(s, e), {}) && Evolves(s, Retired(s, e))
  {
    LogKept(s, Retired(s, e));
    RetiredShape(s, e);
  }

  lemma {:induction false} RetiredShape(s: State, e: nat)
    requires Shape(s, {}) && e < |s.endpoints|
    requires forall tab | tab in s.connections :: s.connections[tab] != e
    ensures Shape(Retired(s, e), {})
  {
    var t := Retired(s, e);
    forall tab | tab in t.connections ensures Serves(t, tab, t.connections[tab]) {
      assert Serves(s, tab, s.connections[tab]);
    }
    forall id | id in t.pending ensures Live(t, t.pending[id]) {
      assert Live(s, s.pending[id]);
    }
  }

  lemma {:induction false} CloseKeeps(s: State)
    requires Sound(s, {})
    ensures Sound(Close(s), {}) && Evolves(s, Close(s)) && Close(s).pending == map[]
  {
    ClosedSound(s);
    FinishAfterClose(s, s.(closed := true));
  }

  lemma {:induction false} ClosedSound(s: State)
    requires Sound(s, {})
    ensures Sound(s.(closed := true), s.pending.Keys) && Evolves(s, s.(closed := true))
  {
    var t := s.(closed := true);
    LogKept(s, t);
    forall tab | tab in t.connections ensures Serves(t, tab, t.connections[tab]) {
      assert Serves(s, tab, s.connections[tab]);
    }
  }

  lemma {:induction false} FinishAfterClose(s: State, t: State)
    requires Sound(t, t.pending.Keys) && Evolves(s, t)
    ensures var u := Finish(t, t.pending.Keys, Failed(StudioUnavailable));
            Sound(u, {}) && Evolves(s, u) && u.pending == map[]
  {
    FinishKeeps(t, t.pending.Keys, Failed(StudioUnavailable));
    EvolvesTrans(s, t, Finish(t, t.pending.Keys, Failed(StudioUnavailable)));
  }

  /** Every step keeps every state sound, and evolves it. */
  lemma {:induction false} StepKeeps(s: State, step: Step)
    requires Sound(s, {}) && (step.Sends? ==> NewId(s, step.requestId))
    ensures Sound(Next(s, step), {}) && Evolves(s, Next(s, step))
  {
    match step
    case Sends(binding, ask, requestId, aborted) =>
      if Send(s, binding, ask, requestId, aborted).Ok? {
        SendKeeps(s, binding, ask, requestId, aborted);
      }
    case TimesOut(id) => TimeoutKeeps(s, id);
    case Stops(id) => FinishKeeps(s, {id}, Failed(OutcomeUnknown));
    case Closes => CloseKeeps(s);
    case _ => ServiceStepKeeps(s, step);
  }

  lemma {:induction false} TimeoutKeeps(s: State, id: Id)
    requires Sound(s, {})
    ensures Sound(Timeout(s, id), {}) && Evolves(s, Timeout(s, id))
  {
    if id in s.pending {
      FinishKeeps(s, {id}, Failed(if s.pending[id].request.ask.AskContext? then StudioUnavailable else OutcomeUnknown));
    }
  }

  predicate ServiceStep(step: Step)
  {
    step.Attaches? || step.Registers? || step.IsReady? || step.Publishes? || step.Selects? || step.Responds?
    || step.Releases?
  }

  /** The steps that come from the Studio side. */
  lemma {:induction false} ServiceStepKeeps(s: State, step: Step)
    requires Sound(s, {}) && ServiceStep(step)
    ensures Sound(Next(s, step), {}) && Evolves(s, Next(s, step))
  {
    match step
    case Attaches => AttachKeeps(s);
    case Responds(e, response) =>
      if e < |s.endpoints| {
        RespondKeeps(s, e, response);
      }
    case Releases(e) =>
      if e < |s.endpoints| {
        ReleaseKeeps(s, e);
      }
    case _ => ConnectionStepKeeps(s, step);
  }

  lemma {:induction false} ConnectionStepKeeps(s: State, step: Step)
    requires Sound(s, {}) && (step.Registers? || step.IsReady? || step.Publishes? || step.Selects?)
    ensures Sound(Next(s, step), {}) && Evolves(s, Next(s, step))
  {
    if step.endpoint < |s.endpoints| {
      match step
      case Registers(e, r, generation) =>
        if Register(s, e, r, generation).Ok? {
          RegisterKeeps(s, e, r, generation);
        }
      case IsReady(e, generation) => ReadyKeeps(s, e, generation);
      case Publishes(e, update) => PublishKeeps(s, e, update);
      case Selects(e, selection) => SelectionKeeps(s, e, selection);
    }
  }

  // ---- Whole runs -------------------------------------------------------------------

  /** A run of the broker; request IDs are random and so never repeat. */
  ghost predicate Run(states: seq<State>, steps: seq<Step>)
  {
    && |states| == |steps| + 1 && states[0] == INITIAL
    && forall k: nat | k < |steps| ::
         states[k + 1] == Next(states[k], steps[k]) && (steps[k].Sends? ==> NewId(states[k], steps[k].requestId))
  }

  lemma {:induction false} AlwaysSound(states: seq<State>, steps: seq<Step>, j: nat, k: nat)
    requires Run(states, steps) && j <= k < |states|
    ensures Sound(states[k], {}) && Evolves(states[j], states[k])
    decreases k
  {
    if k == 0 {
    } else {
      AlwaysSound(states, steps, if j < k then j else k - 1, k - 1);
      StepKeeps(states[k - 1], steps[k - 1]);
      if j < k {
        EvolvesTrans(states[j], states[k - 1], states[k]);
      }
    }
  }

  /** In every reachable state a mailbox lists exactly the open requests of its connection in send
      order, every request is open or over but not both, nothing is open for a released endpoint or a
      closed broker, and a stored room belongs to the design of its registration. */
  lemma {:induction false} BrokerAgreement(states: seq<State>, steps: seq<Step>, k: nat)
    requires Run(states, steps) && k < |states|
    ensures var s := states[k];
            && (forall e: nat | e < |s.endpoints| :: s.endpoints[e].mailbox == OpenOf(s.sent, s.pending.Keys, e))
            && (forall i: nat | i < |s.sent| :: SentId(s.sent, i) in s.pending <==> SentId(s.sent, i) !in s.finished)
            && (forall e: nat | e < |s.endpoints| && s.endpoints[e].released ::
                  OpenAt(s, e) == {} && s.endpoints[e].mailbox == [])
            && (s.closed ==> s.pending == map[])
            && (forall e: nat | e < |s.endpoints| :: SnapshotBelongs(s.endpoints[e].connection))
  {
    AlwaysSound(states, steps, k, k);
    var s := states[k];
    forall e: nat | e < |s.endpoints| && s.endpoints[e].released ensures OpenAt(s, e) == {}
    && s.endpoints[e].mailbox == [] {
      NothingOpenAt(s, e);
    }
    if s.closed {
      assert forall id | id in s.pending :: Live(s, s.pending[id]);
    }
  }

  /** What is over stays as it ended, and a room that replaces another was published with a greater number. */
  lemma {:induction false} OverForGood(states: seq<State>, steps: seq<Step>, j: nat, k: nat)
    requires Run(states, steps) && j <= k < |states|
    ensures forall id | id in states[j].finished ::
              id in states[k].finished && states[k].finished[id] == states[j].finished[id]
    ensures forall e: nat | e < |states[j].endpoints| ::
              e < |states[k].endpoints|
              && ConnectionEvolves(states[j].endpoints[e].connection, states[k].endpoints[e].connection)
  {
    AlwaysSound(states, steps, j, k);
  }

  lemma FinishedOne(s: State, id: Id, outcome: Outcome)
    ensures var t := Finish(s, {id}, outcome);
            && id !in t.pending
            && (id in s.pending ==> id in t.finished && t.finished[id] == outcome)
            && (id !in s.pending ==> t.finished == s.finished)
  {
  }

  /** A save that is reported while its request is open is never taken for a rejection: it is
      believed, or else its outcome is unknown. */
  lemma {:induction false} SavedIsNotRejected(s: State, e: nat, response: Response)
    requires Sound(s, {}) && e < |s.endpoints| && Authorize(s, e, response.generation).Ok?
    requires response.requestId in s.pending && s.pending[response.requestId].endpoint == e
    requires s.pending[response.requestId].request.ask.AskExecute? && response.body.ResultBody?
             && response.body.result.Saved?
    ensures var t := Respond(s, e, response).0;
            && response.requestId in t.finished && response.requestId !in t.pending
            && t.finished[response.requestId]
               == if Believed(s.pending[response.requestId].request, Resolved(response.body))
                                                 then Resolved(response.body) else Failed(OutcomeUnknown)
  {
    assert Live(s, s.pending[response.requestId]);
    SavedAnswer(s, e, response);
  }

  lemma {:induction false} SavedAnswer(s: State, e: nat, response: Response)
    requires e < |s.endpoints| && Authorize(s, e, response.generation).Ok?
    requires response.requestId in s.pending && s.pending[response.requestId].endpoint == e
    requires s.pending[response.requestId].request.ask.AskExecute? && response.body.ResultBody?
             && response.body.result.Saved?
    requires s.pending[response.requestId].request.binding == s.endpoints[e].connection.value.binding
    ensures var t := Respond(s, e, response).0;
            && response.requestId in t.finished && response.requestId !in t.pending
            && t.finished[response.requestId]
               == if Believed(s.pending[response.requestId].request, Resolved(response.body))
                                                 then Resolved(response.body) else Failed(OutcomeUnknown)
  {
    var id, request := response.requestId, s.pending[response.requestId].request;
    var (next, error) := Deliver(s, e, request, response);
    FinishedOne(s, id, Resolved(response.body));
    FinishedOne(next, id, Failed(OutcomeUnknown));
    var done := Finish(s, {id}, Resolved(response.body));
    if Believed(request, Resolved(response.body)) && response.body.context.Some?
    && ApplyContext(done, e, response.body.context.value).Ok? {
      SameLog(done, e, response.body.context.value);
    }
  }

  // ---- Ending several requests, one after the other --------------------------------

  lemma {:induction false} DropTwice(mailbox: seq<Request>, a: set<Id>, b: set<Id>)
    ensures DropRequests(DropRequests(mailbox, a), b) == DropRequests(mailbox, a + b)
  {
    if mailbox != [] {
      DropTwice(mailbox[1..], a, b);
    }
  }

  lemma {:induction false} DropNothing(mailbox: seq<Request>)
    ensures DropRequests(mailbox, {}) == mailbox
  {
    if mailbox != [] {
      DropNothing(mailbox[1..]);
    }
  }

  lemma {:induction false} FinishMore(s: State, ids: set<Id>, id: Id, outcome: Outcome)
    ensures Finish(Finish(s, ids, outcome), {id}, outcome) == Finish(s, ids + {id}, outcome)
  {
    var t, u := Finish(s, ids, outcome), Finish(s, ids + {id}, outcome);
    var v := Finish(t, {id}, outcome);
    forall e: nat | e < |s.endpoints| ensures v.endpoints[e] == u.endpoints[e] {
      FinishMoreAt(s, ids, id, outcome, e);
    }
    FinishMoreMaps(s, ids, id, outcome);
    assert v.endpoints == u.endpoints;
  }

  lemma {:induction false} FinishMoreAt(s: State, ids: set<Id>, id: Id, outcome: Outcome, e: nat)
    requires e < |s.endpoints|
    ensures Finish(Finish(s, ids, outcome), {id}, outcome).endpoints[e] == Finish(s, ids + {id}, outcome).endpoints[e]
  {
    var t := Finish(s, ids, outcome);
    var a, b := OpenAt(s, e) * ids, OpenAt(t, e) * {id};
    DropTwice(s.endpoints[e].mailbox, a, b);
    assert a + b == OpenAt(s, e) * (ids + {id});
  }

  /** What `finish` does to one request. */
  lemma FinishedPointwise(s: State, ids: set<Id>, outcome: Outcome, k: Id)
    ensures var t := Finish(s, ids, outcome);
            && (k in t.pending <==> k in s.pending && k !in ids) && (k in t.pending ==> t.pending[k] == s.pending[k])
            && (k in t.finished <==> k in s.finished || (k in s.pending && k in ids))
            && (k in t.finished ==> t.finished[k] == if k in s.pending && k in ids then outcome else s.finished[k])
  {
  }

  lemma {:induction false} FinishMoreMaps(s: State, ids: set<Id>, id: Id, outcome: Outcome)
    ensures Finish(Finish(s, ids, outcome), {id}, outcome).pending == Finish(s, ids + {id}, outcome).pending
    ensures Finish(Finish(s, ids, outcome), {id}, outcome).finished == Finish(s, ids + {id}, outcome).finished
  {
    var t := Finish(s, ids, outcome);
    var v, u := Finish(t, {id}, outcome), Finish(s, ids + {id}, outcome);
    forall k
      ensures k in v.pending <==> k in u.pending
      ensures k in v.pending ==> v.pending[k] == u.pending[k]
      ensures k in v.finished <==> k in u.finished
      ensures k in v.finished ==> v.finished[k] == u.finished[k]
    {
      FinishedPointwise(s, ids, outcome, k);
      FinishedPointwise(t, {id}, outcome, k);
      FinishedPointwise(s, ids + {id}, outcome, k);
    }
    SameMaps(v.pending, u.pending);
    SameMaps(v.finished, u.finished);
  }

  lemma SameMaps<T>(a: map<Id, T>, b: map<Id, T>)
    requires forall k :: (k in a <==> k in b) && (k in a ==> a[k] == b[k])
    ensures a == b
  {
  }

  lemma {:induction false} FinishNone(s: State, outcome: Outcome)
    ensures Finish(s, {}, outcome) == s
  {
    var t := Finish(s, {}, outcome);
    forall e: nat | e < |s.endpoints| ensures t.endpoints[e] == s.endpoints[e] {
      assert OpenAt(s, e) * {} == {};
      DropNothing(s.endpoints[e].mailbox);
    }
    assert t.pending == s.pending && t.finished == s.finished;
  }

  lemma {:induction false} OwnersExist(s: State)
    requires Sound(s, {})
    ensures forall id | id in s.pending :: s.pending[id].endpoint < |s.endpoints|
  {
    forall id | id in s.pending ensures s.pending[id].endpoint < |s.endpoints| {
      assert Live(s, s.pending[id]);
    }
  }

  /** One request taken out of the state and of its own mailbox. */
  function WithoutRequest(s: State, id: Id): State
    requires id in s.pending && s.pending[id].endpoint < |s.endpoints|
  {
    var e := s.pending[id].endpoint;
    var mailbox := DropRequests(s.endpoints[e].mailbox, {id});
    s.(pending := s.pending - {id}, endpoints := s.endpoints[e := s.endpoints[e].(mailbox := mailbox)])
  }

  lemma {:induction false} FinishedState(s: State, id: Id, outcome: Outcome)
    requires id in s.pending && s.pending[id].endpoint < |s.endpoints|
    ensures Finish(s, {id}, outcome) == WithoutRequest(s, id).(finished := s.finished[id := outcome])
  {
    var t := Finish(s, {id}, outcome);
    forall k: nat | k < |s.endpoints| && k != s.pending[id].endpoint ensures t.endpoints[k] == s.endpoints[k] {
      assert OpenAt(s, k) * {id} == {};
      DropNothing(s.endpoints[k].mailbox);
    }
    assert OpenAt(s, s.pending[id].endpoint) * {id} == {id} && {id} * s.pending.Keys == {id};
    assert t.finished == s.finished[id := outcome];
  }

  lemma {:induction false} FinishAbsent(s: State, id: Id, outcome: Outcome)
    requires id !in s.pending
    ensures Finish(s, {id}, outcome) == Finish(s, {}, outcome)
  {
    assert {id} * s.pending.Keys == {} * s.pending.Keys;
    assert forall e: nat | e < |s.endpoints| :: OpenAt(s, e) * {id} == OpenAt(s, e) * {};
  }

  lemma {:induction false} NoneOpenAt(s: State, e: nat)
    requires OpenAt(s, e) == {}
    ensures forall id | id in s.pending :: s.pending[id].endpoint != e
  {
    forall id | id in s.pending ensures s.pending[id].endpoint != e {
      assert id !in OpenAt(s, e);
    }
  }
}
