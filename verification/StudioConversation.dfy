/** A conversation and the Studio that answers its mailbox, together: packages/decorator-agent/src/studio-session.ts
    with its journal and broker, and scripts/studio-smoke/adapter.ts. What the journal says about a command is what
    happened to the room. */
module StudioConversation {
  import opened Outcomes
  import opened StudioContract
  import opened StudioRecords
  import B = StudioBrokerState
  import J = StudioJournalState
  import S = StudioSession
  import A = StudioAdapter
  import R = StudioRuns

  datatype Studio = Studio(tabId: Id, catalog: A.Catalog)

  /** What the Studio recorded about each command. */
  type Log = map<Id, A.Recorded>

  /** `taken` are the requests that the Studio has seen in its mailbox, and `answers` what executing them returned. */
  datatype World = World(system: S.System, store: A.Store, taken: map<Id, B.Request>, answers: map<Id, CommandResult>)

  /** The Studio sees a request, works on it, and replies, each at any later time, again, or never; its user picks
      and moves objects. `Resends` is a caller that kept an old record. */
  datatype Event =
    | Talks(event: S.Event)
    | Resends(record: CommandRecord, requestId: Id, abortedLater: bool)
    | Takes(endpoint: nat, place: nat)
    | Works(requestId: Id, mint: A.Mint, stamp: string, failSave: bool, written: bool)
    | Replies(endpoint: nat, requestId: Id, generation: Id, update: Option<B.ContextUpdate>)
    | Picks(ids: seq<Id>)
    | Nudges(objectId: Id, patch: A.TransformPatch, stamp: string, written: bool)

  /** The endpoint is registered for the tab of the Studio. */
  predicate IsFor(studio: Studio, b: B.State, e: nat)
  {
    && e < |b.endpoints| && b.endpoints[e].connection.Some?
    && b.endpoints[e].connection.value.binding.tabId == studio.tabId
  }

  /** The requests that the Studio executes: for its own room and tab. */
  predicate IsDue(studio: Studio, w: World, requestId: Id)
  {
    && requestId in w.taken && w.taken[requestId].ask.AskExecute?
    && w.taken[requestId].binding == Binding(w.store.snapshot.designId, studio.tabId)
  }

  /** What `execute` returns: the recorded result, unless the ID was used for another command or the document could
      not be written. */
  function Answered(log: Log, answers: map<Id, CommandResult>, requestId: Id, command: Command): map<Id, CommandResult>
  {
    if command.commandId in log && log[command.commandId].command == command
    then answers[requestId := log[command.commandId].result] else answers
  }

  function Next(studio: Studio, w: World, e: Event): (next: World)
    requires ValidSnapshot(w.store.snapshot)
    ensures ValidSnapshot(next.store.snapshot)
  {
    match e
    case Talks(event) => w.(system := S.Next(w.system, event))
    case Resends(record, requestId, abortedLater) =>
      w.(system := S.Execute(w.system, record, requestId, false, abortedLater))
    case Takes(e, place) =>
      if IsFor(studio, w.system.broker, e) && place < |w.system.broker.endpoints[e].mailbox| then
        var request := w.system.broker.endpoints[e].mailbox[place];
        w.(taken := w.taken[request.requestId := request])
      else w
    case Works(requestId, mint, stamp, failSave, written) =>
      if IsDue(studio, w, requestId) then
        var command := w.taken[requestId].ask.command;
        var store := R.Next(studio.tabId, studio.catalog, w.store, R.Sent(command, mint, stamp, failSave, written));
        w.(store := store, answers := Answered(store.commands, w.answers, requestId, command))
      else w
    case Replies(e, requestId, generation, update) =>
      if requestId in w.answers then
        var response := B.Response(requestId, generation, B.ResultBody(w.answers[requestId], update));
        w.(system := w.system.(broker := B.Next(w.system.broker, B.Responds(e, response))))
      else w
    case Picks(ids) => w.(store := R.Next(studio.tabId, studio.catalog, w.store, R.Picked(ids)))
    case Nudges(objectId, patch, stamp, written) =>
      w.(store := R.Next(studio.tabId, studio.catalog, w.store, R.Nudged(objectId, patch, stamp, written)))
  }

  /** Every event may happen at any time. */
  ghost predicate Follows(studio: Studio, worlds: seq<World>, events: seq<Event>)
  {
    && |worlds| == |events| + 1
    && (forall k: nat | k < |worlds| :: ValidSnapshot(worlds[k].store.snapshot))
    && (forall k: nat | k < |events| :: worlds[k + 1] == Next(studio, worlds[k], events[k]))
  }

  // ---- Once ---------------------------------------------------------------------------

  /** The Studio works on a request for this command. */
  predicate WorksOn(studio: Studio, w: World, e: Event, id: Id)
  {
    e.Works? && IsDue(studio, w, e.requestId) && w.taken[e.requestId].ask.command.commandId == id
  }

  predicate Saves(studio: Studio, a: World, b: World, e: Event, id: Id)
  {
    WorksOn(studio, a, e, id) && b.store.saveCount == a.store.saveCount + 1
  }

  predicate Grows(a: Log, b: Log) { forall id | id in a :: id in b && b[id] == a[id] }

  /** Working on a command that is recorded changes nothing. Otherwise it is recorded now, and the room changes
      to the one that the result shows, or stays as it is. */
  predicate Recording(a: A.Store, b: A.Store, command: Command)
  {
    && (command.commandId in a.commands ==> b == a)
    && (b != a ==>
          && command.commandId !in a.commands && command.commandId in b.commands
          && b.commands[command.commandId].command == command
          && b.commands == a.commands[command.commandId := b.commands[command.commandId]]
          && var result := b.commands[command.commandId].result;
             if result.Saved? then result.snapshot == b.snapshot && b.saveCount == a.saveCount + 1
             else b.snapshot == a.snapshot && b.saveCount == a.saveCount)
  }

  lemma {:induction false} WorkRecords(studio: Studio, w: World, e: Event)
    requires ValidSnapshot(w.store.snapshot) && e.Works? && IsDue(studio, w, e.requestId)
    ensures Recording(w.store, Next(studio, w, e).store, w.taken[e.requestId].ask.command)
  {
    SentRecords(studio, w.store, w.taken[e.requestId].ask.command, e.mint, e.stamp, e.failSave, e.written);
  }

  lemma {:induction false} SentRecords(studio: Studio, store: A.Store, command: Command, mint: A.Mint, stamp: string,
                                       failSave: bool, written: bool)
    requires ValidSnapshot(store.snapshot)
    ensures Recording(store, R.Next(studio.tabId, studio.catalog, store,
                                    R.Sent(command, mint, stamp, failSave, written)), command)
  {
  }

  /** Nothing but the Studio's own work touches what it has recorded, and nothing else saves. */
  lemma {:induction false} OthersRecordNothing(studio: Studio, w: World, e: Event)
    requires ValidSnapshot(w.store.snapshot) && !(e.Works? && IsDue(studio, w, e.requestId))
    ensures var t := Next(studio, w, e); t.store.commands == w.store.commands && t.store.saveCount == w.store.saveCount
  {
  }

  lemma {:induction false} LogGrows(studio: Studio, w: World, e: Event)
    requires ValidSnapshot(w.store.snapshot)
    ensures Grows(w.store.commands, Next(studio, w, e).store.commands)
  {
    if e.Works? && IsDue(studio, w, e.requestId) {
      WorkRecords(studio, w, e);
    } else {
      OthersRecordNothing(studio, w, e);
    }
  }

  ghost predicate Growing(logs: seq<Log>) { forall k: nat | k + 1 < |logs| :: Grows(logs[k], logs[k + 1]) }

  lemma {:induction false} GrowsFrom(logs: seq<Log>, j: nat, k: nat)
    requires Growing(logs) && j <= k < |logs|
    ensures Grows(logs[j], logs[k])
    decreases k
  {
    if j < k {
      GrowsFrom(logs, j, k - 1);
      assert Grows(logs[k - 1], logs[k - 1 + 1]);
    }
  }

  function Logs(worlds: seq<World>): (logs: seq<Log>)
    ensures |logs| == |worlds| && forall k | 0 <= k < |worlds| :: logs[k] == worlds[k].store.commands
  {
    seq(|worlds|, k requires 0 <= k < |worlds| => worlds[k].store.commands)
  }

  lemma {:induction false} LogsGrow(studio: Studio, worlds: seq<World>, events: seq<Event>)
    requires Follows(studio, worlds, events)
    ensures Growing(Logs(worlds))
  {
    forall k: nat | k + 1 < |Logs(worlds)| ensures Grows(Logs(worlds)[k], Logs(worlds)[k + 1]) {
      LogGrows(studio, worlds[k], events[k]);
    }
  }

  /** What the Studio has recorded stays recorded. */
  lemma {:induction false} LogKept(studio: Studio, worlds: seq<World>, events: seq<Event>, j: nat, k: nat)
    requires Follows(studio, worlds, events) && j <= k < |worlds|
    ensures Grows(worlds[j].store.commands, worlds[k].store.commands)
  {
    LogsGrow(studio, worlds, events);
    GrowsFrom(Logs(worlds), j, k);
  }

  lemma {:induction false} SavesRecords(studio: Studio, a: World, e: Event, id: Id)
    requires ValidSnapshot(a.store.snapshot) && Saves(studio, a, Next(studio, a, e), e, id)
    ensures var b := Next(studio, a, e).store;
            && id !in a.store.commands && id in b.commands && b.commands[id].result.Saved?
            && b.commands[id].result.snapshot == b.snapshot
  {
    WorkRecords(studio, a, e);
  }

  /** However often a command is sent and worked on, by whatever record, it changes the room at most once. */
  lemma {:induction false} ChangesOnce(studio: Studio, worlds: seq<World>, events: seq<Event>, i: nat, j: nat, id: Id)
    requires Follows(studio, worlds, events) && i < j < |events|
    requires Saves(studio, worlds[i], worlds[i + 1], events[i], id) && WorksOn(studio, worlds[j], events[j], id)
    ensures worlds[j + 1].store == worlds[j].store
  {
    SavesRecords(studio, worlds[i], events[i], id);
    LogKept(studio, worlds, events, i + 1, j);
    WorkRecords(studio, worlds[j], events[j]);
  }

  // ---- What ends a request --------------------------------------------------------------

  /** Requests end as failures, but for the one that is answered. */
  ghost predicate EndBy(a: B.State, b: B.State, id: Id, body: B.Body)
  {
    forall x | x in b.finished ::
      || (x in a.finished && b.finished[x] == a.finished[x]) || b.finished[x].Failed?
      || (x == id && x in a.pending && b.finished[x] == B.Resolved(body))
  }

  lemma {:induction false} FinishEnds(s: B.State, ids: set<Id>, outcome: B.Outcome, id: Id, body: B.Body)
    requires outcome.Failed? || (ids == {id} && outcome == B.Resolved(body))
    ensures EndBy(s, B.Finish(s, ids, outcome), id, body) && B.Finish(s, ids, outcome).sent == s.sent
  {
  }

  lemma {:induction false} EndByOn(a: B.State, b: B.State, c: B.State, id: Id, body: B.Body)
    requires EndBy(a, b, id, body) && EndBy(b, c, id, body) && b.pending.Keys <= a.pending.Keys
    ensures EndBy(a, c, id, body)
  {
  }

  lemma {:induction false} ContextEnds(s: B.State, e: nat, update: B.ContextUpdate)
    requires e < |s.endpoints| && s.endpoints[e].connection.Some? && B.ApplyContext(s, e, update).Ok?
    ensures var t := B.ApplyContext(s, e, update).value;
            t.sent == s.sent && t.pending == s.pending && t.finished == s.finished
  {
  }

  /** What a delivered reply leaves: nothing new, or its request finished, before or after its room is applied. */
  lemma {:induction false} DeliverForm(s: B.State, e: nat, request: B.Request, response: B.Response)
    requires e < |s.endpoints| && s.endpoints[e].connection.Some?
    ensures var t, id, ended := B.Deliver(s, e, request, response).0, response.requestId, B.Resolved(response.body);
            || t == s || t == B.Finish(s, {id}, ended)
            || (exists update :: B.ApplyContext(s, e, update).Ok?
                                 && t == B.Finish(B.ApplyContext(s, e, update).value, {id}, ended))
            || (exists update :: B.ApplyContext(B.Finish(s, {id}, ended), e, update) == Ok(t))
  {
    match response.body
    case ContextBody(update) => var applied := B.ApplyContext(s, e, update);
    case ResultBody(_, context) =>
      if context.Some? {
        var done := B.ApplyContext(B.Finish(s, {response.requestId}, B.Resolved(response.body)), e, context.value);
      }
    case ErrorBody(_) =>
    case OtherBody =>
  }

  /** A delivered reply ends nothing but its own request, in the way it says. */
  lemma {:induction false} DeliverEnds(s: B.State, e: nat, request: B.Request, response: B.Response)
    requires e < |s.endpoints| && s.endpoints[e].connection.Some?
    ensures var t := B.Deliver(s, e, request, response).0;
            EndBy(s, t, response.requestId, response.body) && t.sent == s.sent && t.pending.Keys <= s.pending.Keys
  {
    var t, id, body := B.Deliver(s, e, request, response).0, response.requestId, response.body;
    var done := B.Finish(s, {id}, B.Resolved(body));
    DeliverForm(s, e, request, response);
    FinishEnds(s, {id}, B.Resolved(body), id, body);
    if t != s && t != done {
      if update :| B.ApplyContext(s, e, update).Ok?
                   && t == B.Finish(B.ApplyContext(s, e, update).value, {id}, B.Resolved(body)) {
        ContextEnds(s, e, update);
        FinishEnds(B.ApplyContext(s, e, update).value, {id}, B.Resolved(body), id, body);
      } else {
        var update :| B.ApplyContext(done, e, update) == Ok(t);
        ContextEnds(done, e, update);
      }
    }
  }

  /** A reply that reaches its request through the right endpoint ends it, and nothing else does. */
  lemma {:induction false} RespondEnds(s: B.State, e: nat, response: B.Response)
    requires e < |s.endpoints|
    ensures var t, id := B.Respond(s, e, response).0, response.requestId;
            && t.sent == s.sent && EndBy(s, t, id, response.body)
            && (t == s || (id in s.pending && s.pending[id].endpoint == e))
  {
    B.Responded(s, e, response);
    var t, id, body := B.Respond(s, e, response).0, response.requestId, response.body;
    if t != s {
      var next := B.Deliver(s, e, s.pending[id].request, response).0;
      DeliverEnds(s, e, s.pending[id].request, response);
      FinishEnds(next, {id}, B.Failed(OutcomeUnknown), id, body);
      EndByOn(s, next, B.Finish(next, {id}, B.Failed(OutcomeUnknown)), id, body);
    }
  }

  lemma {:induction false} ReleaseEnds(s: B.State, e: nat)
    requires e < |s.endpoints|
    ensures var t := B.Release(s, e); t.sent == s.sent && EndBy(s, t, "", B.OtherBody)
  {
  }

  /** Whatever else happens to the broker, requests only fail, and only `Sends` adds one. */
  lemma {:induction false} OthersEnd(s: B.State, step: B.Step)
    requires !step.Responds? && !step.Sends?
    ensures var t := B.Next(s, step); t.sent == s.sent && EndBy(s, t, "", B.OtherBody)
  {
    match step
    case Releases(e) =>
      if e < |s.endpoints| {
        ReleaseEnds(s, e);
      }
    case TimesOut(id) =>
    case Stops(id) => FinishEnds(s, {id}, B.Failed(OutcomeUnknown), "", B.OtherBody);
    case Closes => FinishEnds(s.(closed := true), s.pending.Keys, B.Failed(StudioUnavailable), "", B.OtherBody);
    case _ =>
  }

  // ---- True replies ---------------------------------------------------------------------

  /** The Studio recorded this result for this very command. */
  predicate Recorded(log: Log, command: Command, result: CommandResult)
  {
    command.commandId in log && log[command.commandId] == A.Recorded(command, result)
  }

  /** A result is the recorded one; the Studio never answers with an error. */
  predicate TrueReply(log: Log, request: B.Request, outcome: B.Outcome)
  {
    match outcome
    case Resolved(ResultBody(result, _)) => request.ask.AskExecute? && Recorded(log, request.ask.command, result)
    case Resolved(ErrorBody(_)) => false
    case _ => true
  }

  ghost predicate TrueReplies(tabId: Id, b: B.State, log: Log)
  {
    forall i: nat | i < |b.sent| && B.SentId(b.sent, i) in b.finished && b.sent[i].request.binding.tabId == tabId ::
      TrueReply(log, b.sent[i].request, b.finished[B.SentId(b.sent, i)])
  }

  lemma {:induction false} TrueAsLogGrows(tabId: Id, b: B.State, log: Log, more: Log)
    requires TrueReplies(tabId, b, log) && Grows(log, more)
    ensures TrueReplies(tabId, b, more)
  {
    forall i: nat | i < |b.sent| && B.SentId(b.sent, i) in b.finished && b.sent[i].request.binding.tabId == tabId
      ensures TrueReply(more, b.sent[i].request, b.finished[B.SentId(b.sent, i)])
    {
      assert TrueReply(log, b.sent[i].request, b.finished[B.SentId(b.sent, i)]);
    }
  }

  lemma {:induction false} TrueAsTheyEnd(tabId: Id, a: B.State, b: B.State, log: Log, id: Id, body: B.Body)
    requires B.EndsOnce(a) && TrueReplies(tabId, a, log) && b.sent == a.sent && EndBy(a, b, id, body)
    requires id in a.pending && a.pending[id].request.binding.tabId == tabId ==>
               TrueReply(log, a.pending[id].request, B.Resolved(body))
    ensures TrueReplies(tabId, b, log)
  {
    forall i: nat | i < |b.sent| && B.SentId(b.sent, i) in b.finished && b.sent[i].request.binding.tabId == tabId
      ensures TrueReply(log, b.sent[i].request, b.finished[B.SentId(b.sent, i)])
    {
      var x := B.SentId(b.sent, i);
      if x in a.finished && b.finished[x] == a.finished[x] {
        assert TrueReply(log, a.sent[i].request, a.finished[B.SentId(a.sent, i)]);
      } else if !b.finished[x].Failed? {
        assert a.pending[x] == a.sent[i];
      }
    }
  }

  lemma {:induction false} TrueAsSent(tabId: Id, a: B.State, b: B.State, log: Log, p: B.Pending)
    requires B.EndsOnce(a) && B.NewId(a, p.request.requestId) && TrueReplies(tabId, a, log)
    requires b.sent == a.sent + [p] && b.finished == a.finished
    ensures TrueReplies(tabId, b, log)
  {
    assert !B.WasSent(a.sent, p.request.requestId);
    forall i: nat | i < |b.sent| && B.SentId(b.sent, i) in b.finished && b.sent[i].request.binding.tabId == tabId
      ensures TrueReply(log, b.sent[i].request, b.finished[B.SentId(b.sent, i)])
    {
      if i < |a.sent| {
        assert b.sent[i] == a.sent[i];
        assert TrueReply(log, a.sent[i].request, a.finished[B.SentId(a.sent, i)]);
      }
    }
  }

  // ---- The requests and who sent them ---------------------------------------------------

  /** The command IDs of this conversation. */
  type Ours = Id -> bool

  /** A command of this conversation is only asked for after it was handed over. */
  predicate WasHanded(ask: B.Ask, handed: seq<Id>, ours: Ours)
  {
    ask.AskExecute? && ours(ask.command.commandId) ==> ask.command.commandId in handed
  }

  ghost predicate AllHanded(sent: seq<B.Pending>, taken: map<Id, B.Request>, handed: seq<Id>, ours: Ours)
  {
    && (forall i: nat | i < |sent| :: WasHanded(sent[i].request.ask, handed, ours))
    && (forall id | id in taken :: WasHanded(taken[id].ask, handed, ours))
  }

  /** The Studio has the requests that were sent. */
  ghost predicate TakenSent(sent: seq<B.Pending>, taken: map<Id, B.Request>)
  {
    forall i: nat | i < |sent| && B.SentId(sent, i) in taken :: taken[B.SentId(sent, i)] == sent[i].request
  }

  ghost predicate LogHanded(log: Log, handed: seq<Id>, ours: Ours)
  {
    forall id | id in log :: log[id].command.commandId == id && (ours(id) ==> id in handed)
  }

  ghost predicate TrueAnswers(taken: map<Id, B.Request>, answers: map<Id, CommandResult>, log: Log)
  {
    forall id | id in answers ::
      id in taken && taken[id].ask.AskExecute? && Recorded(log, taken[id].ask.command, answers[id])
  }

  /** What a record says about a command of this tab is what the Studio recorded. */
  predicate Truthful(tabId: Id, log: Log, r: CommandRecord)
  {
    r.command.binding.tabId == tabId && (r.state.StateCommitted? || r.state.StateRejected?) ==>
      r.result.Some? && Recorded(log, r.command, r.result.value)
  }

  ghost predicate TruthfulJournal(tabId: Id, log: Log, j: J.Journal)
  {
    && (forall id | id in j.current :: Truthful(tabId, log, j.current[id]))
    && (forall id | id in j.storedCommands :: Truthful(tabId, log, j.storedCommands[id]))
  }

  ghost predicate Invariant(studio: Studio, w: World, owner: S.Owner, ours: Ours)
  {
    && ValidSnapshot(w.store.snapshot)
    && S.Invariant(w.system, owner) && (forall id | id in w.system.made :: ours(id))
    && Agreed(studio.tabId, w, ours)
  }

  ghost predicate Agreed(tabId: Id, w: World, ours: Ours)
  {
    && AllHanded(w.system.broker.sent, w.taken, w.system.handed, ours) && TakenSent(w.system.broker.sent, w.taken)
    && LogHanded(w.store.commands, w.system.handed, ours) && TrueAnswers(w.taken, w.answers, w.store.commands)
    && TrueReplies(tabId, w.system.broker, w.store.commands)
    && TruthfulJournal(tabId, w.store.commands, w.system.journal)
  }

  /** Request IDs are new, prepared commands are ours and others are not, the endpoints of the tab are those of the
      Studio, whose results come from its own work, and the callers pass the current record. */
  predicate Enabled(studio: Studio, w: World, e: Event, owner: S.Owner, ours: Ours)
  {
    match e
    case Talks(event) => S.Enabled(w.system, event, owner) && Possible(studio, w, event, ours)
    case Resends(_, _, _) => false
    case _ => true
  }

  predicate Possible(studio: Studio, w: World, event: S.Event, ours: Ours)
  {
    match event
    case Prepares(_, command) => ours(command.commandId)
    case Executes(_, requestId, _, _) => requestId !in w.taken
    case Brokered(Sends(_, ask, requestId, _)) =>
      requestId !in w.taken && (ask.AskExecute? ==> !ours(ask.command.commandId))
    case Brokered(Responds(e, response)) =>
      IsFor(studio, w.system.broker, e) ==> response.body.ContextBody? || response.body.OtherBody?
    case _ => true
  }

  // ---- What the broker does keeps them true ---------------------------------------------

  lemma {:induction false} MoreHanded(sent: seq<B.Pending>, taken: map<Id, B.Request>, log: Log, handed: seq<Id>,
                                      id: Id, ours: Ours)
    requires AllHanded(sent, taken, handed, ours) && LogHanded(log, handed, ours)
    ensures AllHanded(sent, taken, handed + [id], ours) && LogHanded(log, handed + [id], ours)
  {
    assert forall x | x in handed :: x in handed + [id];
  }

  lemma {:induction false} SentAgrees(sent: seq<B.Pending>, taken: map<Id, B.Request>, handed: seq<Id>, p: B.Pending,
                                      ours: Ours)
    requires AllHanded(sent, taken, handed, ours) && TakenSent(sent, taken)
    requires WasHanded(p.request.ask, handed, ours) && p.request.requestId !in taken
    ensures AllHanded(sent + [p], taken, handed, ours) && TakenSent(sent + [p], taken)
  {
    forall i: nat | i < |sent + [p]| && B.SentId(sent + [p], i) in taken
      ensures taken[B.SentId(sent + [p], i)] == (sent + [p])[i].request
    {
      assert i < |sent| ==> B.SentId(sent, i) == B.SentId(sent + [p], i);
    }
  }

  /** A request is sent, handed over or not. */
  lemma {:induction false} SendAgrees(tabId: Id, w: World, t: World, binding: Binding, ask: B.Ask, requestId: Id,
                                      aborted: bool, ours: Ours)
    requires Agreed(tabId, w, ours) && B.Log(w.system.broker)
    requires B.NewId(w.system.broker, requestId) && requestId !in w.taken
    requires B.Send(w.system.broker, binding, ask, requestId, aborted) == Ok(t.system.broker)
    requires t == w.(system := w.system.(broker := t.system.broker)) && WasHanded(ask, w.system.handed, ours)
    ensures Agreed(tabId, t, ours)
  {
    var p := SendForm(w.system.broker, binding, ask, requestId, aborted);
    SentAgrees(w.system.broker.sent, w.taken, w.system.handed, p, ours);
    TrueAsSent(tabId, w.system.broker, t.system.broker, w.store.commands, p);
  }

  lemma {:induction false} SendForm(b: B.State, binding: Binding, ask: B.Ask, requestId: Id, aborted: bool)
    returns (p: B.Pending)
    requires B.Send(b, binding, ask, requestId, aborted).Ok?
    ensures var next := B.Send(b, binding, ask, requestId, aborted).value;
            && next.sent == b.sent + [p] && next.finished == b.finished
            && p.request.requestId == requestId && p.request.ask == ask
  {
    p := B.Send(b, binding, ask, requestId, aborted).value.sent[|b.sent|];
  }

  /** Requests end, one of them perhaps by a true reply. */
  lemma {:induction false} EndsAgree(tabId: Id, w: World, t: World, id: Id, body: B.Body, ours: Ours)
    requires Agreed(tabId, w, ours) && B.EndsOnce(w.system.broker)
    requires t == w.(system := w.system.(broker := t.system.broker))
    requires t.system.broker.sent == w.system.broker.sent && EndBy(w.system.broker, t.system.broker, id, body)
    requires id in w.system.broker.pending && w.system.broker.pending[id].request.binding.tabId == tabId ==>
               TrueReply(w.store.commands, w.system.broker.pending[id].request, B.Resolved(body))
    ensures Agreed(tabId, t, ours)
  {
    TrueAsTheyEnd(tabId, w.system.broker, t.system.broker, w.store.commands, id, body);
  }

  /** The endpoint through which a request of the tab is answered is that of the Studio. */
  lemma {:induction false} AnsweredHere(studio: Studio, b: B.State, id: Id)
    requires B.Sound(b, {}) && id in b.pending && b.pending[id].request.binding.tabId == studio.tabId
    ensures IsFor(studio, b, b.pending[id].endpoint)
  {
    assert B.Live(b, b.pending[id]);
  }

  lemma {:induction false} RespondAgrees(studio: Studio, w: World, t: World, e: nat, response: B.Response, ours: Ours)
    requires Agreed(studio.tabId, w, ours) && B.Sound(w.system.broker, {}) && e < |w.system.broker.endpoints|
    requires IsFor(studio, w.system.broker, e) ==> response.body.ContextBody? || response.body.OtherBody?
    requires t == w.(system := w.system.(broker := B.Respond(w.system.broker, e, response).0))
    ensures Agreed(studio.tabId, t, ours)
  {
    var b, id := w.system.broker, response.requestId;
    RespondEnds(b, e, response);
    if t.system.broker != b {
      if b.pending[id].request.binding.tabId == studio.tabId {
        AnsweredHere(studio, b, id);
      }
      EndsAgree(studio.tabId, w, t, id, response.body, ours);
    }
  }

  lemma {:induction false} StepAgrees(studio: Studio, w: World, t: World, step: B.Step, ours: Ours)
    requires Agreed(studio.tabId, w, ours) && B.Sound(w.system.broker, {})
    requires step.Sends? ==> B.NewId(w.system.broker, step.requestId)
    requires Possible(studio, w, S.Brokered(step), ours)
    requires t == w.(system := w.system.(broker := B.Next(w.system.broker, step)))
    ensures Agreed(studio.tabId, t, ours)
  {
    match step
    case Sends(binding, ask, requestId, aborted) =>
      if B.Send(w.system.broker, binding, ask, requestId, aborted).Ok? {
        SendAgrees(studio.tabId, w, t, binding, ask, requestId, aborted, ours);
      }
    case Responds(e, response) =>
      if e < |w.system.broker.endpoints| {
        RespondAgrees(studio, w, t, e, response, ours);
      }
    case _ =>
      OthersEnd(w.system.broker, step);
      EndsAgree(studio.tabId, w, t, "", B.OtherBody, ours);
  }

  lemma {:induction false} PendingTaken(b: B.State, taken: map<Id, B.Request>, id: Id)
    requires B.EndsOnce(b) && TakenSent(b.sent, taken) && id in taken && id in b.pending
    ensures b.pending[id].request == taken[id]
  {
    assert B.WasSent(b.sent, id);
    var i: nat :| i < |b.sent| && B.SentId(b.sent, i) == id;
  }

  /** The Studio replies with what executing the request returned. */
  lemma {:induction false} RepliesAgree(tabId: Id, w: World, t: World, e: nat, response: B.Response, ours: Ours)
    requires Agreed(tabId, w, ours) && B.Sound(w.system.broker, {}) && e < |w.system.broker.endpoints|
    requires response.requestId in w.answers && response.body.ResultBody?
             && response.body.result == w.answers[response.requestId]
    requires t == w.(system := w.system.(broker := B.Respond(w.system.broker, e, response).0))
    ensures Agreed(tabId, t, ours)
  {
    var b, id := w.system.broker, response.requestId;
    RespondEnds(b, e, response);
    if id in b.pending {
      PendingTaken(b, w.taken, id);
    }
    EndsAgree(tabId, w, t, id, response.body, ours);
  }

  // ---- What the journal does keeps it truthful -------------------------------------------

  /** Records are forgotten, or replaced by records that are not decided. */
  ghost predicate DecidesNothing(j: J.Journal, k: J.Journal)
  {
    && k.storedCommands == j.storedCommands
    && forall id | id in k.current ::
         || (id in j.current && k.current[id] == j.current[id])
         || !(k.current[id].state.StateCommitted? || k.current[id].state.StateRejected?)
  }

  lemma {:induction false} StaysTruthful(tabId: Id, log: Log, j: J.Journal, k: J.Journal)
    requires TruthfulJournal(tabId, log, j) && DecidesNothing(j, k)
    ensures TruthfulJournal(tabId, log, k)
  {
    forall id | id in k.current ensures Truthful(tabId, log, k.current[id]) {
      assert id in j.current ==> Truthful(tabId, log, j.current[id]);
    }
  }

  lemma {:induction false} TruthfulAsLogGrows(tabId: Id, log: Log, more: Log, j: J.Journal)
    requires TruthfulJournal(tabId, log, j) && Grows(log, more)
    ensures TruthfulJournal(tabId, more, j)
  {
    forall id | id in j.current ensures Truthful(tabId, more, j.current[id]) {
      assert Truthful(tabId, log, j.current[id]);
    }
    forall id | id in j.storedCommands ensures Truthful(tabId, more, j.storedCommands[id]) {
      assert Truthful(tabId, log, j.storedCommands[id]);
    }
  }

  lemma {:induction false} SettlesTruthfully(tabId: Id, log: Log, j: J.Journal, result: CommandResult, writes: bool)
    requires TruthfulJournal(tabId, log, j)
    requires result.commandId in j.current && !result.Unknown?
             && j.current[result.commandId].command.binding.tabId == tabId ==>
               Recorded(log, j.current[result.commandId].command, result)
    ensures TruthfulJournal(tabId, log, J.Settle(j, result, writes).0)
  {
    var k := J.Settle(j, result, writes).0;
    forall id | id in k.current ensures Truthful(tabId, log, k.current[id]) {
      assert Truthful(tabId, log, j.current[id]);
    }
    forall id | id in k.storedCommands ensures Truthful(tabId, log, k.storedCommands[id]) {
      assert id in j.storedCommands ==> Truthful(tabId, log, j.storedCommands[id]);
    }
  }

  /** The result on which an `execute` returns is the one that the Studio recorded. */
  lemma {:induction false} ReturnsTrueResult(tabId: Id, log: Log, s: S.System, requestId: Id)
    requires S.WaitsMatch(s) && TrueReplies(tabId, s.broker, log)
    requires requestId in s.waiting && requestId in s.broker.finished
    ensures var id := s.waiting[requestId];
            var result := S.ResultOf(id, s.broker.finished[requestId]);
            id in s.journal.current && !result.Unknown? && s.journal.current[id].command.binding.tabId == tabId ==>
              Recorded(log, s.journal.current[id].command, result)
  {
    var i: nat :| i < |s.broker.sent| && S.Carries(s, requestId, i);
    assert B.SentId(s.broker.sent, i) == requestId;
    assert s.broker.sent[i].request.binding.tabId == tabId ==>
        TrueReply(log, s.broker.sent[i].request, s.broker.finished[requestId]);
  }

  lemma {:induction false} ReturnsTruthfully(tabId: Id, log: Log, s: S.System, requestId: Id, writes: bool)
    requires B.Sound(s.broker, {}) && S.WaitsMatch(s) && TrueReplies(tabId, s.broker, log)
    requires TruthfulJournal(tabId, log, s.journal) && requestId in s.waiting && requestId in s.broker.finished
    ensures var result := S.ResultOf(s.waiting[requestId], s.broker.finished[requestId]);
            TruthfulJournal(tabId, log, J.Settle(s.journal, result, writes).0)
  {
    var result := S.ResultOf(s.waiting[requestId], s.broker.finished[requestId]);
    ReturnsTrueResult(tabId, log, s, requestId);
    var command := S.ReturnedResult(s, requestId);
    SettlesTruthfully(tabId, log, s.journal, result, writes);
  }

  // ---- Every event keeps all this -------------------------------------------------------

  lemma {:induction false} QuietAgrees(tabId: Id, w: World, t: World, ours: Ours)
    requires Agreed(tabId, w, ours) && t == w.(system := t.system)
    requires t.system.broker == w.system.broker && t.system.handed == w.system.handed
    requires TruthfulJournal(tabId, w.store.commands, t.system.journal)
    ensures Agreed(tabId, t, ours)
  {
  }

  /** Admitting, cancelling, finishing and binding decide nothing. */
  lemma {:induction false} QuietForm(s: S.System, event: S.Event)
    requires event.Prompts? || event.Aborts? || event.Finishes? || event.Binds?
    ensures var t := S.Next(s, event);
            t.broker == s.broker && t.handed == s.handed && t.made == s.made && DecidesNothing(s.journal, t.journal)
  {
  }

  lemma {:induction false} PreparesQuietly(s: S.System, op: Id, command: Command)
    requires forall id | id in s.journal.current :: id in s.made
    ensures var t := S.PrepareIn(s, op, command).0;
            && t.broker == s.broker && t.handed == s.handed && t.made <= s.made + {command.commandId}
            && DecidesNothing(s.journal, t.journal)
  {
    S.PreparedForm(s, command, op);
  }

  lemma {:induction false} ExecutesQuietly(s: S.System, t: S.System, id: Id, r: CommandRecord)
    requires S.Moves(s, t, id, r) && (r.state.StateCancelled? || r.state.StateUnknown?)
    ensures DecidesNothing(s.journal, t.journal) && t.made == s.made
  {
  }

  lemma {:induction false} HandsOverAgrees(tabId: Id, w: World, t: World, id: Id, ours: Ours)
    requires Agreed(tabId, w, ours) && t == w.(system := t.system)
    requires t.system.broker == w.system.broker && t.system.handed == w.system.handed + [id]
    requires DecidesNothing(w.system.journal, t.system.journal)
    ensures Agreed(tabId, t, ours)
  {
    MoreHanded(w.system.broker.sent, w.taken, w.store.commands, w.system.handed, id, ours);
    StaysTruthful(tabId, w.store.commands, w.system.journal, t.system.journal);
  }

  lemma {:induction false} ExecutesAgree(studio: Studio, w: World, t: World, event: S.Event, owner: S.Owner, ours: Ours)
    requires Agreed(studio.tabId, w, ours) && S.Invariant(w.system, owner) && event.Executes?
    requires S.Enabled(w.system, event, owner) && event.requestId !in w.taken
    requires t == w.(system := S.Next(w.system, event))
    ensures Agreed(studio.tabId, t, ours) && t.system.made == w.system.made
  {
    var s, id := w.system, event.commandId;
    if id in s.journal.current && s.journal.current[id].state.StatePrepared? {
      assert S.Honest(id, s.journal.current[id]);
      var r := S.ExecuteForm(s, id, event.requestId, event.aborted, event.abortedLater);
      ExecutesQuietly(s, t.system, id, r);
      if t.system.handed == s.handed {
        StaysTruthful(studio.tabId, w.store.commands, s.journal, t.system.journal);
        QuietAgrees(studio.tabId, w, t, ours);
      } else {
        var handed := t.(system := t.system.(broker := s.broker));
        HandsOverAgrees(studio.tabId, w, handed, id, ours);
        if t.system.broker != s.broker {
          SendAgrees(studio.tabId, handed, t, r.command.binding, B.AskExecute(r.command), event.requestId,
                     event.abortedLater, ours);
        }
      }
    }
  }

  lemma {:induction false} RestartsAgree(tabId: Id, w: World, anew: bool, ours: Ours)
    requires Agreed(tabId, w, ours)
    ensures Agreed(tabId, w.(system := S.Next(w.system, S.Restarts(anew))), ours)
    ensures S.Next(w.system, S.Restarts(anew)).made == w.system.made
  {
  }

  lemma {:induction false} ReturnsAgree(studio: Studio, w: World, t: World, requestId: Id, writes: bool, ours: Ours)
    requires Agreed(studio.tabId, w, ours) && B.Sound(w.system.broker, {}) && S.WaitsMatch(w.system)
    requires t == w.(system := S.Next(w.system, S.Returns(requestId, writes)))
    ensures Agreed(studio.tabId, t, ours) && t.system.made == w.system.made
  {
    if requestId in w.system.waiting && requestId in w.system.broker.finished {
      ReturnsTruthfully(studio.tabId, w.store.commands, w.system, requestId, writes);
      QuietAgrees(studio.tabId, w, t, ours);
    }
  }

  lemma {:induction false} UndecidedAgrees(tabId: Id, w: World, t: World, ours: Ours)
    requires Agreed(tabId, w, ours) && t == w.(system := t.system)
    requires t.system.broker == w.system.broker && t.system.handed == w.system.handed
    requires DecidesNothing(w.system.journal, t.system.journal)
    ensures Agreed(tabId, t, ours)
  {
    StaysTruthful(tabId, w.store.commands, w.system.journal, t.system.journal);
    QuietAgrees(tabId, w, t, ours);
  }

  lemma {:induction false} TalksAgree(studio: Studio, w: World, event: S.Event, owner: S.Owner, ours: Ours)
    requires Invariant(studio, w, owner, ours) && S.Enabled(w.system, event, owner) && Possible(studio, w, event, ours)
    ensures Agreed(studio.tabId, w.(system := S.Next(w.system, event)), ours)
    ensures forall id | id in S.Next(w.system, event).made :: ours(id)
  {
    var t := w.(system := S.Next(w.system, event));
    match event
    case Brokered(step) => StepAgrees(studio, w, t, step, ours);
    case Executes(_, _, _, _) => ExecutesAgree(studio, w, t, event, owner, ours);
    case Returns(requestId, writes) => ReturnsAgree(studio, w, t, requestId, writes, ours);
    case Restarts(anew) => RestartsAgree(studio.tabId, w, anew, ours);
    case Prepares(op, command) =>
      RecordsAreMade(w.system, owner);
      PreparesQuietly(w.system, op, command);
      UndecidedAgrees(studio.tabId, w, t, ours);
    case _ => QuietTalkAgrees(studio.tabId, w, t, event, ours);
  }

  lemma {:induction false} QuietTalkAgrees(tabId: Id, w: World, t: World, event: S.Event, ours: Ours)
    requires Agreed(tabId, w, ours) && t == w.(system := S.Next(w.system, event))
    requires event.Prompts? || event.Aborts? || event.Finishes? || event.Binds?
    ensures Agreed(tabId, t, ours) && t.system.made == w.system.made
  {
    QuietForm(w.system, event);
    UndecidedAgrees(tabId, w, t, ours);
  }

  lemma {:induction false} RecordsAreMade(s: S.System, owner: S.Owner)
    requires S.WellOwned(s, owner)
    ensures forall id | id in s.journal.current :: id in s.made
  {
    forall id | id in s.journal.current ensures id in s.made {
      assert S.Owned(s, id, owner);
    }
  }

  lemma {:induction false} ListedWasSent(sent: seq<B.Pending>, open: set<Id>, e: nat, place: nat) returns (i: nat)
    requires place < |B.OpenOf(sent, open, e)|
    ensures i < |sent| && sent[i].request == B.OpenOf(sent, open, e)[place]
  {
    var n := |sent| - 1;
    if place < |B.OpenOf(sent[..n], open, e)| {
      i := ListedWasSent(sent[..n], open, e, place);
    } else {
      i := n;
    }
  }

  lemma {:induction false} TakenAgrees(sent: seq<B.Pending>, taken: map<Id, B.Request>, handed: seq<Id>, i: nat,
                                       ours: Ours)
    requires AllHanded(sent, taken, handed, ours) && TakenSent(sent, taken) && B.SentDistinct(sent) && i < |sent|
    ensures var more := taken[sent[i].request.requestId := sent[i].request];
            && AllHanded(sent, more, handed, ours) && TakenSent(sent, more)
            && forall id | id in taken :: more[id] == taken[id]
  {
    assert B.SentId(sent, i) in taken ==> taken[B.SentId(sent, i)] == sent[i].request;
  }

  lemma {:induction false} TakesAgree(studio: Studio, w: World, e: nat, place: nat, ours: Ours)
    requires Agreed(studio.tabId, w, ours) && B.Sound(w.system.broker, {})
    requires e < |w.system.broker.endpoints| && place < |w.system.broker.endpoints[e].mailbox|
    ensures var request := w.system.broker.endpoints[e].mailbox[place];
            Agreed(studio.tabId, w.(taken := w.taken[request.requestId := request]), ours)
  {
    var b := w.system.broker;
    assert b.endpoints[e].mailbox == B.OpenOf(b.sent, b.pending.Keys, e);
    var i := ListedWasSent(b.sent, b.pending.Keys, e, place);
    TakenAgrees(b.sent, w.taken, w.system.handed, i, ours);
  }

  lemma {:induction false} WorkAgrees(tabId: Id, w: World, t: World, requestId: Id, ours: Ours)
    requires Agreed(tabId, w, ours) && requestId in w.taken && w.taken[requestId].ask.AskExecute?
    requires var command := w.taken[requestId].ask.command;
             Recording(w.store, t.store, command)
             && t == w.(store := t.store, answers := Answered(t.store.commands, w.answers, requestId, command))
    ensures Agreed(tabId, t, ours)
  {
    var log, more := w.store.commands, t.store.commands;
    assert Grows(log, more);
    TrueAsLogGrows(tabId, w.system.broker, log, more);
    TruthfulAsLogGrows(tabId, log, more, w.system.journal);
    AnswersAsLogGrows(w.taken, w.answers, log, more, requestId);
  }

  lemma {:induction false} AnswersAsLogGrows(taken: map<Id, B.Request>, answers: map<Id, CommandResult>, log: Log,
                                             more: Log, requestId: Id)
    requires TrueAnswers(taken, answers, log) && Grows(log, more)
    requires requestId in taken && taken[requestId].ask.AskExecute?
    ensures TrueAnswers(taken, Answered(more, answers, requestId, taken[requestId].ask.command), more)
  {
    forall id | id in answers ensures Recorded(more, taken[id].ask.command, answers[id]) {
      assert Recorded(log, taken[id].ask.command, answers[id]);
    }
  }

  lemma {:induction false} WorksKeeps(studio: Studio, w: World, e: Event, owner: S.Owner, ours: Ours)
    requires Invariant(studio, w, owner, ours) && e.Works? && IsDue(studio, w, e.requestId)
    ensures Invariant(studio, Next(studio, w, e), owner, ours)
  {
    WorkRecords(studio, w, e);
    WorkAgrees(studio.tabId, w, Next(studio, w, e), e.requestId, ours);
  }

  /** The user of the Studio touches nothing that a command is judged by. */
  lemma {:induction false} UserKeeps(studio: Studio, w: World, e: Event, owner: S.Owner, ours: Ours)
    requires Invariant(studio, w, owner, ours) && (e.Picks? || e.Nudges?)
    ensures Invariant(studio, Next(studio, w, e), owner, ours)
  {
    OthersRecordNothing(studio, w, e);
  }

  lemma {:induction false} RepliesKeeps(studio: Studio, w: World, e: Event, owner: S.Owner, ours: Ours)
    requires Invariant(studio, w, owner, ours) && e.Replies?
    ensures Invariant(studio, Next(studio, w, e), owner, ours)
  {
    if e.requestId in w.answers {
      var response := B.Response(e.requestId, e.generation, B.ResultBody(w.answers[e.requestId], e.update));
      AnswerKeeps(studio, w, Next(studio, w, e), e.endpoint, response, owner, ours);
    }
  }

  lemma {:induction false} SystemKept(s: S.System, t: S.System, step: B.Step, owner: S.Owner)
    requires S.Invariant(s, owner) && !step.Sends? && t == s.(broker := B.Next(s.broker, step))
    ensures S.Invariant(t, owner)
  {
    S.NextKeeps(s, S.Brokered(step), owner);
  }

  lemma {:induction false} AnswerAgrees(studio: Studio, w: World, t: World, e: nat, response: B.Response, ours: Ours)
    requires Agreed(studio.tabId, w, ours) && B.Sound(w.system.broker, {}) && response.requestId in w.answers
    requires response.body.ResultBody? && response.body.result == w.answers[response.requestId]
    requires t == w.(system := w.system.(broker := B.Next(w.system.broker, B.Responds(e, response))))
    ensures Agreed(studio.tabId, t, ours)
  {
    if e < |w.system.broker.endpoints| {
      RepliesAgree(studio.tabId, w, t, e, response, ours);
    }
  }

  lemma {:induction false} AnswerKeeps(studio: Studio, w: World, t: World, e: nat, response: B.Response, owner: S.Owner,
                                       ours: Ours)
    requires Invariant(studio, w, owner, ours) && response.requestId in w.answers
    requires response.body.ResultBody? && response.body.result == w.answers[response.requestId]
    requires t == w.(system := w.system.(broker := B.Next(w.system.broker, B.Responds(e, response))))
    ensures Invariant(studio, t, owner, ours)
  {
    SystemKept(w.system, t.system, B.Responds(e, response), owner);
    AnswerAgrees(studio, w, t, e, response, ours);
  }

  lemma {:induction false} TalksKeeps(studio: Studio, w: World, event: S.Event, owner: S.Owner, ours: Ours)
    requires Invariant(studio, w, owner, ours) && S.Enabled(w.system, event, owner) && Possible(studio, w, event, ours)
    ensures Invariant(studio, Next(studio, w, Talks(event)), owner, ours)
  {
    S.NextKeeps(w.system, event, owner);
    TalksAgree(studio, w, event, owner, ours);
  }

  lemma {:induction false} TakesKeeps(studio: Studio, w: World, e: Event, owner: S.Owner, ours: Ours)
    requires Invariant(studio, w, owner, ours) && e.Takes?
    ensures Invariant(studio, Next(studio, w, e), owner, ours)
  {
    if IsFor(studio, w.system.broker, e.endpoint) && e.place < |w.system.broker.endpoints[e.endpoint].mailbox| {
      TakesAgree(studio, w, e.endpoint, e.place, ours);
    }
  }

  lemma {:induction false} NextKeeps(studio: Studio, w: World, e: Event, owner: S.Owner, ours: Ours)
    requires Invariant(studio, w, owner, ours) && Enabled(studio, w, e, owner, ours)
    ensures Invariant(studio, Next(studio, w, e), owner, ours)
  {
    match e
    case Talks(event) => TalksKeeps(studio, w, event, owner, ours);
    case Takes(_, _) => TakesKeeps(studio, w, e, owner, ours);
    case Works(requestId, _, _, _, _) =>
      if IsDue(studio, w, requestId) {
        WorksKeeps(studio, w, e, owner, ours);
      }
    case Replies(_, _, _, _) => RepliesKeeps(studio, w, e, owner, ours);
    case Picks(_) => UserKeeps(studio, w, e, owner, ours);
    case Nudges(_, _, _, _) => UserKeeps(studio, w, e, owner, ours);
  }

  // ---- Whole runs -----------------------------------------------------------------------

  predicate Starts(w: World)
  {
    w.system == S.START && w.store == A.Store(w.store.snapshot, map[], 0) && w.taken == map[] && w.answers == map[]
  }

  lemma {:induction false} StartInvariant(studio: Studio, w: World, owner: S.Owner, ours: Ours)
    requires Starts(w) && ValidSnapshot(w.store.snapshot)
    ensures Invariant(studio, w, owner, ours)
  {
  }

  ghost predicate Run(studio: Studio, worlds: seq<World>, events: seq<Event>, owner: S.Owner, ours: Ours)
  {
    && Follows(studio, worlds, events)
    && Starts(worlds[0])
    && forall k: nat | k < |events| :: Enabled(studio, worlds[k], events[k], owner, ours)
  }

  lemma {:induction false} AlwaysInvariant(studio: Studio, worlds: seq<World>, events: seq<Event>, owner: S.Owner,
                                           ours: Ours, k: nat)
    requires Run(studio, worlds, events, owner, ours) && k < |worlds|
    ensures Invariant(studio, worlds[k], owner, ours)
  {
    if k == 0 {
      StartInvariant(studio, worlds[0], owner, ours);
    } else {
      AlwaysInvariant(studio, worlds, events, owner, ours, k - 1);
      NextKeeps(studio, worlds[k - 1], events[k - 1], owner, ours);
    }
  }

  lemma {:induction false} NotHandedNotRecorded(w: World, owner: S.Owner, ours: Ours, id: Id)
    requires S.WellOwned(w.system, owner) && S.HandedOnce(w.system) && (forall x | x in w.system.made :: ours(x))
    requires LogHanded(w.store.commands, w.system.handed, ours) && id in w.system.journal.current
    requires w.system.journal.current[id].state.StatePrepared? || w.system.journal.current[id].state.StateCancelled?
    ensures id !in w.store.commands
  {
    assert S.Owned(w.system, id, owner);
    assert forall i | 0 <= i < |w.system.handed| :: S.IsHanded(w.system, w.system.handed[i]);
  }

  /** What the journal says about a command of this tab is what happened: a committed command is recorded by the
      Studio as saved, with the very result; a rejected one as rejected; and one that is prepared or cancelled is
      not recorded at all. */
  lemma {:induction false} JournalTellsTruth(studio: Studio, worlds: seq<World>, events: seq<Event>, owner: S.Owner,
                                             ours: Ours, k: nat, id: Id)
    requires Run(studio, worlds, events, owner, ours) && k < |worlds|
    requires J.Get(worlds[k].system.journal, id).Some?
             && J.Get(worlds[k].system.journal, id).value.command.binding.tabId == studio.tabId
    ensures var r, log := J.Get(worlds[k].system.journal, id).value, worlds[k].store.commands;
            && r.command.commandId == id
            && match r.state
               case StateCommitted =>
                 r.result.Some? && r.result.value.Saved? && Recorded(log, r.command, r.result.value)
               case StateRejected =>
                 r.result.Some? && r.result.value.Rejected? && Recorded(log, r.command, r.result.value)
               case StateUnknown => true
               case _ => id !in log
  {
    var w := worlds[k];
    AlwaysInvariant(studio, worlds, events, owner, ours, k);
    assert S.Honest(id, J.Get(w.system.journal, id).value);
    assert Truthful(studio.tabId, w.store.commands, J.Get(w.system.journal, id).value);
    if id in w.system.journal.current
       && (w.system.journal.current[id].state.StatePrepared? || w.system.journal.current[id].state.StateCancelled?) {
      NotHandedNotRecorded(w, owner, ours, id);
    }
  }

  lemma {:induction false} FirstWith(logs: seq<Log>, k: nat, id: Id) returns (i: nat)
    requires k < |logs| && id !in logs[0] && id in logs[k]
    ensures i < k && id !in logs[i] && id in logs[i + 1]
  {
    if id in logs[k - 1] {
      i := FirstWith(logs, k - 1, id);
    } else {
      i := k - 1;
    }
  }

  lemma {:induction false} RecordingSaves(studio: Studio, w: World, e: Event, id: Id)
    requires ValidSnapshot(w.store.snapshot) && id !in w.store.commands
    requires id in Next(studio, w, e).store.commands && Next(studio, w, e).store.commands[id].result.Saved?
    ensures Saves(studio, w, Next(studio, w, e), e, id)
            && Next(studio, w, e).store.snapshot == Next(studio, w, e).store.commands[id].result.snapshot
  {
    if e.Works? && IsDue(studio, w, e.requestId) {
      WorkRecords(studio, w, e);
    } else {
      OthersRecordNothing(studio, w, e);
    }
  }

  /** A committed command changed the room, once, to exactly what its result shows. */
  lemma {:induction false} CommittedChanged(studio: Studio, worlds: seq<World>, events: seq<Event>, owner: S.Owner,
                                            ours: Ours, k: nat, id: Id) returns (i: nat)
    requires Run(studio, worlds, events, owner, ours) && k < |worlds|
    requires J.Get(worlds[k].system.journal, id).Some?
    requires var r := J.Get(worlds[k].system.journal, id).value;
             r.state.StateCommitted? && r.command.binding.tabId == studio.tabId
    ensures i < k && Saves(studio, worlds[i], worlds[i + 1], events[i], id)
    ensures var result := J.Get(worlds[k].system.journal, id).value.result;
            result.Some? && result.value.Saved? && worlds[i + 1].store.snapshot == result.value.snapshot
    ensures forall j: nat | j < |events| && Saves(studio, worlds[j], worlds[j + 1], events[j], id) :: j == i
  {
    JournalTellsTruth(studio, worlds, events, owner, ours, k, id);
    i := FirstWith(Logs(worlds), k, id);
    LogKept(studio, worlds, events, i + 1, k);
    RecordingSaves(studio, worlds[i], events[i], id);
    forall j: nat | j < |events| && Saves(studio, worlds[j], worlds[j + 1], events[j], id) ensures j == i {
      if i < j {
        ChangesOnce(studio, worlds, events, i, j, id);
      } else if j < i {
        ChangesOnce(studio, worlds, events, j, i, id);
      }
    }
  }

  lemma {:induction false} SavesShow(studio: Studio, worlds: seq<World>, events: seq<Event>, i: nat, k: nat, id: Id)
    requires Follows(studio, worlds, events) && i < |events| && k < |worlds|
    requires Saves(studio, worlds[i], worlds[i + 1], events[i], id)
    ensures i < k ==> id in worlds[k].store.commands && worlds[k].store.commands[id].result.Saved?
    ensures k <= i ==> id !in worlds[k].store.commands
  {
    SavesRecords(studio, worlds[i], events[i], id);
    if i < k {
      LogKept(studio, worlds, events, i + 1, k);
    } else {
      LogKept(studio, worlds, events, k, i);
    }
  }

  /** A rejected command never changes the room, before or after; a prepared or cancelled one has not. */
  lemma {:induction false} RefusedChangesNothing(studio: Studio, worlds: seq<World>, events: seq<Event>, owner: S.Owner,
                                                 ours: Ours, k: nat, i: nat, id: Id)
    requires Run(studio, worlds, events, owner, ours) && k < |worlds| && i < |events|
    requires J.Get(worlds[k].system.journal, id).Some?
             && J.Get(worlds[k].system.journal, id).value.command.binding.tabId == studio.tabId
    requires var state := J.Get(worlds[k].system.journal, id).value.state;
             state.StateRejected? || (i < k && (state.StatePrepared? || state.StateCancelled?))
    ensures !Saves(studio, worlds[i], worlds[i + 1], events[i], id)
    ensures WorksOn(studio, worlds[i], events[i], id) ==> worlds[i + 1].store.snapshot == worlds[i].store.snapshot
  {
    JournalTellsTruth(studio, worlds, events, owner, ours, k, id);
    if Saves(studio, worlds[i], worlds[i + 1], events[i], id) {
      SavesShow(studio, worlds, events, i, k, id);
      assert false;
    }
    if WorksOn(studio, worlds[i], events[i], id) {
      UnsavedWork(studio, worlds[i], events[i], id);
    }
  }

  lemma {:induction false} UnsavedWork(studio: Studio, w: World, e: Event, id: Id)
    requires ValidSnapshot(w.store.snapshot) && WorksOn(studio, w, e, id)
    ensures !Saves(studio, w, Next(studio, w, e), e, id) ==> Next(studio, w, e).store.snapshot == w.store.snapshot
  {
    WorkRecords(studio, w, e);
  }
}
