/** What a caller sees of a request is what the handler of that request reported, whatever interleaves:
    packages/server/src/server.ts and packages/client/src/client.ts. */
module ServiceOutcomes {
  import opened Outcomes
  import opened Sequences
  import opened ServiceStreams

  /** What the handler of a call reported, and the snapshot that its provider had made until then. */
  datatype Report = Report(call: Call, ok: bool, result: Option<Wire>, base: Option<Value>)

  /** What happened, apart from what client and server remember: the snapshots that were made, what was
      published after them, the reports of the handlers, and how each request had to end for its caller. */
  datatype History = History(streams: map<nat, Stream>, reports: map<nat, Report>, settled: map<nat, Settlement>)

  const NO_HISTORY := History(map[], map[], map[])

  /** The snapshot of a subscription and what was published after it. */
  datatype Stream = Stream(base: Value, published: seq<Value>)

  function BaseOf(h: History, id: nat): Option<Value>
  {
    if id in h.streams then Some(h.streams[id].base) else None
  }

  /** The handler of the request is at work. */
  predicate AtWork(w: World, id: nat) { id in w.server.active && !w.server.active[id].answered }

  /** A subscribe call succeeds with a snapshot only. */
  predicate Succeeded(report: Report)
  {
    report.ok && (report.call.Subscribe? ==> report.base.Some?)
  }

  /** What the caller is owed after a report. */
  function Owed(report: Report): Settlement
  {
    if !Succeeded(report) then Refused
    else if report.call.Subscribe? then Subscribed(report.base.value)
    else Returned(report.result)
  }

  /** The answer says what was reported. */
  predicate Tells(codec: Codec, m: Down, report: Report)
  {
    && m.Answer? && m.ok == Succeeded(report)
    && m.result == if !m.ok then None
                   else if report.call.Subscribe? then Some(codec.encodeSnapshot(report.base.value))
                   else report.result
  }

  /** Nothing that is settled is settled again. */
  function Also(settled: map<nat, Settlement>, ids: set<nat>, settlement: Settlement): map<nat, Settlement>
  {
    map id | id in settled.Keys + ids :: if id in settled then settled[id] else settlement
  }

  function Extend(w: World, h: History, e: Event): History
  {
    match e
    case Snapshots(id, base) =>
      if AtWork(w, id) && w.server.active[id].call.Subscribe? && id !in h.streams
      then h.(streams := h.streams[id := Stream(base, [])]) else h
    case Publishes(sub, u) =>
      if sub in h.streams
      then h.(streams := h.streams[sub := Stream(h.streams[sub].base, h.streams[sub].published + [u])]) else h
    case Responds(id, ok, result) =>
      if AtWork(w, id)
      then
        h.(reports := h.reports[id := Report(w.server.active[id].call, ok, result, BaseOf(h, id))])
      else h
    case Calls(call, encodes) =>
      if w.client.connected && Callable(w.client, call) && !encodes
      then h.(settled := Also(h.settled, {w.client.sequence + 1}, Unsent)) else h
    case Aborts(id) => if id in w.client.pending then h.(settled := Also(h.settled, {id}, GivenUp)) else h
    case ClientDrops => h.(settled := Also(h.settled, w.client.pending.Keys, Lost))
    case ClientReceives =>
      if w.down != [] && w.down[0].Answer? && w.down[0].id in h.reports
      then h.(settled := Also(h.settled, {w.down[0].id}, Owed(h.reports[w.down[0].id]))) else h
    case _ => h
  }

  function HistoryOf(codec: Codec, events: seq<Event>): History
  {
    if events == [] then NO_HISTORY
    else
      var before := events[..|events| - 1];
      Extend(After(codec, before), HistoryOf(codec, before), events[|events| - 1])
  }

  // ---- What every state agrees on -------------------------------------------------------

  ghost predicate Truthful(codec: Codec, down: seq<Down>, reports: map<nat, Report>)
  {
    forall m | m in down && m.Answer? :: m.id in reports && Tells(codec, m, reports[m.id])
  }

  ghost predicate AnswerOnItsWay(down: seq<Down>, id: nat)
  {
    exists m :: m in down && m.Answer? && m.id == id
  }

  /** What the feeds of the server are about. */
  function Streams(feeds: map<nat, Feed>): map<nat, Stream>
  {
    map sub | sub in feeds :: Stream(feeds[sub].base, feeds[sub].published)
  }

  ghost predicate Reported(c: Client, down: seq<Down>, reports: map<nat, Report>)
  {
    forall id | id in reports && id in c.pending ::
      reports[id].call == c.pending[id] && AnswerOnItsWay(down, id)
  }

  ghost predicate SameIds(reports: map<nat, Report>, answers: seq<nat>)
  {
    (forall id | id in reports :: id in answers) && (forall id | id in answers :: id in reports)
  }

  ghost predicate Agrees(w: World, h: History, codec: Codec)
  {
    && w.client.settled == h.settled && Streams(w.server.feeds) == h.streams
    && SameIds(h.reports, w.server.answers)
    && Truthful(codec, w.down, h.reports) && Reported(w.client, w.down, h.reports)
  }

  lemma {:induction false} SettleAgrees(settled: map<nat, Settlement>, ids: set<nat>, settlement: Settlement)
    ensures SettleAll(settled, ids, settlement) == Also(settled, ids, settlement)
  {
  }

  /** The server has only more to say that is no answer, and what waits for an answer still does. */
  lemma {:induction false} StillReported(w: World, t: World, h: History, codec: Codec)
    requires Agrees(w, h, codec) && t.server.answers == w.server.answers
    requires forall m | m in t.down && m.Answer? :: m in w.down
    requires forall id | id in t.client.pending && id in h.reports ::
               id in w.client.pending && t.client.pending[id] == w.client.pending[id]
    requires forall m | m in w.down && m.Answer? && m.id in t.client.pending :: m in t.down
    ensures SameIds(h.reports, t.server.answers) && Truthful(codec, t.down, h.reports)
            && Reported(t.client, t.down, h.reports)
  {
    forall id | id in h.reports && id in t.client.pending ensures AnswerOnItsWay(t.down, id) {
      assert AnswerOnItsWay(w.down, id);
    }
  }

  lemma {:induction false} NewIsUnreported(w: World, h: History, codec: Codec)
    requires Good(w, codec) && Agrees(w, h, codec)
    ensures w.client.sequence + 1 !in h.reports
  {
  }

  lemma {:induction false} CallExtends(w: World, h: History, codec: Codec, call: Call, encodes: bool)
    requires Agrees(w, h, codec) && w.client.sequence + 1 !in h.reports
    ensures Agrees(Next(w, codec, Calls(call, encodes)), Extend(w, h, Calls(call, encodes)), codec)
  {
    var t, id := Next(w, codec, Calls(call, encodes)), w.client.sequence + 1;
    SettleAgrees(w.client.settled, {id}, Unsent);
    StillReported(w, t, h, codec);
  }

  lemma {:induction false} AbortExtends(w: World, h: History, codec: Codec, id: nat)
    requires Agrees(w, h, codec) && (id in w.client.pending ==> w.client.connected)
    ensures Agrees(Next(w, codec, Aborts(id)), Extend(w, h, Aborts(id)), codec)
  {
    SettleAgrees(w.client.settled, {id}, GivenUp);
    StillReported(w, Next(w, codec, Aborts(id)), h, codec);
  }

  lemma {:induction false} DisposeExtends(w: World, h: History, codec: Codec, sub: nat, current: bool)
    requires Agrees(w, h, codec) && w.client.sequence + 1 !in h.reports
    ensures Agrees(Next(w, codec, Disposes(sub, current)), h, codec)
  {
    StillReported(w, Next(w, codec, Disposes(sub, current)), h, codec);
  }

  lemma {:induction false} DropExtends(w: World, h: History, codec: Codec)
    requires Agrees(w, h, codec)
    ensures Agrees(Next(w, codec, ClientDrops), Extend(w, h, ClientDrops), codec)
  {
    SettleAgrees(w.client.settled, w.client.pending.Keys, Lost);
    StillReported(w, Next(w, codec, ClientDrops), h, codec);
  }

  /** The head of the channel is taken. */
  lemma {:induction false} TailMembers(down: seq<Down>, m: Down)
    requires down != []
    ensures m in down <==> m == down[0] || m in down[1..]
  {
    assert down == [down[0]] + down[1..];
  }

  lemma {:induction false} UpdateTakesHead(w: World, codec: Codec)
    requires Good(w, codec) && Faithful(codec) && w.down != [] && w.down[0].Update?
    ensures var t := Next(w, codec, ClientReceives);
            && t.client.settled == w.client.settled && t.client.pending == w.client.pending
            && t.down == w.down[1..] && t.server == w.server
  {
    UpdateKeeps(w, codec);
  }

  lemma {:induction false} UpdateExtends(w: World, h: History, codec: Codec)
    requires Good(w, codec) && Faithful(codec) && Agrees(w, h, codec) && w.down != [] && w.down[0].Update?
    ensures Agrees(Next(w, codec, ClientReceives), h, codec)
  {
    var t := Next(w, codec, ClientReceives);
    UpdateTakesHead(w, codec);
    HeadWasTaken(w, t, h, codec);
  }

  lemma {:induction false} HeadWasTaken(w: World, t: World, h: History, codec: Codec)
    requires Agrees(w, h, codec) && w.down != [] && t.down == w.down[1..] && t.server == w.server
    requires t.client.pending == w.client.pending - (if w.down[0].Answer? then {w.down[0].id} else {})
    ensures SameIds(h.reports, t.server.answers) && Truthful(codec, t.down, h.reports)
            && Reported(t.client, t.down, h.reports)
  {
    forall m | m in w.down && m.Answer? && m.id in t.client.pending ensures m in t.down {
      TailMembers(w.down, m);
    }
    StillReported(w, t, h, codec);
  }

  /** The caller gets what it is owed. */
  lemma {:induction false} AnswerSettles(w: World, h: History, codec: Codec)
    requires Good(w, codec) && Faithful(codec) && Agrees(w, h, codec) && w.down != [] && w.down[0].Answer?
    ensures var id, t := w.down[0].id, Next(w, codec, ClientReceives);
            && id in h.reports && id in w.client.pending
            && t.client.settled == Also(h.settled, {id}, Owed(h.reports[id]))
            && t.client.pending == w.client.pending - {id} && t.down == w.down[1..] && t.server == w.server
  {
    var m, id := w.down[0], w.down[0].id;
    assert m in w.down;
    var t := w.(client := Receive(w.client, codec, m), down := w.down[1..]);
    AnswerReceived(w, t, codec);
    SettleAgrees(w.client.settled, {id}, Owed(h.reports[id]));
  }

  lemma {:induction false} AnswerExtends(w: World, h: History, codec: Codec)
    requires Good(w, codec) && Faithful(codec) && Agrees(w, h, codec) && w.down != [] && w.down[0].Answer?
    ensures Agrees(Next(w, codec, ClientReceives), Extend(w, h, ClientReceives), codec)
  {
    var t := Next(w, codec, ClientReceives);
    AnswerSettles(w, h, codec);
    HeadWasTaken(w, t, h, codec);
  }

  lemma {:induction false} AcceptExtends(w: World, h: History, codec: Codec)
    requires Good(w, codec) && Agrees(w, h, codec)
    ensures Agrees(Next(w, codec, ServerReceives), h, codec)
  {
    if w.up != [] {
      assert AskFits(w, 0);
      StillReported(w, Next(w, codec, ServerReceives), h, codec);
    }
  }

  lemma {:induction false} RespondTells(w: World, h: History, codec: Codec, id: nat, ok: bool, result: Option<Wire>)
    requires Streams(w.server.feeds) == h.streams && AtWork(w, id) && w.server.connected
    ensures var (s, out) := Respond(w.server, codec, id, ok, result);
            && |out| == 1 && out[0].Answer? && out[0].id == id && s.answers == w.server.answers + [id]
            && Tells(codec, out[0], Report(w.server.active[id].call, ok, result, BaseOf(h, id)))
  {
  }

  lemma {:induction false} RespondFeeds(w: World, h: History, codec: Codec, id: nat, ok: bool, result: Option<Wire>)
    requires Streams(w.server.feeds) == h.streams
    ensures Streams(Respond(w.server, codec, id, ok, result).0.feeds) == h.streams
  {
  }

  /** One more request has been answered as its handler reported. */
  lemma {:induction false} AnswerAdded(w: World, t: World, h: History, codec: Codec, id: nat, m: Down, report: Report)
    requires Agrees(w, h, codec) && id !in h.reports && t.client == w.client && Streams(t.server.feeds) == h.streams
    requires t.down == w.down + [m] && t.server.answers == w.server.answers + [id]
    requires m.Answer? && m.id == id && Tells(codec, m, report)
    requires id in w.client.pending ==> w.client.pending[id] == report.call
    ensures Agrees(t, h.(reports := h.reports[id := report]), codec)
  {
    var reports := h.reports[id := report];
    forall other | other in reports && other in t.client.pending ensures AnswerOnItsWay(t.down, other) {
      if other == id {
        assert m in t.down;
      } else {
        assert AnswerOnItsWay(w.down, other);
      }
    }
  }

  lemma {:induction false} AtWorkWaits(w: World, h: History, codec: Codec, id: nat)
    requires Good(w, codec) && Agrees(w, h, codec) && AtWork(w, id)
    ensures w.server.connected && id !in h.reports
            && id in w.client.pending && w.client.pending[id] == w.server.active[id].call
  {
    assert JobFits(w, id);
  }

  lemma {:induction false} RespondExtends(w: World, h: History, codec: Codec, id: nat, ok: bool, result: Option<Wire>)
    requires Good(w, codec) && Agrees(w, h, codec)
    ensures Agrees(Next(w, codec, Responds(id, ok, result)), Extend(w, h, Responds(id, ok, result)), codec)
  {
    if AtWork(w, id) {
      var t := Next(w, codec, Responds(id, ok, result));
      AtWorkWaits(w, h, codec, id);
      RespondTells(w, h, codec, id, ok, result);
      RespondFeeds(w, h, codec, id, ok, result);
      AnswerAdded(w, t, h, codec, id, t.down[|w.down|], Report(w.server.active[id].call, ok, result, BaseOf(h, id)));
    } else {
      AppendNone(w.down);
    }
  }

  /** An update is sent, or not. */
  lemma {:induction false} UpdateSent(w: World, t: World, h: History, more: History, codec: Codec)
    requires Agrees(w, h, codec) && t.client == w.client && t.server.answers == w.server.answers
    requires Streams(t.server.feeds) == more.streams && more.reports == h.reports && more.settled == h.settled
    requires w.down <= t.down && forall m | m in t.down[|w.down|..] :: m.Update?
    ensures Agrees(t, more, codec)
  {
    assert t.down == w.down + t.down[|w.down|..];
    StillReported(w, t, h, codec);
  }

  lemma {:induction false} FeedsBegin(w: World, h: History, codec: Codec, id: nat, base: Value)
    requires Streams(w.server.feeds) == h.streams
    ensures Streams(Snapshot(w.server, id, base).feeds) == Extend(w, h, Snapshots(id, base)).streams
  {
  }

  lemma {:induction false} SnapshotExtends(w: World, h: History, codec: Codec, id: nat, base: Value)
    requires Agrees(w, h, codec)
    ensures Agrees(Next(w, codec, Snapshots(id, base)), Extend(w, h, Snapshots(id, base)), codec)
  {
    FeedsBegin(w, h, codec, id, base);
    UpdateSent(w, Next(w, codec, Snapshots(id, base)), h, Extend(w, h, Snapshots(id, base)), codec);
  }

  lemma {:induction false} FeedsPublish(w: World, h: History, codec: Codec, sub: nat, u: Value)
    requires Streams(w.server.feeds) == h.streams
    ensures Streams(Publish(w.server, codec, sub, u).0.feeds) == Extend(w, h, Publishes(sub, u)).streams
  {
  }

  lemma {:induction false} PublishExtends(w: World, h: History, codec: Codec, sub: nat, u: Value)
    requires Agrees(w, h, codec)
    ensures Agrees(Next(w, codec, Publishes(sub, u)), Extend(w, h, Publishes(sub, u)), codec)
  {
    FeedsPublish(w, h, codec, sub, u);
    UpdateSent(w, Next(w, codec, Publishes(sub, u)), h, Extend(w, h, Publishes(sub, u)), codec);
  }

  lemma {:induction false} DrainExtends(w: World, h: History, codec: Codec, id: nat)
    requires Agrees(w, h, codec)
    ensures Agrees(Next(w, codec, Drains(id)), h, codec)
  {
    UpdateSent(w, Next(w, codec, Drains(id)), h, h, codec);
  }

  lemma {:induction false} ServerExtends(w: World, h: History, codec: Codec, e: Event)
    requires Good(w, codec) && Agrees(w, h, codec)
    requires e.ServerReceives? || e.Snapshots? || e.Responds? || e.Publishes? || e.Drains? || e.ServerDrops?
    ensures Agrees(Next(w, codec, e), Extend(w, h, e), codec)
  {
    match e
    case ServerReceives => AcceptExtends(w, h, codec);
    case Snapshots(id, base) => SnapshotExtends(w, h, codec, id, base);
    case Responds(id, ok, result) => RespondExtends(w, h, codec, id, ok, result);
    case Publishes(sub, u) => PublishExtends(w, h, codec, sub, u);
    case Drains(id) => DrainExtends(w, h, codec, id);
    case ServerDrops =>
  }

  lemma {:induction false} EventExtends(w: World, h: History, codec: Codec, e: Event)
    requires Good(w, codec) && Faithful(codec) && Agrees(w, h, codec)
    ensures Agrees(Next(w, codec, e), Extend(w, h, e), codec)
  {
    match e
    case Calls(call, encodes) =>
      NewIsUnreported(w, h, codec);
      CallExtends(w, h, codec, call, encodes);
    case Aborts(id) => AbortExtends(w, h, codec, id);
    case Disposes(sub, current) =>
      NewIsUnreported(w, h, codec);
      DisposeExtends(w, h, codec, sub, current);
    case ClientDrops => DropExtends(w, h, codec);
    case ClientReceives => MessageExtends(w, h, codec);
    case Starts(_) =>
    case Reconnects =>
    case _ => ServerExtends(w, h, codec, e);
  }

  lemma {:induction false} MessageExtends(w: World, h: History, codec: Codec)
    requires Good(w, codec) && Faithful(codec) && Agrees(w, h, codec)
    ensures Agrees(Next(w, codec, ClientReceives), Extend(w, h, ClientReceives), codec)
  {
    if w.down != [] {
      if w.down[0].Answer? {
        AnswerExtends(w, h, codec);
      } else {
        UpdateExtends(w, h, codec);
      }
    }
  }

  lemma {:induction false} AlwaysAgrees(codec: Codec, events: seq<Event>)
    requires Faithful(codec)
    ensures Agrees(After(codec, events), HistoryOf(codec, events), codec)
  {
    if events != [] {
      var before := events[..|events| - 1];
      AlwaysGood(codec, before);
      AlwaysAgrees(codec, before);
      EventExtends(After(codec, before), HistoryOf(codec, before), codec, events[|events| - 1]);
    }
  }

  // ---- Whole runs -----------------------------------------------------------------------

  /** Whatever interleaves, an answer on its way says what the handler of that request reported: it is ok
      exactly if the call succeeded, with its result, or, for a subscribe, with the snapshot that was made. And
      every report reaches its caller: while the caller waits, the answer is on its way. */
  lemma {:induction false} AnswersTellTheReport(codec: Codec, events: seq<Event>)
    requires Faithful(codec)
    ensures var w, reports := After(codec, events), HistoryOf(codec, events).reports;
            && (forall m | m in w.down && m.Answer? ::
                  && m.id in reports
                  && var report := reports[m.id];
                  match report.call
                  case Subscribe =>
                    && (m.ok <==> report.ok && report.base.Some?)
                    && (m.ok ==> m.result == Some(codec.encodeSnapshot(report.base.value)))
                  case _ => (m.ok <==> report.ok) && (m.ok ==> m.result == report.result))
            && (forall id | id in reports && id in w.client.pending ::
                  reports[id].call == w.client.pending[id] && exists m :: m in w.down && m.Answer? && m.id == id)
  {
    AlwaysAgrees(codec, events);
    var w, h := After(codec, events), HistoryOf(codec, events);
    forall id | id in h.reports && id in w.client.pending ensures exists m :: m in w.down && m.Answer? && m.id == id {
      assert AnswerOnItsWay(w.down, id);
    }
  }

  /** A settlement and what has to have happened for it. */
  ghost predicate Deserved(h: History, events: seq<Event>, id: nat, settlement: Settlement)
  {
    match settlement
    case Returned(result) =>
      id in h.reports && !h.reports[id].call.Subscribe? && h.reports[id].ok && result == h.reports[id].result
    case Subscribed(base) =>
      id in h.reports && h.reports[id].call.Subscribe? && h.reports[id].ok && h.reports[id].base == Some(base)
    case Refused =>
      id in h.reports && (!h.reports[id].ok || (h.reports[id].call.Subscribe? && h.reports[id].base.None?))
    case Invalid => false
    case GivenUp => Aborts(id) in events
    case Lost => ClientDrops in events
    case Unsent => exists call :: Calls(call, false) in events
  }

  ghost predicate AllDeserved(h: History, events: seq<Event>)
  {
    forall id | id in h.settled :: Deserved(h, events, id, h.settled[id])
  }

  /** A request is settled, or waits, or both if its caller gave it up. */
  predicate Attended(w: World, id: nat)
  {
    && (id in w.client.pending || id in w.client.settled)
    && (id in w.client.pending && id in w.client.settled ==> w.client.settled[id].GivenUp?)
  }

  ghost predicate AllAttended(w: World)
  {
    && (forall id: nat | 1 <= id <= w.client.sequence :: Attended(w, id))
    && (forall id | id in w.client.settled || id in w.client.pending :: 1 <= id <= w.client.sequence)
  }

  /** A longer history of a longer run. */
  ghost predicate Continues(a: History, b: History)
  {
    && (forall id | id in a.reports :: id in b.reports && b.reports[id] == a.reports[id])
    && (forall id | id in a.settled :: id in b.settled && b.settled[id] == a.settled[id])
  }

  lemma {:induction false} ExtendContinues(w: World, h: History, codec: Codec, e: Event)
    requires Good(w, codec) && Agrees(w, h, codec)
    ensures Continues(h, Extend(w, h, e))
  {
    if e.Responds? && AtWork(w, e.id) {
      AtWorkWaits(w, h, codec, e.id);
    }
  }

  lemma {:induction false} OwedIsDeserved(h: History, events: seq<Event>, id: nat)
    requires id in h.reports
    ensures Deserved(h, events, id, Owed(h.reports[id]))
  {
  }

  lemma {:induction false} StillDeserved(a: History, b: History, events: seq<Event>, e: Event, id: nat)
    requires Continues(a, b) && id in a.settled && Deserved(a, events, id, a.settled[id])
    ensures Deserved(b, events + [e], id, b.settled[id])
  {
    assert forall x | x in events :: x in events + [e];
    match a.settled[id]
    case Unsent =>
      var call :| Calls(call, false) in events;
      assert Calls(call, false) in events + [e];
    case _ =>
  }

  lemma {:induction false} NewlySettled(w: World, h: History, codec: Codec, events: seq<Event>, e: Event, id: nat)
    requires var t := Extend(w, h, e); id !in h.settled && id in t.settled
    ensures var t := Extend(w, h, e); Deserved(t, events + [e], id, t.settled[id])
  {
    assert e in events + [e];
    match e
    case Calls(call, encodes) => assert Calls(call, false) in events + [e];
    case ClientReceives => OwedIsDeserved(h, events + [e], id);
    case _ =>
  }

  lemma {:induction false} AlwaysDeserved(codec: Codec, events: seq<Event>)
    requires Faithful(codec)
    ensures AllDeserved(HistoryOf(codec, events), events)
  {
    if events != [] {
      var before, e := events[..|events| - 1], events[|events| - 1];
      var w, h, more := After(codec, before), HistoryOf(codec, before), HistoryOf(codec, events);
      assert events == before + [e];
      AlwaysGood(codec, before);
      AlwaysAgrees(codec, before);
      AlwaysDeserved(codec, before);
      ExtendContinues(w, h, codec, e);
      forall id | id in more.settled ensures Deserved(more, events, id, more.settled[id]) {
        if id in h.settled {
          StillDeserved(h, more, before, e, id);
        } else {
          NewlySettled(w, h, codec, before, e, id);
        }
      }
    }
  }

  lemma {:induction false} AnswerAttends(w: World, h: History, codec: Codec)
    requires Good(w, codec) && Faithful(codec) && Agrees(w, h, codec) && AllAttended(w)
    requires w.down != [] && w.down[0].Answer?
    ensures AllAttended(Next(w, codec, ClientReceives))
  {
    AnswerSettles(w, h, codec);
    var t := Next(w, codec, ClientReceives);
    AnswerReceived(w, w.(client := Receive(w.client, codec, w.down[0]), down := w.down[1..]), codec);
    forall id: nat | 1 <= id <= t.client.sequence ensures Attended(t, id) {
      assert Attended(w, id);
    }
  }

  lemma {:induction false} ReceiveAttends(w: World, h: History, codec: Codec)
    requires Good(w, codec) && Faithful(codec) && Agrees(w, h, codec) && AllAttended(w)
    ensures AllAttended(Next(w, codec, ClientReceives))
  {
    if w.down != [] && w.down[0].Answer? {
      AnswerAttends(w, h, codec);
    } else if w.down != [] {
      UpdateTakesHead(w, codec);
      SameClientAttends(w, Next(w, codec, ClientReceives));
    }
  }

  lemma {:induction false} SameClientAttends(w: World, t: World)
    requires AllAttended(w) && t.client.settled == w.client.settled && t.client.pending == w.client.pending
             && t.client.sequence == w.client.sequence
    ensures AllAttended(t)
  {
    forall id: nat | 1 <= id <= t.client.sequence ensures Attended(t, id) {
      assert Attended(w, id);
    }
  }

  lemma {:induction false} CallerAttends(w: World, codec: Codec, e: Event)
    requires AllAttended(w) && (e.Calls? || e.Aborts? || e.Disposes? || e.ClientDrops?)
    ensures AllAttended(Next(w, codec, e))
  {
    var t := Next(w, codec, e);
    forall id: nat | 1 <= id <= t.client.sequence ensures Attended(t, id) {
      assert id <= w.client.sequence ==> Attended(w, id);
    }
  }

  lemma {:induction false} AlwaysAttended(codec: Codec, events: seq<Event>)
    requires Faithful(codec)
    ensures AllAttended(After(codec, events))
  {
    if events != [] {
      var before, e := events[..|events| - 1], events[|events| - 1];
      var w := After(codec, before);
      AlwaysGood(codec, before);
      AlwaysAgrees(codec, before);
      AlwaysAttended(codec, before);
      if e.Calls? || e.Aborts? || e.Disposes? || e.ClientDrops? {
        CallerAttends(w, codec, e);
      } else if e.ClientReceives? {
        ReceiveAttends(w, HistoryOf(codec, before), codec);
      } else {
        SameClientAttends(w, Next(w, codec, e));
      }
    }
  }

  /** The history of a subscription that HeardIsPublished and NothingIsLost speak about is what was published
      since its snapshot, in order: nothing is added to it or left out. */
  lemma {:induction false} PublishedIsWhatHappened(codec: Codec, events: seq<Event>, sub: nat)
    requires Faithful(codec) && sub in After(codec, events).server.feeds
    ensures var feed, h := After(codec, events).server.feeds[sub], HistoryOf(codec, events);
            sub in h.streams && h.streams[sub] == Stream(feed.base, feed.published)
  {
    AlwaysAgrees(codec, events);
  }

  /** Whatever interleaves, every request waits or was settled, for one reason: it resolved because its own
      handler succeeded, with the result or the snapshot of that call; it was refused because its handler
      failed, or subscribed without a snapshot; or its caller gave it up, the client dropped the connection, or it
      was never sent. */
  lemma {:induction false} SettledByItsHandler(codec: Codec, events: seq<Event>)
    requires Faithful(codec)
    ensures var c, reports := After(codec, events).client, HistoryOf(codec, events).reports;
            && (forall id: nat | 1 <= id <= c.sequence :: id in c.pending || id in c.settled)
            && (forall id | id in c.pending && id in c.settled :: c.settled[id] == GivenUp)
            && (forall id | id in c.settled ::
                  match c.settled[id]
                  case Returned(result) =>
                    id in reports && !reports[id].call.Subscribe? && reports[id].ok && result == reports[id].result
                  case Subscribed(base) =>
                    id in reports && reports[id].call.Subscribe? && reports[id].ok && reports[id].base == Some(base)
                  case Refused =>
                    id in reports && (!reports[id].ok || (reports[id].call.Subscribe? && reports[id].base.None?))
                  case Invalid => false
                  case GivenUp => Aborts(id) in events
                  case Lost => ClientDrops in events
                  case Unsent => exists call :: Calls(call, false) in events)
  {
    AlwaysAgrees(codec, events);
    AlwaysDeserved(codec, events);
    AlwaysAttended(codec, events);
    var w, h := After(codec, events), HistoryOf(codec, events);
    forall id: nat | 1 <= id <= w.client.sequence ensures id in w.client.pending || id in w.client.settled {
      assert Attended(w, id);
    }
    forall id | id in w.client.pending && id in w.client.settled ensures w.client.settled[id] == GivenUp {
      assert Attended(w, id);
    }
    forall id | id in w.client.settled ensures Deserved(h, events, id, w.client.settled[id]) {
    }
  }

  /** A report and a settlement are final. */
  lemma {:induction false} SettledForGood(codec: Codec, events: seq<Event>, k: nat)
    requires Faithful(codec) && k <= |events|
    ensures Continues(HistoryOf(codec, events[..k]), HistoryOf(codec, events))
    ensures var early, late := After(codec, events[..k]).client.settled, After(codec, events).client.settled;
            forall id | id in early :: id in late && late[id] == early[id]
    decreases |events|
  {
    AlwaysAgrees(codec, events[..k]);
    AlwaysAgrees(codec, events);
    if k < |events| {
      var before := events[..|events| - 1];
      assert before[..k] == events[..k];
      SettledForGood(codec, before, k);
      AlwaysGood(codec, before);
      AlwaysAgrees(codec, before);
      ExtendContinues(After(codec, before), HistoryOf(codec, before), codec, events[|events| - 1]);
    } else {
      assert events[..k] == events;
    }
  }
}
