/** One client and one server over two FIFO channels: packages/client/src/client.ts and
    packages/server/src/server.ts. Requests are paired with responses, and both ends hold updates back
    around the snapshot of a subscription. A subscription is named by its subscribe request. */
module ServiceStreams {
  import opened Outcomes
  import opened Sequences

  type Value = string
  type Wire = string

  /** The stateful encoding of a subscription. The state of an encoder or a decoder is what went
      through it: the snapshot, and the updates after it. */
  datatype Codec = Codec(encodeSnapshot: Value -> Wire, decodeSnapshot: Wire -> Option<Value>,
                         encode: (Value, seq<Value>, Value) -> Wire, decode: (Value, seq<Value>, Wire) -> Option<Value>)

  /** A decoder in the state of the encoder understands what the encoder says next. */
  ghost predicate Faithful(codec: Codec)
  {
    && (forall v :: codec.decodeSnapshot(codec.encodeSnapshot(v)) == Some(v))
    && (forall base, before, u :: codec.decode(base, before, codec.encode(base, before, u)) == Some(u))
  }

  datatype Call = Plain | Subscribe | Unsubscribe(sub: nat)

  datatype Up = Ask(id: nat, call: Call) | Cancel(id: nat)
  datatype Down = Answer(id: nat, ok: bool, result: Option<Wire>) | Update(sub: nat, wire: Wire)

  // ---- The client -------------------------------------------------------------------

  /** `base` and `decoded` are the state of the decoder. */
  datatype Listener = Listener(hydrated: bool, ready: bool, early: seq<Wire>, queued: seq<Value>, base: Option<Value>,
                               decoded: seq<Value>)

  const NEW_LISTENER := Listener(false, false, [], [], None, [])

  /** How the promise of a request was settled. */
  datatype Settlement =
    | Returned(result: Option<Wire>)
    | Subscribed(snapshot: Value)
    | Refused
    | Invalid
    | GivenUp
    | Lost
    | Unsent

  /** `heard` is history: what was delivered to the listener of each subscription there ever was.
      `failed` records that the client gave up the connection because of what the server sent. `settled` is
      what callers saw of their requests. */
  datatype Client = Client(connected: bool, sequence: nat, pending: map<nat, Call>, listeners: map<nat, Listener>,
                           failed: bool, heard: map<nat, seq<Value>>, settled: map<nat, Settlement>)

  /** A promise is settled once: what comes later has no effect. */
  function SettleAll(settled: map<nat, Settlement>, ids: set<nat>, settlement: Settlement): map<nat, Settlement>
  {
    settled + map id | id in ids && id !in settled :: settlement
  }

  function Settled(c: Client, id: nat, settlement: Settlement): Client
  {
    c.(settled := SettleAll(c.settled, {id}, settlement))
  }

  function Dropped(c: Client): Client
  {
    c.(connected := false, pending := map[], listeners := map[], settled := SettleAll(c.settled, c.pending.Keys, Lost))
  }

  function Failed(c: Client): Client
  {
    Dropped(c).(failed := true)
  }

  /** `encodes` is false when the request does not fit into a frame. */
  function Request(c: Client, call: Call, encodes: bool): (Client, seq<Up>)
  {
    var id := c.sequence + 1;
    if !c.connected then
      (c, [])
    else if !encodes then
      (c.(sequence := id, pending := c.pending - {id},
          listeners := if call.Subscribe? then c.listeners - {id} else c.listeners,
          heard := if call.Subscribe? then c.heard[id := []] else c.heard,
          settled := SettleAll(c.settled, {id}, Unsent)), [])
    else
      (c.(sequence := id, pending := c.pending[id := call],
          listeners := if call.Subscribe? then c.listeners[id := NEW_LISTENER] else c.listeners,
          heard := if call.Subscribe? then c.heard[id := []] else c.heard),
       [Ask(id, call)])
  }

  /** A local abort gives up the subscription, but the request stays pending. */
  function Abort(c: Client, id: nat): (Client, seq<Up>)
  {
    if !c.connected || id !in c.pending then (c, [])
    else
      (Settled(c, id, GivenUp).(listeners := if c.pending[id].Subscribe? then c.listeners - {id} else c.listeners),
       [Cancel(id)])
  }

  function DecodeAll(codec: Codec, base: Value, before: seq<Value>, wires: seq<Wire>): Option<seq<Value>>
    decreases |wires|
  {
    if wires == [] then
      Some(before)
    else
      var u := codec.decode(base, before, wires[0]);
      if u.None? then None else DecodeAll(codec, base, before + [u.value], wires[1..])
  }

  function Hydrate(codec: Codec, l: Listener, base: Value): Option<Listener>
  {
    var all := DecodeAll(codec, base, [], l.early);
    if all.None? then None
    else Some(l.(hydrated := true, early := [], queued := l.queued + all.value, base := Some(base),
                 decoded := all.value))
  }

  function Receive(c: Client, codec: Codec, message: Down): Client
  {
    if !c.connected then
      c
    else
      match message
      case Answer(id, ok, result) =>
        if id !in c.pending then
          Failed(c)
        else
          var done := c.(pending := c.pending - {id});
          if !c.pending[id].Subscribe? then
            Settled(done, id, if ok then Returned(result) else Refused)
          else if !ok then
            Settled(done.(listeners := c.listeners - {id}), id, Refused)
          else
            var base := if result.Some? then codec.decodeSnapshot(result.value) else None;
            if base.None? then
              Settled(Failed(done), id, Invalid)
            else if id !in c.listeners then
              Settled(done, id, Subscribed(base.value))
            else
              var l := Hydrate(codec, c.listeners[id], base.value);
              if l.None? then Settled(Failed(done), id, Invalid)
              else Settled(done.(listeners := c.listeners[id := l.value]), id, Subscribed(base.value))
      case Update(sub, wire) =>
        if sub !in c.listeners then
          c
        else
          var l := c.listeners[sub];
          if !l.hydrated || l.base.None? then
            c.(listeners := c.listeners[sub := l.(early := l.early + [wire])])
          else
            var u := codec.decode(l.base.value, l.decoded, wire);
            if u.None? then
              Failed(c)
            else
              var next := l.(decoded := l.decoded + [u.value], queued := if l.ready then l.queued
                             else l.queued + [u.value]);
              c.(listeners := c.listeners[sub := next],
                 heard := if l.ready then c.heard[sub := Heard(c, sub) + [u.value]] else c.heard)
  }

  function Heard(c: Client, sub: nat): seq<Value> { if sub in c.heard then c.heard[sub] else [] }

  function Start(c: Client, sub: nat): Client
  {
    if sub !in c.listeners || !c.listeners[sub].hydrated || c.listeners[sub].ready then
      c
    else
      var l := c.listeners[sub];
      c.(listeners := c.listeners[sub := l.(ready := true, queued := [])],
         heard := c.heard[sub := Heard(c, sub) + l.queued])
  }

  /** `current` is false when the target has been replaced, so that no unsubscribe request is sent. */
  function Dispose(c: Client, sub: nat, current: bool): (Client, seq<Up>)
  {
    if sub !in c.listeners || !c.listeners[sub].hydrated then (c, [])
    else
      var gone := c.(listeners := c.listeners - {sub});
      if current then Request(gone, Unsubscribe(sub), true) else (gone, [])
  }

  // ---- The server -------------------------------------------------------------------

  datatype Job = Job(call: Call, answered: bool)

  /** One subscription as the server sees it. `held` are its pendingUpdates, `installed` says that its
      encoder is in place, `base` and `encoded` are the state of that encoder. `published` is history. */
  datatype Feed = Feed(base: Value, published: seq<Value>, held: seq<Value>, ready: bool, installed: bool,
                       encoded: seq<Value>)

  /** `answers` is history: the requests that were answered, in order. */
  datatype Server = Server(connected: bool, active: map<nat, Job>, feeds: map<nat, Feed>, answers: seq<nat>)

  function Reply(s: Server, id: nat, ok: bool, result: Option<Wire>): (Server, seq<Down>)
  {
    if s.connected then (s.(answers := s.answers + [id]), [Answer(id, ok, result)]) else (s, [])
  }

  function Accept(s: Server, message: Up): (Server, seq<Down>)
  {
    if !s.connected || message.Cancel? then (s, [])
    else if message.id in s.active then Reply(s, message.id, false, None)
    else (s.(active := s.active[message.id := Job(message.call, false)]), [])
  }

  /** The provider has made the snapshot: from now on it publishes updates. */
  function Snapshot(s: Server, id: nat, base: Value): Server
  {
    if id in s.active && s.active[id].call.Subscribe? && !s.active[id].answered && id !in s.feeds
    then s.(feeds := s.feeds[id := Feed(base, [], [], false, false, [])]) else s
  }

  function Uninstalled(f: Feed): Feed { f.(installed := false) }

  /** The call has returned, with what it gives to its caller, or failed. A successful subscription is not over
      yet: it drains first. */
  function Respond(s: Server, codec: Codec, id: nat, ok: bool, result: Option<Wire>): (Server, seq<Down>)
  {
    if id !in s.active || s.active[id].answered then
      (s, [])
    else
      var job, rest := s.active[id], s.(active := s.active - {id});
      match job.call
      case Plain => Reply(rest, id, ok, if ok then result else None)
      case Unsubscribe(sub) =>
        Reply(if ok && sub in s.feeds then rest.(feeds := s.feeds[sub := Uninstalled(s.feeds[sub])])
              else rest, id, ok, if ok then result else None)
      case Subscribe =>
        if ok && id in s.feeds then
          var feed := s.feeds[id].(installed := true);
          Reply(s.(active := s.active[id := job.(answered := true)], feeds := s.feeds[id := feed]), id, true,
                Some(codec.encodeSnapshot(feed.base)))
        else
          Reply(rest, id, false, None)
  }

  /** `sendServiceUpdate` */
  function SendUpdate(s: Server, codec: Codec, sub: nat, u: Value): (Server, seq<Down>)
    requires sub in s.feeds
  {
    var f := s.feeds[sub];
    if !f.installed || !s.connected then (s, [])
    else (s.(feeds := s.feeds[sub := f.(encoded := f.encoded + [u])]),
          [Update(sub, codec.encode(f.base, f.encoded, u))])
  }

  function Publish(s: Server, codec: Codec, sub: nat, u: Value): (Server, seq<Down>)
  {
    if sub !in s.feeds then
      (s, [])
    else
      var f := s.feeds[sub].(published := s.feeds[sub].published + [u]);
      if !f.ready then (s.(feeds := s.feeds[sub := f.(held := f.held + [u])]), [])
      else SendUpdate(s.(feeds := s.feeds[sub := f]), codec, sub, u)
  }

  /** One round of the loop that sends what was held back. */
  function Drain(s: Server, codec: Codec, id: nat): (Server, seq<Down>)
  {
    if id !in s.active || !s.active[id].answered || id !in s.feeds then
      (s, [])
    else
      var f := s.feeds[id];
      if f.held == [] then (s.(active := s.active - {id}, feeds := s.feeds[id := f.(ready := true)]), [])
      else SendUpdate(s.(feeds := s.feeds[id := f.(held := f.held[1..])]), codec, id, f.held[0])
  }

  function Disconnected(s: Server): Server
  {
    s.(connected := false, active := map[], feeds := map sub | sub in s.feeds :: Uninstalled(s.feeds[sub]))
  }

  // ---- Both -------------------------------------------------------------------------

  datatype World = World(client: Client, server: Server, up: seq<Up>, down: seq<Down>)

  const START := World(Client(false, 0, map[], map[], false, map[], map[]), Server(false, map[], map[], []), [], [])

  datatype Event =
    | Calls(call: Call, encodes: bool)
    | Aborts(id: nat)
    | Starts(sub: nat)
    | Disposes(sub: nat, current: bool)
    | ClientReceives
    | ClientDrops
    | Reconnects
    | ServerReceives
    | Snapshots(id: nat, base: Value)
    | Responds(id: nat, ok: bool, result: Option<Wire>)
    | Publishes(sub: nat, u: Value)
    | Drains(id: nat)
    | ServerDrops

  function FromClient(w: World, r: (Client, seq<Up>)): World
  {
    w.(client := r.0, up := w.up + r.1)
  }

  function FromServer(w: World, r: (Server, seq<Down>)): World
  {
    w.(server := r.0, down := w.down + r.1)
  }

  /** A connection is over for both ends when the client drops it: nothing of it arrives any more. */
  function Settle(w: World): World
  {
    if w.client.connected then w else World(w.client, Disconnected(w.server), [], [])
  }

  /** What is given up has no listener any more: that of `dispose`, or, after a reconnect, of an earlier connection. */
  predicate Callable(c: Client, call: Call)
  {
    call.Unsubscribe? ==> call.sub !in c.listeners && call.sub <= c.sequence
  }

  function Next(w: World, codec: Codec, e: Event): World
  {
    match e
    case Calls(call, encodes) => if Callable(w.client, call) then FromClient(w, Request(w.client, call, encodes)) else w
    case Aborts(id) => FromClient(w, Abort(w.client, id))
    case Starts(sub) => w.(client := Start(w.client, sub))
    case Disposes(sub, current) => FromClient(w, Dispose(w.client, sub, current))
    case ClientReceives => if w.down == [] then w
                           else Settle(w.(client := Receive(w.client, codec, w.down[0]), down := w.down[1..]))
    case ClientDrops => Settle(w.(client := Dropped(w.client)))
    case Reconnects => if w.client.connected then w
                       else w.(client := w.client.(connected := true), server := w.server.(connected := true))
    case ServerReceives => if w.up == [] then w else FromServer(w.(up := w.up[1..]), Accept(w.server, w.up[0]))
    case Snapshots(id, base) => w.(server := Snapshot(w.server, id, base))
    case Responds(id, ok, result) => FromServer(w, Respond(w.server, codec, id, ok, result))
    case Publishes(sub, u) => FromServer(w, Publish(w.server, codec, sub, u))
    case Drains(id) => FromServer(w, Drain(w.server, codec, id))
    case ServerDrops => w.(server := Disconnected(w.server))
  }

  // ---- Pairing ----------------------------------------------------------------------

  /** A request on its way to the server waits for its only answer. */
  predicate AskFits(w: World, i: nat)
    requires i < |w.up|
  {
    w.up[i].Ask? ==>
      var id := w.up[i].id;
      id in w.client.pending && w.client.pending[id] == w.up[i].call && id !in w.server.active
      && id !in w.server.answers
  }

  predicate JobFits(w: World, id: nat)
    requires id in w.server.active
  {
    var job := w.server.active[id];
    if job.answered then job.call.Subscribe? && id in w.server.answers
    else id in w.client.pending && w.client.pending[id] == job.call && id !in w.server.answers
  }

  predicate AnswerFits(w: World, p: nat)
    requires p < |w.down|
  {
    w.down[p].Answer? ==> w.down[p].id in w.client.pending && w.down[p].id in w.server.answers
  }

  /** Every answer on its way is waited for. */
  ghost predicate AllWaited(w: World)
  {
    forall p: nat | p < |w.down| :: AnswerFits(w, p)
  }

  ghost predicate Paired(w: World)
  {
    && (forall i: nat | i < |w.up| :: AskFits(w, i))
    && (forall i: nat, k: nat | i < k < |w.up| && w.up[i].Ask? && w.up[k].Ask? :: w.up[i].id != w.up[k].id)
    && (forall id | id in w.server.active :: JobFits(w, id))
    && AllWaited(w)
    && (forall p: nat, q: nat | p < q < |w.down| && w.down[p].Answer? && w.down[q].Answer? ::
          w.down[p].id != w.down[q].id)
    && (forall i, k | 0 <= i < k < |w.server.answers| :: w.server.answers[i] != w.server.answers[k])
  }

  /** All names are old, and a closed connection has nothing left. */
  ghost predicate Bounded(w: World)
  {
    && (forall id | id in w.client.pending || id in w.server.answers || id in w.server.active || id in w.server.feeds ::
          id <= w.client.sequence)
    && (forall sub | sub in w.client.listeners :: sub in w.client.heard)
    && (forall sub | sub in w.client.heard :: sub <= w.client.sequence)
    && (!w.client.connected ==>
          w.client.pending == map[] && w.client.listeners == map[] && w.up == [] && w.down == [] && !w.server.connected)
    && (!w.server.connected ==>
          w.server.active == map[] && forall sub | sub in w.server.feeds :: !w.server.feeds[sub].installed)
  }

  // ---- Streams ----------------------------------------------------------------------

  predicate Concerns(m: Down, sub: nat)
  {
    match m
    case Answer(id, _, _) => id == sub
    case Update(other, _) => other == sub
  }

  /** The updates of a subscription that are on their way. */
  function WiresOf(down: seq<Down>, sub: nat): seq<Wire>
  {
    if down == [] then []
    else (if down[0].Update? && down[0].sub == sub then [down[0].wire] else []) + WiresOf(down[1..], sub)
  }

  /** What the encoder made of the updates from the n-th on. */
  function Encoded(codec: Codec, base: Value, all: seq<Value>, n: nat): seq<Wire>
    requires n <= |all|
  {
    seq(|all| - n, k requires 0 <= k < |all| - n => codec.encode(base, all[..n + k], all[n + k]))
  }

  predicate FeedFits(s: Server, sub: nat)
    requires sub in s.feeds
  {
    var f := s.feeds[sub];
    && f.encoded <= f.published
    && (f.installed ==> f.published == f.encoded + f.held && sub in s.answers)
    && (f.ready ==> f.held == [] && sub in s.answers)
    && (sub !in s.answers ==> f.encoded == [] && f.held == f.published)
  }

  /** The answer to a subscribe request carries the snapshot, and no update overtakes it. */
  ghost predicate AnswerCarries(w: World, codec: Codec, sub: nat, p: nat)
    requires p < |w.down| && w.down[p].Answer?
  {
    if w.down[p].ok then
      && sub in w.server.feeds && w.down[p].result == Some(codec.encodeSnapshot(w.server.feeds[sub].base))
      && WiresOf(w.down, sub) == Encoded(codec, w.server.feeds[sub].base, w.server.feeds[sub].encoded, 0)
      && (w.server.connected ==> w.server.feeds[sub].installed)
      && forall i | 0 <= i < p :: !Concerns(w.down[i], sub)
    else
      WiresOf(w.down, sub) == [] && (sub in w.server.feeds ==> !w.server.feeds[sub].installed)
  }

  ghost predicate WaitingFits(w: World, codec: Codec, sub: nat)
    requires sub in w.client.listeners
  {
    && w.client.listeners[sub] == NEW_LISTENER && Heard(w.client, sub) == []
    && sub in w.client.pending && w.client.pending[sub].Subscribe?
    && (sub !in w.server.answers ==>
          WiresOf(w.down, sub) == [] && (sub in w.server.feeds ==> !w.server.feeds[sub].installed))
    && (sub in w.server.answers ==>
          exists p: nat :: p < |w.down| && w.down[p].Answer? && w.down[p].id == sub && AnswerCarries(w, codec, sub, p))
  }

  ghost predicate HydratedFits(w: World, codec: Codec, sub: nat)
    requires sub in w.client.listeners
  {
    var l := w.client.listeners[sub];
    && sub !in w.client.pending && sub in w.server.feeds && sub in w.server.answers
    && var f := w.server.feeds[sub];
       && l.base == Some(f.base) && l.early == [] && l.decoded <= f.encoded
       && WiresOf(w.down, sub) == Encoded(codec, f.base, f.encoded, |l.decoded|)
       && Heard(w.client, sub) + l.queued == l.decoded && (l.ready ==> l.queued == [])
       && (w.server.connected ==> f.installed)
  }

  ghost predicate ListenerFits(w: World, codec: Codec, sub: nat)
    requires sub in w.client.listeners
  {
    if w.client.listeners[sub].hydrated then HydratedFits(w, codec, sub) else WaitingFits(w, codec, sub)
  }

  /** What was heard is a prefix of what was published after the snapshot. */
  predicate HeardFits(w: World, sub: nat)
  {
    var heard := Heard(w.client, sub);
    heard == [] || (sub in w.server.feeds && heard <= w.server.feeds[sub].published)
  }

  /** A subscription that is being given up has no listener. */
  ghost predicate UnsubscribesLate(w: World)
  {
    forall id | id in w.client.pending && w.client.pending[id].Unsubscribe? ::
      w.client.pending[id].sub !in w.client.listeners && w.client.pending[id].sub <= w.client.sequence
  }

  /** Updates belong to feeds, and every successful answer to a subscribe request holds its snapshot. */
  ghost predicate MessageFits(w: World, codec: Codec, p: nat)
    requires p < |w.down|
  {
    match w.down[p]
    case Update(sub, _) => sub in w.server.feeds
    case Answer(id, ok, result) =>
      ok && id in w.client.pending && w.client.pending[id].Subscribe? ==>
        id in w.server.feeds && result == Some(codec.encodeSnapshot(w.server.feeds[id].base))
  }

  ghost predicate Streamed(w: World, codec: Codec)
  {
    && (forall sub | sub in w.client.listeners :: ListenerFits(w, codec, sub))
    && (forall sub | sub in w.server.feeds :: FeedFits(w.server, sub))
    && (forall sub | sub in w.client.heard :: HeardFits(w, sub))
    && (forall p: nat | p < |w.down| :: MessageFits(w, codec, p))
    && UnsubscribesLate(w)
  }

  ghost predicate Good(w: World, codec: Codec)
  {
    Bounded(w) && Paired(w) && Streamed(w, codec) && !w.client.failed
  }

  // ---- Sequences of messages --------------------------------------------------------

  lemma {:induction false} WiresAppend(a: seq<Down>, b: seq<Down>, sub: nat)
    ensures WiresOf(a + b, sub) == WiresOf(a, sub) + WiresOf(b, sub)
  {
    if a == [] {
      assert a + b == b;
    } else {
      assert (a + b)[0] == a[0] && (a + b)[1..] == a[1..] + b;
      WiresAppend(a[1..], b, sub);
    }
  }

  lemma {:induction false} NoWires(a: seq<Down>, sub: nat)
    requires forall i | 0 <= i < |a| :: !Concerns(a[i], sub)
    ensures WiresOf(a, sub) == []
  {
    if a != [] {
      NoWires(a[1..], sub);
    }
  }

  lemma {:induction false} EncodedAppend(codec: Codec, base: Value, all: seq<Value>, n: nat, u: Value)
    requires n <= |all|
    ensures Encoded(codec, base, all + [u], n) == Encoded(codec, base, all, n) + [codec.encode(base, all, u)]
  {
    var more := all + [u];
    assert forall k | 0 <= k <= |all| :: more[..k] == all[..k];
    assert all[..|all|] == all;
  }

  lemma EncodedHead(codec: Codec, base: Value, all: seq<Value>, n: nat)
    requires n < |all|
    ensures Encoded(codec, base, all, n) == [codec.encode(base, all[..n], all[n])] + Encoded(codec, base, all, n + 1)
  {
  }

  // ---- Pairing is kept --------------------------------------------------------------

  lemma {:induction false} RequestPairs(w: World, call: Call, encodes: bool)
    requires Bounded(w) && Paired(w)
    ensures Paired(FromClient(w, Request(w.client, call, encodes)))
            && Bounded(FromClient(w, Request(w.client, call, encodes)))
  {
    var t := FromClient(w, Request(w.client, call, encodes));
    forall i: nat | i < |t.up| ensures AskFits(t, i) {
      assert i < |w.up| ==> AskFits(w, i);
    }
    forall id | id in t.server.active ensures JobFits(t, id) {
      assert JobFits(w, id);
    }
    forall p: nat | p < |t.down| ensures AnswerFits(t, p) {
      assert AnswerFits(w, p);
    }
    forall i: nat, k: nat | i < k < |t.up| && t.up[i].Ask? && t.up[k].Ask? ensures t.up[i].id != t.up[k].id {
      assert AskFits(w, i);
    }
  }

  lemma {:induction false} SameRequests(w: World, t: World)
    requires Paired(w) && t.client.pending == w.client.pending && t.server.active == w.server.active
             && t.server.answers == w.server.answers
    requires t.down == w.down && (t.up == w.up || exists id :: t.up == w.up + [Cancel(id)])
    ensures Paired(t)
  {
    forall i: nat | i < |t.up| ensures AskFits(t, i) {
      assert i < |w.up| ==> AskFits(w, i);
    }
    forall id | id in t.server.active ensures JobFits(t, id) {
      assert JobFits(w, id);
    }
    forall p: nat | p < |t.down| ensures AnswerFits(t, p) {
      assert AnswerFits(w, p);
    }
  }

  /** The answer at the head is taken by the request that waits for it. */
  lemma {:induction false} AnswerTaken(w: World, t: World)
    requires Bounded(w) && Paired(w) && w.down != [] && w.down[0].Answer?
    requires t == World(w.client.(pending := w.client.pending - {w.down[0].id}, listeners := t.client.listeners,
                                  settled := t.client.settled),
                        w.server, w.up, w.down[1..])
    ensures w.down[0].id in w.client.pending && Paired(t)
  {
    var id := w.down[0].id;
    assert AnswerFits(w, 0);
    forall i: nat | i < |t.up| ensures AskFits(t, i) {
      assert AskFits(w, i);
    }
    forall other | other in t.server.active ensures JobFits(t, other) {
      assert JobFits(w, other);
    }
    forall p: nat | p < |t.down| ensures AnswerFits(t, p) {
      assert AnswerFits(w, p + 1);
      assert t.down[p] == w.down[p + 1];
    }
    forall p: nat, q: nat | p < q < |t.down| && t.down[p].Answer?
                            && t.down[q].Answer?
      ensures t.down[p].id != t.down[q].id
    {
      assert t.down[p] == w.down[p + 1] && t.down[q] == w.down[q + 1];
    }
  }

  lemma {:induction false} UpdateTaken(w: World, t: World)
    requires Paired(w) && w.down != [] && w.down[0].Update?
    requires t.client.pending == w.client.pending && t.server == w.server && t.up == w.up && t.down == w.down[1..]
    ensures Paired(t)
  {
    forall i: nat | i < |t.up| ensures AskFits(t, i) {
      assert AskFits(w, i);
    }
    forall other | other in t.server.active ensures JobFits(t, other) {
      assert JobFits(w, other);
    }
    forall p: nat | p < |t.down| ensures AnswerFits(t, p) {
      assert AnswerFits(w, p + 1);
      assert t.down[p] == w.down[p + 1];
    }
    forall p: nat, q: nat | p < q < |t.down| && t.down[p].Answer?
                            && t.down[q].Answer?
      ensures t.down[p].id != t.down[q].id
    {
      assert t.down[p] == w.down[p + 1] && t.down[q] == w.down[q + 1];
    }
  }

  lemma {:induction false} AcceptPairs(w: World)
    requires Bounded(w) && Paired(w) && w.up != [] && w.server.connected
    ensures var t := FromServer(w.(up := w.up[1..]), Accept(w.server, w.up[0]));
            Paired(t) && Bounded(t) && t.down == w.down
  {
    var t := FromServer(w.(up := w.up[1..]), Accept(w.server, w.up[0]));
    assert AskFits(w, 0);
    forall i: nat | i < |t.up| ensures AskFits(t, i) {
      assert AskFits(w, i + 1);
      assert t.up[i] == w.up[i + 1];
    }
    forall i: nat, k: nat | i < k < |t.up| && t.up[i].Ask? && t.up[k].Ask? ensures t.up[i].id != t.up[k].id {
      assert t.up[i] == w.up[i + 1] && t.up[k] == w.up[k + 1];
    }
    forall other | other in t.server.active ensures JobFits(t, other) {
      assert other in w.server.active ==> JobFits(w, other);
    }
    forall p: nat | p < |t.down| ensures AnswerFits(t, p) {
      assert AnswerFits(w, p);
    }
  }

  /** A job is answered for the first time. */
  lemma {:induction false} ReplyPairs(w: World, t: World, id: nat, ok: bool, result: Option<Wire>)
    requires Paired(w) && id in w.server.active && !w.server.active[id].answered
    requires t.client == w.client && t.up == w.up && t.down == w.down + [Answer(id, ok, result)]
             && t.server.answers == w.server.answers + [id]
    requires t.server.active == w.server.active - {id}
          || (w.server.active[id].call.Subscribe? && t.server.active == w.server.active[id := Job(Subscribe, true)])
    ensures Paired(t)
  {
    assert JobFits(w, id);
    forall i: nat | i < |t.up| ensures AskFits(t, i) {
      assert AskFits(w, i);
    }
    forall other | other in t.server.active ensures JobFits(t, other) {
      assert JobFits(w, other);
    }
    forall p: nat | p < |t.down| ensures AnswerFits(t, p) {
      assert p < |w.down| ==> AnswerFits(w, p) && t.down[p] == w.down[p];
    }
    forall p: nat, q: nat | p < q < |t.down| && t.down[p].Answer?
                            && t.down[q].Answer?
      ensures t.down[p].id != t.down[q].id
    {
      assert t.down[p] == w.down[p] && AnswerFits(w, p);
      assert q < |w.down| ==> t.down[q] == w.down[q];
    }
  }

  /** An update is sent, or not, and perhaps a job that was answered is over. */
  lemma {:induction false} UpdatePairs(w: World, t: World)
    requires Paired(w) && t.client == w.client && t.up == w.up && t.server.answers == w.server.answers
    requires t.down == w.down || exists sub, wire :: t.down == w.down + [Update(sub, wire)]
    requires forall id | id in t.server.active :: id in w.server.active && t.server.active[id] == w.server.active[id]
    ensures Paired(t)
  {
    forall i: nat | i < |t.up| ensures AskFits(t, i) {
      assert AskFits(w, i);
    }
    forall other | other in t.server.active ensures JobFits(t, other) {
      assert JobFits(w, other);
    }
    forall p: nat | p < |t.down| ensures AnswerFits(t, p) {
      assert p < |w.down| ==> AnswerFits(w, p) && t.down[p] == w.down[p];
    }
    forall p: nat, q: nat | p < q < |t.down| && t.down[p].Answer?
                            && t.down[q].Answer?
      ensures t.down[p].id != t.down[q].id
    {
      assert t.down[p] == w.down[p] && t.down[q] == w.down[q];
    }
  }

  // ---- Streams are kept -------------------------------------------------------------

  ghost predicate SameListener(w: World, t: World, sub: nat)
    requires sub in w.client.listeners
  {
    && sub in t.client.listeners && t.client.listeners[sub] == w.client.listeners[sub]
       && Heard(t.client, sub) == Heard(w.client, sub)
    && (sub in t.client.pending <==> sub in w.client.pending)
    && (sub in t.client.pending ==> t.client.pending[sub] == w.client.pending[sub])
  }

  ghost predicate SameFeed(w: World, t: World, sub: nat)
  {
    && (sub in t.server.answers <==> sub in w.server.answers)
    && (sub in w.server.feeds ==> sub in t.server.feeds && t.server.feeds[sub].base == w.server.feeds[sub].base
                                  && t.server.feeds[sub].encoded == w.server.feeds[sub].encoded)
    && (sub in t.server.feeds && t.server.feeds[sub].installed ==>
          sub in w.server.feeds && w.server.feeds[sub].installed)
    && (t.server.connected ==>
          w.server.connected
          && (sub in w.server.feeds && w.server.feeds[sub].installed ==> t.server.feeds[sub].installed))
  }

  /** Messages about other subscriptions, and changes that do not matter to this listener. */
  lemma {:induction false} ListenerKept(w: World, t: World, codec: Codec, sub: nat, more: seq<Down>)
    requires sub in w.client.listeners && ListenerFits(w, codec, sub) && SameListener(w, t, sub) && SameFeed(w, t, sub)
    requires t.down == w.down + more && forall i | 0 <= i < |more| :: !Concerns(more[i], sub)
    ensures ListenerFits(t, codec, sub)
  {
    WiresAppend(w.down, more, sub);
    NoWires(more, sub);
    if !w.client.listeners[sub].hydrated && sub in w.server.answers {
      var p: nat :| p < |w.down| && w.down[p].Answer? && w.down[p].id == sub && AnswerCarries(w, codec, sub, p);
      assert t.down[p] == w.down[p] && AnswerCarries(t, codec, sub, p);
    }
  }

  /** The head of the channel is about another subscription. */
  lemma {:induction false} ListenerSkips(w: World, t: World, codec: Codec, sub: nat)
    requires sub in w.client.listeners && ListenerFits(w, codec, sub) && SameListener(w, t, sub)
    requires t.server == w.server && w.down != [] && t.down == w.down[1..] && !Concerns(w.down[0], sub)
    ensures ListenerFits(t, codec, sub)
  {
    if !w.client.listeners[sub].hydrated && sub in w.server.answers {
      var p: nat :| p < |w.down| && w.down[p].Answer? && w.down[p].id == sub && AnswerCarries(w, codec, sub, p);
      assert p > 0 && t.down[p - 1] == w.down[p];
      assert forall i | 0 <= i < p - 1 :: t.down[i] == w.down[i + 1];
      assert AnswerCarries(t, codec, sub, p - 1);
    }
  }

  /** The snapshot arrives. */
  lemma {:induction false} ListenerHydrates(w: World, t: World, codec: Codec, sub: nat)
    requires Paired(w) && Faithful(codec) && sub in w.client.listeners && !w.client.listeners[sub].hydrated
             && WaitingFits(w, codec, sub)
    requires w.down != [] && w.down[0].Answer? && w.down[0].id == sub && w.down[0].ok
    requires AnswerFits(w, 0)
    ensures w.down[0].result.Some? && codec.decodeSnapshot(w.down[0].result.value).Some?
    ensures var base := codec.decodeSnapshot(w.down[0].result.value).value;
            var l := NEW_LISTENER.(hydrated := true, base := Some(base));
            && Hydrate(codec, w.client.listeners[sub], base) == Some(l)
            && (t == World(w.client.(pending := w.client.pending - {sub}, listeners := w.client.listeners[sub := l],
                                     settled := t.client.settled),
                           w.server, w.up, w.down[1..])
                ==> ListenerFits(t, codec, sub))
  {
    var p: nat :| p < |w.down| && w.down[p].Answer? && w.down[p].id == sub && AnswerCarries(w, codec, sub, p);
    assert p == 0;
    assert WiresOf(w.down[1..], sub) == WiresOf(w.down, sub);
    assert NEW_LISTENER.queued + [] == [];
    assert Heard(w.client, sub) + [] == [];
  }

  /** The next update arrives, and is the one that comes next. */
  lemma {:induction false} ListenerHears(w: World, codec: Codec, sub: nat) returns (u: Value)
    requires Paired(w) && Faithful(codec) && sub in w.client.listeners && ListenerFits(w, codec, sub)
    requires w.down != [] && w.down[0].Update? && w.down[0].sub == sub
    ensures w.client.listeners[sub].hydrated && sub in w.server.feeds
    ensures var l, f := w.client.listeners[sub], w.server.feeds[sub];
            && l.base.Some? && codec.decode(l.base.value, l.decoded, w.down[0].wire) == Some(u)
            && l.decoded + [u] <= f.encoded
            && WiresOf(w.down[1..], sub) == Encoded(codec, f.base, f.encoded, |l.decoded| + 1)
  {
    assert Concerns(w.down[0], sub);
    var l, f := w.client.listeners[sub], w.server.feeds[sub];
    assert WiresOf(w.down, sub) == [w.down[0].wire] + WiresOf(w.down[1..], sub);
    var n := |l.decoded|;
    assert n < |f.encoded| by {
      assert |Encoded(codec, f.base, f.encoded, n)| == |f.encoded| - n;
    }
    EncodedHead(codec, f.base, f.encoded, n);
    u := f.encoded[n];
    assert l.decoded == f.encoded[..n];
    assert l.decoded + [u] == f.encoded[..n + 1];
    HeadsEqual(w.down[0].wire, WiresOf(w.down[1..], sub), codec.encode(f.base, l.decoded, u),
               Encoded(codec, f.base, f.encoded, n + 1));
  }

  lemma {:induction false} HeadsEqual(a: Wire, s: seq<Wire>, b: Wire, r: seq<Wire>)
    requires [a] + s == [b] + r
    ensures a == b && s == r
  {
    assert ([a] + s)[0] == a && ([b] + r)[0] == b;
    assert ([a] + s)[1..] == s && ([b] + r)[1..] == r;
  }

  // ---- Every step -------------------------------------------------------------------

  /** Messages keep their sense while snapshots stay and requests are only added or taken. */
  lemma {:induction false} MessagesKept(w: World, t: World, codec: Codec, more: seq<Down>)
    requires Bounded(w) && AllWaited(w) && forall p: nat | p < |w.down| :: MessageFits(w, codec, p)
    requires t.down == w.down + more && forall p: nat | |w.down| <= p < |t.down| :: MessageFits(t, codec, p)
    requires forall sub | sub in w.server.feeds ::
               sub in t.server.feeds && t.server.feeds[sub].base == w.server.feeds[sub].base
    requires forall id | id in t.client.pending ::
               id > w.client.sequence || (id in w.client.pending && t.client.pending[id] == w.client.pending[id])
    ensures forall p: nat | p < |t.down| :: MessageFits(t, codec, p)
  {
    forall p: nat | p < |t.down| ensures MessageFits(t, codec, p) {
      if p < |w.down| {
        assert t.down[p] == w.down[p] && MessageFits(w, codec, p) && AnswerFits(w, p);
      }
    }
  }

  lemma {:induction false} CallsKeeps(w: World, codec: Codec, call: Call, encodes: bool)
    requires Good(w, codec) && Callable(w.client, call)
    ensures Good(FromClient(w, Request(w.client, call, encodes)), codec)
  {
    RequestPairs(w, call, encodes);
    CallsStreams(w, codec, call, encodes);
  }

  lemma {:induction false} CallsStreams(w: World, codec: Codec, call: Call, encodes: bool)
    requires Bounded(w) && AllWaited(w) && Streamed(w, codec) && Callable(w.client, call)
    ensures Streamed(FromClient(w, Request(w.client, call, encodes)), codec)
  {
    var t := FromClient(w, Request(w.client, call, encodes));
    AppendNone(w.down);
    MessagesKept(w, t, codec, []);
    forall sub | sub in t.client.listeners ensures ListenerFits(t, codec, sub) {
      if sub in w.client.listeners {
        ListenerKept(w, t, codec, sub, []);
      } else {
        NothingSent(w, codec, w.client.sequence + 1);
      }
    }
  }

  /** Nothing is on its way for a request that does not exist yet. */
  lemma {:induction false} NothingSent(w: World, codec: Codec, id: nat)
    requires Bounded(w) && AllWaited(w) && id > w.client.sequence
    requires forall p: nat | p < |w.down| :: MessageFits(w, codec, p)
    ensures WiresOf(w.down, id) == []
  {
    forall p | 0 <= p < |w.down| ensures !Concerns(w.down[p], id) {
      assert AnswerFits(w, p) && MessageFits(w, codec, p);
    }
    NoWires(w.down, id);
  }

  lemma {:induction false} AbortsKeeps(w: World, codec: Codec, id: nat)
    requires Good(w, codec)
    ensures Good(FromClient(w, Abort(w.client, id)), codec)
  {
    AppendNone(w.up);
    SameRequests(w, FromClient(w, Abort(w.client, id)));
    AbortsStreams(w, codec, id);
  }

  lemma {:induction false} AbortsStreams(w: World, codec: Codec, id: nat)
    requires Bounded(w) && AllWaited(w) && Streamed(w, codec)
    ensures Streamed(FromClient(w, Abort(w.client, id)), codec)
  {
    var t := FromClient(w, Abort(w.client, id));
    AppendNone(w.down);
    MessagesKept(w, t, codec, []);
    forall sub | sub in t.client.listeners ensures ListenerFits(t, codec, sub) {
      ListenerKept(w, t, codec, sub, []);
    }
  }

  lemma {:induction false} StartsKeeps(w: World, codec: Codec, sub: nat)
    requires Good(w, codec)
    ensures Good(w.(client := Start(w.client, sub)), codec)
  {
    SameRequests(w, w.(client := Start(w.client, sub)));
    StartsStreams(w, codec, sub);
  }

  lemma {:induction false} StartsStreams(w: World, codec: Codec, sub: nat)
    requires Bounded(w) && AllWaited(w) && Streamed(w, codec)
    ensures Streamed(w.(client := Start(w.client, sub)), codec)
  {
    var t := w.(client := Start(w.client, sub));
    if t != w {
      AppendNone(w.down);
      MessagesKept(w, t, codec, []);
      StartHeard(w, codec, sub);
      forall other | other in t.client.listeners ensures ListenerFits(t, codec, other) {
        if other != sub {
          ListenerKept(w, t, codec, other, []);
        }
      }
    }
  }

  lemma {:induction false} StartHeard(w: World, codec: Codec, sub: nat)
    requires sub in w.client.listeners && w.client.listeners[sub].hydrated && HydratedFits(w, codec, sub)
             && FeedFits(w.server, sub)
    ensures var t := w.(client := Start(w.client, sub));
            && sub in t.client.listeners && t.client.listeners[sub].hydrated && HydratedFits(t, codec, sub)
               && HeardFits(t, sub)
  {
    var l := w.client.listeners[sub];
    if !l.ready {
      var t := w.(client := Start(w.client, sub));
      assert Heard(t.client, sub) + [] == Heard(w.client, sub) + l.queued;
    } else {
      assert Heard(w.client, sub) + [] == Heard(w.client, sub);
    }
  }

  lemma {:induction false} DisposesKeeps(w: World, codec: Codec, sub: nat, current: bool)
    requires Good(w, codec)
    ensures Good(FromClient(w, Dispose(w.client, sub, current)), codec)
  {
    AppendNone(w.up);
    if sub in w.client.listeners && w.client.listeners[sub].hydrated {
      DisposePairs(w, sub, current);
      DisposesStreams(w, codec, sub, current);
    }
  }

  /** A listener is gone, and perhaps its unsubscribe request is pending. */
  predicate Disposed(w: World, t: World, sub: nat)
  {
    && t.server == w.server && t.down == w.down
    && t.client.listeners == w.client.listeners - {sub} && t.client.heard == w.client.heard
    && var id := w.client.sequence + 1;
       || (t.client.sequence == w.client.sequence && t.client.pending == w.client.pending)
       || (t.client.sequence == id && t.client.pending == w.client.pending[id := Unsubscribe(sub)])
  }

  lemma {:induction false} DisposesStreams(w: World, codec: Codec, sub: nat, current: bool)
    requires Bounded(w) && AllWaited(w) && Streamed(w, codec)
    ensures Streamed(FromClient(w, Dispose(w.client, sub, current)), codec)
  {
    var t := FromClient(w, Dispose(w.client, sub, current));
    AppendNone(w.up);
    if sub in w.client.listeners && w.client.listeners[sub].hydrated {
      DisposedStreams(w, t, codec, sub);
    }
  }

  lemma {:induction false} DisposedStreams(w: World, t: World, codec: Codec, sub: nat)
    requires Bounded(w) && AllWaited(w) && Streamed(w, codec) && Disposed(w, t, sub) && sub in w.client.listeners
    ensures Streamed(t, codec)
  {
    AppendNone(w.down);
    MessagesKept(w, t, codec, []);
    forall other | other in t.client.listeners ensures ListenerFits(t, codec, other) {
      ListenerKept(w, t, codec, other, []);
    }
  }

  lemma {:induction false} DisposePairs(w: World, sub: nat, current: bool)
    requires Bounded(w) && Paired(w)
    ensures Bounded(FromClient(w, Dispose(w.client, sub, current)))
            && Paired(FromClient(w, Dispose(w.client, sub, current)))
  {
    assert w.up + [] == w.up;
    var gone := w.(client := w.client.(listeners := w.client.listeners - {sub}));
    SameRequests(w, gone);
    RequestPairs(gone, Unsubscribe(sub), true);
  }

  lemma {:induction false} HeadTaken(w: World, t: World, codec: Codec)
    requires Streamed(w, codec) && w.down != [] && t.down == w.down[1..] && t.server == w.server
    requires forall id | id in t.client.pending ::
               id in w.client.pending && t.client.pending[id] == w.client.pending[id]
    ensures forall p: nat | p < |t.down| :: MessageFits(t, codec, p)
  {
    forall p: nat | p < |t.down| ensures MessageFits(t, codec, p) {
      assert t.down[p] == w.down[p + 1] && MessageFits(w, codec, p + 1);
    }
  }

  /** An answer always finds its request, and a snapshot its listener, if there is one. */
  lemma {:induction false} AnswerReceived(w: World, t: World, codec: Codec)
    requires Good(w, codec) && Faithful(codec) && w.down != [] && w.down[0].Answer?
    requires t == w.(client := Receive(w.client, codec, w.down[0]), down := w.down[1..])
    ensures var id := w.down[0].id;
            && id in w.client.pending && t.client.connected
            && t == World(w.client.(pending := w.client.pending - {id}, listeners := t.client.listeners,
                                    settled := t.client.settled),
                          w.server, w.up, w.down[1..])
            && (forall sub | sub != id :: sub in t.client.listeners <==> sub in w.client.listeners)
            && (forall sub | sub != id && sub in t.client.listeners ::
                  t.client.listeners[sub] == w.client.listeners[sub])
            && (id in t.client.listeners ==> id in w.client.listeners && ListenerFits(t, codec, id))
  {
    var id := w.down[0].id;
    assert AnswerFits(w, 0) && MessageFits(w, codec, 0);
    if id in w.client.listeners {
      assert ListenerFits(w, codec, id) && !w.client.listeners[id].hydrated;
      if w.down[0].ok {
        ListenerHydrates(w, t, codec, id);
      }
    }
  }

  lemma {:induction false} AnswerKeeps(w: World, codec: Codec)
    requires Good(w, codec) && Faithful(codec) && w.down != [] && w.down[0].Answer?
    ensures var t := w.(client := Receive(w.client, codec, w.down[0]), down := w.down[1..]);
            w.down[0].id in w.client.pending && t.client.connected && Good(t, codec)
  {
    var t := w.(client := Receive(w.client, codec, w.down[0]), down := w.down[1..]);
    AnswerReceived(w, t, codec);
    AnsweredKeeps(w, t, codec);
  }

  lemma {:induction false} AnsweredKeeps(w: World, t: World, codec: Codec)
    requires Good(w, codec) && w.down != [] && w.down[0].Answer? && w.client.connected
    requires var id := w.down[0].id;
             && t == World(w.client.(pending := w.client.pending - {id}, listeners := t.client.listeners,
                                     settled := t.client.settled),
                           w.server, w.up, w.down[1..])
             && (forall sub | sub != id :: sub in t.client.listeners <==> sub in w.client.listeners)
             && (forall sub | sub != id && sub in t.client.listeners ::
                   t.client.listeners[sub] == w.client.listeners[sub])
             && (id in t.client.listeners ==> id in w.client.listeners && ListenerFits(t, codec, id))
    ensures Good(t, codec)
  {
    AnswerTaken(w, t);
    HeadTaken(w, t, codec);
    forall sub | sub in t.client.listeners ensures ListenerFits(t, codec, sub) {
      if sub != w.down[0].id {
        ListenerSkips(w, t, codec, sub);
      }
    }
  }

  lemma {:induction false} UpdateKeeps(w: World, codec: Codec)
    requires Good(w, codec) && Faithful(codec) && w.down != [] && w.down[0].Update?
    ensures var t := w.(client := Receive(w.client, codec, w.down[0]), down := w.down[1..]);
            t.client.connected && Good(t, codec)
  {
    var t := w.(client := Receive(w.client, codec, w.down[0]), down := w.down[1..]);
    var sub := w.down[0].sub;
    if sub in w.client.listeners {
      var u := ListenerHears(w, codec, sub);
      UpdateHeard(w, t, codec, sub, u);
    }
    UpdateTaken(w, t);
    UpdateStreams(w, t, codec);
  }

  lemma {:induction false} UpdateStreams(w: World, t: World, codec: Codec)
    requires Streamed(w, codec) && w.down != [] && w.down[0].Update?
    requires t == World(t.client, w.server, w.up, w.down[1..])
    requires var sub := w.down[0].sub;
             if sub !in w.client.listeners then t.client == w.client
             else && sub in t.client.listeners && ListenerFits(t, codec, sub) && HeardFits(t, sub)
                  && t.client == w.client.(listeners := w.client.listeners[sub := t.client.listeners[sub]],
                                           heard := t.client.heard)
                  && forall other | other != sub ::
                       && (other in t.client.heard <==> other in w.client.heard)
                       && (other in t.client.heard ==> t.client.heard[other] == w.client.heard[other])
    ensures Streamed(t, codec)
  {
    var sub := w.down[0].sub;
    HeadTaken(w, t, codec);
    forall other | other in t.client.heard ensures HeardFits(t, other) {
      assert other != sub ==> HeardFits(w, other);
    }
    forall other | other in t.client.listeners ensures ListenerFits(t, codec, other) {
      if other != sub {
        ListenerSkips(w, t, codec, other);
      }
    }
  }

  lemma {:induction false} UpdateHeard(w: World, t: World, codec: Codec, sub: nat, u: Value)
    requires sub in w.client.listeners && HydratedFits(w, codec, sub) && w.client.listeners[sub].hydrated
             && w.client.connected
    requires FeedFits(w.server, sub)
    requires w.down != [] && w.down[0].Update? && w.down[0].sub == sub
    requires var l, f := w.client.listeners[sub], w.server.feeds[sub];
             && codec.decode(f.base, l.decoded, w.down[0].wire) == Some(u)
             && l.decoded + [u] <= f.encoded
             && WiresOf(w.down[1..], sub) == Encoded(codec, f.base, f.encoded, |l.decoded| + 1)
    requires t == w.(client := Receive(w.client, codec, w.down[0]), down := w.down[1..])
    ensures sub in t.client.listeners && t.client.listeners[sub].hydrated && HydratedFits(t, codec, sub)
            && HeardFits(t, sub)
    ensures t.client == w.client.(listeners := w.client.listeners[sub := t.client.listeners[sub]],
                                  heard := if w.client.listeners[sub].ready
                                          then w.client.heard[sub := Heard(t.client, sub)] else w.client.heard)
  {
    var l := w.client.listeners[sub];
    if l.ready {
      assert Heard(w.client, sub) + [] == Heard(w.client, sub);
      assert Heard(t.client, sub) + [] == l.decoded + [u];
    } else {
      assert Heard(w.client, sub) + (l.queued + [u]) == Heard(w.client, sub) + l.queued + [u];
    }
  }

  lemma {:induction false} ReceiveKeeps(w: World, codec: Codec)
    requires Good(w, codec) && Faithful(codec)
    ensures Good(Next(w, codec, ClientReceives), codec)
  {
    if w.down != [] {
      if w.down[0].Answer? {
        AnswerKeeps(w, codec);
      } else {
        UpdateKeeps(w, codec);
      }
    }
  }

  lemma {:induction false} ServerReceivesKeeps(w: World, codec: Codec)
    requires Good(w, codec)
    ensures Good(Next(w, codec, ServerReceives), codec)
  {
    if w.up != [] {
      var t := Next(w, codec, ServerReceives);
      if w.server.connected {
        AcceptPairs(w);
      } else {
        UpTaken(w, t);
      }
      MessagesKept(w, t, codec, []);
      forall sub | sub in t.client.listeners ensures ListenerFits(t, codec, sub) {
        ListenerKept(w, t, codec, sub, []);
      }
      forall sub | sub in t.server.feeds ensures FeedFits(t.server, sub) {
        assert FeedFits(w.server, sub);
      }
    }
  }

  lemma {:induction false} UpTaken(w: World, t: World)
    requires Paired(w) && w.up != [] && t.client == w.client && t.server == w.server && t.up == w.up[1..]
             && t.down == w.down
    ensures Paired(t)
  {
    forall i: nat | i < |t.up| ensures AskFits(t, i) {
      assert t.up[i] == w.up[i + 1] && AskFits(w, i + 1);
    }
    forall i: nat, k: nat | i < k < |t.up| && t.up[i].Ask? && t.up[k].Ask? ensures t.up[i].id != t.up[k].id {
      assert t.up[i] == w.up[i + 1] && t.up[k] == w.up[k + 1];
    }
    forall id | id in t.server.active ensures JobFits(t, id) {
      assert JobFits(w, id);
    }
    forall p: nat | p < |t.down| ensures AnswerFits(t, p) {
      assert AnswerFits(w, p);
    }
  }

  lemma {:induction false} SnapshotsKeeps(w: World, codec: Codec, id: nat, base: Value)
    requires Good(w, codec)
    ensures Good(w.(server := Snapshot(w.server, id, base)), codec)
  {
    var t := w.(server := Snapshot(w.server, id, base));
    if t != w {
      assert JobFits(w, id);
      SameRequests(w, t);
      AppendNone(w.down);
      MessagesKept(w, t, codec, []);
      forall sub | sub in t.client.listeners ensures ListenerFits(t, codec, sub) {
        ListenerKept(w, t, codec, sub, []);
      }
    }
  }

  /** Encoders are taken out: at an unsubscribe request, and when the connection ends. */
  lemma {:induction false} ServerDropsKeeps(w: World, codec: Codec)
    requires Good(w, codec)
    ensures Good(w.(server := Disconnected(w.server)), codec)
  {
    var t := w.(server := Disconnected(w.server));
    UpdatePairs(w, t);
    AppendNone(w.down);
    MessagesKept(w, t, codec, []);
    forall sub | sub in t.client.listeners ensures ListenerFits(t, codec, sub) {
      ListenerKept(w, t, codec, sub, []);
    }
    forall sub | sub in t.server.feeds ensures FeedFits(t.server, sub) {
      assert FeedFits(w.server, sub);
    }
  }

  lemma {:induction false} ClientDropsKeeps(w: World, codec: Codec)
    requires Good(w, codec)
    ensures Good(Settle(w.(client := Dropped(w.client))), codec)
  {
    var t := Settle(w.(client := Dropped(w.client)));
    forall sub | sub in t.server.feeds ensures FeedFits(t.server, sub) {
      assert FeedFits(w.server, sub);
    }
    forall sub | sub in t.client.heard ensures HeardFits(t, sub) {
      assert HeardFits(w, sub);
    }
  }

  lemma ReconnectsKeeps(w: World, codec: Codec)
    requires Good(w, codec)
    ensures Good(Next(w, codec, Reconnects), codec)
  {
  }

  /** The update goes out in the state of the encoder that the decoder will have. */
  lemma {:induction false} ListenerGets(w: World, t: World, codec: Codec, sub: nat, u: Value)
    requires sub in w.client.listeners && ListenerFits(w, codec, sub) && sub in w.server.feeds
             && w.server.feeds[sub].installed
    requires sub in w.server.answers && t.client == w.client && t.server.answers == w.server.answers
             && sub in t.server.feeds
    requires t.server.feeds[sub].installed
    requires var f := w.server.feeds[sub];
             && t.server.feeds[sub].base == f.base && t.server.feeds[sub].encoded == f.encoded + [u]
             && t.down == w.down + [Update(sub, codec.encode(f.base, f.encoded, u))]
    ensures ListenerFits(t, codec, sub)
  {
    var f, l := w.server.feeds[sub], w.client.listeners[sub];
    WiresAppend(w.down, [Update(sub, codec.encode(f.base, f.encoded, u))], sub);
    if l.hydrated {
      EncodedAppend(codec, f.base, f.encoded, |l.decoded|, u);
    } else {
      EncodedAppend(codec, f.base, f.encoded, 0, u);
      var p: nat :| p < |w.down| && w.down[p].Answer? && w.down[p].id == sub && AnswerCarries(w, codec, sub, p);
      assert t.down[p] == w.down[p] && AnswerCarries(t, codec, sub, p);
    }
  }

  /** `sendServiceUpdate`, when the books of the feed already count the update. */
  lemma {:induction false} SendKeeps(w: World, s: Server, codec: Codec, sub: nat, u: Value)
    requires Good(w, codec) && sub in w.server.feeds && sub in w.server.answers
    requires SendReady(w.server, s, sub, u)
    ensures Good(FromServer(w, SendUpdate(s, codec, sub, u)), codec)
  {
    AppendNone(w.down);
    UpdatePairs(w, FromServer(w, SendUpdate(s, codec, sub, u)));
    SendStreams(w, s, codec, sub, u);
  }

  lemma {:induction false} SendStreams(w: World, s: Server, codec: Codec, sub: nat, u: Value)
    requires Bounded(w) && AllWaited(w) && Streamed(w, codec) && sub in w.server.feeds && sub in w.server.answers
    requires SendReady(w.server, s, sub, u)
    ensures Streamed(FromServer(w, SendUpdate(s, codec, sub, u)), codec)
  {
    var r := SendUpdate(s, codec, sub, u);
    var t := FromServer(w, r);
    MessagesKept(w, t, codec, r.1);
    forall other | other in t.client.listeners ensures ListenerFits(t, codec, other) {
      if other == sub && r.1 != [] {
        ListenerGets(w, t, codec, sub, u);
      } else {
        ListenerKept(w, t, codec, other, r.1);
      }
    }
    forall other | other in t.server.feeds ensures FeedFits(t.server, other) {
      assert FeedFits(w.server, other);
      if other == sub {
        SentFeedFits(w.server, s, codec, sub, u);
      }
    }
    forall other | other in t.client.heard ensures HeardFits(t, other) {
      assert HeardFits(w, other);
    }
  }

  /** The server just before it sends the update `u` of a feed: it is published, and no longer held. */
  ghost predicate SendReady(a: Server, s: Server, sub: nat, u: Value)
    requires sub in a.feeds
  {
    && s.connected == a.connected && s.answers == a.answers
    && (forall id | id in s.active :: id in a.active && s.active[id] == a.active[id])
    && sub in s.feeds && s.feeds == a.feeds[sub := s.feeds[sub]]
    && var f, g := a.feeds[sub], s.feeds[sub];
       && g.base == f.base && g.encoded == f.encoded && g.installed == f.installed && f.published <= g.published
       && (f.installed ==> g.published == f.encoded + [u] + g.held)
       && (g.ready ==> g.held == [])
  }

  lemma SentFeedFits(a: Server, s: Server, codec: Codec, sub: nat, u: Value)
    requires sub in a.feeds && FeedFits(a, sub) && SendReady(a, s, sub, u) && sub in a.answers
    requires !s.connected ==> !a.feeds[sub].installed
    ensures FeedFits(SendUpdate(s, codec, sub, u).0, sub)
  {
  }

  lemma {:induction false} PublishesKeeps(w: World, codec: Codec, sub: nat, u: Value)
    requires Good(w, codec)
    ensures Good(FromServer(w, Publish(w.server, codec, sub, u)), codec)
  {
    AppendNone(w.down);
    if sub in w.server.feeds {
      var f := w.server.feeds[sub];
      assert FeedFits(w.server, sub);
      var counted := f.(published := f.published + [u]);
      if f.ready {
        assert f.encoded + [u] + [] == f.published + [u] || !f.installed by {
          assert f.encoded + [] == f.encoded;
        }
        SendKeeps(w, w.server.(feeds := w.server.feeds[sub := counted]), codec, sub, u);
      } else {
        assert f.encoded + (f.held + [u]) == f.encoded + f.held + [u];
        FeedChanges(w, codec, sub, counted.(held := f.held + [u]), w.server.active);
      }
    }
  }

  /** A feed changes, but nothing is sent. */
  lemma {:induction false} FeedChanges(w: World, codec: Codec, sub: nat, g: Feed, active: map<nat, Job>)
    requires Good(w, codec) && sub in w.server.feeds
    requires var f := w.server.feeds[sub];
             g.base == f.base && g.encoded == f.encoded && g.installed == f.installed && f.published <= g.published
    requires FeedFits(w.server.(feeds := w.server.feeds[sub := g]), sub)
    requires forall id | id in active :: id in w.server.active && active[id] == w.server.active[id]
    ensures Good(w.(server := w.server.(feeds := w.server.feeds[sub := g], active := active)), codec)
  {
    UpdatePairs(w, w.(server := w.server.(feeds := w.server.feeds[sub := g], active := active)));
    FeedStreams(w, codec, sub, g, active);
  }

  lemma {:induction false} FeedStreams(w: World, codec: Codec, sub: nat, g: Feed, active: map<nat, Job>)
    requires Bounded(w) && AllWaited(w) && Streamed(w, codec) && sub in w.server.feeds
    requires var f := w.server.feeds[sub];
             g.base == f.base && g.encoded == f.encoded && g.installed == f.installed && f.published <= g.published
    requires FeedFits(w.server.(feeds := w.server.feeds[sub := g]), sub)
    ensures Streamed(w.(server := w.server.(feeds := w.server.feeds[sub := g], active := active)), codec)
  {
    var t := w.(server := w.server.(feeds := w.server.feeds[sub := g], active := active));
    AppendNone(w.down);
    MessagesKept(w, t, codec, []);
    forall other | other in t.client.listeners ensures ListenerFits(t, codec, other) {
      ListenerKept(w, t, codec, other, []);
    }
    forall other | other in t.server.feeds ensures FeedFits(t.server, other) {
      assert FeedFits(w.server, other);
    }
    forall other | other in t.client.heard ensures HeardFits(t, other) {
      assert HeardFits(w, other);
    }
  }

  lemma {:induction false} DrainsKeeps(w: World, codec: Codec, id: nat)
    requires Good(w, codec)
    ensures Good(FromServer(w, Drain(w.server, codec, id)), codec)
  {
    AppendNone(w.down);
    if id in w.server.active && w.server.active[id].answered && id in w.server.feeds {
      assert JobFits(w, id) && FeedFits(w.server, id);
      var f := w.server.feeds[id];
      if f.held == [] {
        FeedChanges(w, codec, id, f.(ready := true), w.server.active - {id});
      } else {
        assert f.encoded + [f.held[0]] + f.held[1..] == f.encoded + f.held;
        SendKeeps(w, w.server.(feeds := w.server.feeds[id := f.(held := f.held[1..])]), codec, id, f.held[0]);
      }
    }
  }

  lemma {:induction false} RespondsKeeps(w: World, codec: Codec, id: nat, ok: bool, result: Option<Wire>)
    requires Good(w, codec)
    ensures Good(FromServer(w, Respond(w.server, codec, id, ok, result)), codec)
  {
    AppendNone(w.down);
    if id in w.server.active && !w.server.active[id].answered {
      assert w.server.connected && JobFits(w, id);
      var call := w.server.active[id].call;
      if call.Subscribe? {
        SubscribedKeeps(w, codec, id, ok, result);
      } else {
        PlainKeeps(w, codec, id, ok, result);
      }
    }
  }

  lemma {:induction false} PlainKeeps(w: World, codec: Codec, id: nat, ok: bool, result: Option<Wire>)
    requires Good(w, codec) && w.server.connected && id in w.server.active && !w.server.active[id].answered
             && !w.server.active[id].call.Subscribe?
    ensures Good(FromServer(w, Respond(w.server, codec, id, ok, result)), codec)
  {
    assert JobFits(w, id);
    var m := Answer(id, ok, if ok then result else None);
    var t := FromServer(w, Respond(w.server, codec, id, ok, result));
    ReplyPairs(w, t, id, m.ok, m.result);
    PlainStreams(w, t, codec, id, m);
  }

  /** A call other than a subscribe is answered; if it was an unsubscribe, that encoder may be gone. */
  predicate PlainAnswered(w: World, t: World, id: nat, m: Down)
  {
    && id in w.server.active && !w.server.active[id].answered && !w.server.active[id].call.Subscribe?
    && JobFits(w, id) && w.server.connected
    && m.Answer? && m.id == id && t.down == w.down + [m] && t.client == w.client && t.up == w.up
    && t.server.answers == w.server.answers + [id] && t.server.connected
    && var call := w.server.active[id].call;
       t.server.feeds == w.server.feeds
       || (call.Unsubscribe? && call.sub in w.server.feeds
           && t.server.feeds == w.server.feeds[call.sub := Uninstalled(w.server.feeds[call.sub])])
  }

  lemma {:induction false} PlainStreams(w: World, t: World, codec: Codec, id: nat, m: Down)
    requires Bounded(w) && AllWaited(w) && Streamed(w, codec) && PlainAnswered(w, t, id, m)
    ensures Streamed(t, codec)
  {
    MessagesKept(w, t, codec, [m]);
    forall sub | sub in t.client.listeners ensures ListenerFits(t, codec, sub) {
      PlainListener(w, t, codec, id, m, sub);
    }
    forall sub | sub in t.server.feeds ensures FeedFits(t.server, sub) {
      assert FeedFits(w.server, sub);
    }
    forall sub | sub in t.client.heard ensures HeardFits(t, sub) {
      assert HeardFits(w, sub);
    }
  }

  /** The answer to another call does not concern a listener, and an unsubscribe comes after its listener. */
  lemma {:induction false} PlainListener(w: World, t: World, codec: Codec, id: nat, m: Down, sub: nat)
    requires UnsubscribesLate(w) && sub in w.client.listeners && ListenerFits(w, codec, sub)
    requires PlainAnswered(w, t, id, m)
    ensures ListenerFits(t, codec, sub)
  {
    assert sub != id;
    ListenerKept(w, t, codec, sub, [m]);
  }

  lemma {:induction false} SubscribedKeeps(w: World, codec: Codec, id: nat, ok: bool, result: Option<Wire>)
    requires Good(w, codec) && w.server.connected && id in w.server.active && !w.server.active[id].answered
             && w.server.active[id].call.Subscribe?
    ensures Good(FromServer(w, Respond(w.server, codec, id, ok, result)), codec)
  {
    var r := Respond(w.server, codec, id, ok, result);
    assert JobFits(w, id);
    ReplyPairs(w, FromServer(w, r), id, r.1[0].ok, r.1[0].result);
    SubscribedStreams(w, codec, id, ok, result);
  }

  lemma {:induction false} SubscribedStreams(w: World, codec: Codec, id: nat, ok: bool, result: Option<Wire>)
    requires Bounded(w) && AllWaited(w) && Streamed(w, codec) && w.server.connected
    requires id in w.server.active && !w.server.active[id].answered && w.server.active[id].call.Subscribe?
             && JobFits(w, id)
    ensures Streamed(FromServer(w, Respond(w.server, codec, id, ok, result)), codec)
  {
    var r := Respond(w.server, codec, id, ok, result);
    var t := FromServer(w, r);
    MessagesKept(w, t, codec, r.1);
    forall sub | sub in t.client.listeners ensures ListenerFits(t, codec, sub) {
      if sub == id {
        AnswerSent(w, t, codec, id, r.1[0]);
      } else {
        ListenerKept(w, t, codec, sub, r.1);
      }
    }
    forall sub | sub in t.server.feeds ensures FeedFits(t.server, sub) {
      assert FeedFits(w.server, sub);
      if sub == id {
        assert t.server.feeds[id].encoded + t.server.feeds[id].held == t.server.feeds[id].held;
      }
    }
    forall sub | sub in t.client.heard ensures HeardFits(t, sub) {
      assert HeardFits(w, sub);
    }
  }

  /** The answer is the first thing that the listener gets. */
  lemma {:induction false} AnswerSent(w: World, t: World, codec: Codec, id: nat, m: Down)
    requires Bounded(w) && AllWaited(w) && forall p: nat | p < |w.down| :: MessageFits(w, codec, p)
    requires id in w.client.listeners && ListenerFits(w, codec, id) && id in w.client.pending && id !in w.server.answers
    requires id in w.server.feeds ==> FeedFits(w.server, id)
    requires m.Answer? && m.id == id && t.down == w.down + [m] && t.client == w.client && id in t.server.answers
    requires if m.ok then
               && id in w.server.feeds && t.server.feeds == w.server.feeds[id := w.server.feeds[id].(installed := true)]
               && m.result == Some(codec.encodeSnapshot(w.server.feeds[id].base))
             else
               t.server.feeds == w.server.feeds
    ensures ListenerFits(t, codec, id)
  {
    var p := |w.down|;
    WiresAppend(w.down, [m], id);
    forall i | 0 <= i < p ensures !Concerns(t.down[i], id) {
      assert t.down[i] == w.down[i] && AnswerFits(w, i);
      NotAmong(w.down, id, i);
    }
    assert t.down[p] == m && AnswerCarries(t, codec, id, p);
  }

  lemma {:induction false} NotAmong(down: seq<Down>, sub: nat, i: nat)
    requires WiresOf(down, sub) == [] && i < |down|
    ensures !(down[i].Update? && down[i].sub == sub)
  {
    if i > 0 {
      NotAmong(down[1..], sub, i - 1);
    }
  }

  lemma {:induction false} NextKeeps(w: World, codec: Codec, e: Event)
    requires Good(w, codec) && Faithful(codec)
    ensures Good(Next(w, codec, e), codec)
  {
    match e
    case Calls(call, encodes) =>
      if Callable(w.client, call) {
        CallsKeeps(w, codec, call, encodes);
      }
    case Aborts(id) => AbortsKeeps(w, codec, id);
    case Starts(sub) => StartsKeeps(w, codec, sub);
    case Disposes(sub, current) => DisposesKeeps(w, codec, sub, current);
    case ClientReceives => ReceiveKeeps(w, codec);
    case ClientDrops => ClientDropsKeeps(w, codec);
    case Reconnects => ReconnectsKeeps(w, codec);
    case ServerReceives => ServerReceivesKeeps(w, codec);
    case Snapshots(id, base) => SnapshotsKeeps(w, codec, id, base);
    case Responds(id, ok, result) => RespondsKeeps(w, codec, id, ok, result);
    case Publishes(sub, u) => PublishesKeeps(w, codec, sub, u);
    case Drains(id) => DrainsKeeps(w, codec, id);
    case ServerDrops => ServerDropsKeeps(w, codec);
  }

  // ---- Whole runs -------------------------------------------------------------------

  function After(codec: Codec, events: seq<Event>): World
  {
    if events == [] then START else Next(After(codec, events[..|events| - 1]), codec, events[|events| - 1])
  }

  lemma {:induction false} AlwaysGood(codec: Codec, events: seq<Event>)
    requires Faithful(codec)
    ensures Good(After(codec, events), codec)
  {
    if events != [] {
      AlwaysGood(codec, events[..|events| - 1]);
      NextKeeps(After(codec, events[..|events| - 1]), codec, events[|events| - 1]);
    }
  }

  /** Whatever interleaves, the client never gives up a connection over what the server sends: every
      response finds its request, also after a local abort, and every update decodes. No request is
      answered twice, and requests wait only while the client is connected. */
  lemma {:induction false} ResponsesPair(codec: Codec, events: seq<Event>)
    requires Faithful(codec)
    ensures var w := After(codec, events);
            && !w.client.failed
            && (forall i, k | 0 <= i < k < |w.server.answers| :: w.server.answers[i] != w.server.answers[k])
            && (forall p: nat | p < |w.down| && w.down[p].Answer? :: w.down[p].id in w.client.pending)
            && (!w.client.connected ==> w.client.pending == map[])
  {
    AlwaysGood(codec, events);
    var w := After(codec, events);
    forall p: nat | p < |w.down| && w.down[p].Answer? ensures w.down[p].id in w.client.pending {
      assert AnswerFits(w, p);
    }
  }

  /** What a listener hears is always a prefix of what was published after its snapshot, in order. */
  lemma {:induction false} HeardIsPublished(codec: Codec, events: seq<Event>, sub: nat)
    requires Faithful(codec)
    ensures var w := After(codec, events);
            Heard(w.client, sub) == []
            || (sub in w.server.feeds && Heard(w.client, sub) <= w.server.feeds[sub].published)
  {
    AlwaysGood(codec, events);
    var w := After(codec, events);
    assert sub in w.client.heard ==> HeardFits(w, sub);
  }

  /** Nothing is lost while a subscription lasts and the server keeps the connection: what was published since
      the snapshot was heard, or
      is queued until the start, is on its way, or is held back until the response has gone; what is
      on its way is encoded in the state that the decoder will be in. Nothing ever has to wait for
      the snapshot. Once all channels are empty, a started listener has heard everything. */
  lemma {:induction false} NothingIsLost(codec: Codec, events: seq<Event>, sub: nat)
    requires Faithful(codec)
    requires sub in After(codec, events).client.listeners
    ensures var w := After(codec, events);
            var l := w.client.listeners[sub];
            && l.early == []
            && (l.hydrated && w.server.connected ==>
                  && sub in w.server.feeds
                  && var f := w.server.feeds[sub];
                  && |l.decoded| <= |f.encoded|
                  && f.published == Heard(w.client, sub) + l.queued + f.encoded[|l.decoded|..] + f.held
                  && WiresOf(w.down, sub) == Encoded(codec, f.base, f.encoded, |l.decoded|)
                  && (l.ready && WiresOf(w.down, sub) == [] && f.held == [] ==> Heard(w.client, sub) == f.published))
  {
    AlwaysGood(codec, events);
    var w := After(codec, events);
    var l := w.client.listeners[sub];
    assert ListenerFits(w, codec, sub);
    if l.hydrated && w.server.connected {
      var f := w.server.feeds[sub];
      assert FeedFits(w.server, sub);
      assert f.encoded == l.decoded + f.encoded[|l.decoded|..];
      if l.ready && WiresOf(w.down, sub) == [] && f.held == [] {
        assert |Encoded(codec, f.base, f.encoded, |l.decoded|)| == |f.encoded| - |l.decoded|;
        assert Heard(w.client, sub) + [] + [] + [] == Heard(w.client, sub);
      }
    }
  }
}
