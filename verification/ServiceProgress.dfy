/** Nothing that is asked for or published is forgotten: packages/server/src/server.ts and
    packages/client/src/client.ts. */
module ServiceProgress {
  import opened Outcomes
  import opened Sequences
  import opened ServiceStreams
  import opened ServiceOutcomes

  // ---- Requests -------------------------------------------------------------------------

  ghost predicate AskOnItsWay(up: seq<Up>, id: nat, call: Call) { Ask(id, call) in up }

  /** The request is on its way, its handler is at work, or the answer is on its way back. */
  ghost predicate Handled(w: World, id: nat)
    requires id in w.client.pending
  {
    || AskOnItsWay(w.up, id, w.client.pending[id])
    || (AtWork(w, id) && w.server.active[id].call == w.client.pending[id])
    || AnswerOnItsWay(w.down, id)
  }

  ghost predicate AllHandled(w: World)
  {
    w.client.connected && w.server.connected ==> forall id | id in w.client.pending :: Handled(w, id)
  }

  /** What carries a request is still there. */
  lemma {:induction false} StillHandled(w: World, t: World, id: nat)
    requires id in w.client.pending && Handled(w, id)
    requires id in t.client.pending && t.client.pending[id] == w.client.pending[id]
    requires forall m | m in w.up :: m in t.up
    requires AtWork(w, id) ==> AtWork(t, id) && t.server.active[id].call == w.server.active[id].call
    requires forall m | m in w.down && m.Answer? && m.id == id :: m in t.down
    ensures Handled(t, id)
  {
  }

  lemma {:induction false} SameHandled(w: World, t: World)
    requires AllHandled(w) && t.client.pending == w.client.pending && t.up == w.up
    requires t.client.connected == w.client.connected && t.server.connected == w.server.connected
    requires forall id | AtWork(w, id) :: AtWork(t, id) && t.server.active[id].call == w.server.active[id].call
    requires w.down <= t.down
    ensures AllHandled(t)
  {
    assert forall m | m in w.down :: m in t.down;
    if t.client.connected && t.server.connected {
      forall id | id in t.client.pending ensures Handled(t, id) {
        StillHandled(w, t, id);
      }
    }
  }

  /** The client asks or cancels; what it asks is sent. */
  lemma {:induction false} ClientHandled(w: World, codec: Codec, e: Event)
    requires AllHandled(w) && (e.Calls? || e.Aborts? || e.Disposes?)
    ensures AllHandled(Next(w, codec, e))
  {
    var t := Next(w, codec, e);
    if t.client.connected && t.server.connected {
      forall id | id in t.client.pending ensures Handled(t, id) {
        if id in w.client.pending && id != w.client.sequence + 1 {
          StillHandled(w, t, id);
        } else if id == w.client.sequence + 1 && t.client.sequence == id {
          assert Ask(id, t.client.pending[id]) in t.up;
        } else {
          StillHandled(w, t, id);
        }
      }
    }
  }

  lemma {:induction false} HeadOf<T>(s: seq<T>, x: T)
    requires s != []
    ensures x in s <==> x == s[0] || x in s[1..]
  {
    assert s == [s[0]] + s[1..];
  }

  /** A request that arrives is given to its handler. */
  lemma {:induction false} AcceptHandled(w: World, codec: Codec)
    requires Good(w, codec) && AllHandled(w)
    ensures AllHandled(Next(w, codec, ServerReceives))
  {
    var t := Next(w, codec, ServerReceives);
    if w.up != [] && t.client.connected && t.server.connected {
      assert AskFits(w, 0);
      forall id | id in t.client.pending ensures Handled(t, id) {
        HeadOf(w.up, Ask(id, w.client.pending[id]));
        assert Handled(w, id);
      }
    }
  }

  lemma {:induction false} RespondHandled(w: World, codec: Codec, id: nat, ok: bool, result: Option<Wire>)
    requires AllHandled(w)
    ensures AllHandled(Next(w, codec, Responds(id, ok, result)))
  {
    var t := Next(w, codec, Responds(id, ok, result));
    assert forall m | m in w.down :: m in t.down;
    if t.client.connected && t.server.connected {
      forall other | other in t.client.pending ensures Handled(t, other) {
        if AtWork(w, id) && other == id {
          assert t.down[|w.down|] in t.down;
          assert AnswerOnItsWay(t.down, id);
        } else {
          StillHandled(w, t, other);
        }
      }
    }
  }

  lemma {:induction false} MessageWaited(w: World, codec: Codec)
    requires Good(w, codec) && w.down != []
    ensures w.client.connected
  {
  }

  lemma {:induction false} ReceiveHandled(w: World, h: History, codec: Codec)
    requires Good(w, codec) && Faithful(codec) && Agrees(w, h, codec) && AllHandled(w) && w.down != []
    ensures AllHandled(Next(w, codec, ClientReceives))
  {
    var t := Next(w, codec, ClientReceives);
    MessageWaited(w, codec);
    if w.down[0].Answer? {
      AnswerSettles(w, h, codec);
      AnswerLeavesUp(w, codec);
    } else {
      UpdateTakesHead(w, codec);
      UpdateLeavesUp(w, codec);
      assert w.client.pending - {} == w.client.pending;
    }
    HeadHandled(w, t);
  }

  lemma {:induction false} AnswerLeavesUp(w: World, codec: Codec)
    requires Good(w, codec) && Faithful(codec) && w.down != [] && w.down[0].Answer?
    ensures Next(w, codec, ClientReceives).up == w.up
  {
    AnswerReceived(w, w.(client := Receive(w.client, codec, w.down[0]), down := w.down[1..]), codec);
  }

  lemma {:induction false} UpdateLeavesUp(w: World, codec: Codec)
    requires Good(w, codec) && Faithful(codec) && w.down != [] && w.down[0].Update?
    ensures Next(w, codec, ClientReceives).up == w.up
  {
    UpdateKeeps(w, codec);
  }

  lemma {:induction false} HeadHandled(w: World, t: World)
    requires AllHandled(w) && w.down != [] && t.down == w.down[1..] && t.server == w.server && t.up == w.up
    requires t.client.connected ==> w.client.connected
    requires t.client.pending == w.client.pending - (if w.down[0].Answer? then {w.down[0].id} else {})
    ensures AllHandled(t)
  {
    if t.client.connected && t.server.connected {
      forall id | id in t.client.pending ensures Handled(t, id) {
        forall m | m in w.down && m.Answer? && m.id == id ensures m in t.down {
          HeadOf(w.down, m);
        }
        StillHandled(w, t, id);
      }
    }
  }

  lemma {:induction false} ServerHandled(w: World, codec: Codec, e: Event)
    requires AllHandled(w) && (e.Snapshots? || e.Publishes? || e.Drains? || e.Starts?)
    ensures AllHandled(Next(w, codec, e))
  {
    SameHandled(w, Next(w, codec, e));
  }

  lemma {:induction false} NextHandled(w: World, h: History, codec: Codec, e: Event)
    requires Good(w, codec) && Faithful(codec) && Agrees(w, h, codec) && AllHandled(w)
    ensures AllHandled(Next(w, codec, e))
  {
    match e
    case Calls(_, _) => ClientHandled(w, codec, e);
    case Aborts(_) => ClientHandled(w, codec, e);
    case Disposes(_, _) => ClientHandled(w, codec, e);
    case ClientReceives =>
      if w.down != [] {
        ReceiveHandled(w, h, codec);
      }
    case ServerReceives => AcceptHandled(w, codec);
    case Responds(id, ok, result) => RespondHandled(w, codec, id, ok, result);
    case ClientDrops =>
    case Reconnects =>
    case ServerDrops =>
    case _ => ServerHandled(w, codec, e);
  }

  /** Whatever interleaves, while both ends keep their connection no request is forgotten: it is on its way, its own
      handler is at work on it, or its answer is on the way back. */
  lemma {:induction false} NoRequestIsForgotten(codec: Codec, events: seq<Event>)
    requires Faithful(codec)
    ensures var w := After(codec, events);
            w.client.connected && w.server.connected ==>
              forall id | id in w.client.pending ::
                || Ask(id, w.client.pending[id]) in w.up
                || (AtWork(w, id) && w.server.active[id].call == w.client.pending[id])
                || exists m :: m in w.down && m.Answer? && m.id == id
  {
    AlwaysHandled(codec, events);
    var w := After(codec, events);
    if w.client.connected && w.server.connected {
      forall id | id in w.client.pending
        ensures || Ask(id, w.client.pending[id]) in w.up
                || (AtWork(w, id) && w.server.active[id].call == w.client.pending[id])
                || exists m :: m in w.down && m.Answer? && m.id == id
      {
        assert Handled(w, id);
      }
    }
  }

  lemma {:induction false} AlwaysHandled(codec: Codec, events: seq<Event>)
    requires Faithful(codec)
    ensures AllHandled(After(codec, events))
  {
    if events != [] {
      var before := events[..|events| - 1];
      AlwaysGood(codec, before);
      AlwaysAgrees(codec, before);
      AlwaysHandled(codec, before);
      NextHandled(After(codec, before), HistoryOf(codec, before), codec, events[|events| - 1]);
    }
  }

  // ---- Updates --------------------------------------------------------------------------

  /** A subscription that was answered drains: each round sends the update that was held longest, in the encoding
      that comes next, and the last round makes the subscription ready. */
  lemma {:induction false} DrainsInOrder(w: World, codec: Codec, id: nat)
    requires id in w.server.active && w.server.active[id].answered && id in w.server.feeds
    requires w.server.connected && w.server.feeds[id].installed
    ensures var t, f := Next(w, codec, Drains(id)), w.server.feeds[id];
            && id in t.server.feeds && t.client == w.client && t.up == w.up
            && if f.held == [] then
                 t.server.feeds[id] == f.(ready := true) && id !in t.server.active && t.down == w.down
               else
                 && t.down == w.down + [Update(id, codec.encode(f.base, f.encoded, f.held[0]))]
                 && t.server.feeds[id] == f.(held := f.held[1..], encoded := f.encoded + [f.held[0]])
                 && t.server.active == w.server.active
  {
  }

  /** Once a subscription is ready, what is published is sent at once; before, it is held back. */
  lemma {:induction false} PublishesAtOnce(w: World, codec: Codec, sub: nat, u: Value)
    requires sub in w.server.feeds && w.server.connected && w.server.feeds[sub].installed
    ensures var t, f := Next(w, codec, Publishes(sub, u)), w.server.feeds[sub];
            && sub in t.server.feeds && t.client == w.client && t.up == w.up
            && if f.ready then
                 && t.down == w.down + [Update(sub, codec.encode(f.base, f.encoded, u))]
                 && t.server.feeds[sub] == f.(published := f.published + [u], encoded := f.encoded + [u])
               else
                 t.down == w.down && t.server.feeds[sub] == f.(published := f.published + [u], held := f.held + [u])
  {
  }

  /** A started listener hears at once what was queued for it, in order, and nothing stays queued. */
  lemma {:induction false} StartsAtOnce(w: World, codec: Codec, sub: nat)
    requires sub in w.client.listeners && w.client.listeners[sub].hydrated && !w.client.listeners[sub].ready
    ensures var t, l := Next(w, codec, Starts(sub)), w.client.listeners[sub];
            && sub in t.client.listeners && t.client.listeners[sub] == l.(ready := true, queued := [])
            && Heard(t.client, sub) == Heard(w.client, sub) + l.queued
            && t.server == w.server && t.up == w.up && t.down == w.down
  {
  }

  /** A subscription that is given up has no listener any more, and the server is told unless it was replaced. */
  lemma {:induction false} DisposesAtOnce(w: World, codec: Codec, sub: nat, current: bool)
    requires sub in w.client.listeners && w.client.listeners[sub].hydrated && w.client.connected
    ensures var t := Next(w, codec, Disposes(sub, current));
            && sub !in t.client.listeners
            && t.up == w.up + if current then [Ask(w.client.sequence + 1, Unsubscribe(sub))] else []
  {
  }

  /** A caller that gives up is told so at once, and the server is told to stop. */
  lemma {:induction false} AbortsAtOnce(w: World, codec: Codec, id: nat)
    requires id in w.client.pending && w.client.connected && id !in w.client.settled
    ensures var t := Next(w, codec, Aborts(id));
            && t.up == w.up + [Cancel(id)] && id in t.client.settled && t.client.settled[id] == GivenUp
            && id in t.client.pending && (w.client.pending[id].Subscribe? ==> id !in t.client.listeners)
  {
  }
}
