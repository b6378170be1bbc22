/** The client's side of packages/client/src/client.ts: requests, subscriptions and the messages that arrive. */
module ServiceClient {
  import opened Outcomes
  import S = ServiceStreams

  class Client {
    const codec: S.Codec
    var connected: bool
    var sequence: nat
    var pending: map<nat, S.Call>
    var listeners: map<nat, S.Listener>
    var failed: bool
    /** What the listener of each subscription was called with. */
    var heard: map<nat, seq<S.Value>>
    /** How each request ended for its caller. */
    var settled: map<nat, S.Settlement>

    ghost function Now(): S.Client
      reads this
    {
      S.Client(connected, sequence, pending, listeners, failed, heard, settled)
    }

    constructor (codec: S.Codec)
      ensures this.codec == codec && Now() == S.START.client
    {
      this.codec := codec;
      connected, sequence, pending, listeners, failed := false, 0, map[], map[], false;
      heard, settled := map[], map[];
    }

    /** A promise is settled once. */
    method Settle(id: nat, settlement: S.Settlement)
      modifies this`settled
      ensures Now() == S.Settled(old(Now()), id, settlement)
    {
      if id !in settled {
        settled := settled[id := settlement];
      }
    }

    /** The connection is lost: everything that waits for it is rejected. */
    method Drop()
      modifies this
      ensures Now() == S.Dropped(old(Now()))
    {
      connected := false;
      var waiting := pending.Keys;
      pending := map[];
      listeners := map[];
      Reject(waiting);
    }

    /** What is rejected here was not settled before, or stays as it was. */
    method Reject(waiting: set<nat>)
      modifies this`settled
      ensures settled == S.SettleAll(old(settled), waiting, S.Lost)
    {
      var todo := waiting;
      while todo != {}
        invariant todo <= waiting
        invariant settled == S.SettleAll(old(settled), waiting - todo, S.Lost)
        decreases todo
      {
        var id :| id in todo;
        SettleMore(old(settled), waiting - todo, id);
        assert waiting - todo + {id} == waiting - (todo - {id});
        Settle(id, S.Lost);
        todo := todo - {id};
      }
      assert waiting - todo == waiting;
    }

    static lemma SettleMore(settled: map<nat, S.Settlement>, ids: set<nat>, id: nat)
      ensures var was := S.SettleAll(settled, ids, S.Lost);
              S.SettleAll(settled, ids + {id}, S.Lost) == if id in was then was else was[id := S.Lost]
    {
    }

    method Fail()
      modifies this
      ensures Now() == S.Failed(old(Now()))
    {
      Drop();
      failed := true;
    }

    method Request(call: S.Call, encodes: bool) returns (out: seq<S.Up>)
      modifies this
      ensures (Now(), out) == S.Request(old(Now()), call, encodes)
    {
      if !connected {
        return [];
      }
      sequence := sequence + 1;
      var id := sequence;
      if call.Subscribe? {
        listeners := listeners[id := S.NEW_LISTENER];
        heard := heard[id := []];
      }
      pending := pending[id := call];
      if !encodes {
        assert pending - {id} == old(pending) - {id};
        pending := pending - {id};
        if call.Subscribe? {
          assert listeners - {id} == old(listeners) - {id};
          listeners := listeners - {id};
        }
        Settle(id, S.Unsent);
        return [];
      }
      out := [S.Ask(id, call)];
    }

    method Abort(id: nat) returns (out: seq<S.Up>)
      modifies this
      ensures (Now(), out) == S.Abort(old(Now()), id)
    {
      if !connected || id !in pending {
        return [];
      }
      if pending[id].Subscribe? {
        listeners := listeners - {id};
      }
      Settle(id, S.GivenUp);
      out := [S.Cancel(id)];
    }

    method Deliver(sub: nat, u: S.Value)
      modifies this`heard
      ensures heard == old(heard)[sub := S.Heard(old(Now()), sub) + [u]]
    {
      heard := heard[sub := (if sub in heard then heard[sub] else []) + [u]];
    }

    /** The updates that were queued until now are delivered, in order. */
    method Start(sub: nat)
      modifies this
      ensures Now() == S.Start(old(Now()), sub)
    {
      if sub !in listeners || !listeners[sub].hydrated || listeners[sub].ready {
        return;
      }
      var queued := listeners[sub].queued;
      listeners := listeners[sub := listeners[sub].(ready := true, queued := [])];
      ghost var before := S.Heard(Now(), sub);
      heard := heard[sub := if sub in heard then heard[sub] else []];
      assert before + queued[..0] == before;
      for k := 0 to |queued|
        invariant heard == old(heard)[sub := before + queued[..k]]
        invariant connected == old(connected) && sequence == old(sequence) && pending == old(pending)
                  && failed == old(failed) && settled == old(settled)
        invariant listeners == old(listeners)[sub := old(listeners)[sub].(ready := true, queued := [])]
      {
        Deliver(sub, queued[k]);
        assert queued[..k + 1] == queued[..k] + [queued[k]];
        assert before + queued[..k] + [queued[k]] == before + queued[..k + 1];
      }
      assert queued[..|queued|] == queued;
    }

    method Dispose(sub: nat, current: bool) returns (out: seq<S.Up>)
      modifies this
      ensures (Now(), out) == S.Dispose(old(Now()), sub, current)
    {
      if sub !in listeners || !listeners[sub].hydrated {
        return [];
      }
      listeners := listeners - {sub};
      out := [];
      if current {
        out := Request(S.Unsubscribe(sub), true);
      }
    }

    /** The snapshot is decoded first, then whatever came before it. */
    method Hydrate(l: S.Listener, base: S.Value) returns (r: Option<S.Listener>)
      ensures r == S.Hydrate(codec, l, base)
    {
      var decoded: seq<S.Value>, queued := [], l.queued;
      for k := 0 to |l.early|
        invariant queued == l.queued + decoded
        invariant S.DecodeAll(codec, base, decoded, l.early[k..]) == S.DecodeAll(codec, base, [], l.early)
      {
        var u := codec.decode(base, decoded, l.early[k]);
        assert l.early[k..][1..] == l.early[k + 1..];
        if u.None? {
          return None;
        }
        decoded := decoded + [u.value];
        queued := queued + [u.value];
      }
      r := Some(l.(hydrated := true, early := [], queued := queued, base := Some(base), decoded := decoded));
    }

    method HandleMessage(message: S.Down)
      modifies this
      ensures Now() == S.Receive(old(Now()), codec, message)
    {
      if !connected {
        return;
      }
      match message {
        case Update(sub, wire) =>
          HandleUpdate(sub, wire);
        case Answer(id, ok, result) =>
          if id !in pending {
            Fail();
            return;
          }
          var call := pending[id];
          pending := pending - {id};
          if call.Subscribe? {
            HandleSubscribed(id, ok, result);
          } else {
            Settle(id, if ok then S.Returned(result) else S.Refused);
          }
      }
    }

    method HandleSubscribed(id: nat, ok: bool, result: Option<S.Wire>)
      requires connected
      modifies this
      ensures var base := if result.Some? then codec.decodeSnapshot(result.value) else None;
              Now() == if !ok then S.Settled(old(Now()).(listeners := old(listeners) - {id}), id, S.Refused)
                       else if base.None? then S.Settled(S.Failed(old(Now())), id, S.Invalid)
                       else if id !in old(listeners) then S.Settled(old(Now()), id, S.Subscribed(base.value))
                       else var l := S.Hydrate(codec, old(listeners)[id], base.value);
                            if l.None? then S.Settled(S.Failed(old(Now())), id, S.Invalid)
                            else S.Settled(old(Now()).(listeners := old(listeners)[id := l.value]), id,
                                           S.Subscribed(base.value))
    {
      if !ok {
        listeners := listeners - {id};
        Settle(id, S.Refused);
        return;
      }
      var base := if result.Some? then codec.decodeSnapshot(result.value) else None;
      if base.None? {
        Fail();
        Settle(id, S.Invalid);
      } else if id in listeners {
        var l := Hydrate(listeners[id], base.value);
        if l.None? {
          Fail();
          Settle(id, S.Invalid);
        } else {
          listeners := listeners[id := l.value];
          Settle(id, S.Subscribed(base.value));
        }
      } else {
        Settle(id, S.Subscribed(base.value));
      }
    }

    method HandleUpdate(sub: nat, wire: S.Wire)
      requires connected
      modifies this
      ensures Now() == S.Receive(old(Now()), codec, S.Update(sub, wire))
    {
      if sub !in listeners {
        return;
      }
      var l := listeners[sub];
      if !l.hydrated || l.base.None? {
        listeners := listeners[sub := l.(early := l.early + [wire])];
        return;
      }
      var u := codec.decode(l.base.value, l.decoded, wire);
      if u.None? {
        Fail();
        return;
      }
      l := l.(decoded := l.decoded + [u.value]);
      if l.ready {
        Deliver(sub, u.value);
      } else {
        l := l.(queued := l.queued + [u.value]);
      }
      listeners := listeners[sub := l];
    }
  }
}
