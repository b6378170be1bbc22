/** One connection of packages/server/src/server.ts: its requests, subscriptions and state encoders. A
    handler is split where it waits for the call it makes, and where it waits for a message to be sent. */
module ServiceServer {
  import opened Outcomes
  import S = ServiceStreams

  class Connection {
    const codec: S.Codec
    var connected: bool
    var active: map<nat, S.Job>
    var feeds: map<nat, S.Feed>
    ghost var answers: seq<nat>

    ghost function Now(): S.Server
      reads this
    {
      S.Server(connected, active, feeds, answers)
    }

    constructor (codec: S.Codec)
      ensures this.codec == codec && Now() == S.START.server.(connected := true)
    {
      this.codec := codec;
      connected, active, feeds, answers := true, map[], map[], [];
    }

    method Reply(id: nat, ok: bool, result: Option<S.Wire>) returns (out: seq<S.Down>)
      modifies this`answers
      ensures (Now(), out) == S.Reply(old(Now()), id, ok, result)
    {
      if !connected {
        return [];
      }
      answers := answers + [id];
      out := [S.Answer(id, ok, result)];
    }

    method Accept(message: S.Up) returns (out: seq<S.Down>)
      modifies this
      ensures (Now(), out) == S.Accept(old(Now()), message)
    {
      if !connected || message.Cancel? {
        return [];
      }
      if message.id in active {
        out := Reply(message.id, false, None);
        return;
      }
      active := active[message.id := S.Job(message.call, false)];
      out := [];
    }

    method TakeSnapshot(id: nat, base: S.Value)
      modifies this
      ensures Now() == S.Snapshot(old(Now()), id, base)
    {
      if id in active && active[id].call.Subscribe? && !active[id].answered && id !in feeds {
        feeds := feeds[id := S.Feed(base, [], [], false, false, [])];
      }
    }

    /** An encoder is in place before the snapshot that it starts from leaves, and is taken out before
        an unsubscribe is confirmed. */
    method Respond(id: nat, ok: bool, result: Option<S.Wire>) returns (out: seq<S.Down>)
      modifies this
      ensures (Now(), out) == S.Respond(old(Now()), codec, id, ok, result)
      ensures connected && id in old(active) && !old(active)[id].answered ==>
                var subscribes := old(active)[id].call.Subscribe?;
                && |out| == 1 && out[0].Answer? && out[0].id == id
                && (out[0].ok <==> ok && (subscribes ==> id in old(feeds)))
                && (out[0].ok && !subscribes ==> out[0].result == result)
      ensures forall m | m in out && m.Answer? && m.ok && old(active)[id].call.Subscribe? ::
                m.id in feeds && feeds[m.id].installed && m.result == Some(codec.encodeSnapshot(feeds[m.id].base))
      ensures forall m | m in out && m.Answer? && m.ok && old(active)[id].call.Unsubscribe? ::
                m.id == id && (old(active)[id].call.sub in feeds ==> !feeds[old(active)[id].call.sub].installed)
    {
      if id !in active || active[id].answered {
        return [];
      }
      var job := active[id];
      if job.call.Subscribe? && ok && id in feeds {
        feeds := feeds[id := feeds[id].(installed := true)];
        active := active[id := job.(answered := true)];
        out := Reply(id, true, Some(codec.encodeSnapshot(feeds[id].base)));
        return;
      }
      if job.call.Unsubscribe? && ok && job.call.sub in feeds {
        feeds := feeds[job.call.sub := feeds[job.call.sub].(installed := false)];
      }
      active := active - {id};
      out := Reply(id, ok && !job.call.Subscribe?, if ok && !job.call.Subscribe? then result else None);
    }

    method SendUpdate(sub: nat, u: S.Value) returns (out: seq<S.Down>)
      requires sub in feeds
      modifies this`feeds
      ensures (Now(), out) == S.SendUpdate(old(Now()), codec, sub, u)
    {
      var f := feeds[sub];
      if !f.installed || !connected {
        return [];
      }
      var wire := codec.encode(f.base, f.encoded, u);
      feeds := feeds[sub := f.(encoded := f.encoded + [u])];
      out := [S.Update(sub, wire)];
    }

    method Publish(sub: nat, u: S.Value) returns (out: seq<S.Down>)
      modifies this
      ensures (Now(), out) == S.Publish(old(Now()), codec, sub, u)
    {
      out := [];
      if sub in feeds {
        feeds := feeds[sub := feeds[sub].(published := feeds[sub].published + [u])];
        if feeds[sub].ready {
          out := SendUpdate(sub, u);
        } else {
          feeds := feeds[sub := feeds[sub].(held := feeds[sub].held + [u])];
          assert feeds == old(feeds)[sub := feeds[sub]];
        }
      }
    }

    /** One round of the loop that sends what was held back; the last one makes the subscription ready. */
    method Drain(id: nat) returns (out: seq<S.Down>)
      modifies this
      ensures (Now(), out) == S.Drain(old(Now()), codec, id)
      ensures id in feeds && feeds[id].installed && connected ==>
                feeds[id].encoded + feeds[id].held == old(feeds[id].encoded + feeds[id].held)
    {
      out := [];
      if id in active && active[id].answered && id in feeds {
        var held := feeds[id].held;
        if held == [] {
          feeds := feeds[id := feeds[id].(ready := true)];
          active := active - {id};
        } else {
          feeds := feeds[id := feeds[id].(held := held[1..])];
          out := SendUpdate(id, held[0]);
        }
      }
    }

    method Disconnect()
      modifies this
      ensures Now() == S.Disconnected(old(Now()))
      ensures active == map[] && forall sub | sub in feeds :: !feeds[sub].installed
    {
      connected := false;
      active := map[];
      var todo := feeds.Keys;
      while todo != {}
        invariant todo <= old(feeds).Keys
        invariant feeds == map sub | sub in old(feeds) :: if sub in todo then old(feeds)[sub]
                  else S.Uninstalled(old(feeds)[sub])
        modifies `feeds
        decreases todo
      {
        var sub :| sub in todo;
        feeds := feeds[sub := feeds[sub].(installed := false)];
        todo := todo - {sub};
      }
    }
  }
}
