/** packages/agent/src/agent-loop.ts and the parts of agent.ts that it runs on: the message queues and
    the reduction of events to the agent's state. A run is driven by a finite script of what comes from
    outside; when the script ends, the provider fails. */
module AgentLoop {
  import opened Outcomes
  import opened AgentMessages
  import opened Sequences

  datatype QueueMode = All | OneAtATime

  /** What a queue gives when it is drained. */
  function DrainOf(mode: QueueMode, messages: seq<Message>): seq<Message>
  {
    if mode.All? then messages else if messages == [] then [] else [messages[0]]
  }

  class PendingMessageQueue {
    const mode: QueueMode
    var messages: seq<Message>
    /** History: everything that was ever queued, and everything that was taken out. */
    ghost var enqueued: seq<Message>
    ghost var drained: seq<Message>

    /** First in, first out, and nothing is lost. */
    ghost predicate Valid()
      reads this
    {
      enqueued == drained + messages
    }

    constructor (mode: QueueMode)
      ensures Valid() && this.mode == mode && messages == [] && drained == []
    {
      this.mode := mode;
      messages, enqueued, drained := [], [], [];
    }

    method Enqueue(more: seq<Message>)
      requires Valid()
      modifies this
      ensures Valid() && messages == old(messages) + more && drained == old(drained)
    {
      for k := 0 to |more|
        invariant Valid() && messages == old(messages) + more[..k] && drained == old(drained)
      {
        messages := messages + [more[k]];
        enqueued := enqueued + [more[k]];
        assert drained + messages == enqueued;
        assert more[..k + 1] == more[..k] + [more[k]];
      }
      assert more[..|more|] == more;
    }

    method Drain() returns (r: seq<Message>)
      requires Valid()
      modifies this
      ensures Valid() && old(messages) == r + messages && r == DrainOf(mode, old(messages))
              && drained == old(drained) + r && enqueued == old(enqueued)
    {
      if mode.All? {
        r := messages;
        messages := [];
      } else if |messages| == 0 {
        r := [];
      } else {
        r := [messages[0]];
        messages := messages[1..];
      }
      drained := drained + r;
    }
  }

  /** What comes from outside during one turn, in the order in which it is met: messages queued while
      the turn is prepared, a new context, the assistant's response and how it is streamed, what the
      tools do and whether one of them must run alone, whether the run shall stop, and messages queued
      before the polls at the end. */
  datatype TurnScript = TurnScript(
    queuedWhilePreparing: seq<Message>, context: Option<seq<Message>>,
    response: Response, attempts: nat -> Attempt, aborted: nat -> bool, late: nat -> bool, exclusive: bool,
    stop: bool, queuedSteering: seq<Message>, queuedFollowUps: seq<Message>)

  datatype Response = Response(text: string, stopReason: StopReason, calls: seq<ToolCall>, started: bool,
                               updates: seq<Message>)

  /** What happens in a turn for which the script has nothing: the provider fails. */
  const PROVIDER_FAILS := TurnScript([], None, Response("", ProviderError, [], false, []),
                                     _ => Attempt(true, ABORTED, true), _ => false, _ => false, false, false, [], [])

  function At(script: seq<TurnScript>, k: nat): TurnScript
  {
    if k < |script| then script[k] else PROVIDER_FAILS
  }

  /** A message taken from one of the queues. */
  datatype Taken = Steered(message: Message) | FollowedUp(message: Message)

  function Texts(taken: seq<Taken>): seq<Message>
  {
    seq(|taken|, i requires 0 <= i < |taken| => taken[i].message)
  }

  /** The messages taken from one queue, in order. */
  function From(taken: seq<Taken>, steered: bool): seq<Message>
  {
    if taken == [] then []
    else
      var last := taken[|taken| - 1];
      From(taken[..|taken| - 1], steered) + if last.Steered? == steered then [last.message] else []
  }

  function Tagged(messages: seq<Message>, steered: bool): seq<Taken>
  {
    seq(|messages|, i requires 0 <= i < |messages| => if steered then Steered(messages[i]) else FollowedUp(messages[i]))
  }

  lemma {:induction false} FromTagged(taken: seq<Taken>, more: seq<Message>, steered: bool)
    ensures Texts(taken + Tagged(more, steered)) == Texts(taken) + more
    ensures From(taken + Tagged(more, steered), steered) == From(taken, steered) + more
    ensures From(taken + Tagged(more, steered), !steered) == From(taken, !steered)
  {
    FromAppend(taken, more, steered);
  }

  lemma {:induction false} FromAppend(taken: seq<Taken>, more: seq<Message>, steered: bool)
    ensures From(taken + Tagged(more, steered), steered) == From(taken, steered) + more
    ensures From(taken + Tagged(more, steered), !steered) == From(taken, !steered)
  {
    if more == [] {
      assert taken + Tagged(more, steered) == taken;
    } else {
      var n := |more| - 1;
      FromAppend(taken, more[..n], steered);
      var all := taken + Tagged(more, steered);
      assert all[..|all| - 1] == taken + Tagged(more[..n], steered);
      assert From(taken, steered) + more[..n] + [more[n]] == From(taken, steered) + more;
    }
  }

  /** One turn as it went: the queued messages it began with, the response, and the results. */
  datatype Turn = Turn(injected: seq<Message>, response: Message, results: seq<Message>)

  function TurnMessages(t: Turn): seq<Message> { t.injected + [t.response] + t.results }

  function AllMessages(turns: seq<Turn>): seq<Message>
  {
    if turns == [] then [] else AllMessages(turns[..|turns| - 1]) + TurnMessages(turns[|turns| - 1])
  }

  function AllInjected(turns: seq<Turn>): seq<Message>
  {
    if turns == [] then [] else AllInjected(turns[..|turns| - 1]) + turns[|turns| - 1].injected
  }

  /** The events of these turns: each opens, and closes with its response and its results. */
  function Marks(turns: seq<Turn>): seq<Mark>
  {
    if turns == [] then []
    else
      var n := |turns| - 1;
      Marks(turns[..n]) + [Opens] + [Closes(turns[n].response, turns[n].results)]
  }

  lemma {:induction false} OneMoreMark(turns: seq<Turn>, t: Turn)
    ensures Marks(turns + [t]) == Marks(turns) + [Opens] + [Closes(t.response, t.results)]
  {
    assert (turns + [t])[..|turns|] == turns;
  }

  predicate Fails(r: Response) { r.stopReason.ProviderError? || r.stopReason.Aborted? }

  /** What the batch of a turn comes to. */
  function BatchOf(s: TurnScript, sequential: bool): seq<Finalized>
  {
    var calls := s.response.calls;
    if calls == [] || Fails(s.response) then []
    else if s.response.stopReason.Length? then Truncated(calls, |calls|)
    else if sequential || s.exclusive then Sequential(calls, s.attempts, s.aborted)
    else Parallel(calls, s.attempts, s.aborted, s.late)
  }

  // ---- When a turn is followed by another ---------------------------------------------

  /** A poll takes the messages from the front: all of them, or one if there is one. */
  predicate Polled(mode: QueueMode, queue: seq<Message>, took: seq<Message>, left: seq<Message>)
  {
    queue == took + left && if mode.All? then left == [] else |took| == if queue == [] then 0 else 1
  }

  /** What waits before a turn: the messages to inject, and the queues. */
  datatype Point = Point(pending: seq<Message>, steering: seq<Message>, followUps: seq<Message>)

  /** How a continuation begins: without a prompt, or with queued messages in place of one. */
  datatype Resumption = Afresh | Steer | FollowUp

  /** What is left in the queues when the first turn begins. */
  ghost predicate StartsFrom(u: Setup, how: Resumption, was: Point, early: seq<Message>, prompts: seq<Message>,
                             origin: Point)
  {
    match how
    case Afresh =>
      prompts == [] && origin.followUps == was.followUps
      && Polled(u.steering, was.steering + early, origin.pending, origin.steering)
    case Steer =>
      && prompts != [] && origin.pending == [] && origin.followUps == was.followUps
      && exists left :: Polled(u.steering, was.steering, prompts, left) && origin.steering == left + early
    case FollowUp =>
      && prompts != [] && was.steering == [] && Polled(u.followUps, was.followUps, prompts, origin.followUps)
      && Polled(u.steering, early, origin.pending, origin.steering)
  }

  /** How an agent is set up. */
  datatype Setup = Setup(steering: QueueMode, followUps: QueueMode, sequential: bool)

  /** What waits is injected; before every turn but the first, steering is polled once more if nothing waits. */
  predicate Injects(u: Setup, p: Point, t: TurnScript, first: bool, injected: seq<Message>, left: seq<Message>)
  {
    if first then injected == p.pending && left == p.steering
    else if p.pending == [] then Polled(u.steering, p.steering + t.queuedWhilePreparing, injected, left)
    else injected == p.pending && left == p.steering + t.queuedWhilePreparing
  }

  /** The response failed, or the script stops the run. */
  predicate Ends(t: TurnScript) { Fails(t.response) || t.stop }

  /** The batch has results, and they do not all terminate. */
  predicate WantsMore(t: TurnScript, sequential: bool)
  {
    exists i | 0 <= i < |BatchOf(t, sequential)| :: !BatchOf(t, sequential)[i].output.terminate
  }

  /** A turn that does not end the run, and the steering poll after it. */
  ghost predicate Stepped(u: Setup, p: Point, turn: Turn, t: TurnScript, first: bool, took: seq<Message>,
                          left: seq<Message>)
  {
    match turn
    case Turn(injected, _, _) =>
      !Ends(t)
      && exists mid ::
           Injects(u, p, t, first, injected, mid) && Polled(u.steering, mid + t.queuedSteering, took, left)
  }

  /** Another turn follows: the model is to see its tool results, or steering came; or else follow-ups came. */
  ghost predicate FollowedBy(u: Setup, p: Point, turn: Turn, t: TurnScript, first: bool, q: Point)
  {
    match q
    case Point(pending, steering, followUps) =>
      || ((WantsMore(t, u.sequential) || pending != []) && Stepped(u, p, turn, t, first, pending, steering)
          && followUps == p.followUps)
      || (!WantsMore(t, u.sequential) && pending != [] && Stepped(u, p, turn, t, first, [], steering)
          && Polled(u.followUps, p.followUps + t.queuedFollowUps, pending, followUps))
  }

  /** No turn follows: the response failed, the run was stopped, or there is nothing to see and nothing came. */
  ghost predicate IsLast(u: Setup, p: Point, turn: Turn, t: TurnScript, first: bool, q: Point)
  {
    match q
    case Point(pending, steering, followUps) =>
      && pending == []
      && if Ends(t) then Injects(u, p, t, first, turn.injected, steering) && followUps == p.followUps
         else !WantsMore(t, u.sequential) && Stepped(u, p, turn, t, first, [], steering)
              && Polled(u.followUps, p.followUps + t.queuedFollowUps, [], followUps)
  }

  /** A turn and, unless it ends the run, the steering poll after it. */
  ghost predicate Played(u: Setup, p: Point, turn: Turn, t: TurnScript, first: bool, over: bool, next: seq<Message>,
                         left: Point)
  {
    match left
    case Point(_, steering, followUps) =>
      && over == Ends(t) && followUps == p.followUps
      && if over then next == [] && Injects(u, p, t, first, turn.injected, steering)
         else Stepped(u, p, turn, t, first, next, steering)
  }

  lemma {:induction false} PlayedOnce(u: Setup, p: Point, turn: Turn, t: TurnScript, first: bool, over: bool,
                                      mid: seq<Message>, next: seq<Message>, left: Point)
    requires Injects(u, p, t, first, turn.injected, mid) && over == Ends(t) && left.followUps == p.followUps
    requires if over then next == [] && left.steering == mid
             else Polled(u.steering, mid + t.queuedSteering, next, left.steering)
    ensures Played(u, p, turn, t, first, over, next, left)
  {
  }

  /** Each of the first `n` turns is followed by another. */
  ghost predicate Follow(u: Setup, points: seq<Point>, turns: seq<Turn>, script: seq<TurnScript>, n: nat)
    requires n <= |turns| && n < |points|
  {
    n > 0 ==>
      Follow(u, points, turns, script, n - 1)
      && FollowedBy(u, points[n - 1], turns[n - 1], At(script, n - 1), n == 1, points[n])
  }

  /** A whole run: every turn but the last is followed by another. */
  ghost predicate RunsThrough(u: Setup, points: seq<Point>, turns: seq<Turn>, script: seq<TurnScript>)
  {
    && turns != [] && |points| == |turns| + 1
    && var n := |turns| - 1;
       && Follow(u, points, turns, script, n)
       && IsLast(u, points[n], turns[n], At(script, n), n == 0, points[n + 1])
  }

  lemma {:induction false} FollowStill(u: Setup, points: seq<Point>, turns: seq<Turn>, script: seq<TurnScript>, n: nat,
                                       more: seq<Point>, all: seq<Turn>)
    requires n <= |turns| && n < |points| && Follow(u, points, turns, script, n) && points <= more && turns <= all
    ensures Follow(u, more, all, script, n)
  {
    if n > 0 {
      FollowStill(u, points, turns, script, n - 1, more, all);
    }
  }

  lemma {:induction false} FollowNext(u: Setup, points: seq<Point>, turns: seq<Turn>, script: seq<TurnScript>, n: nat,
                                      q: Point)
    requires |points| == n + 1 && |turns| > n && Follow(u, points, turns, script, n)
    requires FollowedBy(u, points[n], turns[n], At(script, n), n == 0, q)
    ensures Follow(u, points + [q], turns, script, n + 1)
  {
    FollowStill(u, points, turns, script, n, points + [q], turns);
  }

  /** Turn `k` of a run is followed by another if it is not the last. */
  lemma {:induction false} FollowAt(u: Setup, points: seq<Point>, turns: seq<Turn>, script: seq<TurnScript>, n: nat,
                                    k: nat)
    requires k < n <= |turns| && n < |points| && Follow(u, points, turns, script, n)
    ensures FollowedBy(u, points[k], turns[k], At(script, k), k == 0, points[k + 1])
  {
    if k < n - 1 {
      FollowAt(u, points, turns, script, n - 1, k);
    }
  }

  /** What the model is asked with: the first time what the run began with, later what it was asked with before and
      what came of it, unless the context was replaced; and what is injected. */
  ghost predicate Asked(initial: seq<Message>, turns: seq<Turn>, script: seq<TurnScript>, asked: seq<seq<Message>>)
  {
    if turns == [] then asked == []
    else
      var n := |turns| - 1;
      |asked| == n + 1 && Asked(initial, turns[..n], script, asked[..n])
      && asked[n] == Known(initial, turns[..n], asked[..n], At(script, n)) + turns[n].injected
  }

  function Known(initial: seq<Message>, turns: seq<Turn>, asked: seq<seq<Message>>, t: TurnScript): seq<Message>
    requires |turns| == |asked|
  {
    if turns == [] then initial
    else if t.context.Some? then t.context.value
    else var n := |turns| - 1; asked[n] + [turns[n].response] + turns[n].results
  }

  lemma {:induction false} AskedOnce(initial: seq<Message>, turns: seq<Turn>, script: seq<TurnScript>,
                                     asked: seq<seq<Message>>, turn: Turn, context: seq<Message>)
    requires Asked(initial, turns, script, asked) && |turns| == |asked|
    requires context == Known(initial, turns, asked, At(script, |turns|)) + turn.injected
    ensures Asked(initial, turns + [turn], script, asked + [context])
  {
    assert (turns + [turn])[..|turns|] == turns && (asked + [context])[..|asked|] == asked;
  }

  /** The model is asked with what it knows and what is injected, in every turn. */
  lemma {:induction false} AskedAt(initial: seq<Message>, turns: seq<Turn>, script: seq<TurnScript>,
                                   asked: seq<seq<Message>>, k: nat)
    requires Asked(initial, turns, script, asked) && k < |turns|
    ensures |asked| == |turns|
    ensures asked[k] == Known(initial, turns[..k], asked[..k], At(script, k)) + turns[k].injected
  {
    var n := |turns| - 1;
    if k < n {
      AskedAt(initial, turns[..n], script, asked[..n], k);
      assert turns[..n][..k] == turns[..k] && asked[..n][..k] == asked[..k];
    }
  }

  /** What a call of the turn yields and whether that is an error: nothing is executed when the response was cut off,
      and a call that is to run with others is not executed after an abort. */
  function Yield(s: TurnScript, sequential: bool, i: nat): (ToolOutput, bool)
  {
    if s.response.stopReason.Length? then (TRUNCATED, true)
    else if !sequential && !s.exclusive && s.late(i) && !s.attempts(i).immediate then (ABORTED, true)
    else (s.attempts(i).output, s.attempts(i).isError)
  }

  /** Calls are answered in order, up to the first at which an abort is seen; all of them if they were cut off, and
      none if the response failed. */
  predicate AnsweredUpTo(s: TurnScript, n: nat)
  {
    var calls := s.response.calls;
    && n <= |calls|
    && if Fails(s.response) then n == 0
       else if s.response.stopReason.Length? then n == |calls|
       else (forall i: nat | i + 1 < n :: !s.aborted(i)) && (n < |calls| ==> n > 0 && s.aborted(n - 1))
  }

  /** The response is that of the script, and the results are what its calls yield, in order. */
  predicate TurnFits(t: Turn, s: TurnScript, sequential: bool)
  {
    match t
    case Turn(_, response, results) =>
      && response == Assistant(s.response.text, s.response.stopReason, s.response.calls)
      && AnsweredUpTo(s, |results|)
      && forall i | 0 <= i < |results| ::
           var call, (output, isError) := s.response.calls[i], Yield(s, sequential, i);
           results[i] == ToolResult(call.id, call.name, output.content, isError)
  }

  ghost predicate TurnsFit(turns: seq<Turn>, script: seq<TurnScript>, sequential: bool)
  {
    forall i {:trigger At(script, i)} | 0 <= i < |turns| :: TurnFits(turns[i], At(script, i), sequential)
  }

  lemma {:induction false} TurnsFitOneMore(turns: seq<Turn>, t: Turn, script: seq<TurnScript>, sequential: bool)
    requires TurnsFit(turns, script, sequential) && TurnFits(t, At(script, |turns|), sequential)
    ensures TurnsFit(turns + [t], script, sequential)
  {
  }

  /** Where a batch stops. */
  lemma {:induction false} ReachedIs(n: nat, aborted: nat -> bool, k: nat)
    requires k < n
    ensures var r := Reached(n, aborted, k);
            && k < r <= n && (forall i: nat | k <= i && i + 1 < r :: !aborted(i)) && (r < n ==> aborted(r - 1))
    decreases n - k
  {
    if !aborted(k) && k + 1 < n {
      ReachedIs(n, aborted, k + 1);
    }
  }

  /** The batch of a turn: as many calls as are answered, with what they yield. */
  lemma {:induction false} BatchYields(s: TurnScript, sequential: bool)
    ensures AnsweredUpTo(s, |BatchOf(s, sequential)|)
    ensures forall i | 0 <= i < |BatchOf(s, sequential)| ::
              BatchOf(s, sequential)[i]
              == Finalized(s.response.calls[i], Yield(s, sequential, i).0, Yield(s, sequential, i).1)
  {
    if s.response.calls != [] {
      ReachedIs(|s.response.calls|, s.aborted, 0);
    }
  }

  /** The results of the batch that a script describes fit it. */
  lemma {:induction false} BatchFits(injected: seq<Message>, s: TurnScript, sequential: bool)
    ensures TurnFits(Turn(injected, Assistant(s.response.text, s.response.stopReason, s.response.calls),
                          ResultMessages(BatchOf(s, sequential))), s, sequential)
  {
    BatchYields(s, sequential);
  }

  /** A turn of a run is followed by another exactly if its response did not fail, the script does not stop the run,
      and some result does not terminate or something was polled to inject. */
  lemma {:induction false} GoesOnExactly(u: Setup, w: Walk, here: Point, script: seq<TurnScript>,
                                         asked: seq<seq<Message>>, k: nat)
    requires Walked(u, w, here, script, asked) && k < |w.turns| && TurnFits(w.turns[k], At(script, k), u.sequential)
    ensures var t := At(script, k);
            k + 1 < |w.turns|
            <==> !Fails(t.response) && !t.stop
                 && ((exists i | 0 <= i < |w.turns[k].results| :: !Yield(t, u.sequential, i).0.terminate)
                     || w.points[k + 1].pending != [])
  {
    GoesOn(u, w, here, script, asked, k);
    WantsYield(w.turns[k], At(script, k), u.sequential);
  }

  lemma {:induction false} GoesOn(u: Setup, w: Walk, here: Point, script: seq<TurnScript>, asked: seq<seq<Message>>,
                                  k: nat)
    requires Walked(u, w, here, script, asked) && k < |w.turns|
    ensures |w.points| == |w.turns| + 1
    ensures var t := At(script, k);
            k + 1 < |w.turns| <==> !Ends(t) && (WantsMore(t, u.sequential) || w.points[k + 1].pending != [])
  {
    var n := |w.turns| - 1;
    if k < n {
      FollowAt(u, w.points, w.turns, script, n, k);
    }
  }

  lemma {:induction false} WantsYield(turn: Turn, t: TurnScript, sequential: bool)
    requires TurnFits(turn, t, sequential)
    ensures WantsMore(t, sequential)
            <==> exists i | 0 <= i < |turn.results| :: !Yield(t, sequential, i).0.terminate
  {
    BatchYields(t, sequential);
    AnsweredOnce(t, |turn.results|, |BatchOf(t, sequential)|);
    if i :| 0 <= i < |turn.results| && !Yield(t, sequential, i).0.terminate {
      assert !BatchOf(t, sequential)[i].output.terminate;
    }
  }

  lemma {:induction false} AnsweredOnce(s: TurnScript, m: nat, n: nat)
    requires AnsweredUpTo(s, m) && AnsweredUpTo(s, n)
    ensures m == n
  {
  }

  lemma {:induction false} BatchWants(t: TurnScript, sequential: bool)
    requires !Fails(t.response)
    ensures WantsMore(t, sequential)
            <==> t.response.calls != []
                 && (t.response.stopReason.Length? || !Terminates(BatchOf(t, sequential)))
  {
    if t.response.calls != [] {
      BatchAnswers(t.response.calls, t.attempts, t.aborted, t.late);
      var batch := BatchOf(t, sequential);
      assert t.response.stopReason.Length? ==> !batch[0].output.terminate;
    }
  }

  lemma {:induction false} DrainPolls(mode: QueueMode, queue: seq<Message>, r: seq<Message>, left: seq<Message>)
    requires queue == r + left && r == DrainOf(mode, queue)
    ensures Polled(mode, queue, r, left)
  {
  }

  lemma {:induction false} OneMoreTurn(turns: seq<Turn>, t: Turn)
    ensures AllMessages(turns + [t]) == AllMessages(turns) + TurnMessages(t)
    ensures AllInjected(turns + [t]) == AllInjected(turns) + t.injected
  {
    assert (turns + [t])[..|turns|] == turns;
  }

  /** How a run goes: from these messages and this point, through these turns, between these points. */
  datatype Walk = Walk(prompts: seq<Message>, initial: seq<Message>, origin: Point, turns: seq<Turn>,
                       points: seq<Point>)

  const NO_WALK := Walk([], [], Point([], [], []), [], [])

  /** What the model was asked with, and what it would be asked with if nothing were injected. */
  ghost predicate Seen(initial: seq<Message>, turns: seq<Turn>, script: seq<TurnScript>, asked: seq<seq<Message>>,
                       context: seq<Message>)
  {
    && |asked| == |turns| && Asked(initial, turns, script, asked)
    && context == if turns == [] then initial
                  else var n := |turns| - 1; asked[n] + [turns[n].response] + turns[n].results
  }

  /** All turns so far are followed by what waits here. */
  ghost predicate Walking(u: Setup, w: Walk, here: Point, script: seq<TurnScript>, asked: seq<seq<Message>>,
                          context: seq<Message>)
  {
    match w
    case Walk(_, initial, origin, turns, points) =>
      && |points| == |turns| + 1 && points[0] == origin && points[|turns|] == here
      && Follow(u, points, turns, script, |turns|) && Seen(initial, turns, script, asked, context)
  }

  /** The last turn so far left nothing to see, and no steering came. */
  ghost predicate Paused(u: Setup, w: Walk, here: Point, script: seq<TurnScript>, asked: seq<seq<Message>>,
                         context: seq<Message>, queued: seq<Message>)
  {
    match w
    case Walk(_, initial, origin, turns, points) =>
      && turns != [] && |points| == |turns| && points[0] == origin && Seen(initial, turns, script, asked, context)
      && var n := |turns| - 1;
         && Follow(u, points, turns, script, n) && !WantsMore(At(script, n), u.sequential)
         && Stepped(u, points[n], turns[n], At(script, n), n == 0, [], here.steering)
         && points[n].followUps == here.followUps && At(script, n).queuedFollowUps == queued
  }

  /** The run went through all its turns, from what waited first to what is left. */
  ghost predicate Walked(u: Setup, w: Walk, here: Point, script: seq<TurnScript>, asked: seq<seq<Message>>)
  {
    match w
    case Walk(_, initial, origin, turns, points) =>
      && RunsThrough(u, points, turns, script) && points[0] == origin && points[|turns|] == here
      && Asked(initial, turns, script, asked)
  }

  lemma {:induction false} WalkingSees(u: Setup, w: Walk, here: Point, script: seq<TurnScript>,
                                       asked: seq<seq<Message>>, context: seq<Message>)
    requires Walking(u, w, here, script, asked, context)
    ensures Seen(w.initial, w.turns, script, asked, context)
  {
  }

  lemma {:induction false} StepFollows(u: Setup, p: Point, turn: Turn, t: TurnScript, first: bool, more: bool,
                                       over: bool, next: seq<Message>, left: Point)
    requires Played(u, p, turn, t, first, over, next, left) && left.pending == []
    requires !over ==> (more <==> WantsMore(t, u.sequential))
    ensures over ==> IsLast(u, p, turn, t, first, left)
    ensures !over && (more || next != []) ==> FollowedBy(u, p, turn, t, first, left.(pending := next))
    ensures !over && !more && next == [] ==>
              !WantsMore(t, u.sequential) && Stepped(u, p, turn, t, first, [], left.steering)
              && left.followUps == p.followUps
  {
  }

  /** A turn, as it continues the walk: the run is over, another turn follows, or follow-ups are to be polled. */
  lemma {:induction false} StepOn(u: Setup, w: Walk, at: Point, script: seq<TurnScript>, asked: seq<seq<Message>>,
                                  context: seq<Message>, turn: Turn, more: bool, over: bool, next: seq<Message>,
                                  left: Point, nowAsked: seq<seq<Message>>, newContext: seq<Message>)
    returns (walked: Walk)
    requires Walking(u, w, at, script, asked, context) && left.pending == []
    requires var t := At(script, |w.turns|);
             Played(u, at, turn, t, w.turns == [], over, next, left)
             && (!over ==> (more <==> WantsMore(t, u.sequential)))
    requires Seen(w.initial, w.turns + [turn], script, nowAsked, newContext)
    ensures walked == w.(turns := w.turns + [turn], points := walked.points)
    ensures if over then Walked(u, walked, left, script, nowAsked)
            else if more || next != [] then Walking(u, walked, left.(pending := next), script, nowAsked, newContext)
            else Paused(u, walked, left, script, nowAsked, newContext, At(script, |w.turns|).queuedFollowUps)
  {
    var n, all := |w.turns|, w.turns + [turn];
    StepFollows(u, at, turn, At(script, n), w.turns == [], more, over, next, left);
    FollowStill(u, w.points, w.turns, script, n, w.points, all);
    walked := w.(turns := all);
    if over {
      walked := w.(turns := all, points := w.points + [left]);
      FollowStill(u, w.points, w.turns, script, n, walked.points, all);
    } else if more || next != [] {
      FollowNext(u, w.points, all, script, n, left.(pending := next));
      walked := w.(turns := all, points := w.points + [left.(pending := next)]);
    }
  }

  lemma {:induction false} PauseEnds(u: Setup, p: Point, turn: Turn, t: TurnScript, first: bool, at: Point, left: Point)
    requires !WantsMore(t, u.sequential) && Stepped(u, p, turn, t, first, [], at.steering)
    requires p.followUps == at.followUps && left.steering == at.steering
    requires Polled(u.followUps, at.followUps + t.queuedFollowUps, left.pending, left.followUps)
    ensures if left.pending == [] then IsLast(u, p, turn, t, first, left) else FollowedBy(u, p, turn, t, first, left)
  {
  }

  lemma {:induction false} PausedForm(u: Setup, w: Walk, at: Point, script: seq<TurnScript>,
                                      asked: seq<seq<Message>>, context: seq<Message>, queued: seq<Message>, n: nat)
    requires Paused(u, w, at, script, asked, context, queued) && n == |w.turns| - 1
    ensures |w.points| == n + 1 && w.points[0] == w.origin && Follow(u, w.points, w.turns, script, n)
    ensures !WantsMore(At(script, n), u.sequential) && At(script, n).queuedFollowUps == queued
    ensures Stepped(u, w.points[n], w.turns[n], At(script, n), n == 0, [], at.steering)
            && w.points[n].followUps == at.followUps
    ensures Seen(w.initial, w.turns, script, asked, context)
  {
  }

  /** The follow-up poll, as it continues the walk. */
  lemma {:induction false} PollOn(u: Setup, w: Walk, at: Point, script: seq<TurnScript>, asked: seq<seq<Message>>,
                                  context: seq<Message>, queued: seq<Message>, left: Point)
    returns (walked: Walk)
    requires Paused(u, w, at, script, asked, context, queued) && left.steering == at.steering
    requires Polled(u.followUps, at.followUps + queued, left.pending, left.followUps)
    ensures walked == w.(points := walked.points)
    ensures if left.pending == [] then Walked(u, walked, left, script, asked)
            else Walking(u, walked, left, script, asked, context)
  {
    walked := w.(points := w.points + [left]);
    if left.pending == [] {
      PollStops(u, w, at, script, asked, context, queued, left);
    } else {
      PollGoesOn(u, w, at, script, asked, context, queued, left);
    }
  }

  lemma {:induction false} PollStops(u: Setup, w: Walk, at: Point, script: seq<TurnScript>, asked: seq<seq<Message>>,
                                     context: seq<Message>, queued: seq<Message>, left: Point)
    requires Paused(u, w, at, script, asked, context, queued) && left.steering == at.steering
    requires Polled(u.followUps, at.followUps + queued, left.pending, left.followUps) && left.pending == []
    ensures Walked(u, w.(points := w.points + [left]), left, script, asked)
  {
    var n := |w.turns| - 1;
    PausedForm(u, w, at, script, asked, context, queued, n);
    PauseEnds(u, w.points[n], w.turns[n], At(script, n), n == 0, at, left);
    RunEnds(u, w.points, w.turns, script, n, left);
    SeenIsAsked(w.initial, w.turns, script, asked, context);
  }

  lemma {:induction false} RunEnds(u: Setup, points: seq<Point>, turns: seq<Turn>, script: seq<TurnScript>, n: nat,
                                   left: Point)
    requires |points| == |turns| == n + 1 && Follow(u, points, turns, script, n)
    requires IsLast(u, points[n], turns[n], At(script, n), n == 0, left)
    ensures var all := points + [left];
            RunsThrough(u, all, turns, script) && all[0] == points[0] && all[|turns|] == left
  {
    FollowStill(u, points, turns, script, n, points + [left], turns);
  }

  lemma {:induction false} SeenIsAsked(initial: seq<Message>, turns: seq<Turn>, script: seq<TurnScript>,
                                       asked: seq<seq<Message>>, context: seq<Message>)
    requires Seen(initial, turns, script, asked, context)
    ensures Asked(initial, turns, script, asked)
  {
  }

  lemma {:induction false} PollGoesOn(u: Setup, w: Walk, at: Point, script: seq<TurnScript>, asked: seq<seq<Message>>,
                                      context: seq<Message>, queued: seq<Message>, left: Point)
    requires Paused(u, w, at, script, asked, context, queued) && left.steering == at.steering
    requires Polled(u.followUps, at.followUps + queued, left.pending, left.followUps) && left.pending != []
    ensures Walking(u, w.(points := w.points + [left]), left, script, asked, context)
  {
    var n := |w.turns| - 1;
    PausedForm(u, w, at, script, asked, context, queued, n);
    PauseEnds(u, w.points[n], w.turns[n], At(script, n), n == 0, at, left);
    FollowNext(u, w.points, w.turns, script, n, left);
  }

  class Agent {
    const steering: PendingMessageQueue
    const followUps: PendingMessageQueue
    const sequential: bool
    /** The state that the events are reduced to. */
    var messages: seq<Message>
    var streaming: Option<Message>
    var pendingToolCalls: set<Id>
    /** What the events of the run told so far, and the messages taken from the queues. */
    ghost var history: History
    ghost var taken: seq<Taken>
    ghost var lastEvent: Event
    /** Where the messages of the loop begin: in the state, in the events, and in what the queues gave. */
    ghost var base: (seq<Message>, seq<Message>, seq<Message>, seq<Message>)
    /** What the run is driven by, and what the model was asked with. */
    ghost var played: seq<TurnScript>
    ghost var asked: seq<seq<Message>>

    function Arrangement(): Setup { Setup(steering.mode, followUps.mode, sequential) }

    ghost predicate Valid()
      reads this, steering, followUps
    {
      steering != followUps && steering.Valid() && followUps.Valid()
    }

    constructor (steering: PendingMessageQueue, followUps: PendingMessageQueue, sequential: bool,
                 messages: seq<Message>)
      requires steering != followUps && steering.Valid() && followUps.Valid()
      ensures Valid() && this.messages == messages && history == NO_HISTORY && taken == [] && pendingToolCalls == {}
      ensures this.steering == steering && this.followUps == followUps && this.sequential == sequential
    {
      this.steering, this.followUps, this.sequential := steering, followUps, sequential;
      this.messages := messages;
      streaming, pendingToolCalls, history, taken := None, {}, NO_HISTORY, [];
      base, lastEvent, played, asked := ([], [], [], []), AgentStart, [], [];
    }

    /** `processEvents` */
    method Emit(e: Event)
      modifies this`messages, this`streaming, this`pendingToolCalls, this`history, this`lastEvent
      ensures history == Recorded(old(history), e) && lastEvent == e
      ensures messages == if e.MessageEnd? then old(messages) + [e.message] else old(messages)
      ensures pendingToolCalls == if e.ToolStart? then old(pendingToolCalls) + {e.callId}
                                  else if e.ToolEnd? then old(pendingToolCalls) - {e.callId} else old(pendingToolCalls)
      ensures streaming == if e.MessageStart? || e.MessageUpdate? then Some(e.message)
                           else if e.MessageEnd? || e.AgentEnd? then None else old(streaming)
    {
      history, lastEvent := Recorded(history, e), e;
      match e {
        case MessageStart(m) =>
          streaming := Some(m);
        case MessageUpdate(m) =>
          streaming := Some(m);
        case MessageEnd(m) =>
          streaming := None;
          messages := messages + [m];
        case ToolStart(id) =>
          pendingToolCalls := pendingToolCalls + {id};
        case ToolEnd(id) =>
          pendingToolCalls := pendingToolCalls - {id};
        case AgentEnd(_) =>
          streaming := None;
        case _ =>
      }
    }

    /** These messages ended, and nothing else happened. */
    twostate predicate OnlyEnded(more: seq<Message>)
      reads this
    {
      && history == old(history).(ended := old(history).ended + more) && messages == old(messages) + more
      && pendingToolCalls == old(pendingToolCalls)
    }

    method EmitMessage(m: Message)
      modifies this`messages, this`streaming, this`pendingToolCalls, this`history, this`lastEvent
      ensures OnlyEnded([m])
    {
      Emit(MessageStart(m));
      Emit(MessageEnd(m));
    }

    method EmitMessages(more: seq<Message>)
      modifies this`messages, this`streaming, this`pendingToolCalls, this`history, this`lastEvent
      ensures OnlyEnded(more)
    {
      for k := 0 to |more|
        invariant OnlyEnded(more[..k])
      {
        EmitMessage(more[k]);
        Snoc(old(history).ended, more, k);
        Snoc(old(messages), more, k);
      }
      assert more[..|more|] == more;
    }

    /** The response is streamed: it starts, grows and ends, and ends up in the context once. */
    method StreamResponse(r: Response, context: seq<Message>) returns (message: Message, newContext: seq<Message>)
      modifies this`messages, this`streaming, this`pendingToolCalls, this`history, this`lastEvent, this`asked
      ensures asked == old(asked) + [context]
      ensures message == Assistant(r.text, r.stopReason, r.calls)
      ensures newContext == context + [message]
      ensures OnlyEnded([message])
    {
      asked := asked + [context];
      message := Assistant(r.text, r.stopReason, r.calls);
      newContext := context;
      if r.started {
        var partial := Assistant("", r.stopReason, []);
        newContext := newContext + [partial];
        Emit(MessageStart(partial));
        for k := 0 to |r.updates|
          invariant history == old(history) && messages == old(messages) && pendingToolCalls == old(pendingToolCalls)
                    && asked == old(asked) + [context]
          invariant |newContext| == |context| + 1 && newContext[..|context|] == context
        {
          newContext := newContext[|newContext| - 1 := r.updates[k]];
          Emit(MessageUpdate(r.updates[k]));
        }
        newContext := newContext[|newContext| - 1 := message];
      } else {
        newContext := newContext + [message];
        Emit(MessageStart(message));
      }
      Emit(MessageEnd(message));
    }

    /** What a batch adds: its results end as messages, and every call that starts also finishes. */
    twostate predicate BatchDone(fs: seq<Finalized>)
      reads this
    {
      && messages == old(messages) + ResultMessages(fs) && history.ended == old(history).ended + ResultMessages(fs)
      && history.marks == old(history).marks
      && history.started == old(history).started + CallIds(fs)
         && history.finished == old(history).finished + CallIds(fs)
      && pendingToolCalls == {}
    }

    /** One call from its start to its result message. */
    method RunOne(f: Finalized)
      requires pendingToolCalls == {}
      modifies this`messages, this`streaming, this`pendingToolCalls, this`history, this`lastEvent
      ensures pendingToolCalls == {} && messages == old(messages) + [ResultMessage(f)]
      ensures history == History(old(history).ended + [ResultMessage(f)], old(history).marks,
                                 old(history).started + multiset{f.call.id},
                                 old(history).finished + multiset{f.call.id})
    {
      Emit(ToolStart(f.call.id));
      Emit(ToolEnd(f.call.id));
      EmitMessage(ResultMessage(f));
    }

    method RunSequential(calls: seq<ToolCall>, attempts: nat -> Attempt, aborted: nat -> bool)
      returns (fs: seq<Finalized>, terminate: bool)
      requires pendingToolCalls == {}
      modifies this`messages, this`streaming, this`pendingToolCalls, this`history, this`lastEvent
      ensures fs == Sequential(calls, attempts, aborted) && terminate == Terminates(fs) && BatchDone(fs)
    {
      fs := [];
      var k := 0;
      var stopped := false;
      while k < |calls| && !stopped
        invariant k <= |calls| && fs == InOrder(calls, attempts, k)
        invariant if stopped then Reached(|calls|, aborted, 0) == k
                  else Reached(|calls|, aborted, k) == Reached(|calls|, aborted, 0)
        invariant BatchDone(fs)
      {
        var finalized := Outcome(calls[k], attempts(k));
        AddResult(old(history).ended, fs, finalized);
        AddResult(old(messages), fs, finalized);
        AddCall(old(history).started, fs, finalized);
        AddCall(old(history).finished, fs, finalized);
        SnocInOrder(calls, attempts, k);
        RunOne(finalized);
        fs := fs + [finalized];
        stopped := aborted(k);
        k := k + 1;
      }
      terminate := Terminates(fs);
    }

    /** Truncated calls all fail without being executed. */
    method FailTruncated(calls: seq<ToolCall>) returns (fs: seq<Finalized>)
      requires pendingToolCalls == {}
      modifies this`messages, this`streaming, this`pendingToolCalls, this`history, this`lastEvent
      ensures fs == Truncated(calls, |calls|) && BatchDone(fs)
    {
      fs := [];
      for k := 0 to |calls|
        invariant fs == Truncated(calls, k) && BatchDone(fs)
      {
        var finalized := Finalized(calls[k], TRUNCATED, true);
        AddResult(old(history).ended, fs, finalized);
        AddResult(old(messages), fs, finalized);
        AddCall(old(history).started, fs, finalized);
        AddCall(old(history).finished, fs, finalized);
        RunOne(finalized);
        fs := fs + [finalized];
      }
    }

    /** The calls are prepared in order; those that are not over then are left to run. */
    method StartParallel(calls: seq<ToolCall>, attempts: nat -> Attempt, aborted: nat -> bool, ghost late: nat -> bool)
      returns (n: nat, running: set<nat>, finals: map<nat, Finalized>)
      requires pendingToolCalls == {}
      modifies this`messages, this`streaming, this`pendingToolCalls, this`history, this`lastEvent
      ensures n == Reached(|calls|, aborted, 0) && Underway(calls, attempts, late, n, running, finals, pendingToolCalls)
      ensures Launched(Planned(calls, attempts, late, n), running)
    {
      n, running, finals := 0, {}, map[];
      var stopped := false;
      while n < |calls| && !stopped
        invariant n <= |calls| && Underway(calls, attempts, late, n, running, finals, pendingToolCalls)
        invariant if stopped then Reached(|calls|, aborted, 0) == n
                  else Reached(|calls|, aborted, n) == Reached(|calls|, aborted, 0)
        invariant Launched(Planned(calls, attempts, late, n), running)
      {
        PlannedStarts(old(history).started, calls, attempts, late, n);
        PlannedOpens(history.finished, old(history).finished, calls, attempts, late, n, running);
        running, finals := StartOne(calls, attempts, late, n, running, finals);
        stopped := aborted(n);
        n := n + 1;
      }
    }

    /** The bookkeeping of calls that have started: those in `running` have not finished yet. */
    twostate predicate Launched(all: seq<Finalized>, running: set<nat>)
      reads this
    {
      && history.ended == old(history).ended && messages == old(messages) && history.marks == old(history).marks
      && history.started == old(history).started + CallIds(all)
      && history.finished + OpenIds(all, running) == old(history).finished + CallIds(all)
    }

    method StartOne(calls: seq<ToolCall>, attempts: nat -> Attempt, ghost late: nat -> bool, n: nat, running: set<nat>,
                    finals: map<nat, Finalized>)
      returns (running': set<nat>, finals': map<nat, Finalized>)
      requires n < |calls| && Underway(calls, attempts, late, n, running, finals, pendingToolCalls)
      modifies this`messages, this`streaming, this`pendingToolCalls, this`history, this`lastEvent
      ensures Underway(calls, attempts, late, n + 1, running', finals', pendingToolCalls)
      ensures history.ended == old(history).ended && messages == old(messages) && history.marks == old(history).marks
      ensures history.started == old(history).started + multiset{calls[n].id}
      ensures if attempts(n).immediate then running' == running
              && history.finished == old(history).finished + multiset{calls[n].id}
              else running' == running + {n} && history.finished == old(history).finished
    {
      running', finals' := running, finals;
      Emit(ToolStart(calls[n].id));
      if attempts(n).immediate {
        Emit(ToolEnd(calls[n].id));
        finals' := finals'[n := Outcome(calls[n], attempts(n))];
      } else {
        running' := running' + {n};
        assert n in running';
      }
    }

    /** What is known while the calls run: those that are over have their results, and a call that is
        still pending is one that runs. */
    static ghost predicate Underway(calls: seq<ToolCall>, attempts: nat -> Attempt, late: nat -> bool, n: nat,
                                    running: set<nat>, finals: map<nat, Finalized>, open: set<Id>)
    {
      && n <= |calls| && (forall i | i in running :: i < n && !attempts(i).immediate)
      && (forall i: nat | i < n && i !in running ::
            i in finals && finals[i] == Parallelized(calls[i], attempts(i), late(i)))
      && forall id | id in open :: exists i :: i in running && calls[i].id == id
    }

    /** They finish in any order. */
    method FinishParallel(calls: seq<ToolCall>, attempts: nat -> Attempt, late: nat -> bool, n: nat, open: set<nat>,
                          known: map<nat, Finalized>)
      returns (fs: seq<Finalized>)
      requires Underway(calls, attempts, late, n, open, known, pendingToolCalls)
      modifies this`messages, this`streaming, this`pendingToolCalls, this`history, this`lastEvent
      ensures fs == Planned(calls, attempts, late, n) && pendingToolCalls == {}
      ensures history.ended == old(history).ended && messages == old(messages) && history.marks == old(history).marks
      ensures history.started == old(history).started
      ensures history.finished == old(history).finished + OpenIds(Planned(calls, attempts, late, n), open)
    {
      var running: set<nat>, finals: map<nat, Finalized> := open, known;
      ghost var all := Planned(calls, attempts, late, n);
      ghost var total := history.finished + OpenIds(all, open);
      while running != {}
        invariant running <= open && Underway(calls, attempts, late, n, running, finals, pendingToolCalls)
        invariant history.ended == old(history).ended && messages == old(messages)
                  && history.marks == old(history).marks
        invariant history.started == old(history).started
        invariant history.finished + OpenIds(all, running) == total
        decreases running
      {
        var i :| i in running;
        OpenFinishes(history.finished, total, all, running, i);
        finals := finals[i := if late(i) then Finalized(calls[i], ABORTED, true) else Outcome(calls[i], attempts(i))];
        Emit(ToolEnd(calls[i].id));
        running := running - {i};
      }
      OpenNone(all);
      fs := seq(n, i requires 0 <= i < n && i in finals => finals[i]);
    }

    method RunParallel(calls: seq<ToolCall>, attempts: nat -> Attempt, aborted: nat -> bool, late: nat -> bool)
      returns (fs: seq<Finalized>, terminate: bool)
      requires pendingToolCalls == {}
      modifies this`messages, this`streaming, this`pendingToolCalls, this`history, this`lastEvent
      ensures fs == Parallel(calls, attempts, aborted, late) && terminate == Terminates(fs) && BatchDone(fs)
    {
      var n, running, finals := StartParallel(calls, attempts, aborted, late);
      fs := FinishParallel(calls, attempts, late, n, running, finals);
      EmitMessages(ResultMessages(fs));
      terminate := Terminates(fs);
    }

    method RunTools(response: Message, t: TurnScript) returns (results: seq<Message>, terminate: bool)
      requires pendingToolCalls == {} && history.started == history.finished
      requires response == Assistant(t.response.text, t.response.stopReason, t.response.calls) && !Fails(t.response)
      modifies this`messages, this`streaming, this`pendingToolCalls, this`history, this`lastEvent
      ensures history.started == history.finished && pendingToolCalls == {}
      ensures history.ended == old(history).ended + results && messages == old(messages) + results
              && history.marks == old(history).marks
      ensures results == ResultMessages(BatchOf(t, sequential))
      ensures terminate <==> !WantsMore(t, sequential)
    {
      BatchWants(t, sequential);
      results, terminate := [], true;
      if response.calls != [] {
        var fs;
        if response.stopReason.Length? {
          fs := FailTruncated(response.calls);
          terminate := false;
        } else if sequential || t.exclusive {
          fs, terminate := RunSequential(response.calls, t.attempts, t.aborted);
        } else {
          fs, terminate := RunParallel(response.calls, t.attempts, t.aborted, t.late);
        }
        results := ResultMessages(fs);
      }
    }

    /** One turn, from the injection of queued messages to `turn_end`. */
    method RunTurn(pending: seq<Message>, t: TurnScript, context: seq<Message>, soFar: seq<Message>)
      returns (ghost turn: Turn, newContext: seq<Message>, newMessages: seq<Message>, more: bool, failed: bool)
      requires pendingToolCalls == {} && history.started == history.finished
      modifies this`messages, this`streaming, this`pendingToolCalls, this`history, this`lastEvent, this`asked
      ensures asked == old(asked) + [context + pending]
      ensures !failed ==> (more <==> WantsMore(t, sequential))
      ensures history.ended == old(history).ended + TurnMessages(turn) && messages == old(messages) + TurnMessages(turn)
      ensures history.marks == old(history).marks + [Closes(turn.response, turn.results)]
              && history.started == history.finished
              && pendingToolCalls == {}
      ensures newContext == context + TurnMessages(turn) && newMessages == soFar + TurnMessages(turn)
      ensures turn.injected == pending && TurnFits(turn, t, sequential)
      ensures failed <==> t.response.stopReason.ProviderError? || t.response.stopReason.Aborted?
    {
      EmitMessages(pending);
      newContext := context + pending;
      newMessages := soFar + pending;
      var response;
      response, newContext := StreamResponse(t.response, newContext);
      newMessages := newMessages + [response];
      failed := response.stopReason.ProviderError? || response.stopReason.Aborted?;
      var results, terminate := [], true;
      if !failed {
        results, terminate := RunTools(response, t);
        newContext := newContext + results;
        newMessages := newMessages + results;
      }
      more := !terminate;
      Emit(TurnEnd(response, results));
      turn := Turn(pending, response, results);
      BatchFits(pending, t, sequential);
      Parts(old(history).ended, turn);
      Parts(old(messages), turn);
      Parts(context, turn);
      Parts(soFar, turn);
    }

    /** `getSteeringMessages`, after these messages were queued. */
    method PollSteering(queued: seq<Message>) returns (r: seq<Message>)
      requires Valid()
      modifies this`taken, steering
      ensures Valid() && Texts(taken) == Texts(old(taken)) + r
      ensures From(taken, true) == From(old(taken), true) + r && From(taken, false) == From(old(taken), false)
      ensures steering.drained == old(steering.drained) + r
              && r == DrainOf(steering.mode, old(steering.messages) + queued)
      ensures Polled(steering.mode, old(steering.messages) + queued, r, steering.messages)
    {
      steering.Enqueue(queued);
      ghost var queue := steering.messages;
      r := steering.Drain();
      DrainPolls(steering.mode, queue, r, steering.messages);
      FromTagged(taken, r, true);
      taken := taken + Tagged(r, true);
    }

    method PollFollowUps(queued: seq<Message>) returns (r: seq<Message>)
      requires Valid()
      modifies this`taken, followUps
      ensures Valid() && Texts(taken) == Texts(old(taken)) + r
      ensures From(taken, false) == From(old(taken), false) + r && From(taken, true) == From(old(taken), true)
      ensures followUps.drained == old(followUps.drained) + r
              && r == DrainOf(followUps.mode, old(followUps.messages) + queued)
      ensures Polled(followUps.mode, old(followUps.messages) + queued, r, followUps.messages)
    {
      followUps.Enqueue(queued);
      ghost var queue := followUps.messages;
      r := followUps.Drain();
      DrainPolls(followUps.mode, queue, r, followUps.messages);
      FromTagged(taken, r, false);
      taken := taken + Tagged(r, false);
    }

    /** The books of a run in which `turns` are over and `pending` waits to be injected. */
    ghost predicate Booked(turns: seq<Turn>, pending: seq<Message>)
      reads this, steering, followUps
    {
      && Valid() && pendingToolCalls == {} && history.started == history.finished
      && messages == base.0 + AllMessages(turns) && history.ended == base.1 + AllMessages(turns)
      && Texts(taken) == AllInjected(turns) + pending
      && steering.drained == base.2 + From(taken, true) && followUps.drained == base.3 + From(taken, false)
      && TurnsFit(turns, played, sequential)
      && (OneByOne() ==> |pending| <= 1 && forall i | 0 <= i < |turns| :: |turns[i].injected| <= 1)
    }

    predicate OneByOne() { steering.mode.OneAtATime? && followUps.mode.OneAtATime? }

    /** Turns open and close by turns, each with its response and its results. One is open before the first is over;
        after that none is, between two iterations. */
    ghost predicate TurnsAlternate(turns: seq<Turn>)
      reads this
    {
      if turns == [] then history.marks == [Opens] else history.marks == Marks(turns)
    }

    method Finish(newMessages: seq<Message>)
      modifies this`messages, this`streaming, this`pendingToolCalls, this`history, this`lastEvent
      ensures history == old(history).(marks := old(history).marks + [Over]) && messages == old(messages)
      ensures pendingToolCalls == old(pendingToolCalls)
      ensures lastEvent == AgentEnd(newMessages)
    {
      Emit(AgentEnd(newMessages));
    }

    /** A poll when nothing waits to be injected. */
    method BookSteering(queued: seq<Message>, ghost turns: seq<Turn>) returns (r: seq<Message>)
      requires Booked(turns, [])
      modifies this`taken, steering
      ensures Booked(turns, r) && history == old(history)
              && r == DrainOf(steering.mode, old(steering.messages) + queued)
      ensures Polled(steering.mode, old(steering.messages) + queued, r, steering.messages)
    {
      r := PollSteering(queued);
      assert AllInjected(turns) + [] + r == AllInjected(turns) + r;
      Associative(base.2, From(old(taken), true), r);
    }

    method BookFollowUps(queued: seq<Message>, ghost turns: seq<Turn>) returns (r: seq<Message>)
      requires Booked(turns, [])
      modifies this`taken, followUps
      ensures Booked(turns, r) && history == old(history)
      ensures Polled(followUps.mode, old(followUps.messages) + queued, r, followUps.messages)
    {
      r := PollFollowUps(queued);
      assert AllInjected(turns) + [] + r == AllInjected(turns) + r;
      Associative(base.3, From(old(taken), false), r);
    }

    /** What comes between two turns: the context may change, and queued messages are picked up unless
        some are waiting already. */
    method PrepareTurn(pending: seq<Message>, t: TurnScript, context: seq<Message>, ghost turns: seq<Turn>)
      returns (inject: seq<Message>, newContext: seq<Message>)
      requires Booked(turns, pending)
      modifies this`taken, this`messages, this`streaming, this`pendingToolCalls, this`history, this`lastEvent, steering
      ensures Booked(turns, inject) && history.marks == old(history).marks + [Opens]
      ensures Injects(Arrangement(), Point(pending, old(steering.messages), followUps.messages), t, false, inject,
                      steering.messages)
      ensures newContext == if t.context.Some? then t.context.value else context
    {
      newContext := if t.context.Some? then t.context.value else context;
      inject := pending;
      if pending == [] {
        inject := BookSteering(t.queuedWhilePreparing, turns);
      } else {
        steering.Enqueue(t.queuedWhilePreparing);
      }
      Emit(TurnStart);
    }

    method BookTurn(inject: seq<Message>, t: TurnScript, context: seq<Message>, soFar: seq<Message>,
                    ghost turns: seq<Turn>)
      returns (ghost turn: Turn, newContext: seq<Message>, newMessages: seq<Message>, more: bool, failed: bool)
      requires Booked(turns, inject) && t == At(played, |turns|)
      modifies this`messages, this`streaming, this`pendingToolCalls, this`history, this`lastEvent, this`asked
      ensures Booked(turns + [turn], []) && history.marks == old(history).marks + [Closes(turn.response, turn.results)]
      ensures newMessages == soFar + TurnMessages(turn) && turn.injected == inject
      ensures asked == old(asked) + [context + inject] && newContext == context + TurnMessages(turn)
      ensures !failed ==> (more <==> WantsMore(t, sequential))
      ensures failed <==> t.response.stopReason.ProviderError? || t.response.stopReason.Aborted?
    {
      turn, newContext, newMessages, more, failed := RunTurn(inject, t, context, soFar);
      BooksTurn(base.0, turns, turn);
      BooksTurn(base.1, turns, turn);
      TurnsFitOneMore(turns, turn, played, sequential);
    }

    /** What the loop knows between two iterations. */
    ghost predicate Between(prompts: seq<Message>, newMessages: seq<Message>, turns: seq<Turn>, pending: seq<Message>,
                            first: seq<Message>)
      reads this, steering, followUps
    {
      && Booked(turns, pending) && TurnsAlternate(turns) && newMessages == prompts + AllMessages(turns)
      && first == if turns == [] then pending else turns[0].injected
    }

    /** What holds when the loop is over. */
    ghost predicate LoopOver(prompts: seq<Message>, newMessages: seq<Message>, turns: seq<Turn>, first: seq<Message>)
      reads this, steering, followUps
    {
      && Booked(turns, []) && turns != [] && newMessages == prompts + AllMessages(turns) && first == turns[0].injected
      && history.marks == Marks(turns) + [Over] && lastEvent == AgentEnd(newMessages)
    }

    /** Where the loop is: what waits, in the queues too. */
    ghost function Here(pending: seq<Message>): Point
      reads steering, followUps
    {
      Point(pending, steering.messages, followUps.messages)
    }

    /** What is injected, and what the model is asked with before that. */
    method Ready(completed: bool, pending: seq<Message>, t: TurnScript, context: seq<Message>, ghost turns: seq<Turn>,
                 ghost initial: seq<Message>)
      returns (inject: seq<Message>, newContext: seq<Message>)
      requires Booked(turns, pending) && TurnsAlternate(turns) && completed == (turns != [])
      requires Seen(initial, turns, played, asked, context) && t == At(played, |turns|)
      modifies this`taken, this`messages, this`streaming, this`pendingToolCalls, this`history, this`lastEvent, steering
      ensures Booked(turns, inject) && history.marks == Marks(turns) + [Opens] && (turns == [] ==> inject == pending)
      ensures Injects(Arrangement(), old(Here(pending)), t, turns == [], inject, steering.messages)
      ensures |asked| == |turns| && Asked(initial, turns, played, asked)
      ensures newContext == Known(initial, turns, asked, t)
    {
      inject, newContext := pending, context;
      if completed {
        inject, newContext := PrepareTurn(pending, t, context, turns);
      }
    }

    /** One turn and what the books and the model's view say of it. */
    method PlayTurn(completed: bool, pending: seq<Message>, t: TurnScript, context: seq<Message>, soFar: seq<Message>,
                    ghost turns: seq<Turn>, ghost initial: seq<Message>)
      returns (ghost turn: Turn, newContext: seq<Message>, newMessages: seq<Message>, more: bool, failed: bool)
      requires Booked(turns, pending) && TurnsAlternate(turns) && completed == (turns != [])
      requires Seen(initial, turns, played, asked, context) && t == At(played, |turns|)
      modifies this`taken, this`messages, this`streaming, this`pendingToolCalls, this`history, this`lastEvent,
               this`asked, steering
      ensures Booked(turns + [turn], []) && history.marks == Marks(turns + [turn])
      ensures newMessages == soFar + TurnMessages(turn) && (turns == [] ==> turn.injected == pending)
      ensures Injects(Arrangement(), old(Here(pending)), t, turns == [], turn.injected, steering.messages)
      ensures Seen(initial, turns + [turn], played, asked, newContext)
      ensures failed == Fails(t.response) && (!failed ==> (more <==> WantsMore(t, sequential)))
    {
      var inject, known := Ready(completed, pending, t, context, turns, initial);
      ghost var before := asked;
      turn, newContext, newMessages, more, failed := BookTurn(inject, t, known, soFar, turns);
      AskedOnce(initial, turns, played, before, turn, known + inject);
      OneMoreMark(turns, turn);
      Parts(known, turn);
    }

    /** One iteration of the inner loop. */
    method Iterate(completed: bool, pending: seq<Message>, t: TurnScript, context: seq<Message>, soFar: seq<Message>,
                   ghost prompts: seq<Message>, ghost turns: seq<Turn>, ghost first: seq<Message>,
                   ghost initial: seq<Message>)
      returns (ghost turn: Turn, newContext: seq<Message>, newMessages: seq<Message>, more: bool, over: bool,
               next: seq<Message>)
      requires Between(prompts, soFar, turns, pending, first) && completed == (turns != []) && t == At(played, |turns|)
      requires Seen(initial, turns, played, asked, context)
      modifies this`taken, this`messages, this`streaming, this`pendingToolCalls, this`history, this`lastEvent,
               this`asked, steering
      ensures if over then LoopOver(prompts, newMessages, turns + [turn], first)
              else Between(prompts, newMessages, turns + [turn], next, first)
      ensures t == PROVIDER_FAILS ==> over
      ensures Seen(initial, turns + [turn], played, asked, newContext)
      ensures Played(Arrangement(), old(Here(pending)), turn, t, turns == [], over, next, Here([]))
      ensures !over ==> (more <==> WantsMore(t, sequential))
    {
      var failed;
      turn, newContext, newMessages, more, failed := PlayTurn(completed, pending, t, context, soFar, turns, initial);
      OneMoreTurn(turns, turn);
      Associative(prompts, AllMessages(turns), TurnMessages(turn));
      ghost var mid := steering.messages;
      over, next := Conclude(t, newMessages, prompts, turns + [turn], first);
      PlayedOnce(Arrangement(), old(Here(pending)), turn, t, turns == [], over, mid, next, Here([]));
    }

    /** The end of a turn: the run is over, or steering is polled. */
    method Conclude(t: TurnScript, newMessages: seq<Message>, ghost prompts: seq<Message>, ghost turns: seq<Turn>,
                    ghost first: seq<Message>)
      returns (over: bool, next: seq<Message>)
      requires Booked(turns, []) && history.marks == Marks(turns) && turns != [] && first == turns[0].injected
      requires newMessages == prompts + AllMessages(turns)
      modifies this`taken, this`messages, this`streaming, this`pendingToolCalls, this`history, this`lastEvent, steering
      ensures over == Ends(t)
      ensures if over then LoopOver(prompts, newMessages, turns, first) && next == []
                           && steering.messages == old(steering.messages)
              else Between(prompts, newMessages, turns, next, first)
                   && Polled(steering.mode, old(steering.messages) + t.queuedSteering, next, steering.messages)
    {
      over, next := Ends(t), [];
      if over {
        Finish(newMessages);
      } else {
        next := BookSteering(t.queuedSteering, turns);
      }
    }

    /** A turn is to come. */
    ghost predicate Going(w: Walk, pending: seq<Message>, context: seq<Message>, newMessages: seq<Message>)
      reads this, steering, followUps
    {
      match w
      case Walk(prompts, _, origin, turns, _) =>
        && Between(prompts, newMessages, turns, pending, origin.pending)
        && Walking(Arrangement(), w, Here(pending), played, asked, context)
    }

    /** Follow-ups are to be polled. */
    ghost predicate Resting(w: Walk, queued: seq<Message>, context: seq<Message>, newMessages: seq<Message>)
      reads this, steering, followUps
    {
      match w
      case Walk(prompts, _, origin, turns, _) =>
        && Between(prompts, newMessages, turns, [], origin.pending)
        && Paused(Arrangement(), w, Here([]), played, asked, context, queued)
    }

    /** The run is over. */
    ghost predicate Gone(w: Walk, newMessages: seq<Message>)
      reads this, steering, followUps
    {
      match w
      case Walk(prompts, _, origin, turns, _) =>
        LoopOver(prompts, newMessages, turns, origin.pending) && Walked(Arrangement(), w, Here([]), played, asked)
    }

    /** One iteration of the inner loop, as it continues the walk. Beyond the script the provider fails. */
    method Advance(completed: bool, pending: seq<Message>, script: seq<TurnScript>, k: nat, context: seq<Message>,
                   soFar: seq<Message>, ghost w: Walk)
      returns (ghost walked: Walk, newContext: seq<Message>, newMessages: seq<Message>, more: bool, over: bool,
               next: seq<Message>, queued: seq<Message>)
      requires Going(w, pending, context, soFar) && completed == (w.turns != []) && script == played && k == |w.turns|
      modifies this`taken, this`messages, this`streaming, this`pendingToolCalls, this`history, this`lastEvent,
               this`asked, steering
      ensures walked == w.(turns := walked.turns, points := walked.points) && |walked.turns| == k + 1
      ensures (k >= |script| ==> over) && base == old(base) && played == old(played)
      ensures if over then Gone(walked, newMessages)
              else if more || next != [] then Going(walked, next, newContext, newMessages)
              else Resting(walked, queued, newContext, newMessages)
    {
      var t := At(script, k);
      ghost var at, before := Here(pending), asked;
      WalkingSees(Arrangement(), w, at, played, asked, context);
      ghost var turn;
      turn, newContext, newMessages, more, over, next :=
        Iterate(completed, pending, t, context, soFar, w.prompts, w.turns, w.origin.pending, w.initial);
      walked := StepOn(Arrangement(), w, at, played, before, context, turn, more, over, next, Here([]), asked,
                       newContext);
      queued := t.queuedFollowUps;
    }

    /** Follow-ups are polled, and if there are none the run is over. */
    method Rest(queued: seq<Message>, context: seq<Message>, newMessages: seq<Message>, ghost w: Walk)
      returns (pending: seq<Message>, ghost walked: Walk)
      requires Resting(w, queued, context, newMessages) && w.turns != []
      modifies this`taken, this`messages, this`streaming, this`pendingToolCalls, this`history, this`lastEvent, followUps
      ensures walked == w.(points := walked.points) && base == old(base) && played == old(played)
      ensures if pending == [] then Gone(walked, newMessages) else Going(walked, pending, context, newMessages)
    {
      ghost var at := Here([]);
      pending := BookFollowUps(queued, w.turns);
      walked := PollOn(Arrangement(), w, at, played, asked, context, queued, Here(pending));
      if pending == [] {
        EndLoop(newMessages, walked);
      }
    }

    method EndLoop(newMessages: seq<Message>, ghost w: Walk)
      requires Between(w.prompts, newMessages, w.turns, [], w.origin.pending) && w.turns != []
      requires Walked(Arrangement(), w, Here([]), played, asked)
      modifies this`messages, this`streaming, this`pendingToolCalls, this`history, this`lastEvent
      ensures Gone(w, newMessages)
    {
      Finish(newMessages);
    }

    /** The books are opened, and the first poll is made unless it is left out. */
    method StartLoop(ghost prompts: seq<Message>, early: seq<Message>, skip: bool, ghost script: seq<TurnScript>)
      returns (pending: seq<Message>)
      requires Valid() && pendingToolCalls == {} && history.started == history.finished && taken == []
               && history.marks == [Opens]
      modifies this`base, this`played, this`taken, steering
      ensures Between(prompts, prompts, [], pending, pending)
      ensures pending == if skip then [] else DrainOf(steering.mode, old(steering.messages) + early)
      ensures FirstPoll(skip, old(steering.messages) + early, followUps.messages, Here(pending))
      ensures base == old((messages, history.ended, steering.drained, followUps.drained)) && played == script
    {
      base, played := (messages, history.ended, steering.drained, followUps.drained), script;
      pending := [];
      assert Booked([], []);
      if !skip {
        pending := BookSteering(early, []);
      } else {
        steering.Enqueue(early);
      }
    }

    /** The walk begins where the first poll ends. */
    method StartWalk(initial: seq<Message>, ghost prompts: seq<Message>, early: seq<Message>, skip: bool,
                     ghost script: seq<TurnScript>)
      returns (pending: seq<Message>, ghost w: Walk)
      requires Valid() && pendingToolCalls == {} && history.started == history.finished && taken == []
               && history.marks == [Opens]
      modifies this`base, this`played, this`taken, this`asked, steering
      ensures w == Walk(prompts, initial, Here(pending), [], [Here(pending)]) && Going(w, pending, initial, prompts)
      ensures pending == if skip then [] else DrainOf(steering.mode, old(steering.messages) + early)
      ensures FirstPoll(skip, old(steering.messages) + early, followUps.messages, Here(pending))
      ensures base == old((messages, history.ended, steering.drained, followUps.drained)) && played == script
    {
      pending := StartLoop(prompts, early, skip, script);
      asked := [];
      w := Walk(prompts, initial, Here(pending), [], [Here(pending)]);
    }

    /** The inner loop: turns, as long as the model is to see results or something is to be injected. */
    method RunTurns(first: seq<Message>, initial: seq<Message>, soFar: seq<Message>, script: seq<TurnScript>, from: nat,
                    ghost begun: Walk)
      returns (over: bool, context: seq<Message>, newMessages: seq<Message>, queued: seq<Message>, k: nat,
               ghost w: Walk)
      requires Going(begun, first, initial, soFar) && script == played && from == |begun.turns| <= |script|
      modifies this`taken, this`messages, this`streaming, this`pendingToolCalls, this`history, this`lastEvent,
               this`asked, steering
      ensures w == begun.(turns := w.turns, points := w.points) && base == old(base) && played == old(played)
      ensures if over then Gone(w, newMessages)
              else Resting(w, queued, context, newMessages) && from < k == |w.turns| <= |script|
    {
      over, context, newMessages, queued, k, w := false, initial, soFar, [], from, begun;
      var more, pending := true, first;
      while more || pending != []
        invariant w == begun.(turns := w.turns, points := w.points) && from <= k == |w.turns| <= |script|
        invariant (k == from ==> more) && base == old(base) && played == old(played)
        invariant if more || pending != [] then Going(w, pending, context, newMessages)
                  else Resting(w, queued, context, newMessages)
        decreases |script| - k
      {
        w, context, newMessages, more, over, pending, queued :=
          Advance(k > 0, pending, script, k, context, newMessages, w);
        if over {
          return;
        }
        k := k + 1;
      }
    }

    /** The loop. `early` is queued before it starts; `skip` leaves out the first poll. */
    method RunLoop(initial: seq<Message>, prompts: seq<Message>, early: seq<Message>, skip: bool,
                   script: seq<TurnScript>)
      returns (newMessages: seq<Message>, ghost w: Walk)
      requires Valid() && pendingToolCalls == {} && history.started == history.finished && taken == []
               && history.marks == [Opens]
      modifies this, steering, followUps
      ensures Gone(w, newMessages) && w.prompts == prompts && w.initial == initial
      ensures FirstPoll(skip, old(steering.messages) + early, old(followUps.messages), w.origin)
      ensures w.origin.pending == if skip then [] else DrainOf(steering.mode, old(steering.messages) + early)
      ensures base == old((messages, history.ended, steering.drained, followUps.drained)) && played == script
    {
      newMessages := prompts;
      var context := initial;
      var pending;
      pending, w := StartWalk(initial, prompts, early, skip, script);
      ghost var start, origin := base, w.origin;
      var k := 0;
      while true
        invariant base == start && played == script && k == |w.turns| <= |script|
        invariant w.prompts == prompts && w.initial == initial && w.origin == origin
        invariant Going(w, pending, context, newMessages)
        decreases |script| - k
      {
        var over, queued;
        over, context, newMessages, queued, k, w := RunTurns(pending, context, newMessages, script, k, w);
        if over {
          return;
        }
        pending, w := Rest(queued, context, newMessages, w);
        if pending == [] {
          return;
        }
      }
    }

    /** What waits before the first turn. */
    predicate FirstPoll(skip: bool, queue: seq<Message>, followed: seq<Message>, p: Point)
    {
      && p.followUps == followed
      && if skip then p.pending == [] && p.steering == queue else Polled(steering.mode, queue, p.pending, p.steering)
    }

    /** What a finished run guarantees. The messages that ended are the ones returned and the ones added
        to the state; every message taken from a queue was injected once, in order, and each queue
        gave its messages first in, first out; the responses are those of the script, and the
        results answer their calls in order, all of them without an abort; every call that started has
        finished; turns alternate and `agent_end` is last. */
    twostate predicate RanAll(prompts: seq<Message>, newMessages: seq<Message>, turns: seq<Turn>, steered: seq<Message>,
                              followed: seq<Message>)
      reads this, steering, followUps
    {
      && Valid() && newMessages == prompts + AllMessages(turns) && turns != []
      && history.ended == newMessages && messages == old(messages) + newMessages
      && Texts(taken) == AllInjected(turns)
      && steering.drained == steered + From(taken, true) && followUps.drained == followed + From(taken, false)
      && TurnsFit(turns, played, sequential)
      && (OneByOne() ==> forall i | 0 <= i < |turns| :: |turns[i].injected| <= 1)
      && history.started == history.finished && pendingToolCalls == {}
      && history.marks == Marks(turns) + [Over] && lastEvent == AgentEnd(newMessages)
    }

    method Begin(prompts: seq<Message>) returns (context: seq<Message>)
      modifies this
      ensures messages == old(messages) + prompts == context && taken == [] && pendingToolCalls == {}
      ensures history == History(prompts, [Opens], multiset{}, multiset{})
    {
      history, taken := NO_HISTORY, [];
      streaming, pendingToolCalls := None, {};
      context := messages + prompts;
      Emit(AgentStart);
      Emit(TurnStart);
      EmitMessages(prompts);
    }

    /** The run went as the walk says: on these messages and its prompts, through these turns, with these messages. */
    ghost predicate Went(w: Walk, was: seq<Message>, turns: seq<Turn>, newMessages: seq<Message>)
      reads this, steering, followUps
    {
      match w
      case Walk(prompts, initial, _, through, _) =>
        && initial == was + prompts && through == turns && newMessages == prompts + AllMessages(turns)
        && Walked(Arrangement(), w, Here([]), played, asked)
    }

    /** A run with prompts; a continuation has none. */
    method Run(prompts: seq<Message>, early: seq<Message>, skip: bool, script: seq<TurnScript>)
      returns (newMessages: seq<Message>, ghost turns: seq<Turn>, ghost w: Walk)
      requires Valid()
      modifies this, steering, followUps
      ensures RanAll(prompts, newMessages, turns, old(steering.drained), old(followUps.drained)) && played == script
      ensures w.prompts == prompts && Went(w, old(messages), turns, newMessages)
              && FirstPoll(skip, old(steering.messages) + early, old(followUps.messages), w.origin)
      ensures turns[0].injected == if skip then [] else DrainOf(steering.mode, old(steering.messages) + early)
    {
      var context := Begin(prompts);
      newMessages, w := RunLoop(context, prompts, early, skip, script);
      turns := w.turns;
      Associative(old(messages), prompts, AllMessages(turns));
    }

    /** `continue`: after an assistant message, queued messages take the place of a prompt. With queues
        that give one message at a time, the first turn begins with two queued messages if and only if
        it continues from a follow-up and something was queued to steer it meanwhile. */
    method Continue(early: seq<Message>, script: seq<TurnScript>)
      returns (ran: bool, newMessages: seq<Message>, ghost turns: seq<Turn>, ghost w: Walk)
      requires Valid()
      modifies this, steering, followUps
      ensures ran
              <==> old(messages) != []
                   && (old(messages)[|old(messages)| - 1].Assistant? ==>
                         old(steering.messages) + old(followUps.messages) != [])
      ensures !ran ==>
                messages == old(messages) && steering.messages == old(steering.messages)
                && followUps.messages == old(followUps.messages)
      ensures ran ==>
                var resumes := old(messages)[|old(messages)| - 1].Assistant?;
                var steers := resumes && old(steering.messages) != [];
                var follows := resumes && old(steering.messages) == [];
                var prompts := if steers then DrainOf(steering.mode, old(steering.messages))
                               else if follows then DrainOf(followUps.mode, old(followUps.messages)) else [];
                && played == script
                && RanAll(prompts, newMessages, turns, old(steering.drained) + (if steers then prompts else []),
                          old(followUps.drained) + (if follows then prompts else []))
                && (OneByOne() ==> (|prompts| + |turns[0].injected| == 2 <==> follows && early != [])
                                   && |prompts| + |turns[0].injected| <= 2)
      ensures ran ==>
                var how := if !old(messages)[|old(messages)| - 1].Assistant? then Afresh
                           else if old(steering.messages) != [] then Steer else FollowUp;
                StartsFrom(Arrangement(), how, old(Here([])), early, w.prompts, w.origin)
                && Went(w, old(messages), turns, newMessages)
    {
      ran, newMessages, turns, w := false, [], [], NO_WALK;
      if messages == [] {
        return;
      }
      if messages[|messages| - 1].Assistant? {
        ran, newMessages, turns, w := Resume(early, script);
      } else {
        newMessages, turns, w := RunAfresh(early, script);
        ran := true;
      }
    }

    /** After any other message, the run goes on without a prompt. */
    method RunAfresh(early: seq<Message>, script: seq<TurnScript>)
      returns (newMessages: seq<Message>, ghost turns: seq<Turn>, ghost w: Walk)
      requires Valid()
      modifies this, steering, followUps
      ensures RanAll([], newMessages, turns, old(steering.drained) + [], old(followUps.drained) + [])
              && played == script
      ensures StartsFrom(Arrangement(), Afresh, old(Here([])), early, w.prompts, w.origin)
              && Went(w, old(messages), turns, newMessages)
      ensures turns[0].injected == DrainOf(steering.mode, old(steering.messages) + early)
    {
      newMessages, turns, w := Run([], early, false, script);
      AppendNone(old(steering.drained));
      AppendNone(old(followUps.drained));
    }

    /** After an assistant message, what was queued takes the place of a prompt. */
    method Resume(early: seq<Message>, script: seq<TurnScript>)
      returns (ran: bool, newMessages: seq<Message>, ghost turns: seq<Turn>, ghost w: Walk)
      requires Valid()
      modifies this, steering, followUps
      ensures ran <==> old(steering.messages) + old(followUps.messages) != []
      ensures !ran ==>
                messages == old(messages) && steering.messages == old(steering.messages)
                && followUps.messages == old(followUps.messages)
      ensures ran ==>
                var steers := old(steering.messages) != [];
                var prompts := if steers then DrainOf(steering.mode, old(steering.messages))
                else DrainOf(followUps.mode, old(followUps.messages));
                && played == script
                && RanAll(prompts, newMessages, turns, old(steering.drained) + (if steers then prompts else []),
                          old(followUps.drained) + (if steers then [] else prompts))
                && turns[0].injected == (if steers then [] else DrainOf(steering.mode, early))
      ensures ran ==>
                && StartsFrom(Arrangement(), if old(steering.messages) != [] then Steer else FollowUp, old(Here([])),
                              early, w.prompts, w.origin)
                && Went(w, old(messages), turns, newMessages)
    {
      var queued := steering.Drain();
      DrainPolls(steering.mode, old(steering.messages), queued, steering.messages);
      if queued != [] {
        ghost var left := steering.messages;
        newMessages, turns, w := Run(queued, early, true, script);
        return true, newMessages, turns, w;
      }
      queued := followUps.Drain();
      if queued == [] {
        return false, [], [], NO_WALK;
      }
      DrainPolls(followUps.mode, old(followUps.messages), queued, followUps.messages);
      PrependNone(early);
      newMessages, turns, w := Run(queued, early, false, script);
      ran := true;
    }
  }

  lemma {:induction false} BooksTurn(start: seq<Message>, turns: seq<Turn>, t: Turn)
    ensures start + AllMessages(turns) + TurnMessages(t) == start + AllMessages(turns + [t])
    ensures AllInjected(turns) + t.injected == AllInjected(turns + [t]) + []
    ensures (forall i | 0 <= i < |turns| :: |turns[i].injected| <= 1) && |t.injected| <= 1 ==>
              forall i | 0 <= i <= |turns| :: |(turns + [t])[i].injected| <= 1
  {
    OneMoreTurn(turns, t);
  }

  lemma Parts(a: seq<Message>, t: Turn)
    ensures a + t.injected + [t.response] + t.results == a + TurnMessages(t)
    ensures t.results == [] ==> a + t.injected + [t.response] == a + TurnMessages(t)
  {
  }

  /** Every batch answers its first calls in order, and at least one. */
  lemma {:induction false} BatchAnswers(calls: seq<ToolCall>, attempts: nat -> Attempt, aborted: nat -> bool,
                                        late: nat -> bool)
    requires calls != []
    ensures |Sequential(calls, attempts, aborted)| > 0 && |Parallel(calls, attempts, aborted, late)| > 0
    ensures AnswersPrefix(calls, ResultMessages(Sequential(calls, attempts, aborted)))
    ensures AnswersPrefix(calls, ResultMessages(Parallel(calls, attempts, aborted, late)))
    ensures AnswersPrefix(calls, ResultMessages(Truncated(calls, |calls|)))
  {
    var n := Reached(|calls|, aborted, 0);
    assert n == if aborted(0) then 1 else Reached(|calls|, aborted, 1);
    var a, b := Sequential(calls, attempts, aborted), Parallel(calls, attempts, aborted, late);
    assert forall i: nat | i < n ::
             a[i] == Outcome(calls[i], attempts(i)) && b[i] == Parallelized(calls[i], attempts(i), late(i));
    FirstCalls(calls, a);
    FirstCalls(calls, b);
    FirstCalls(calls, Truncated(calls, |calls|));
  }

  lemma FirstCalls(calls: seq<ToolCall>, fs: seq<Finalized>)
    requires |fs| <= |calls| && forall i | 0 <= i < |fs| :: fs[i].call == calls[i]
    ensures AnswersPrefix(calls, ResultMessages(fs))
  {
  }

  /** The first `n` calls of a parallel batch, as they will end. */
  function Planned(calls: seq<ToolCall>, attempts: nat -> Attempt, late: nat -> bool, n: nat): seq<Finalized>
    requires n <= |calls|
  {
    seq(n, i requires 0 <= i < n => Parallelized(calls[i], attempts(i), late(i)))
  }

  /** One more call has started. */
  lemma {:induction false} PlannedStarts(g: multiset<Id>, calls: seq<ToolCall>, attempts: nat -> Attempt,
                                         late: nat -> bool, n: nat)
    requires n < |calls|
    ensures g + CallIds(Planned(calls, attempts, late, n)) + multiset{calls[n].id}
              == g + CallIds(Planned(calls, attempts, late, n + 1))
  {
    PlannedSnoc(calls, attempts, late, n, {});
  }

  /** One more call has started, and has finished or is left open. */
  lemma {:induction false} PlannedOpens(f: multiset<Id>, g: multiset<Id>, calls: seq<ToolCall>,
                                        attempts: nat -> Attempt, late: nat -> bool, n: nat, running: set<nat>)
    requires n < |calls| && forall i | i in running :: i < n
    requires f + OpenIds(Planned(calls, attempts, late, n), running) == g + CallIds(Planned(calls, attempts, late, n))
    ensures f + multiset{calls[n].id} + OpenIds(Planned(calls, attempts, late, n + 1), running)
              == g + CallIds(Planned(calls, attempts, late, n + 1))
    ensures f + OpenIds(Planned(calls, attempts, late, n + 1), running + {n})
              == g + CallIds(Planned(calls, attempts, late, n + 1))
  {
    PlannedSnoc(calls, attempts, late, n, running);
    var planned := Planned(calls, attempts, late, n);
    Balance(f, OpenIds(planned, running), g, CallIds(planned), multiset{calls[n].id});
  }

  /** One of the open calls has finished. */
  lemma {:induction false} OpenFinishes(f: multiset<Id>, g: multiset<Id>, all: seq<Finalized>, running: set<nat>,
                                        i: nat)
    requires i in running && i < |all| && f + OpenIds(all, running) == g
    ensures f + multiset{all[i].call.id} + OpenIds(all, running - {i}) == g
  {
    OpenLess(all, running, i);
    var o, x := OpenIds(all, running - {i}), multiset{all[i].call.id};
    assert f + x + o == f + (o + x);
  }

  lemma {:induction false} Balance(f: multiset<Id>, o: multiset<Id>, g: multiset<Id>, c: multiset<Id>, x: multiset<Id>)
    ensures f + o == g + c ==> f + x + o == g + (c + x) && f + (o + x) == g + (c + x)
    ensures g + c + x == g + (c + x)
  {
    assert g + c + x == g + (c + x);
    assert f + x + o == f + o + x && f + (o + x) == f + o + x;
  }

  lemma {:induction false} PlannedSnoc(calls: seq<ToolCall>, attempts: nat -> Attempt, late: nat -> bool, n: nat,
                                       running: set<nat>)
    requires n < |calls| && forall i | i in running :: i < n
    ensures var planned, id := Planned(calls, attempts, late, n), calls[n].id;
            && CallIds(Planned(calls, attempts, late, n + 1)) == CallIds(planned) + multiset{id}
            && OpenIds(Planned(calls, attempts, late, n + 1), running) == OpenIds(planned, running)
            && OpenIds(Planned(calls, attempts, late, n + 1), running + {n}) == OpenIds(planned, running) + multiset{id}
  {
    var planned, next := Planned(calls, attempts, late, n), Parallelized(calls[n], attempts(n), late(n));
    assert Planned(calls, attempts, late, n + 1) == planned + [next];
    SnocResults(planned, next);
    OpenSnoc(planned, next, running);
  }

  /** The calls of those results whose index is in `running`. */
  function OpenIds(fs: seq<Finalized>, running: set<nat>): multiset<Id>
  {
    if fs == [] then multiset{}
    else OpenIds(fs[..|fs| - 1], running) + if |fs| - 1 in running then multiset{fs[|fs| - 1].call.id} else multiset{}
  }

  lemma {:induction false} OpenSnoc(fs: seq<Finalized>, f: Finalized, running: set<nat>)
    requires forall i | i in running :: i < |fs|
    ensures OpenIds(fs + [f], running) == OpenIds(fs, running)
    ensures OpenIds(fs + [f], running + {|fs|}) == OpenIds(fs, running) + multiset{f.call.id}
  {
    assert (fs + [f])[..|fs|] == fs;
    OpenSame(fs, running, running + {|fs|});
  }

  lemma {:induction false} OpenSame(fs: seq<Finalized>, a: set<nat>, b: set<nat>)
    requires forall i: nat | i < |fs| :: i in a <==> i in b
    ensures OpenIds(fs, a) == OpenIds(fs, b)
  {
    if fs != [] {
      OpenSame(fs[..|fs| - 1], a, b);
    }
  }

  /** What the last one adds. */
  function OpenLast(fs: seq<Finalized>, running: set<nat>): multiset<Id>
    requires fs != []
  {
    if |fs| - 1 in running then multiset{fs[|fs| - 1].call.id} else multiset{}
  }

  lemma {:induction false} OpenSplit(fs: seq<Finalized>, running: set<nat>)
    requires fs != []
    ensures OpenIds(fs, running) == OpenIds(fs[..|fs| - 1], running) + OpenLast(fs, running)
  {
  }

  lemma {:induction false} OpenLess(fs: seq<Finalized>, running: set<nat>, i: nat)
    requires i in running && i < |fs|
    ensures OpenIds(fs, running) == OpenIds(fs, running - {i}) + multiset{fs[i].call.id}
  {
    var front := fs[..|fs| - 1];
    var less, id := OpenIds(front, running - {i}), multiset{fs[i].call.id};
    OpenSplit(fs, running);
    OpenSplit(fs, running - {i});
    if i == |fs| - 1 {
      OpenSame(front, running, running - {i});
      OtherOrder(less, multiset{}, id);
    } else {
      OpenLess(front, running, i);
      assert front[i] == fs[i] && OpenLast(fs, running) == OpenLast(fs, running - {i});
      OtherOrder(less, id, OpenLast(fs, running));
    }
  }

  lemma OtherOrder(a: multiset<Id>, b: multiset<Id>, c: multiset<Id>)
    ensures a + b + c == a + c + b
  {
  }

  lemma {:induction false} OpenNone(fs: seq<Finalized>)
    ensures OpenIds(fs, {}) == multiset{}
  {
    if fs != [] {
      OpenNone(fs[..|fs| - 1]);
    }
  }

  lemma Snoc<T>(a: seq<T>, b: seq<T>, k: nat)
    requires k < |b|
    ensures a + b[..k] + [b[k]] == a + b[..k + 1]
  {
  }

  lemma {:induction false} AddResult(ended: seq<Message>, fs: seq<Finalized>, f: Finalized)
    ensures ended + ResultMessages(fs) + [ResultMessage(f)] == ended + ResultMessages(fs + [f])
  {
    SnocResults(fs, f);
    Associative(ended, ResultMessages(fs), [ResultMessage(f)]);
  }

  lemma {:induction false} AddCall(calls: multiset<Id>, fs: seq<Finalized>, f: Finalized)
    ensures calls + CallIds(fs) + multiset{f.call.id} == calls + CallIds(fs + [f])
  {
    SnocResults(fs, f);
  }

  lemma SnocInOrder(calls: seq<ToolCall>, attempts: nat -> Attempt, k: nat)
    requires k < |calls|
    ensures InOrder(calls, attempts, k + 1) == InOrder(calls, attempts, k) + [Outcome(calls[k], attempts(k))]
  {
  }

  /** The calls of these results, each as often as it occurs. */
  function CallIds(fs: seq<Finalized>): multiset<Id>
  {
    if fs == [] then multiset{} else CallIds(fs[..|fs| - 1]) + multiset{fs[|fs| - 1].call.id}
  }

  lemma {:induction false} SnocResults(fs: seq<Finalized>, f: Finalized)
    ensures ResultMessages(fs + [f]) == ResultMessages(fs) + [ResultMessage(f)]
    ensures CallIds(fs + [f]) == CallIds(fs) + multiset{f.call.id}
  {
    assert (fs + [f])[..|fs|] == fs;
  }
}
