/** Messages, events and tool batches of packages/agent: what agent-loop.ts emits and what agent.ts makes of it. */
module AgentMessages {
  import opened Outcomes

  type Id = string

  datatype StopReason = Stop | Length | ToolUse | ProviderError | Aborted

  datatype ToolCall = ToolCall(id: Id, name: string)
  datatype ToolOutput = ToolOutput(content: string, terminate: bool)

  datatype Message =
    | User(text: string)
    | Assistant(text: string, stopReason: StopReason, calls: seq<ToolCall>)
    | ToolResult(callId: Id, name: string, content: string, isError: bool)

  datatype Event =
    | AgentStart
    | TurnStart
    | MessageStart(message: Message)
    | MessageUpdate(message: Message)
    | MessageEnd(message: Message)
    | ToolStart(callId: Id)
    | ToolEnd(callId: Id)
    | TurnEnd(message: Message, results: seq<Message>)
    | AgentEnd(messages: seq<Message>)

  // ---- What the events of a run tell ------------------------------------------------

  datatype Mark = Opens | Closes(response: Message, results: seq<Message>) | Over

  /** The messages of all `message_end` events; where turns open and close and the run is over; the
      calls of all `tool_execution_start` and of all `tool_execution_end` events. */
  datatype History = History(ended: seq<Message>, marks: seq<Mark>, started: multiset<Id>, finished: multiset<Id>)

  const NO_HISTORY := History([], [], multiset{}, multiset{})

  function Recorded(h: History, e: Event): History
  {
    match e
    case MessageEnd(m) => h.(ended := h.ended + [m])
    case TurnStart => h.(marks := h.marks + [Opens])
    case TurnEnd(response, results) => h.(marks := h.marks + [Closes(response, results)])
    case AgentEnd(_) => h.(marks := h.marks + [Over])
    case ToolStart(id) => h.(started := h.started + multiset{id})
    case ToolEnd(id) => h.(finished := h.finished + multiset{id})
    case _ => h
  }

  // ---- Tool batches -----------------------------------------------------------------

  /** What preparing, executing and finalizing a call yields; `immediate` calls are over when prepared. */
  datatype Attempt = Attempt(immediate: bool, output: ToolOutput, isError: bool)

  datatype Finalized = Finalized(call: ToolCall, output: ToolOutput, isError: bool)

  const ABORTED := ToolOutput("Operation aborted", false)
  const TRUNCATED := ToolOutput("Tool call was not executed: its arguments may be truncated", false)

  function Outcome(call: ToolCall, a: Attempt): Finalized { Finalized(call, a.output, a.isError) }

  function ResultMessage(f: Finalized): Message { ToolResult(f.call.id, f.call.name, f.output.content, f.isError) }

  function ResultMessages(fs: seq<Finalized>): seq<Message>
  {
    seq(|fs|, i requires 0 <= i < |fs| => ResultMessage(fs[i]))
  }

  /** How many calls a batch gets to: it stops after the first call at which the abort is seen. */
  function Reached(n: nat, aborted: nat -> bool, k: nat): (r: nat)
    requires k <= n
    ensures k <= r <= n
    decreases n - k
  {
    if k == n then n else if aborted(k) then k + 1 else Reached(n, aborted, k + 1)
  }

  function InOrder(calls: seq<ToolCall>, attempts: nat -> Attempt, n: nat): seq<Finalized>
    requires n <= |calls|
  {
    seq(n, i requires 0 <= i < n => Outcome(calls[i], attempts(i)))
  }

  /** What a sequential batch comes to. */
  function Sequential(calls: seq<ToolCall>, attempts: nat -> Attempt, aborted: nat -> bool): seq<Finalized>
  {
    InOrder(calls, attempts, Reached(|calls|, aborted, 0))
  }

  /** A call that runs in parallel with others; `late` says that it starts only after an abort. */
  function Parallelized(call: ToolCall, a: Attempt, late: bool): Finalized
  {
    if !a.immediate && late then Finalized(call, ABORTED, true) else Outcome(call, a)
  }

  function Parallel(calls: seq<ToolCall>, attempts: nat -> Attempt, aborted: nat -> bool,
                    late: nat -> bool): seq<Finalized>
  {
    seq(Reached(|calls|, aborted, 0),
        i requires 0 <= i < Reached(|calls|, aborted, 0) => Parallelized(calls[i], attempts(i), late(i)))
  }

  function Truncated(calls: seq<ToolCall>, n: nat): seq<Finalized>
    requires n <= |calls|
  {
    seq(n, i requires 0 <= i < n => Finalized(calls[i], TRUNCATED, true))
  }

  predicate Terminates(fs: seq<Finalized>)
  {
    |fs| > 0 && forall i | 0 <= i < |fs| :: fs[i].output.terminate
  }

  /** The results are those of the first calls, in the order of the calls. */
  predicate AnswersPrefix(calls: seq<ToolCall>, results: seq<Message>)
  {
    && |results| <= |calls|
    && forall i | 0 <= i < |results| ::
         results[i].ToolResult? && results[i].callId == calls[i].id && results[i].name == calls[i].name
  }

  lemma {:induction false} ReachedAll(n: nat, aborted: nat -> bool, k: nat)
    requires k <= n && forall i: nat | i < n :: !aborted(i)
    ensures Reached(n, aborted, k) == n
    decreases n - k
  {
    if k < n {
      ReachedAll(n, aborted, k + 1);
    }
  }

  /** Without an abort, both modes come to the same results and the same decision to go on. */
  lemma {:induction false} ParallelIsSequential(calls: seq<ToolCall>, attempts: nat -> Attempt, aborted: nat -> bool,
                                                late: nat -> bool)
    requires forall i: nat | i < |calls| :: !aborted(i) && !late(i)
    ensures Parallel(calls, attempts, aborted, late) == Sequential(calls, attempts, aborted)
              == InOrder(calls, attempts, |calls|)
    ensures AnswersPrefix(calls, ResultMessages(Parallel(calls, attempts, aborted, late)))
    ensures |ResultMessages(Parallel(calls, attempts, aborted, late))| == |calls|
  {
    ReachedAll(|calls|, aborted, 0);
  }
}
