/** What the broker knows of a room is what its Studio published last, and every request ends as it should:
    packages/decorator-agent/src/studio-broker.ts. */
module StudioRooms {
  import opened Outcomes
  import opened StudioContract
  import opened StudioReplies
  import opened StudioBrokerState

  /** What a Studio says about its room. */
  datatype Note = Whole(sequence: int, room: Snapshot) | Selected(sequence: int, ids: seq<Id>)

  // ---- What is accepted -----------------------------------------------------------------

  /** The caller holds the live connection of its tab. */
  predicate MaySpeak(s: State, e: nat, generation: Id)
  {
    && e < |s.endpoints| && !s.endpoints[e].released && !s.closed
    && s.endpoints[e].connection.Some? && s.endpoints[e].connection.value.generation == generation
    && var tab := s.endpoints[e].connection.value.binding.tabId; tab in s.connections && s.connections[tab] == e
  }

  /** A room of the right design and registration, with a number that an integer can hold. */
  predicate RoomAdmitted(c: Connection, update: ContextUpdate)
  {
    && update.generation == c.generation && update.snapshot.designId == c.binding.designId
    && 0 <= update.sequence <= 9007199254740991
    && (update.sequence > c.sequence ==> update.snapshot.designId != "" && update.snapshot.revision != "")
  }

  /** And newer than all that was accepted before. */
  predicate RoomAccepted(c: Connection, update: ContextUpdate)
  {
    RoomAdmitted(c, update) && update.sequence > c.sequence
  }

  predicate SelectionAccepted(c: Connection, update: SelectionUpdate)
  {
    0 <= update.sequence <= 9007199254740991 && update.sequence > c.sequence && c.snapshot.Some?
    && "" !in update.selected
  }

  /** What is reported of one edit has the form of that edit. */
  predicate Reports(action: Action, result: EditResult)
  {
    match action
    case Add(_, quantity, _) => result.Instances? && |result.created| == quantity
    case Duplicate(_, quantity, _) => result.Instances? && |result.created| == quantity
    case Remove => result.Edited? && result.after.None?
    case _ => result.Edited? && result.after.Some?
  }

  /** A report that may be believed: it is about this command and, if it says that it was saved, tells one
      outcome for every edit, of the right form and in order, and the room and revision that were saved. */
  predicate Credible(designId: Id, command: Command, result: CommandResult)
  {
    && result.commandId == command.commandId
    && (result.Saved? ==>
          && result.snapshot.designId == designId != ""
          && result.revision == result.snapshot.revision != ""
          && match (command.payload, result.evidence) {
             case (Single(edit), SingleResult(r)) => Reports(edit.action, r)
             case (Batch(edits), BatchResults(rs)) =>
               |rs| == |edits| && forall i | 0 <= i < |edits| :: Reports(edits[i].action, rs[i])
             case _ => false
             })
  }

  lemma {:induction false} CredibleIs(designId: Id, command: Command, result: CommandResult)
    ensures Credible(designId, command, result) <==> RefuseResult(designId, command, result).None?
  {
    if result.Saved? {
      forall action, r ensures Reports(action, r) <==> OutcomeMatches(action, r) {
      }
      match (command.payload, result.evidence)
      case (Single(edit), SingleResult(r)) =>
        assert command.payload.Edits() == [edit] && result.evidence.Results() == [r];
        assert Reports(edit.action, r)
          <==> OutcomeMatches(command.payload.Edits()[0].action, result.evidence.Results()[0]);
      case (Batch(edits), BatchResults(rs)) =>
        assert command.payload.Edits() == edits && result.evidence.Results() == rs;
      case _ =>
    }
  }

  /** The reply is for an open request of this connection. */
  predicate Answers(s: State, e: nat, response: Response)
  {
    && MaySpeak(s, e, response.generation)
    && response.requestId in s.pending && s.pending[response.requestId].endpoint == e
  }

  /** The room that a reply brings: the answer to a context request, or what comes with a believed result. */
  function RoomOf(s: State, e: nat, response: Response): Option<ContextUpdate>
    requires Answers(s, e, response)
  {
    var ask := s.pending[response.requestId].request.ask;
    match response.body
    case ContextBody(update) => if ask.AskContext? then Some(update) else None
    case ResultBody(result, update) =>
      if ask.AskExecute? && Credible(s.endpoints[e].connection.value.binding.designId, ask.command, result)
      then update else None
    case _ => None
  }

  /** What a step makes the broker accept about the room of an endpoint. */
  function NoteOf(s: State, step: Step, e: nat): Option<Note>
  {
    match step
    case Publishes(at, update) =>
      if at == e && MaySpeak(s, e, update.generation) && RoomAccepted(s.endpoints[e].connection.value, update)
      then Some(Whole(update.sequence, update.snapshot)) else None
    case Selects(at, selection) =>
      if at == e && MaySpeak(s, e, selection.generation)
         && SelectionAccepted(s.endpoints[e].connection.value, selection)
      then Some(Selected(selection.sequence, selection.selected)) else None
    case Responds(at, response) =>
      if at == e && Answers(s, e, response) && RoomOf(s, e, response).Some?
         && RoomAccepted(s.endpoints[e].connection.value, RoomOf(s, e, response).value)
      then
        var update := RoomOf(s, e, response).value;
        Some(Whole(update.sequence, update.snapshot))
      else None
    case _ => None
  }

  /** All that was accepted about the room of an endpoint before state `k`. */
  function Notes(states: seq<State>, steps: seq<Step>, k: nat, e: nat): seq<Note>
    requires k <= |steps| && k <= |states|
  {
    if k == 0 then []
    else
      var note := NoteOf(states[k - 1], steps[k - 1], e);
      Notes(states, steps, k - 1, e) + if note.Some? then [note.value] else []
  }

  /** The last room, with the last selection after it. */
  function RoomFrom(notes: seq<Note>): Option<Snapshot>
  {
    if notes == [] then None
    else
      match notes[|notes| - 1]
      case Whole(_, room) => Some(room)
      case Selected(_, ids) =>
        var before := RoomFrom(notes[..|notes| - 1]);
        if before.None? then None else Some(before.value.(selected := ids))
  }

  function LastNumber(notes: seq<Note>): int { if notes == [] then -1 else notes[|notes| - 1].sequence }

  /** The connection knows exactly what was accepted. */
  predicate Knows(c: Connection, notes: seq<Note>)
  {
    c.sequence == LastNumber(notes) && c.snapshot == RoomFrom(notes)
  }

  /** What one note does to what is known. */
  predicate Learns(was: Connection, c: Connection, note: Option<Note>)
  {
    match note
    case None => c.sequence == was.sequence && c.snapshot == was.snapshot
    case Some(Whole(sequence, room)) => c.sequence == sequence && c.snapshot == Some(room)
    case Some(Selected(sequence, ids)) =>
      c.sequence == sequence && was.snapshot.Some? && c.snapshot == Some(was.snapshot.value.(selected := ids))
  }

  predicate Registered(s: State, e: nat) { e < |s.endpoints| && s.endpoints[e].connection.Some? }

  predicate Gone(s: State, e: nat) { e < |s.endpoints| && s.endpoints[e].released }

  /** What a step does to an endpoint: one that is registered and not gone learns what is noted. */
  predicate StepLearns(a: State, b: State, step: Step, e: nat)
  {
    && (Registered(a, e) ==> Registered(b, e))
    && (Gone(a, e) ==> Gone(b, e))
    && (!Registered(a, e) ==> NoteOf(a, step, e).None?)
    && (Registered(b, e) && !Gone(b, e) ==>
          var c := b.endpoints[e].connection.value;
          if Registered(a, e) then Learns(a.endpoints[e].connection.value, c, NoteOf(a, step, e))
          else c.sequence == -1 && c.snapshot.None?)
  }

  lemma {:induction false} MaySpeakIs(s: State, e: nat, generation: Id)
    requires e < |s.endpoints|
    ensures MaySpeak(s, e, generation) <==> Authorize(s, e, generation).Ok?
    ensures MaySpeak(s, e, generation) ==> Authorize(s, e, generation) == Ok(s.endpoints[e].connection.value)
  {
  }

  lemma {:induction false} AppliedIs(s: State, e: nat, update: ContextUpdate)
    requires e < |s.endpoints| && s.endpoints[e].connection.Some?
    ensures var c, r := s.endpoints[e].connection.value, ApplyContext(s, e, update);
            && (r.Ok? <==> RoomAdmitted(c, update))
            && (r.Ok? ==> r.value == if !RoomAccepted(c, update) then s
                 else WithConnection(s, e, c.(sequence := update.sequence, snapshot := Some(update.snapshot))))
  {
  }

  // ---- Every step ---------------------------------------------------------------------

  /** The endpoints are as before, mailboxes apart. */
  ghost predicate SameConnections(a: State, b: State)
  {
    |b.endpoints| == |a.endpoints|
    && forall e: nat | e < |a.endpoints| :: b.endpoints[e] == a.endpoints[e].(mailbox := b.endpoints[e].mailbox)
  }

  lemma {:induction false} FinishKeepsConnections(s: State, ids: set<Id>, outcome: Outcome)
    ensures SameConnections(s, Finish(s, ids, outcome))
  {
  }

  /** The endpoints are as before, mailboxes apart, except that `at` has learned what is noted. */
  ghost predicate OneLearns(a: State, b: State, at: nat, note: Option<Note>)
  {
    && |b.endpoints| == |a.endpoints|
    && (forall e: nat | e < |a.endpoints| && e != at ::
          b.endpoints[e] == a.endpoints[e].(mailbox := b.endpoints[e].mailbox))
    && (at < |a.endpoints| ==>
          && b.endpoints[at].released == a.endpoints[at].released
          && b.endpoints[at].connection.Some? == a.endpoints[at].connection.Some?
          && (a.endpoints[at].connection.Some? ==>
                Learns(a.endpoints[at].connection.value, b.endpoints[at].connection.value, note)))
  }

  lemma {:induction false} ApplyLearns(s: State, e: nat, update: ContextUpdate)
    requires e < |s.endpoints| && s.endpoints[e].connection.Some? && ApplyContext(s, e, update).Ok?
    ensures var c := s.endpoints[e].connection.value;
            OneLearns(s, ApplyContext(s, e, update).value, e,
                      if RoomAccepted(c, update) then Some(Whole(update.sequence, update.snapshot)) else None)
  {
    AppliedIs(s, e, update);
  }

  lemma {:induction false} LearnsThrough(a: State, b: State, c: State, at: nat, note: Option<Note>)
    requires || (OneLearns(a, b, at, note) && SameConnections(b, c))
             || (SameConnections(a, b) && OneLearns(b, c, at, note))
    ensures OneLearns(a, c, at, note)
  {
  }

  lemma {:induction false} SameLearnsNothing(a: State, b: State, at: nat)
    requires SameConnections(a, b)
    ensures OneLearns(a, b, at, None)
  {
  }

  lemma {:induction false} DeliverContextLearns(s: State, e: nat, response: Response)
    requires Answers(s, e, response) && response.body.ContextBody?
    ensures var t := Deliver(s, e, s.pending[response.requestId].request, response).0;
            OneLearns(s, t, e, NoteOf(s, Responds(e, response), e))
  {
    var request, update := s.pending[response.requestId].request, response.body.update;
    AppliedIs(s, e, update);
    if request.ask.AskContext? && ApplyContext(s, e, update).Ok? {
      var applied := ApplyContext(s, e, update).value;
      ApplyLearns(s, e, update);
      FinishKeepsConnections(applied, {response.requestId}, Resolved(response.body));
      LearnsThrough(s, applied, Finish(applied, {response.requestId}, Resolved(response.body)), e,
                    NoteOf(s, Responds(e, response), e));
    } else {
      SameLearnsNothing(s, s, e);
    }
  }

  lemma {:induction false} DeliverResultLearns(s: State, e: nat, response: Response)
    requires Answers(s, e, response) && response.body.ResultBody?
    ensures var t := Deliver(s, e, s.pending[response.requestId].request, response).0;
            OneLearns(s, t, e, NoteOf(s, Responds(e, response), e))
  {
    var request, update := s.pending[response.requestId].request, response.body.context;
    var done := Finish(s, {response.requestId}, Resolved(response.body));
    FinishKeepsConnections(s, {response.requestId}, Resolved(response.body));
    if request.ask.AskExecute? {
      CredibleIs(s.endpoints[e].connection.value.binding.designId, request.ask.command, response.body.result);
    }
    SameLearnsNothing(s, s, e);
    SameLearnsNothing(s, done, e);
    if update.Some? {
      AppliedIs(done, e, update.value);
      if ApplyContext(done, e, update.value).Ok? {
        ApplyLearns(done, e, update.value);
        LearnsThrough(s, done, ApplyContext(done, e, update.value).value, e,
                      if RoomAccepted(s.endpoints[e].connection.value, update.value)
                      then Some(Whole(update.value.sequence, update.value.snapshot)) else None);
      }
    }
  }

  lemma {:induction false} DeliverLearns(s: State, e: nat, response: Response)
    requires Answers(s, e, response)
    ensures var t := Deliver(s, e, s.pending[response.requestId].request, response).0;
            OneLearns(s, t, e, NoteOf(s, Responds(e, response), e))
  {
    match response.body
    case ContextBody(_) => DeliverContextLearns(s, e, response);
    case ResultBody(_, _) => DeliverResultLearns(s, e, response);
    case ErrorBody(_) =>
      FinishKeepsConnections(s, {response.requestId}, Resolved(response.body));
      SameLearnsNothing(s, Finish(s, {response.requestId}, Resolved(response.body)), e);
    case OtherBody => SameLearnsNothing(s, s, e);
  }

  lemma {:induction false} RespondLearns(s: State, e: nat, response: Response)
    requires e < |s.endpoints|
    ensures OneLearns(s, Respond(s, e, response).0, e, NoteOf(s, Responds(e, response), e))
  {
    MaySpeakIs(s, e, response.generation);
    if Answers(s, e, response) {
      var next := Deliver(s, e, s.pending[response.requestId].request, response).0;
      DeliverLearns(s, e, response);
      FinishKeepsConnections(next, {response.requestId}, Failed(OutcomeUnknown));
      LearnsThrough(s, next, Finish(next, {response.requestId}, Failed(OutcomeUnknown)), e,
                    NoteOf(s, Responds(e, response), e));
    } else {
      SameLearnsNothing(s, s, e);
    }
  }

  /** One endpoint learns, the others keep what they know. */
  lemma {:induction false} OneStepLearns(a: State, b: State, step: Step, at: nat, e: nat)
    requires at < |a.endpoints| && OneLearns(a, b, at, NoteOf(a, step, at))
    requires e != at ==> NoteOf(a, step, e).None?
    ensures StepLearns(a, b, step, e)
  {
    if !Registered(a, e) {
      NoNoteBefore(a, step, e);
    }
  }

  lemma {:induction false} NoNoteBefore(s: State, step: Step, e: nat)
    requires !Registered(s, e)
    ensures NoteOf(s, step, e).None?
  {
  }

  lemma {:induction false} SameStepLearns(a: State, b: State, step: Step, e: nat)
    requires SameConnections(a, b) && NoteOf(a, step, e).None?
    ensures StepLearns(a, b, step, e)
  {
  }

  lemma {:induction false} PublishLearns(s: State, at: nat, update: ContextUpdate, e: nat)
    ensures StepLearns(s, Next(s, Publishes(at, update)), Publishes(at, update), e)
  {
    var step := Publishes(at, update);
    if at < |s.endpoints| {
      MaySpeakIs(s, at, update.generation);
      SameLearnsNothing(s, s, at);
      if MaySpeak(s, at, update.generation) {
        AppliedIs(s, at, update);
        if ApplyContext(s, at, update).Ok? {
          ApplyLearns(s, at, update);
        }
      }
      OneStepLearns(s, Next(s, step), step, at, e);
    }
  }

  lemma {:induction false} SelectLearns(s: State, at: nat, selection: SelectionUpdate, e: nat)
    ensures StepLearns(s, Next(s, Selects(at, selection)), Selects(at, selection), e)
  {
    var step := Selects(at, selection);
    if at < |s.endpoints| {
      MaySpeakIs(s, at, selection.generation);
      OneStepLearns(s, Next(s, step), step, at, e);
    }
  }

  lemma {:induction false} RespondStepLearns(s: State, at: nat, response: Response, e: nat)
    ensures StepLearns(s, Next(s, Responds(at, response)), Responds(at, response), e)
  {
    if at < |s.endpoints| {
      RespondLearns(s, at, response);
      OneStepLearns(s, Respond(s, at, response).0, Responds(at, response), at, e);
    }
  }

  lemma {:induction false} ReleaseLearns(s: State, at: nat, e: nat)
    ensures StepLearns(s, Next(s, Releases(at)), Releases(at), e)
  {
  }

  /** The steps without a note. */
  lemma {:induction false} OtherStepLearns(s: State, step: Step, e: nat)
    requires step.Attaches? || step.Registers? || step.IsReady? || step.Sends?
    ensures StepLearns(s, Next(s, step), step, e)
  {
  }

  lemma {:induction false} EndingStepLearns(s: State, step: Step, e: nat)
    requires step.TimesOut? || step.Stops? || step.Closes?
    ensures StepLearns(s, Next(s, step), step, e)
  {
    match step
    case TimesOut(id) =>
      if id in s.pending {
        FinishKeepsConnections(s, {id}, Failed(if s.pending[id].request.ask.AskContext? then StudioUnavailable
                                               else OutcomeUnknown));
      }
      SameStepLearns(s, Next(s, step), step, e);
    case Stops(id) =>
      FinishKeepsConnections(s, {id}, Failed(OutcomeUnknown));
      SameStepLearns(s, Next(s, step), step, e);
    case Closes =>
      FinishKeepsConnections(s.(closed := true), s.pending.Keys, Failed(StudioUnavailable));
      SameStepLearns(s, Next(s, step), step, e);
  }

  lemma {:induction false} EveryStepLearns(s: State, step: Step, e: nat)
    ensures StepLearns(s, Next(s, step), step, e)
  {
    match step
    case Publishes(at, update) => PublishLearns(s, at, update, e);
    case Selects(at, selection) => SelectLearns(s, at, selection, e);
    case Responds(at, response) => RespondStepLearns(s, at, response, e);
    case Releases(at) => ReleaseLearns(s, at, e);
    case TimesOut(_) => EndingStepLearns(s, step, e);
    case Stops(_) => EndingStepLearns(s, step, e);
    case Closes => EndingStepLearns(s, step, e);
    case _ => OtherStepLearns(s, step, e);
  }

  // ---- Whole runs ---------------------------------------------------------------------

  /** Every note has a greater number than those before it. */
  ghost predicate Ascending(notes: seq<Note>)
  {
    forall i, j | 0 <= i < j < |notes| :: notes[i].sequence < notes[j].sequence
  }

  /** What is known of an endpoint is what was noted; nothing is noted before it is registered. */
  ghost predicate Informed(s: State, e: nat, notes: seq<Note>)
  {
    && Ascending(notes)
    && (!Registered(s, e) ==> notes == [])
    && (Registered(s, e) && !Gone(s, e) ==> Knows(s.endpoints[e].connection.value, notes))
  }

  lemma {:induction false} NotesExtend(notes: seq<Note>, note: Note)
    requires Ascending(notes) && LastNumber(notes) < note.sequence
    ensures Ascending(notes + [note]) && LastNumber(notes + [note]) == note.sequence
  {
    var all := notes + [note];
    forall i, j | 0 <= i < j < |all| ensures all[i].sequence < all[j].sequence {
      assert i < |notes| ==> notes[i].sequence <= notes[|notes| - 1].sequence;
    }
  }

  lemma {:induction false} KnowsMore(was: Connection, c: Connection, notes: seq<Note>, note: Note)
    requires Knows(was, notes) && Learns(was, c, Some(note))
    ensures Knows(c, notes + [note])
  {
    assert (notes + [note])[..|notes|] == notes;
  }

  lemma {:induction false} NotesAreNewer(s: State, step: Step, e: nat)
    requires NoteOf(s, step, e).Some?
    ensures Registered(s, e) && !Gone(s, e)
            && s.endpoints[e].connection.value.sequence < NoteOf(s, step, e).value.sequence
  {
  }

  lemma {:induction false} InformedNext(a: State, b: State, step: Step, e: nat, notes: seq<Note>)
    requires Informed(a, e, notes) && StepLearns(a, b, step, e)
    ensures Informed(b, e, notes + if NoteOf(a, step, e).Some? then [NoteOf(a, step, e).value] else [])
  {
    var note := NoteOf(a, step, e);
    if note.Some? {
      NotesAreNewer(a, step, e);
      NotesExtend(notes, note.value);
      if !Gone(b, e) {
        KnowsMore(a.endpoints[e].connection.value, b.endpoints[e].connection.value, notes, note.value);
      }
    } else {
      assert notes + [] == notes;
    }
  }

  lemma {:induction false} AlwaysInformed(states: seq<State>, steps: seq<Step>, k: nat, e: nat)
    requires Run(states, steps) && k < |states|
    ensures Informed(states[k], e, Notes(states, steps, k, e))
  {
    if k > 0 {
      AlwaysInformed(states, steps, k - 1, e);
      EveryStepLearns(states[k - 1], steps[k - 1], e);
      InformedNext(states[k - 1], states[k], steps[k - 1], e, Notes(states, steps, k - 1, e));
    }
  }

  /** Note `i` is the last one about a whole room. */
  ghost predicate LastRoom(notes: seq<Note>, i: nat)
  {
    i < |notes| && notes[i].Whole? && forall j | i < j < |notes| :: notes[j].Selected?
  }

  lemma {:induction false} RoomFromLast(notes: seq<Note>, i: nat)
    requires LastRoom(notes, i)
    ensures RoomFrom(notes) == Some(if i == |notes| - 1 then notes[i].room
                                    else notes[i].room.(selected := notes[|notes| - 1].ids))
  {
    var n := |notes| - 1;
    if i < n {
      RoomFromLast(notes[..n], i);
    }
  }

  /** Over every run, the room of a live connection is the one that its Studio published with the greatest
      number among all that were accepted, with the selection that was accepted last after it; the number
      that the connection holds is that of the last note, and every accepted note had a greater one. */
  lemma {:induction false} RoomIsTheNewest(states: seq<State>, steps: seq<Step>, k: nat, e: nat)
    requires Run(states, steps) && k < |states| && Registered(states[k], e) && !Gone(states[k], e)
    ensures var c, notes := states[k].endpoints[e].connection.value, Notes(states, steps, k, e);
            && Ascending(notes)
            && (notes == [] ==> c.snapshot.None? && c.sequence == -1)
            && (notes != [] ==> c.snapshot.Some? && c.sequence == notes[|notes| - 1].sequence)
            && (forall i: nat | LastRoom(notes, i) ::
                  c.snapshot == Some(if i == |notes| - 1 then notes[i].room
                                     else notes[i].room.(selected := notes[|notes| - 1].ids)))
            && (notes != [] ==> exists i: nat :: LastRoom(notes, i))
  {
    AlwaysInformed(states, steps, k, e);
    var notes := Notes(states, steps, k, e);
    forall i: nat | LastRoom(notes, i)
      ensures RoomFrom(notes) == Some(if i == |notes| - 1 then notes[i].room
                                      else notes[i].room.(selected := notes[|notes| - 1].ids))
    {
      RoomFromLast(notes, i);
    }
    if notes != [] {
      FirstIsWhole(states, steps, k, e);
      SomeLastRoom(notes);
    }
  }

  /** Before a room is known, a selection is not accepted. */
  lemma {:induction false} FirstIsWhole(states: seq<State>, steps: seq<Step>, k: nat, e: nat)
    requires Run(states, steps) && k < |states| && Notes(states, steps, k, e) != []
    ensures Notes(states, steps, k, e)[0].Whole?
  {
    if Notes(states, steps, k - 1, e) == [] {
      AlwaysInformed(states, steps, k - 1, e);
      WholeFirst(states[k - 1], steps[k - 1], e);
    } else {
      FirstIsWhole(states, steps, k - 1, e);
    }
  }

  lemma {:induction false} WholeFirst(s: State, step: Step, e: nat)
    requires Informed(s, e, []) && NoteOf(s, step, e).Some?
    ensures NoteOf(s, step, e).value.Whole?
  {
  }

  lemma {:induction false} SomeLastRoom(notes: seq<Note>)
    requires notes != [] && notes[0].Whole?
    ensures RoomFrom(notes).Some? && exists i: nat :: LastRoom(notes, i)
  {
    var n := |notes| - 1;
    if notes[n].Whole? {
      assert LastRoom(notes, n);
    } else {
      SomeLastRoom(notes[..n]);
      var i: nat :| LastRoom(notes[..n], i);
      assert LastRoom(notes, i);
    }
  }

  // ---- How requests end ---------------------------------------------------------------

  /** What a reply makes of the open request it is for, if it ends it. */
  function EndByReply(s: State, e: nat, response: Response): Option<Outcome>
    requires Answers(s, e, response)
  {
    var c, ask := s.endpoints[e].connection.value, s.pending[response.requestId].request.ask;
    match response.body
    case ContextBody(update) =>
      if ask.AskContext? && RoomAdmitted(c, update) then Some(Resolved(response.body)) else None
    case ResultBody(result, _) =>
      if ask.AskContext? then None
      else if Credible(c.binding.designId, ask.command, result) then Some(Resolved(response.body))
      else if result.Saved? then Some(Failed(OutcomeUnknown))
      else None
    case ErrorBody(_) => Some(Resolved(response.body))
    case OtherBody => None
  }

  /** What a step makes of an open request, if it ends it. */
  function EndOf(s: State, step: Step, id: Id): Option<Outcome>
    requires id in s.pending
  {
    match step
    case Responds(e, response) =>
      if response.requestId == id && Answers(s, e, response) then EndByReply(s, e, response) else None
    case Releases(e) => if e == s.pending[id].endpoint then Some(Failed(StudioUnavailable)) else None
    case TimesOut(late) =>
      if late != id then None
      else if s.pending[id].request.ask.AskContext? then Some(Failed(StudioUnavailable))
      else Some(Failed(OutcomeUnknown))
    case Stops(stopped) => if stopped == id then Some(Failed(OutcomeUnknown)) else None
    case Closes => Some(Failed(StudioUnavailable))
    case _ => None
  }

  /** The request goes on, or is over as told. */
  predicate EndsAs(s: State, t: State, id: Id, end: Option<Outcome>)
    requires id in s.pending
  {
    match end
    case None => id in t.pending && t.pending[id] == s.pending[id]
    case Some(outcome) => id !in t.pending && id in t.finished && t.finished[id] == outcome
  }

  lemma {:induction false} ApplyEndsNothing(s: State, e: nat, update: ContextUpdate, id: Id)
    requires Registered(s, e)
    ensures var t := Or(ApplyContext(s, e, update), s); t.pending == s.pending && t.finished == s.finished
  {
  }

  lemma {:induction false} DeliverEnds(s: State, e: nat, response: Response, id: Id)
    requires Answers(s, e, response) && id in s.pending
    ensures var (t, error) := Deliver(s, e, s.pending[response.requestId].request, response);
            var body := response.body;
            && (body.ContextBody? ==>
                  EndsAs(s, t, id, if id == response.requestId then EndByReply(s, e, response) else None))
            && (body.ErrorBody? || body.OtherBody? ==>
                  EndsAs(s, t, id, if id == response.requestId then EndByReply(s, e, response) else None))
  {
    var request := s.pending[response.requestId].request;
    FinishedPointwise(s, {response.requestId}, Resolved(response.body), id);
    match response.body
    case ContextBody(update) =>
      AppliedIs(s, e, update);
      ApplyEndsNothing(s, e, update, id);
      if request.ask.AskContext? && ApplyContext(s, e, update).Ok? {
        FinishedPointwise(ApplyContext(s, e, update).value, {response.requestId}, Resolved(response.body), id);
      }
    case _ =>
  }

  lemma {:induction false} DeliverResultEnds(s: State, e: nat, response: Response, id: Id)
    requires Answers(s, e, response) && id in s.pending && response.body.ResultBody?
    ensures var ask := s.pending[response.requestId].request.ask;
            var (t, error) := Deliver(s, e, s.pending[response.requestId].request, response);
            var believed := ask.AskExecute?
              && Credible(s.endpoints[e].connection.value.binding.designId, ask.command, response.body.result);
            && (!believed ==> error.Some?)
            && EndsAs(s, t, id, if id == response.requestId && believed then Some(Resolved(response.body)) else None)
  {
    var request, update := s.pending[response.requestId].request, response.body.context;
    var done := Finish(s, {response.requestId}, Resolved(response.body));
    FinishedPointwise(s, {response.requestId}, Resolved(response.body), id);
    if request.ask.AskExecute? {
      CredibleIs(s.endpoints[e].connection.value.binding.designId, request.ask.command, response.body.result);
    }
    FinishKeepsConnections(s, {response.requestId}, Resolved(response.body));
    if update.Some? {
      ApplyEndsNothing(done, e, update.value, id);
    }
  }

  lemma {:induction false} RespondEnds(s: State, e: nat, response: Response, id: Id)
    requires id in s.pending && e < |s.endpoints|
    ensures EndsAs(s, Respond(s, e, response).0, id,
                   if response.requestId == id && Answers(s, e, response) then EndByReply(s, e, response) else None)
  {
    MaySpeakIs(s, e, response.generation);
    if Answers(s, e, response) {
      DeliverEnds(s, e, response, id);
      if response.body.ResultBody? {
        DeliverResultEnds(s, e, response, id);
      }
      var next := Deliver(s, e, s.pending[response.requestId].request, response).0;
      FinishedPointwise(next, {response.requestId}, Failed(OutcomeUnknown), id);
    }
  }

  lemma {:induction false} OwnerServes(s: State, id: Id)
    requires Sound(s, {}) && id in s.pending
    ensures var p := s.pending[id];
            Live(s, p) && Registered(s, p.endpoint) && !Gone(s, p.endpoint)
  {
    assert Live(s, s.pending[id]);
    var tab := s.pending[id].request.binding.tabId;
    assert Serves(s, tab, s.connections[tab]);
  }

  lemma {:induction false} ReleaseEnds(s: State, e: nat, id: Id)
    requires id in s.pending && Live(s, s.pending[id]) && !Gone(s, s.pending[id].endpoint)
    ensures EndsAs(s, Next(s, Releases(e)), id, EndOf(s, Releases(e), id))
  {
  }

  /** Every way for a request to end, and how the caller sees it: an answer that fits, a report of a save that
      cannot be believed, a Studio that goes away, a late or an abandoned answer, a broker that closes; no
      other step touches an open request. */
  lemma {:induction false} EndsExactly(s: State, step: Step, id: Id)
    requires Sound(s, {}) && id in s.pending && (step.Sends? ==> step.requestId != id)
    ensures EndsAs(s, Next(s, step), id, EndOf(s, step, id))
  {
    match step
    case Releases(e) =>
      OwnerServes(s, id);
      ReleaseEnds(s, e, id);
    case _ => OtherEnds(s, step, id);
  }

  lemma {:induction false} OtherEnds(s: State, step: Step, id: Id)
    requires id in s.pending && (step.Sends? ==> step.requestId != id) && !step.Releases?
    ensures EndsAs(s, Next(s, step), id, EndOf(s, step, id))
  {
    match step
    case Responds(e, response) =>
      if e < |s.endpoints| {
        RespondEnds(s, e, response, id);
      }
    case TimesOut(_) => CallerEnds(s, step, id);
    case Stops(_) => CallerEnds(s, step, id);
    case Closes => CallerEnds(s, step, id);
    case _ => StaysOpen(s, step, id);
  }

  lemma {:induction false} CallerEnds(s: State, step: Step, id: Id)
    requires id in s.pending && (step.TimesOut? || step.Stops? || step.Closes?)
    ensures EndsAs(s, Next(s, step), id, EndOf(s, step, id))
  {
    match step
    case TimesOut(late) =>
      if late in s.pending {
        FinishedPointwise(s, {late}, Failed(if s.pending[late].request.ask.AskContext? then StudioUnavailable
                                            else OutcomeUnknown), id);
      }
    case Stops(stopped) => FinishedPointwise(s, {stopped}, Failed(OutcomeUnknown), id);
    case Closes => FinishedPointwise(s.(closed := true), s.pending.Keys, Failed(StudioUnavailable), id);
  }

  lemma {:induction false} StaysOpen(s: State, step: Step, id: Id)
    requires id in s.pending && (step.Sends? ==> step.requestId != id)
    requires step.Attaches? || step.Registers? || step.IsReady? || step.Publishes? || step.Selects? || step.Sends?
    ensures var t := Next(s, step); id in t.pending && t.pending[id] == s.pending[id]
  {
  }

  /** Over every run, a request that is over was ended by one step, as that step ends it. */
  lemma {:induction false} EndedBySomeStep(states: seq<State>, steps: seq<Step>, k: nat, id: Id) returns (j: nat)
    requires Run(states, steps) && k < |states| && id in states[k].finished
    ensures j < k && id in states[j].pending
    ensures EndOf(states[j], steps[j], id) == Some(states[k].finished[id])
  {
    AlwaysSound(states, steps, k - 1, k - 1);
    AlwaysSound(states, steps, k - 1, k);
    if id in states[k - 1].finished {
      j := EndedBySomeStep(states, steps, k - 1, id);
    } else {
      j := k - 1;
      NewlyOver(states[j], steps[j], id);
      EndsExactly(states[j], steps[j], id);
    }
  }

  /** Only what was open becomes over. */
  lemma {:induction false} NewlyOver(s: State, step: Step, id: Id)
    requires Sound(s, {}) && (step.Sends? ==> NewId(s, step.requestId))
    requires id !in s.finished && id in Next(s, step).finished
    ensures id in s.pending && (step.Sends? ==> step.requestId != id)
  {
    StepKeeps(s, step);
    SendsAlone(s, step);
    WasOpen(s, Next(s, step), id);
  }

  lemma {:induction false} SendsAlone(s: State, step: Step)
    ensures if step.Sends? then Next(s, step).finished == s.finished else Next(s, step).sent == s.sent
  {
  }

  lemma {:induction false} WasOpen(s: State, t: State, id: Id)
    requires EndsOnce(s) && EndsOnce(t) && t.sent == s.sent && id in t.finished && id !in s.finished
    ensures id in s.pending
  {
    var i: nat :| i < |t.sent| && SentId(t.sent, i) == id;
    assert SentId(s.sent, i) in s.pending <==> SentId(s.sent, i) !in s.finished;
  }

  /** `c` has the room of the update, if that is newer than what it had. */
  predicate Stored(was: Connection, c: Option<Connection>, update: ContextUpdate)
  {
    c == Some(if update.sequence <= was.sequence then was
              else was.(sequence := update.sequence, snapshot := Some(update.snapshot)))
  }

  /** What becomes of a context request by a reply for it. */
  predicate ContextAnswered(s: State, t: State, e: nat, id: Id, update: ContextUpdate)
    requires Registered(s, e) && id in s.pending
  {
    var c := s.endpoints[e].connection.value;
    if s.pending[id].request.ask.AskContext? && RoomAdmitted(c, update) then
      && id !in t.pending && id in t.finished && t.finished[id] == Resolved(ContextBody(update))
      && e < |t.endpoints| && Stored(c, t.endpoints[e].connection, update)
    else
      t == s
  }

  /** A reply to a context request ends it exactly if it was asked for and its room is admitted; a room that is
      newer is then the one that is stored, and an older one changes nothing. A reply that is refused changes
      nothing at all. */
  lemma {:induction false} ContextReplyStores(s: State, e: nat, id: Id, generation: Id, update: ContextUpdate)
    requires Answers(s, e, Response(id, generation, ContextBody(update)))
    ensures ContextAnswered(s, Next(s, Responds(e, Response(id, generation, ContextBody(update)))), e, id, update)
  {
    var response := Response(id, generation, ContextBody(update));
    MaySpeakIs(s, e, generation);
    RespondEnds(s, e, response, id);
    DeliverStores(s, e, response);
  }

  lemma {:induction false} DeliverStores(s: State, e: nat, response: Response)
    requires Answers(s, e, response) && response.body.ContextBody?
    ensures var request, c := s.pending[response.requestId].request, s.endpoints[e].connection.value;
            var t, update := Deliver(s, e, request, response).0, response.body.update;
            if request.ask.AskContext? && RoomAdmitted(c, update)
            then e < |t.endpoints| && Stored(c, t.endpoints[e].connection, update)
            else t == s
  {
    var request, update := s.pending[response.requestId].request, response.body.update;
    AppliedIs(s, e, update);
    if request.ask.AskContext? && ApplyContext(s, e, update).Ok? {
      FinishKeepsConnections(ApplyContext(s, e, update).value, {response.requestId}, Resolved(response.body));
    }
  }

  // ---- Registration and sending -------------------------------------------------------

  /** A call of `register` succeeds exactly if the broker is open, the connection is new, the contract is version 1,
      tab and design are named, and no live connection holds the tab; nothing else changes it. */
  lemma {:induction false} RegisteredExactly(s: State, e: nat, r: Registration, generation: Id)
    requires e < |s.endpoints|
    ensures var t, at := Next(s, Registers(e, r, generation)), s.endpoints[e];
            var accepted :=
              && !s.closed && !at.released && at.connection.None? && r.contractVersion == 1
              && r.tabId != "" && r.designId != "" && r.tabId !in s.connections;
            && (!accepted ==>
                  && t == s
                  && Register(s, e, r, generation)
                     == Err(if s.closed || at.released || at.connection.Some?
                               || (r.contractVersion == 1 && r.tabId != "" && r.designId != "") then WrongBinding
                            else InvalidArguments))
            && (accepted ==>
                  && t.connections == s.connections[r.tabId := e] && |t.endpoints| == |s.endpoints|
                  && t.endpoints[e].mailbox == at.mailbox && !t.endpoints[e].released
                  && (forall k: nat | k < |s.endpoints| && k != e :: t.endpoints[k] == s.endpoints[k])
                  && t.pending == s.pending && t.finished == s.finished && t.sent == s.sent && !t.closed
                  && match t.endpoints[e].connection {
                     case Some(c) =>
                       && c.binding.designId == r.designId && c.binding.tabId == r.tabId && c.caption == r.caption
                       && c.generation == generation && c.phase.Offline? && !c.subscribed && c.snapshot.None?
                       && c.sequence == -1
                     case None => false
                     })
  {
  }

  /** Why a publication is refused: the caller may not speak for the connection, the room is of another
      registration or design, or it is no proper update. */
  lemma {:induction false} PublishRefusedFor(s: State, e: nat, update: ContextUpdate)
    requires e < |s.endpoints|
    ensures var refused := !MaySpeak(s, e, update.generation) || !RoomAdmitted(s.endpoints[e].connection.value, update);
            && (refused <==> PublishContext(s, e, update).Err?)
            && (refused ==> Next(s, Publishes(e, update)) == s
                            && PublishContext(s, e, update).error
                               == if MaySpeak(s, e, update.generation)
                                     && update.snapshot.designId == s.endpoints[e].connection.value.binding.designId
                                  then InvalidArguments else WrongBinding)
  {
    MaySpeakIs(s, e, update.generation);
    if MaySpeak(s, e, update.generation) {
      AppliedIs(s, e, update);
    }
  }

  /** A request is sent exactly if the tab of its binding has a connection that is ready and shows its design, and
      the caller still waits; it is addressed to that connection and last in its mailbox. */
  lemma {:induction false} SentExactly(s: State, binding: Binding, ask: Ask, id: Id, aborted: bool)
    requires Sound(s, {}) && NewId(s, id)
    ensures var t := Next(s, Sends(binding, ask, id, aborted));
            var to := if binding.tabId in s.connections then s.connections[binding.tabId] else |s.endpoints|;
            var willing := to < |s.endpoints| && !s.closed
              && match s.endpoints[to].connection {
                 case Some(c) => c.phase.Online? && c.subscribed && c.binding == binding
                 case None => false
                 };
            && (id in t.pending <==> willing && !aborted)
            && (id !in t.pending ==>
                  && t == s
                  && match Send(s, binding, ask, id, aborted) {
                     case Ok(_) => false
                     case Err(OutcomeUnknown) => willing
                     case Err(WrongBinding) => to < |s.endpoints| && s.endpoints[to].connection.value.binding != binding
                     case Err(code) => code == StudioUnavailable && !willing
                     })
            && (id in t.pending ==>
                  var request := t.pending[id].request;
                  && t.pending[id].endpoint == to && request.requestId == id && request.binding == binding
                  && request.ask == ask && request.generation == s.endpoints[to].connection.value.generation
                  && t.endpoints == s.endpoints[to := s.endpoints[to].(mailbox := s.endpoints[to].mailbox + [request])]
                  && t.sent == s.sent + [Pending(to, request)] && t.pending.Keys == s.pending.Keys + {id}
                  && t.finished == s.finished && t.connections == s.connections)
  {
    if binding.tabId in s.connections {
      assert Serves(s, binding.tabId, s.connections[binding.tabId]);
    }
    assert id !in s.pending;
  }
}
