/** What a recommendation card admits: only the product, the quantity, the object and the design that were
    selected, whatever the model asks for, from the tool arguments to the commands that reach the room. */
module StudioAdmission {
  import opened Outcomes
  import opened Sequences
  import opened StudioContract
  import opened StudioRecords
  import opened StudioPlanner
  import opened StudioAgreement
  import opened StudioRequests
  import J = StudioJournalState
  import opened StudioSession
  import opened StudioLimits

  /** What the model passed for an edit that adds. */
  datatype AddRequest = AddRequest(catalogId: Option<Id>, quantity: Option<int>, placement: Option<RawPlacement>)

  // ---- From arguments to edits ------------------------------------------------------

  /** The edits of a command that add all add what the card says. */
  predicate FollowsAddCard(card: Option<PromptAction>, edits: seq<Edit>)
  {
    card.Some? && card.value.AddAsset? ==>
      forall i | 0 <= i < |edits| && edits[i].action.Add? ::
        edits[i].action.product == card.value.selectedProductId && edits[i].action.quantity == card.value.quantity
  }

  /** The tools resolved every request to add against the card of the operation. */
  predicate Resolved(inputs: seq<EditInput>, requests: seq<AddRequest>, card: Option<PromptAction>, known: set<Id>)
  {
    && |requests| == |inputs|
    && forall i | 0 <= i < |inputs| && inputs[i].kind == AddKind ::
         var action := ResolveAdd(requests[i].catalogId, requests[i].quantity, requests[i].placement, card, known);
         action.Ok? && inputs[i].create == Some(action.value)
  }

  lemma {:induction false} PlannedFollowsCard(desk: Desk, inputs: seq<EditInput>, requests: seq<AddRequest>,
                                              batch: bool, command: Command, card: Option<PromptAction>)
    requires !batch ==> |inputs| == 1
    requires Resolved(inputs, requests, card, desk.known)
             && PlanCommand(desk, command.commandId, inputs, batch) == Ok(command)
    ensures FollowsAddCard(card, command.payload.Edits())
  {
    PlannedExactly(desk, command.commandId, inputs, batch, command);
    StagedFollowsCard(desk, inputs, requests, command.payload.Edits(), card);
  }

  lemma {:induction false} StagedFollowsCard(desk: Desk, inputs: seq<EditInput>, requests: seq<AddRequest>,
                                             edits: seq<Edit>, card: Option<PromptAction>)
    requires Resolved(inputs, requests, card, desk.known) && Requested(desk, inputs, edits)
    ensures FollowsAddCard(card, edits)
  {
    var rooms :| Planning(desk, rooms, inputs, edits);
    forall i: nat | i < |edits| && edits[i].action.Add? && card.Some? && card.value.AddAsset?
      ensures edits[i].action.product == card.value.selectedProductId
              && edits[i].action.quantity == card.value.quantity
    {
      assert Asked(desk, rooms[i], inputs[i], edits[i], rooms[i + 1]);
      CardDecides(requests[i].catalogId, requests[i].quantity, requests[i].placement, card, desk.known,
                  edits[i].action);
    }
  }

  /** A replacement that undoes nothing is the selected one, on the selected object, in the selected design. */
  lemma ReplaceFollowsCard(desk: Desk, staged: seq<Object>, input: EditInput, edit: Edit, next: seq<Object>)
    requires StageEdit(desk, staged, input) == Ok((edit, next)) && edit.action.Replace? && edit.reverses.None?
    requires desk.selection.Some? && desk.selection.value.ReplaceAsset?
    ensures var card := desk.selection.value;
            && edit.objectId == Some(card.targetObjectId) && edit.action.catalogId == card.selectedProductId
            && card.designId == desk.planned.designId && card.designId == desk.binding.designId
  {
  }

  // ---- Over whole runs --------------------------------------------------------------

  /** How many objects the edits add. */
  function Pieces(edits: seq<Edit>): int
  {
    if edits == [] then 0 else Pieces(edits[1..]) + if edits[0].action.Add? then edits[0].action.quantity else 0
  }

  lemma {:induction false} PiecesOfCard(edits: seq<Edit>, card: PromptAction)
    requires card.AddAsset? && FollowsAddCard(Some(card), edits) && J.CountKind(edits, AddKind) <= 1
    ensures Pieces(edits) == J.CountKind(edits, AddKind) * card.quantity
  {
    if edits != [] {
      var tail := edits[1..];
      assert forall i | 0 <= i < |tail| :: tail[i] == edits[i + 1];
      PiecesOfCard(tail, card);
    }
  }

  function CardOf(j: JournalState, op: Id): Option<PromptAction>
  {
    if J.AdmissionOf(j, op).Some? then J.AdmissionOf(j, op).value.card else None
  }

  ghost predicate AllFollow(j: JournalState, op: Id)
  {
    forall id | id in j.current && j.current[id].operationId == op ::
      FollowsAddCard(CardOf(j, op), j.current[id].command.payload.Edits())
  }

  /** Commands are planned under the card of the operation they are prepared for. */
  predicate PreparedUnderCard(s: System, e: Event)
  {
    e.Prepares? ==> FollowsAddCard(CardOf(s.journal, e.operationId), e.command.payload.Edits())
  }

  lemma {:induction false} FollowStays(s: System, e: Event, owner: Owner, op: Id)
    requires Invariant(s, owner) && Enabled(s, e, owner) && PreparedUnderCard(s, e) && AllFollow(s.journal, op)
    ensures AllFollow(Next(s, e).journal, op)
  {
    AdmissionFixed(s, e, owner, op);
    EveryStepForm(s, e, owner);
    FollowForm(s, e, Next(s, e), op);
  }

  lemma {:induction false} FollowForm(s: System, e: Event, t: System, op: Id)
    requires StepForm(s, e, t) && PreparedUnderCard(s, e) && AllFollow(s.journal, op)
    requires J.AdmissionOf(t.journal, op) == J.AdmissionOf(s.journal, op) || NoRecords(t.journal, op)
    ensures AllFollow(t.journal, op)
  {
    if e.Prepares? {
      J.PrepareForm(s.journal, e.command, e.operationId);
    }
  }

  lemma {:induction false} AlwaysFollow(states: seq<System>, events: seq<Event>, owner: Owner, k: nat, op: Id)
    requires Run(states, events, owner) && k < |states|
             && forall i: nat | i < |events| :: PreparedUnderCard(states[i], events[i])
    ensures AllFollow(states[k].journal, op)
  {
    if k > 0 {
      AlwaysFollow(states, events, owner, k - 1, op);
      AlwaysInvariant(states, events, owner, k - 1);
      FollowStays(states[k - 1], events[k - 1], owner, op);
    }
  }

  /** An operation admitted with a card to add a product adds nothing else, and never more pieces than
      the card says: of its commands that were not rejected or cancelled, at most one adds anything,
      and that one adds exactly the quantity of the card. */
  lemma {:induction false} OperationAddsItsCard(states: seq<System>, events: seq<Event>, owner: Owner, k: nat, op: Id,
                                                a: Id, b: Id)
    requires Run(states, events, owner) && k < |states|
             && forall i: nat | i < |events| :: PreparedUnderCard(states[i], events[i])
    requires CardOf(states[k].journal, op).Some? && CardOf(states[k].journal, op).value.AddAsset?
    requires a in states[k].journal.current && b in states[k].journal.current
    requires J.LiveWith(states[k].journal.current[a], op, AddKind)
             && J.LiveWith(states[k].journal.current[b], op, AddKind)
    ensures var card := CardOf(states[k].journal, op).value;
            var edits := states[k].journal.current[a].command.payload.Edits();
            a == b && FollowsAddCard(Some(card), edits) && Pieces(edits) == card.quantity
  {
    OneAddPerOperation(states, events, owner, k, op);
    AlwaysFollow(states, events, owner, k, op);
    PiecesOfCard(states[k].journal.current[a].command.payload.Edits(), CardOf(states[k].journal, op).value);
  }
}
