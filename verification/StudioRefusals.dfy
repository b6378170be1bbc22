/** Why a request is refused while it is planned: packages/decorator-agent/src/studio-tools.ts. */
module StudioRefusals {
  import opened Outcomes
  import opened Sequences
  import opened StudioContract
  import opened StudioRecords
  import opened StudioPlanner
  import opened StudioRequests

  /** A replacement that a recommendation card prescribes. */
  predicate ByCard(desk: Desk, input: EditInput)
  {
    input.kind.ReplaceKind? && input.originalCommandId.None? && IsReplaceCard(desk.selection)
  }

  /** What is wrong with a replacement that does not follow its card. */
  function CardReason(desk: Desk, input: EditInput, card: PromptAction): ErrorCode
    requires card.ReplaceAsset?
  {
    if input.objectId != Some(card.targetObjectId) then InvalidTarget
    else if input.catalogId.Some? && input.catalogId.value != card.selectedProductId then InvalidArguments
    else if card.designId != desk.binding.designId || card.designId != desk.planned.designId then WrongBinding
    else InvalidTarget
  }

  /** What is wrong with a request that cannot be asked for in the staged room: the target, if it is not there, is not
      the one of the card, or is no saved edit of this object; and the arguments otherwise. */
  ghost function Reason(desk: Desk, staged: seq<Object>, input: EditInput): ErrorCode
  {
    var takesBack := input.originalCommandId.Some?;
    if !WellFormed(input) then
      InvalidArguments
    else if !Changes(input.kind) then
      if Named(input.originalCommandId) || input.create.None? || input.create.value.Kind() != input.kind
      then InvalidArguments else InvalidTarget
    else if !Named(input.objectId) || !IsPlacedOnce(staged, input.objectId.value) then
      InvalidTarget
    else if ByCard(desk, input) then
      CardReason(desk, input, desk.selection.value)
    else if !input.kind.RemoveKind? && !input.kind.ReplaceKind? && (input.target.None? <==> !takesBack) then
      InvalidArguments
    else if takesBack && input.originalCommandId.value !in desk.records then
      InvalidArguments
    else if takesBack && !IsTakenBack(desk, input) then
      InvalidTarget
    else if input.kind.ReplaceKind? && if takesBack then !IsReplaceCard(desk.selection)
                                       else !Named(input.catalogId) then
      InvalidTarget
    else
      InvalidArguments
  }

  lemma {:induction false} CreateReason(desk: Desk, staged: seq<Object>, input: EditInput)
    requires WellFormed(input) && !Changes(input.kind) && StageCreate(staged, input).Err?
    ensures StageCreate(staged, input).error == Reason(desk, staged, input)
  {
  }

  lemma {:induction false} ResolveReason(desk: Desk, staged: seq<Object>, input: EditInput, placed: Object)
    requires WellFormed(input) && Changes(input.kind) && input.objectId == Some(placed.id) && placed.id != ""
    requires IsPlacedOnce(staged, placed.id) && CheckSelection(desk, input, placed.id).None?
    requires input.kind.RemoveKind? || input.kind.ReplaceKind?
             || (input.target.None? <==> input.originalCommandId.Some?)
    requires ResolveAction(desk, input, placed).Err?
    ensures ResolveAction(desk, input, placed).error == Reason(desk, staged, input)
  {
    if input.originalCommandId.Some? {
      TakenOnce(desk, input, placed.id);
    }
  }

  lemma {:induction false} ChangeReason(desk: Desk, staged: seq<Object>, input: EditInput)
    requires WellFormed(input) && Changes(input.kind) && StageChange(desk, staged, input).Err?
    ensures StageChange(desk, staged, input).error == Reason(desk, staged, input)
  {
    if Named(input.objectId) {
      var id := input.objectId.value;
      ExactlyOnceIs(staged, id);
      if i: nat :| PlacedOnce(staged, id, i) {
        OnceFound(staged, id, i);
        if CheckSelection(desk, input, id).None? && ResolveAction(desk, input, staged[i]).Err?
           && (input.kind.RemoveKind? || input.kind.ReplaceKind?
               || (input.target.None? <==> input.originalCommandId.Some?)) {
          ResolveReason(desk, staged, input, staged[i]);
        }
      }
    }
  }

  lemma {:induction false} EditReason(desk: Desk, staged: seq<Object>, input: EditInput)
    requires StageEdit(desk, staged, input).Err?
    ensures StageEdit(desk, staged, input).error == Reason(desk, staged, input)
    ensures forall edit, next :: !Asked(desk, staged, input, edit, next)
  {
    if WellFormed(input) {
      if Changes(input.kind) {
        ChangeReason(desk, staged, input);
      } else {
        CreateReason(desk, staged, input);
      }
    }
    forall edit, next ensures !Asked(desk, staged, input, edit, next) {
      StagedExactly(desk, staged, input, edit, next);
    }
  }

  /** Request `k` is the first one that cannot be asked for, in the room that those before it leave. */
  ghost predicate StopsAt(desk: Desk, staged: seq<Object>, inputs: seq<EditInput>, k: nat, error: ErrorCode)
  {
    && k < |inputs|
    && exists rooms: seq<seq<Object>>, edits ::
         && Planning(desk, rooms, inputs[..k], edits) && rooms[0] == staged
         && (forall edit, next :: !Asked(desk, rooms[k], inputs[k], edit, next))
         && error == Reason(desk, rooms[k], inputs[k])
  }

  lemma {:induction false} FirstRefused(desk: Desk, staged: seq<Object>, inputs: seq<EditInput>, acc: seq<Edit>)
    returns (k: nat)
    requires StageFrom(desk, staged, inputs, acc).Err?
    ensures StopsAt(desk, staged, inputs, k, StageFrom(desk, staged, inputs, acc).error)
    decreases |inputs|
  {
    var step := StageEdit(desk, staged, inputs[0]);
    if step.Err? {
      k := 0;
      EditReason(desk, staged, inputs[0]);
      assert inputs[..0] == [] && Planning(desk, [staged], [], []);
    } else {
      var i := FirstRefused(desk, step.value.1, inputs[1..], acc + [step.value.0]);
      k := i + 1;
      var rooms, edits := LaterStop(desk, step.value.1, inputs[1..], i,
                                    StageFrom(desk, staged, inputs, acc).error);
      StagedExactly(desk, staged, inputs[0], step.value.0, step.value.1);
      assert inputs[..k][1..] == inputs[1..][..i] && inputs[..k][0] == inputs[0];
      assert ([step.value.0] + edits)[1..] == edits;
      PlanningCons(desk, staged, rooms, inputs[..k], [step.value.0] + edits);
      assert ([staged] + rooms)[k] == rooms[i] && inputs[k] == inputs[1..][i];
    }
  }

  lemma {:induction false} LaterStop(desk: Desk, staged: seq<Object>, inputs: seq<EditInput>, k: nat, error: ErrorCode)
    returns (rooms: seq<seq<Object>>, edits: seq<Edit>)
    requires StopsAt(desk, staged, inputs, k, error)
    ensures Planning(desk, rooms, inputs[..k], edits) && rooms[0] == staged
    ensures forall edit, next :: !Asked(desk, rooms[k], inputs[k], edit, next)
    ensures error == Reason(desk, rooms[k], inputs[k])
  {
    rooms, edits :| Planning(desk, rooms, inputs[..k], edits) && rooms[0] == staged
                    && (forall edit, next :: !Asked(desk, rooms[k], inputs[k], edit, next))
                    && error == Reason(desk, rooms[k], inputs[k]);
  }

  /** A refused plan has no edits or more than fifty, or more than fifty operations; or it names what is wrong with the
      first request that cannot be asked for. */
  lemma {:induction false} PlanRefusedFor(desk: Desk, commandId: Id, inputs: seq<EditInput>, batch: bool)
    requires (!batch ==> |inputs| == 1) && PlanCommand(desk, commandId, inputs, batch).Err?
    ensures var error := PlanCommand(desk, commandId, inputs, batch).error;
            || (error == InvalidArguments && !(1 <= |inputs| <= 50))
            || (error == InvalidArguments && exists edits :: Requested(desk, inputs, edits) && Operations(edits) > 50)
            || (1 <= |inputs| <= 50 && exists k: nat :: StopsAt(desk, desk.planned.objects, inputs, k, error))
  {
    if 1 <= |inputs| <= 50 {
      var staged := StageFrom(desk, desk.planned.objects, inputs, []);
      if staged.Err? {
        var k := FirstRefused(desk, desk.planned.objects, inputs, []);
      } else {
        OperationsAreCounted(staged.value);
        RequestedIsStaged(desk, inputs, staged.value);
      }
    }
  }
}
