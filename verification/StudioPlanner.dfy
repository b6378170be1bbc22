/** The staging loop of packages/decorator-agent/src/studio-tools.ts: ordered edit requests are
    checked and resolved against a clone of the planning snapshot, which each accepted edit updates. */
module StudioPlanner {
  import opened Outcomes
  import opened StudioContract
  import opened StudioRecords

  /** One edit as the model asked for it. `create` was resolved before staging starts. */
  datatype EditInput = EditInput(kind: Kind, objectId: Option<Id>, catalogId: Option<Id>, target: Option<seq<real>>,
                                 originalCommandId: Option<Id>, originalEditIndex: Option<nat>, create: Option<Action>)

  /** What staging reads besides the room: the conversation, its journal, the products it has
      seen, and a replacement selected on a recommendation card. */
  datatype Desk = Desk(conversationId: Id, binding: Binding, planned: Snapshot, records: map<Id, CommandRecord>,
                       known: set<Id>, selection: Option<PromptAction>)

  /** `staged.objects.filter(object => object.id === id).length === 1` */
  predicate ExactlyOne(objects: seq<Object>, id: Id)
  {
    |Restrict(objects, {id})| == 1
  }

  function ToVector(v: seq<real>): Result<Vector3, ErrorCode>
  {
    if |v| == 3 then Ok(Vector3(v[0], v[1], v[2])) else Err(InvalidArguments)
  }

  // ---- Resolving create actions -----------------------------------------------------

  datatype RawPlacement =
    | RawAbsolute(position: seq<real>, rotation: Option<seq<real>>)
    | RawRelative(anchor: Id, offset: Option<seq<real>>)

  function ParsePlacement(raw: Option<RawPlacement>): Result<Option<Placement>, ErrorCode>
  {
    match raw
    case None => Ok(None)
    case Some(RawAbsolute(position, rotation)) =>
      var p := ToVector(position);
      if p.Err? then
        Err(p.error)
      else if rotation.None? then
        Ok(Some(Absolute(p.value, None)))
      else
        var r := ToVector(rotation.value);
        if r.Err? || !YawOnly(r.value) then Err(InvalidArguments) else Ok(Some(Absolute(p.value, Some(r.value))))
    case Some(RawRelative(anchor, offset)) =>
      if offset.None? then
        Ok(Some(Relative(anchor, None)))
      else
        var o := ToVector(offset.value);
        if o.Err? then Err(o.error) else Ok(Some(Relative(anchor, Some(o.value))))
  }

  function ResolveAdd(catalogId: Option<Id>, quantity: Option<int>, raw: Option<RawPlacement>,
                      card: Option<PromptAction>, known: set<Id>)
    : Result<Action, ErrorCode>
  {
    var placement := ParsePlacement(raw);
    if placement.Err? then
      Err(placement.error)
    else if card.Some? && card.value.AddAsset? then
      if catalogId.Some? && catalogId.value != "" && catalogId.value != card.value.selectedProductId then
        Err(InvalidArguments)
      else if quantity.Some? && quantity.value != card.value.quantity then
        Err(InvalidArguments)
      else
        Ok(Add(card.value.selectedProductId, card.value.quantity, placement.value))
    else if catalogId.None? || catalogId.value == "" || catalogId.value !in known then
      Err(InvalidArguments)
    else
      Ok(Add(catalogId.value, if quantity.Some? then quantity.value else 1, placement.value))
  }

  function ResolveDuplicate(objectId: Option<Id>, quantity: Option<int>, raw: Option<RawPlacement>,
                            room: Option<Snapshot>)
    : Result<Action, ErrorCode>
  {
    if room.None? then
      Err(StudioUnavailable)
    else
      var selected := Restrict(room.value.objects, set id | id in room.value.selected);
      if objectId.None? && |selected| != 1 then
        Err(InvalidTarget)
      else
        var placement := ParsePlacement(raw);
        if placement.Err? then
          Err(placement.error)
        else
          Ok(Duplicate(if objectId.Some? then objectId.value else selected[0].id,
                       if quantity.Some? then quantity.value else 1, placement.value))
  }

  // ---- Staging one edit -------------------------------------------------------------

  function StageCreate(staged: seq<Object>, input: EditInput): Result<Edit, ErrorCode>
  {
    if input.originalCommandId.Some? && input.originalCommandId.value != "" then
      Err(InvalidArguments)
    else if input.create.None? || input.create.value.Kind() != input.kind || !input.create.value.Creates() then
      Err(InvalidArguments)
    else
      var create := input.create.value;
      var placement := if create.Add? then create.placement else create.placement;
      if create.Duplicate? && !ExactlyOne(staged, create.source) then
        Err(InvalidTarget)
      else if placement.Some? && placement.value.Relative? && !ExactlyOne(staged, placement.value.anchor) then
        Err(InvalidTarget)
      else
        Ok(Edit(None, create, None))
  }

  /** The recommendation card restricts which object is replaced, by what, and in which design. */
  function CheckSelection(desk: Desk, input: EditInput, objectId: Id): Option<ErrorCode>
  {
    if input.kind != ReplaceKind || input.originalCommandId.Some? || desk.selection.None?
    || !desk.selection.value.ReplaceAsset? then
      None
    else
      var card := desk.selection.value;
      if card.targetObjectId != objectId then
        Some(InvalidTarget)
      else if input.catalogId.Some? && input.catalogId.value != card.selectedProductId then
        Some(InvalidArguments)
      else if card.designId != desk.binding.designId || card.designId != desk.planned.designId then
        Some(WrongBinding)
      else
        None
  }

  /** The saved edit that an undo request names, with the result Studio reported for it. */
  function Original(desk: Desk, input: EditInput, objectId: Id): Result<(Edit, Transform), ErrorCode>
    requires input.originalCommandId.Some?
  {
    if input.originalCommandId.value !in desk.records then
      Err(InvalidArguments)
    else
      var record := desk.records[input.originalCommandId.value];
      var edit := NamedEdit(record.command.payload, input.originalEditIndex);
      var result := NamedResult(record.result, input.originalEditIndex);
      if || record.state != StateCommitted
         || record.command.conversationId != desk.conversationId
         || record.command.binding.designId != desk.binding.designId
         || edit.None? || edit.value.objectId != Some(objectId) || edit.value.action.Kind() != input.kind
         || result.None? || !result.value.Edited? || result.value.after.None?
      then
        Err(InvalidTarget)
      else
        Ok((edit.value, result.value.before))
  }

  function NamedEdit(payload: Payload, index: Option<nat>): Option<Edit>
  {
    match payload
    case Single(edit) => if index.None? then Some(edit) else None
    case Batch(edits) => if index.Some? && index.value < |edits| then Some(edits[index.value]) else None
  }

  function NamedResult(result: Option<CommandResult>, index: Option<nat>): Option<EditResult>
  {
    if result.None? || !result.value.Saved? then
      None
    else
      match result.value.evidence
      case SingleResult(r) => Some(r)
      case BatchResults(rs) => if index.Some? && index.value < |rs| then Some(rs[index.value]) else None
  }

  /** The action an edit request amounts to, given the staged state of its object. */
  function ResolveAction(desk: Desk, input: EditInput, placed: Object): Result<Action, ErrorCode>
  {
    var undone := if input.originalCommandId.Some? then
                    var o := Original(desk, input, placed.id);
                    if o.Err? then Err(o.error) else Ok(Some(o.value))
                  else Ok(None);
    if undone.Err? then
      Err(undone.error)
    else
      match input.kind
      case RemoveKind => Ok(Remove)
      case ReplaceKind => ResolveReplace(desk, input, placed, undone.value)
      case _ =>
        var target := if undone.value.None? then
                        if input.target.Some? then ToVector(input.target.value) else Err(InvalidArguments)
                      else
                        Ok(if input.kind == MoveKind then undone.value.value.1.position
                           else undone.value.value.1.rotation);
        if target.Err? then
          Err(target.error)
        else if input.kind == MoveKind then
          Ok(Move(target.value))
        else if !YawOnly(target.value) then
          Err(InvalidArguments)
        else
          Ok(Rotate(target.value))
  }

  function ResolveReplace(desk: Desk, input: EditInput, placed: Object,
                          undone: Option<(Edit, Transform)>): Result<Action, ErrorCode>
  {
    var card := if desk.selection.Some? && desk.selection.value.ReplaceAsset? then desk.selection else None;
    if undone.Some? then
      if card.Some? || !undone.value.0.action.Replace? then
        Err(InvalidArguments)
      else
        var previous := undone.value.0.action.expectedCatalogId;
        if previous.None?
        || previous.value == "" then Err(InvalidTarget) else Ok(Replace(previous.value, placed.CatalogId()))
    else
      var chosen := if card.Some? then Some(card.value.selectedProductId) else input.catalogId;
      if chosen.None? || chosen.value == "" then
        Err(InvalidTarget)
      else if card.None? && chosen.value !in desk.known then
        Err(InvalidArguments)
      else
        Ok(Replace(chosen.value, placed.CatalogId()))
  }

  /** What an accepted edit does to the staged copy of its object. */
  function StagedChange(placed: Object, action: Action): Object
  {
    match action
    case Move(position) => placed.(position := position)
    case Rotate(rotation) => placed.(rotation := rotation)
    case Replace(catalogId, _) => placed.(product := Some(Product(catalogId, None)))
    case _ => placed
  }

  function StageChange(desk: Desk, staged: seq<Object>, input: EditInput): Result<(Edit, seq<Object>), ErrorCode>
  {
    if input.objectId.None? || input.objectId.value == "" || !ExactlyOne(staged, input.objectId.value) then
      Err(InvalidTarget)
    else
      var id := input.objectId.value;
      var at := Find(staged, id);
      var refused := CheckSelection(desk, input, id);
      if refused.Some? then
        Err(refused.value)
      else if (input.kind == MoveKind || input.kind == RotateKind)
      && (input.target.None? <==> input.originalCommandId.None?) then
        Err(InvalidArguments)
      else if at.None? then
        Err(InvalidTarget)
      else
        var action := ResolveAction(desk, input, staged[at.value]);
        if action.Err? then
          Err(action.error)
        else
          var reverses := if input.originalCommandId.None? then None
                          else Some(Reference(input.originalCommandId.value, input.originalEditIndex));
          Ok((Edit(Some(id), action.value, reverses),
              if action.value.Remove? then Without(staged, id)
              else staged[at.value := StagedChange(staged[at.value], action.value)]))
  }

  function StageEdit(desk: Desk, staged: seq<Object>, input: EditInput): Result<(Edit, seq<Object>), ErrorCode>
  {
    if input.originalEditIndex.Some? && input.originalCommandId.None? then
      Err(InvalidArguments)
    else if input.catalogId.Some? && input.originalCommandId.Some? then
      Err(InvalidArguments)
    else if input.kind == AddKind || input.kind == DuplicateKind then
      var r := StageCreate(staged, input);
      if r.Err? then Err(r.error) else Ok((r.value, staged))
    else
      StageChange(desk, staged, input)
  }

  // ---- Staging a whole request ------------------------------------------------------

  /** The edits staged so far and the staged objects after each of them. */
  function StageFrom(desk: Desk, staged: seq<Object>, inputs: seq<EditInput>, edits: seq<Edit>): (r: Result<seq<Edit>,
        ErrorCode>)
    ensures r.Ok? ==> |r.value| == |edits| + |inputs|
    decreases |inputs|
  {
    if inputs == [] then
      Ok(edits)
    else
      var step := StageEdit(desk, staged, inputs[0]);
      if step.Err? then Err(step.error) else StageFrom(desk, step.value.1, inputs[1..], edits + [step.value.0])
  }

  /** A command for the whole request: the room revision is that of the planning snapshot. */
  function PlanCommand(desk: Desk, commandId: Id, inputs: seq<EditInput>, batch: bool): Result<Command, ErrorCode>
    requires !batch ==> |inputs| == 1
  {
    if inputs == [] || |inputs| > STUDIO_QUANTITY_MAX then
      Err(InvalidArguments)
    else
      var edits := StageFrom(desk, desk.planned.objects, inputs, []);
      if edits.Err? then
        Err(edits.error)
      else if ExpandedCount(edits.value) > STUDIO_QUANTITY_MAX then
        Err(InvalidArguments)
      else
        Ok(Command(commandId, desk.conversationId, desk.binding, desk.planned.revision,
                   if batch then Batch(edits.value) else Single(edits.value[0])))
  }

  /** The staging loop itself. */
  method Stage(desk: Desk, commandId: Id, inputs: seq<EditInput>, batch: bool) returns (r: Result<Command, ErrorCode>)
    requires !batch ==> |inputs| == 1
    ensures r == PlanCommand(desk, commandId, inputs, batch)
  {
    if |inputs| == 0 || |inputs| > STUDIO_QUANTITY_MAX {
      return Err(InvalidArguments);
    }
    var edits: seq<Edit>, staged := [], desk.planned.objects;
    for i := 0 to |inputs|
      invariant |edits| == i
      invariant StageFrom(desk, staged, inputs[i..], edits) == StageFrom(desk, desk.planned.objects, inputs, [])
    {
      assert inputs[i..][0] == inputs[i] && inputs[i..][1..] == inputs[i + 1..];
      var step := StageEdit(desk, staged, inputs[i]);
      if step.Err? {
        return Err(step.error);
      }
      edits := edits + [step.value.0];
      staged := step.value.1;
    }
    var count := ExpandedCount(edits);
    if count > STUDIO_QUANTITY_MAX {
      return Err(InvalidArguments);
    }
    r := Ok(Command(commandId, desk.conversationId, desk.binding, desk.planned.revision,
                    if batch then Batch(edits) else Single(edits[0])));
  }
}
