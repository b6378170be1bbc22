/** What a planned command asks the Studio to do is what was requested, edit by edit, and exactly the requests that
    make sense in the staged room are accepted: packages/decorator-agent/src/studio-tools.ts. */
module StudioRequests {
  import opened Outcomes
  import opened Sequences
  import opened StudioContract
  import opened StudioRecords
  import opened StudioPlanner
  import opened StudioAgreement

  /** Three numbers, in this order. */
  predicate Spells(numbers: seq<real>, v: Vector3) { numbers == [v.x, v.y, v.z] }

  predicate Named(id: Option<Id>) { id.Some? && id.value != "" }

  /** The object at `i`, and no other, has this ID. */
  predicate PlacedOnce(objects: seq<Object>, id: Id, i: nat)
  {
    i < |objects| && objects[i].id == id && forall j | 0 <= j < |objects| && j != i :: objects[j].id != id
  }

  ghost predicate IsPlacedOnce(objects: seq<Object>, id: Id) { exists i: nat :: PlacedOnce(objects, id, i) }

  // ---- Placements -----------------------------------------------------------------------

  /** Three numbers for every vector, and no rotation but about the vertical axis. */
  predicate Sensible(raw: Option<RawPlacement>)
  {
    match raw
    case None => true
    case Some(RawAbsolute(position, rotation)) =>
      |position| == 3 && (rotation.Some? ==> |rotation.value| == 3 && rotation.value[0] == rotation.value[1] == 0.0)
    case Some(RawRelative(_, offset)) => offset.Some? ==> |offset.value| == 3
  }

  predicate SpellsAny(numbers: Option<seq<real>>, v: Option<Vector3>)
  {
    numbers.Some? == v.Some? && (v.Some? ==> Spells(numbers.value, v.value))
  }

  /** The placement has the numbers that were given. */
  predicate PlacedAsGiven(raw: Option<RawPlacement>, placement: Option<Placement>)
  {
    match raw
    case None => placement.None?
    case Some(RawAbsolute(position, rotation)) =>
      && placement.Some? && placement.value.Absolute?
      && Spells(position, placement.value.position) && SpellsAny(rotation, placement.value.rotation)
    case Some(RawRelative(anchor, offset)) =>
      && placement.Some? && placement.value.Relative?
      && placement.value.anchor == anchor && SpellsAny(offset, placement.value.offset)
  }

  lemma {:induction false} VectorAsGiven(v: seq<real>)
    ensures ToVector(v).Ok? <==> |v| == 3
    ensures ToVector(v).Ok? ==> Spells(v, ToVector(v).value)
  {
  }

  lemma {:induction false} PlacementAsGiven(raw: Option<RawPlacement>)
    ensures ParsePlacement(raw).Ok? <==> Sensible(raw)
    ensures ParsePlacement(raw).Ok? ==> PlacedAsGiven(raw, ParsePlacement(raw).value)
  {
    match raw
    case None =>
    case Some(RawAbsolute(position, rotation)) =>
      VectorAsGiven(position);
      if rotation.Some? {
        VectorAsGiven(rotation.value);
      }
    case Some(RawRelative(_, offset)) =>
      if offset.Some? {
        VectorAsGiven(offset.value);
      }
  }

  // ---- One request ----------------------------------------------------------------------

  predicate Changes(kind: Kind) { kind != AddKind && kind != DuplicateKind }

  /** A new object was resolved before, and what it refers to is placed once. */
  ghost predicate CreateAsked(staged: seq<Object>, input: EditInput, edit: Edit)
  {
    && edit.action.Creates() && !Named(input.originalCommandId) && edit == Edit(None, edit.action, None)
    && input.create == Some(edit.action)
    && (edit.action.Duplicate? ==> IsPlacedOnce(staged, edit.action.source))
    && (edit.action.placement.Some? && edit.action.placement.value.Relative? ==>
          IsPlacedOnce(staged, edit.action.placement.value.anchor))
  }

  /** The saved outcome of an edit that left its object in the room, as it was before. */
  predicate Reported(evidence: Evidence, index: Option<nat>, before: Transform)
  {
    match evidence
    case SingleResult(r) => r.Edited? && r.after.Some? && r.before == before
    case BatchResults(rs) =>
      index.Some? && index.value < |rs|
      && rs[index.value].Edited? && rs[index.value].after.Some? && rs[index.value].before == before
  }

  /** `original` is the edit that the request takes back: saved in this conversation and design, of the same kind, on
      the same object, which was at `before`. */
  predicate TakesBack(desk: Desk, input: EditInput, original: Edit, before: Transform)
  {
    && input.originalCommandId.Some? && input.originalCommandId.value in desk.records
    && var record, index := desk.records[input.originalCommandId.value], input.originalEditIndex;
       && record.state.StateCommitted? && record.result.Some? && record.result.value.Saved?
       && record.command.conversationId == desk.conversationId
       && record.command.binding.designId == desk.binding.designId
       && (match record.command.payload
           case Single(edit) => index.None? && edit == original
           case Batch(edits) => index.Some? && index.value < |edits| && edits[index.value] == original)
       && original.objectId == input.objectId && original.action.Kind() == input.kind
       && Reported(record.result.value.evidence, index, before)
  }

  ghost predicate IsTakenBack(desk: Desk, input: EditInput)
  {
    exists original, before :: TakesBack(desk, input, original, before)
  }

  predicate IsReplaceCard(selection: Option<PromptAction>) { selection.Some? && selection.value.ReplaceAsset? }

  /** What replaces the object: the product on the card, for the object and the design of the card; or a product that
      was seen; or the one that the edit to take back replaced. */
  ghost predicate ProductAsked(desk: Desk, input: EditInput, objectId: Id, product: Id)
  {
    if input.originalCommandId.Some? then
      && !IsReplaceCard(desk.selection)
      && exists original, before ::
           TakesBack(desk, input, original, before) && original.action.Replace?
           && original.action.expectedCatalogId == Some(product)
    else if IsReplaceCard(desk.selection) then
      var card := desk.selection.value;
      && card.targetObjectId == objectId && card.selectedProductId == product
      && card.designId == desk.binding.designId && card.designId == desk.planned.designId
      && (input.catalogId.Some? ==> input.catalogId.value == product)
    else
      input.catalogId == Some(product) && product in desk.known
  }

  /** The action does to the placed object what the request says. */
  ghost predicate ChangeAsked(desk: Desk, placed: Object, input: EditInput, action: Action)
  {
    match action
    case Move(position) =>
      if input.originalCommandId.None? then input.target.Some? && Spells(input.target.value, position)
      else input.target.None? && exists original, before ::
             TakesBack(desk, input, original, before) && before.position == position
    case Rotate(rotation) =>
      && YawOnly(rotation)
      && if input.originalCommandId.None? then input.target.Some? && Spells(input.target.value, rotation)
         else input.target.None? && exists original, before ::
                TakesBack(desk, input, original, before) && before.rotation == rotation
    case Remove => input.originalCommandId.Some? ==> IsTakenBack(desk, input)
    case Replace(product, expected) =>
      product != "" && expected == placed.CatalogId() && ProductAsked(desk, input, placed.id, product)
    case _ => false
  }

  /** The staged objects after the change of the object at `i`: the others stay as they are, in order. */
  predicate Changed(staged: seq<Object>, i: nat, action: Action, next: seq<Object>)
    requires i < |staged|
  {
    match action
    case Move(position) => next == staged[i := staged[i].(position := position)]
    case Rotate(rotation) => next == staged[i := staged[i].(rotation := rotation)]
    case Replace(product, _) => next == staged[i := staged[i].(product := Some(Product(product, None)))]
    case _ => next == staged[..i] + staged[i + 1..]
  }

  /** The edit is what the request asks for in the staged room, and `next` is the room after it. */
  ghost predicate Asked(desk: Desk, staged: seq<Object>, input: EditInput, edit: Edit, next: seq<Object>)
  {
    && edit.action.Kind() == input.kind
    && (input.originalCommandId.None? ==> input.originalEditIndex.None?)
    && (input.originalCommandId.Some? ==> input.catalogId.None?)
    && if edit.action.Creates() then CreateAsked(staged, input, edit) && next == staged
       else EditAsked(desk, staged, input, edit, next)
  }

  ghost predicate EditAsked(desk: Desk, staged: seq<Object>, input: EditInput, edit: Edit, next: seq<Object>)
  {
    && Named(input.objectId) && edit.objectId == input.objectId
    && edit.reverses == (if input.originalCommandId.None? then None
                         else Some(Reference(input.originalCommandId.value, input.originalEditIndex)))
    && exists i: nat ::
         && PlacedOnce(staged, input.objectId.value, i)
         && ChangeAsked(desk, staged[i], input, edit.action) && Changed(staged, i, edit.action, next)
  }

  // ---- Placed once ----------------------------------------------------------------------

  predicate OnlyIn(objects: seq<Object>, ids: set<Id>, i: nat)
  {
    i < |objects| && forall j | 0 <= j < |objects| :: objects[j].id in ids <==> j == i
  }

  lemma {:induction false} OneOf(objects: seq<Object>, ids: set<Id>, i: nat)
    requires OnlyIn(objects, ids, i)
    ensures Restrict(objects, ids) == [objects[i]]
  {
    var tail := objects[1..];
    assert forall j | 0 <= j < |tail| :: tail[j] == objects[j + 1];
    if i == 0 {
      NoneOf(tail, ids);
    } else {
      assert OnlyIn(tail, ids, i - 1);
      OneOf(tail, ids, i - 1);
    }
  }

  lemma {:induction false} NoneOf(objects: seq<Object>, ids: set<Id>)
    ensures Restrict(objects, ids) == [] <==> forall j | 0 <= j < |objects| :: objects[j].id !in ids
  {
    if objects != [] {
      NoneOf(objects[1..], ids);
      assert forall j | 1 <= j < |objects| :: objects[j] == objects[1..][j - 1];
    }
  }

  lemma {:induction false} TheOne(objects: seq<Object>, ids: set<Id>) returns (i: nat)
    requires |Restrict(objects, ids)| == 1
    ensures OnlyIn(objects, ids, i) && Restrict(objects, ids) == [objects[i]]
  {
    assert forall j | 1 <= j < |objects| :: objects[j] == objects[1..][j - 1];
    if objects[0].id in ids {
      NoneOf(objects[1..], ids);
      i := 0;
    } else {
      var k := TheOne(objects[1..], ids);
      i := k + 1;
    }
  }

  lemma {:induction false} OnceTail(objects: seq<Object>, id: Id, i: nat)
    requires PlacedOnce(objects, id, i) && i > 0
    ensures objects[0].id != id && PlacedOnce(objects[1..], id, i - 1)
  {
    forall j | 0 <= j < |objects| - 1 && j != i - 1 ensures objects[1..][j].id != id {
      assert objects[1..][j] == objects[j + 1];
    }
  }

  /** Where `find` and `filter` point. */
  lemma {:induction false} OnceFound(objects: seq<Object>, id: Id, i: nat)
    requires PlacedOnce(objects, id, i)
    ensures Find(objects, id) == Some(i)
    ensures Without(objects, id) == objects[..i] + objects[i + 1..]
  {
    if i == 0 {
      NoneBehind(objects[1..], id);
      assert objects[..0] + objects[1..] == objects[1..];
    } else {
      OnceTail(objects, id, i);
      OnceFound(objects[1..], id, i - 1);
      assert objects[..i] + objects[i + 1..] == [objects[0]] + (objects[1..][..i - 1] + objects[1..][i..]);
    }
  }

  lemma {:induction false} NoneBehind(objects: seq<Object>, id: Id)
    requires forall j | 0 <= j < |objects| :: objects[j].id != id
    ensures Without(objects, id) == objects
  {
    if objects != [] {
      assert forall j | 0 <= j < |objects[1..]| :: objects[1..][j] == objects[j + 1];
      NoneBehind(objects[1..], id);
    }
  }

  lemma {:induction false} ExactlyOnceIs(objects: seq<Object>, id: Id)
    ensures ExactlyOne(objects, id) <==> IsPlacedOnce(objects, id)
  {
    if ExactlyOne(objects, id) {
      var i := TheOne(objects, {id});
      assert PlacedOnce(objects, id, i);
    }
    if i: nat :| PlacedOnce(objects, id, i) {
      OneOf(objects, {id}, i);
    }
  }

  // ---- Staging is asked for -------------------------------------------------------------

  lemma {:induction false} OriginalTaken(desk: Desk, input: EditInput, id: Id, original: Edit, before: Transform)
    requires input.originalCommandId.Some? && input.objectId == Some(id)
    ensures Original(desk, input, id) == Ok((original, before)) <==> TakesBack(desk, input, original, before)
  {
  }

  lemma {:induction false} TakenOnce(desk: Desk, input: EditInput, id: Id)
    requires input.originalCommandId.Some? && input.objectId == Some(id)
    ensures Original(desk, input, id).Ok? <==> IsTakenBack(desk, input)
    ensures forall original, before | TakesBack(desk, input, original, before) ::
              Original(desk, input, id) == Ok((original, before))
  {
    if Original(desk, input, id).Ok? {
      var taken := Original(desk, input, id).value;
      OriginalTaken(desk, input, id, taken.0, taken.1);
    }
    forall original, before | TakesBack(desk, input, original, before)
      ensures Original(desk, input, id) == Ok((original, before))
    {
      OriginalTaken(desk, input, id, original, before);
    }
  }

  lemma {:induction false} ResolvedAsAsked(desk: Desk, input: EditInput, placed: Object, action: Action)
    requires Changes(input.kind) && input.objectId == Some(placed.id) && CheckSelection(desk, input, placed.id).None?
    requires input.originalCommandId.Some? ==> input.catalogId.None?
    requires (input.kind.MoveKind? || input.kind.RotateKind?) ==>
               (input.target.None? <==> input.originalCommandId.Some?)
    ensures ResolveAction(desk, input, placed) == Ok(action)
            <==> action.Kind() == input.kind && ChangeAsked(desk, placed, input, action)
  {
    if input.originalCommandId.Some? {
      TakenOnce(desk, input, placed.id);
    } else if input.target.Some? {
      VectorAsGiven(input.target.value);
    }
  }

  /** What keeps a change from being resolved at all keeps it from being asked for. */
  lemma {:induction false} UnresolvedIsNotAsked(desk: Desk, input: EditInput, placed: Object, action: Action)
    requires Changes(input.kind) && action.Kind() == input.kind && ChangeAsked(desk, placed, input, action)
    ensures CheckSelection(desk, input, placed.id).None?
    ensures (input.kind.MoveKind? || input.kind.RotateKind?) ==>
              (input.target.None? <==> input.originalCommandId.Some?)
  {
  }

  predicate WellFormed(input: EditInput)
  {
    && (input.originalCommandId.None? ==> input.originalEditIndex.None?)
    && (input.originalCommandId.Some? ==> input.catalogId.None?)
  }

  lemma {:induction false} ChangedAsStaged(staged: seq<Object>, i: nat, id: Id, action: Action, next: seq<Object>)
    requires PlacedOnce(staged, id, i) && !action.Creates()
    ensures Changed(staged, i, action, next)
            <==> next == if action.Remove? then Without(staged, id)
                         else staged[i := StagedChange(staged[i], action)]
  {
    OnceFound(staged, id, i);
  }

  lemma {:induction false} ChangeExactly(desk: Desk, staged: seq<Object>, input: EditInput, edit: Edit,
                                         next: seq<Object>)
    requires Changes(input.kind) && WellFormed(input)
    ensures StageChange(desk, staged, input) == Ok((edit, next))
            <==> edit.action.Kind() == input.kind && EditAsked(desk, staged, input, edit, next)
  {
    if Named(input.objectId) {
      ExactlyOnceIs(staged, input.objectId.value);
      if i: nat :| PlacedOnce(staged, input.objectId.value, i) {
        ChangeOfOne(desk, staged, input, edit, next, i);
      }
    }
  }

  lemma {:induction false} OnlyHere(staged: seq<Object>, id: Id, i: nat, j: nat)
    requires PlacedOnce(staged, id, i) && PlacedOnce(staged, id, j)
    ensures i == j
  {
  }

  lemma {:induction false} ChangeOfOne(desk: Desk, staged: seq<Object>, input: EditInput, edit: Edit,
                                       next: seq<Object>, i: nat)
    requires Changes(input.kind) && WellFormed(input) && Named(input.objectId)
    requires PlacedOnce(staged, input.objectId.value, i)
    ensures StageChange(desk, staged, input) == Ok((edit, next))
            <==> edit.action.Kind() == input.kind && EditAsked(desk, staged, input, edit, next)
  {
    var id := input.objectId.value;
    OnceFound(staged, id, i);
    ExactlyOnceIs(staged, id);
    if edit.action.Kind() == input.kind && EditAsked(desk, staged, input, edit, next) {
      var j: nat :| PlacedOnce(staged, id, j) && ChangeAsked(desk, staged[j], input, edit.action)
                    && Changed(staged, j, edit.action, next);
      OnlyHere(staged, id, i, j);
      UnresolvedIsNotAsked(desk, input, staged[i], edit.action);
      ResolvedAsAsked(desk, input, staged[i], edit.action);
      ChangedAsStaged(staged, i, id, edit.action, next);
    } else if StageChange(desk, staged, input) == Ok((edit, next)) {
      ResolvedAsAsked(desk, input, staged[i], edit.action);
      ChangedAsStaged(staged, i, id, edit.action, next);
    }
  }

  lemma {:induction false} CreateExactly(staged: seq<Object>, input: EditInput, edit: Edit)
    requires !Changes(input.kind)
    ensures StageCreate(staged, input) == Ok(edit)
            <==> edit.action.Kind() == input.kind && CreateAsked(staged, input, edit)
  {
    if input.create.Some? && input.create.value.Creates() {
      if input.create.value.Duplicate? {
        ExactlyOnceIs(staged, input.create.value.source);
      }
      var placement := input.create.value.placement;
      if placement.Some? && placement.value.Relative? {
        ExactlyOnceIs(staged, placement.value.anchor);
      }
    }
  }

  /** Staging accepts a request exactly if it can be asked for in the staged room, and stages what it asks for. */
  lemma {:induction false} StagedExactly(desk: Desk, staged: seq<Object>, input: EditInput, edit: Edit,
                                         next: seq<Object>)
    ensures StageEdit(desk, staged, input) == Ok((edit, next)) <==> Asked(desk, staged, input, edit, next)
  {
    if WellFormed(input) {
      if Changes(input.kind) {
        ChangeExactly(desk, staged, input, edit, next);
      } else {
        CreateExactly(staged, input, edit);
      }
    }
  }

  // ---- The whole request ----------------------------------------------------------------

  /** One room before each request and one at the end. */
  ghost predicate Planning(desk: Desk, rooms: seq<seq<Object>>, inputs: seq<EditInput>, edits: seq<Edit>)
  {
    && |edits| == |inputs| && |rooms| == |inputs| + 1
    && forall k: nat | k < |inputs| :: Asked(desk, rooms[k], inputs[k], edits[k], rooms[k + 1])
  }

  /** A created object counts once per piece. */
  function Operations(edits: seq<Edit>): int
  {
    if edits == [] then 0
    else (if edits[0].action.Add? || edits[0].action.Duplicate? then edits[0].action.quantity else 1)
         + Operations(edits[1..])
  }

  lemma {:induction false} OneMoreOperation(edits: seq<Edit>, edit: Edit)
    ensures Operations(edits + [edit]) == Operations(edits) + Operations([edit])
  {
    if edits == [] {
      assert edits + [edit] == [edit];
    } else {
      assert (edits + [edit])[1..] == edits[1..] + [edit];
      OneMoreOperation(edits[1..], edit);
    }
  }

  lemma {:induction false} OperationsAreCounted(edits: seq<Edit>)
    ensures ExpandedCount(edits) == Operations(edits)
  {
    if edits != [] {
      var n := |edits| - 1;
      assert edits == edits[..n] + [edits[n]];
      assert [edits[n]][1..] == [];
      OneMoreOperation(edits[..n], edits[n]);
      OperationsAreCounted(edits[..n]);
    }
  }

  lemma {:induction false} StagedPlanning(desk: Desk, staged: seq<Object>, inputs: seq<EditInput>, acc: seq<Edit>,
                                          todo: seq<Edit>) returns (rooms: seq<seq<Object>>)
    requires StageFrom(desk, staged, inputs, acc) == Ok(acc + todo)
    ensures Planning(desk, rooms, inputs, todo) && rooms[0] == staged
    decreases |inputs|
  {
    if inputs == [] {
      assert |acc + todo| == |acc|;
      rooms := [staged];
    } else {
      var next := StageCons(desk, staged, inputs, acc, todo);
      StagedExactly(desk, staged, inputs[0], todo[0], next);
      var later := StagedPlanning(desk, next, inputs[1..], acc + [todo[0]], todo[1..]);
      rooms := [staged] + later;
      PlanningCons(desk, staged, later, inputs, todo);
    }
  }

  lemma {:induction false} PlanningCons(desk: Desk, staged: seq<Object>, later: seq<seq<Object>>,
                                        inputs: seq<EditInput>, todo: seq<Edit>)
    requires inputs != [] && todo != [] && Planning(desk, later, inputs[1..], todo[1..])
    requires Asked(desk, staged, inputs[0], todo[0], later[0])
    ensures Planning(desk, [staged] + later, inputs, todo)
  {
    var rooms := [staged] + later;
    forall k: nat | k < |inputs| ensures Asked(desk, rooms[k], inputs[k], todo[k], rooms[k + 1]) {
      if k > 0 {
        assert rooms[k] == later[k - 1] && rooms[k + 1] == later[k - 1 + 1];
        assert inputs[k] == inputs[1..][k - 1] && todo[k] == todo[1..][k - 1];
      }
    }
  }

  lemma {:induction false} PlanningTail(desk: Desk, rooms: seq<seq<Object>>, inputs: seq<EditInput>, edits: seq<Edit>)
    requires Planning(desk, rooms, inputs, edits) && inputs != []
    ensures Planning(desk, rooms[1..], inputs[1..], edits[1..])
    ensures Asked(desk, rooms[0], inputs[0], edits[0], rooms[0 + 1])
  {
    forall k: nat | k < |inputs[1..]|
      ensures Asked(desk, rooms[1..][k], inputs[1..][k], edits[1..][k], rooms[1..][k + 1])
    {
      assert Asked(desk, rooms[k + 1], inputs[k + 1], edits[k + 1], rooms[k + 1 + 1]);
    }
  }

  lemma {:induction false} PlanningStaged(desk: Desk, rooms: seq<seq<Object>>, inputs: seq<EditInput>,
                                          edits: seq<Edit>, acc: seq<Edit>)
    requires Planning(desk, rooms, inputs, edits)
    ensures StageFrom(desk, rooms[0], inputs, acc) == Ok(acc + edits)
    decreases |inputs|
  {
    if inputs == [] {
      AppendNone(acc);
    } else {
      PlanningTail(desk, rooms, inputs, edits);
      StagedExactly(desk, rooms[0], inputs[0], edits[0], rooms[1]);
      PlanningStaged(desk, rooms[1..], inputs[1..], edits[1..], acc + [edits[0]]);
      assert edits == [edits[0]] + edits[1..];
      Associative(acc, [edits[0]], edits[1..]);
    }
  }

  /** The edits that the requests ask for, one after the other, in the room that was planned on. */
  ghost predicate Requested(desk: Desk, inputs: seq<EditInput>, edits: seq<Edit>)
  {
    exists rooms :: Planning(desk, rooms, inputs, edits) && rooms[0] == desk.planned.objects
  }

  lemma {:induction false} RequestedIsStaged(desk: Desk, inputs: seq<EditInput>, edits: seq<Edit>)
    ensures StageFrom(desk, desk.planned.objects, inputs, []) == Ok(edits) <==> Requested(desk, inputs, edits)
  {
    PrependNone(edits);
    if StageFrom(desk, desk.planned.objects, inputs, []) == Ok(edits) {
      var rooms := StagedPlanning(desk, desk.planned.objects, inputs, [], edits);
    }
    if rooms :| Planning(desk, rooms, inputs, edits) && rooms[0] == desk.planned.objects {
      PlanningStaged(desk, rooms, inputs, edits, []);
    }
  }

  /** A request becomes a command exactly if it has one to fifty edits, each can be asked for in the room that the
      ones before leave, and they are at most fifty operations. The command holds the edits that were asked for, in
      order, for the room, the revision and the conversation that was planned on. */
  lemma {:induction false} PlannedExactly(desk: Desk, commandId: Id, inputs: seq<EditInput>, batch: bool,
                                          command: Command)
    requires !batch ==> |inputs| == 1
    ensures PlanCommand(desk, commandId, inputs, batch) == Ok(command)
            <==> && 1 <= |inputs| <= 50 && Requested(desk, inputs, command.payload.Edits())
                 && Operations(command.payload.Edits()) <= 50 && command.payload.Batch? == batch
                 && command.commandId == commandId && command.conversationId == desk.conversationId
                 && command.binding == desk.binding && command.expectedRevision == desk.planned.revision
  {
    RequestedIsStaged(desk, inputs, command.payload.Edits());
    var staged := StageFrom(desk, desk.planned.objects, inputs, []);
    if staged.Ok? {
      OperationsAreCounted(staged.value);
      Singleton(staged.value);
    }
  }

  /** The last of these rooms is the staged room that the Studio's room is compared with. */
  lemma {:induction false} LastRoomIsStaged(desk: Desk, rooms: seq<seq<Object>>, inputs: seq<EditInput>,
                                            edits: seq<Edit>)
    requires Planning(desk, rooms, inputs, edits)
    ensures StagedAfter(desk, rooms[0], inputs) == rooms[|inputs|]
    decreases |inputs|
  {
    if inputs != [] {
      PlanningTail(desk, rooms, inputs, edits);
      StagedExactly(desk, rooms[0], inputs[0], edits[0], rooms[1]);
      LastRoomIsStaged(desk, rooms[1..], inputs[1..], edits[1..]);
    }
  }

  // ---- Tool arguments -------------------------------------------------------------------

  predicate QuantityAsked(asked: Option<int>, quantity: int)
  {
    if asked.Some? then quantity == asked.value else quantity == 1
  }

  /** What an edit that adds may ask for: with a card, what was selected, which may be repeated; without one, a product
      that was seen. */
  predicate AddAsked(catalogId: Option<Id>, quantity: Option<int>, raw: Option<RawPlacement>,
                     card: Option<PromptAction>, known: set<Id>, action: Action)
  {
    && action.Add? && Sensible(raw) && PlacedAsGiven(raw, action.placement)
    && if card.Some? && card.value.AddAsset? then
         && action.product == card.value.selectedProductId && action.quantity == card.value.quantity
         && (Named(catalogId) ==> catalogId.value == action.product)
         && (quantity.Some? ==> quantity.value == action.quantity)
       else
         Named(catalogId) && action.product == catalogId.value && action.product in known
         && QuantityAsked(quantity, action.quantity)
  }

  lemma {:induction false} PlacementsAreNumbers(raw: Option<RawPlacement>, a: Option<Placement>, b: Option<Placement>)
    requires PlacedAsGiven(raw, a) && PlacedAsGiven(raw, b)
    ensures a == b
  {
    match raw
    case None =>
    case Some(RawAbsolute(position, rotation)) =>
      SpelledOnce(position, a.value.position, b.value.position);
      if rotation.Some? {
        SpelledOnce(rotation.value, a.value.rotation.value, b.value.rotation.value);
      }
    case Some(RawRelative(_, offset)) =>
      if offset.Some? {
        SpelledOnce(offset.value, a.value.offset.value, b.value.offset.value);
      }
  }

  lemma {:induction false} SpelledOnce(v: seq<real>, a: Vector3, b: Vector3)
    requires Spells(v, a) && Spells(v, b)
    ensures a == b
  {
    assert v[0] == a.x == b.x && v[1] == a.y == b.y && v[2] == a.z == b.z;
  }

  /** With a card, the request may only repeat what was selected; without one, it must name a product that was seen. */
  lemma {:induction false} CardDecides(catalogId: Option<Id>, quantity: Option<int>, raw: Option<RawPlacement>,
                                       card: Option<PromptAction>, known: set<Id>, action: Action)
    ensures ResolveAdd(catalogId, quantity, raw, card, known) == Ok(action)
            <==> AddAsked(catalogId, quantity, raw, card, known, action)
  {
    PlacementAsGiven(raw);
    if ParsePlacement(raw).Ok? && action.Add? && PlacedAsGiven(raw, action.placement) {
      PlacementsAreNumbers(raw, action.placement, ParsePlacement(raw).value);
    }
  }

  /** A duplicate names one placed object: the one asked for, or else the only one that is selected. */
  ghost predicate DuplicateAsked(objectId: Option<Id>, quantity: Option<int>, raw: Option<RawPlacement>,
                                 room: Snapshot, action: Action)
  {
    && action.Duplicate? && Sensible(raw) && PlacedAsGiven(raw, action.placement)
    && QuantityAsked(quantity, action.quantity)
    && if objectId.Some? then action.source == objectId.value
       else exists i: nat :: OnlySelected(room, i) && room.objects[i].id == action.source
  }

  predicate OnlySelected(room: Snapshot, i: nat)
  {
    i < |room.objects| && forall j | 0 <= j < |room.objects| :: room.objects[j].id in room.selected <==> j == i
  }

  lemma {:induction false} DuplicateNamesOne(objectId: Option<Id>, quantity: Option<int>, raw: Option<RawPlacement>,
                                             room: Snapshot, action: Action)
    ensures ResolveDuplicate(objectId, quantity, raw, Some(room)) == Ok(action)
            <==> DuplicateAsked(objectId, quantity, raw, room, action)
    ensures ResolveDuplicate(objectId, quantity, raw, None).Err?
  {
    PlacementAsGiven(raw);
    if ParsePlacement(raw).Ok? && action.Duplicate? && PlacedAsGiven(raw, action.placement) {
      PlacementsAreNumbers(raw, action.placement, ParsePlacement(raw).value);
    }
    if objectId.None? {
      var ids := set id | id in room.selected;
      if i: nat :| OnlySelected(room, i) {
        OneOf(room.objects, ids, i);
      }
      if |Restrict(room.objects, ids)| == 1 {
        var i := TheOne(room.objects, ids);
        assert OnlySelected(room, i);
      }
    }
  }
}
