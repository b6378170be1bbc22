/** What every edit that the Studio applies does to the room, object by object, and which edits it can apply:
    scripts/studio-smoke/adapter.ts. */
module StudioEffects {
  import opened Outcomes
  import opened Sequences
  import opened StudioContract
  import opened StudioAdapter
  import opened StudioAgreement
  import opened StudioRequests

  // ---- Where new objects go -------------------------------------------------------------

  /** `times` steps away from `from`. */
  predicate Steps(from: Vector3, step: Vector3, times: real, to: Vector3)
  {
    to.x == from.x + times * step.x && to.y == from.y + times * step.y && to.z == from.z + times * step.z
  }

  /** The larger of a quarter and of about a third of the extent. */
  predicate Margin(extent: real, margin: real)
  {
    && margin >= 0.25 && margin >= 0.35 * extent
    && (margin == 0.25 || margin == 0.35 * extent)
  }

  /** Beside an object of these dimensions: to the right, and towards the front. */
  predicate BesideStep(dimensions: Vector3, step: Vector3)
  {
    Margin(dimensions.x, step.x) && Margin(dimensions.y, -step.y) && step.z == 0.0
  }

  predicate Beside(o: Object, position: Vector3)
  {
    BesideStep(o.dimensions, Vector3(position.x - o.position.x, position.y - o.position.y, position.z - o.position.z))
  }

  predicate IsMin(s: seq<real>, m: real) { m in s && forall x | x in s :: m <= x }

  predicate IsMax(s: seq<real>, m: real) { m in s && forall x | x in s :: x <= m }

  /** Half way between the extremes. */
  ghost predicate IsMiddle(s: seq<real>, middle: real)
  {
    exists low, high :: IsMin(s, low) && IsMax(s, high) && 2.0 * middle == low + high
  }

  function Xs(floor: seq<Point>): seq<real> { seq(|floor|, i requires 0 <= i < |floor| => floor[i].x) }

  function Ys(floor: seq<Point>): seq<real> { seq(|floor|, i requires 0 <= i < |floor| => floor[i].y) }

  /** In the middle of the floor. */
  ghost predicate IsCenter(floor: seq<Point>, center: Vector3)
  {
    IsMiddle(Xs(floor), center.x) && IsMiddle(Ys(floor), center.y) && center.z == 0.0
  }

  /** The object that a new one is a copy of. */
  ghost predicate IsSource(room: Snapshot, action: Action, source: Object)
  {
    action.Duplicate? && exists i: nat :: PlacedOnce(room.objects, action.source, i) && room.objects[i] == source
  }

  ghost predicate IsAnchor(room: Snapshot, id: Id, anchor: Object)
  {
    exists i: nat :: PlacedOnce(room.objects, id, i) && room.objects[i] == anchor
  }

  /** Where the first new object goes: to the given position, by the offset from the anchor or beside it; without a
      placement, beside the object that is copied, or into the middle of the room. */
  ghost predicate StartsAt(room: Snapshot, action: Action, start: Vector3)
    requires action.Creates()
  {
    match action.placement
    case Some(Absolute(position, _)) => start == position
    case Some(Relative(id, offset)) =>
      exists anchor :: IsAnchor(room, id, anchor)
                       && if offset.Some? then Steps(anchor.position, offset.value, 1.0, start)
                          else Beside(anchor, start)
    case None =>
      if action.Add? then IsCenter(room.floor, start)
      else exists source :: IsSource(room, action, source) && Beside(source, start)
  }

  /** What a new object is like: the product with its catalog facts, or the object that is copied. */
  ghost predicate LooksAsked(catalog: Catalog, room: Snapshot, action: Action, o: Object)
    requires action.Creates()
  {
    if action.Duplicate? then
      exists source :: IsSource(room, action, source) && o == source.(id := o.id, position := o.position)
    else
      && action.product in catalog
      && var fact := catalog[action.product];
         && o.name == fact.name && o.category == fact.category && o.dimensions == fact.dimensions
         && o.product == Some(Product(fact.catalogId, fact.price)) && o.scale == Vector3(1.0, 1.0, 1.0)
         && o.rotation == match action.placement
                          case Some(Absolute(_, Some(rotation))) => rotation
                          case _ => Vector3(0.0, 0.0, 0.0)
  }

  /** How far the new objects are from each other: as far as the object that is copied, or the product, demands. */
  ghost predicate SpacedAs(catalog: Catalog, room: Snapshot, action: Action, step: Vector3)
    requires action.Creates()
  {
    if action.Duplicate? then exists source :: IsSource(room, action, source) && BesideStep(source.dimensions, step)
    else action.product in catalog && BesideStep(catalog[action.product].dimensions, step)
  }

  /** The new objects stand in a row, with the IDs minted for them. */
  ghost predicate Row(catalog: Catalog, mint: Mint, minted: nat, room: Snapshot, action: Action, start: Vector3,
                      step: Vector3, row: seq<Object>)
    requires action.Creates()
  {
    && StartsAt(room, action, start) && SpacedAs(catalog, room, action, step) && |row| == action.quantity
    && forall k: nat | k < |row| ::
         && row[k].id == mint(minted + k) && Steps(start, step, k as real, row[k].position)
         && LooksAsked(catalog, room, action, row[k])
  }

  // ---- What an edit does ----------------------------------------------------------------

  predicate Shows(t: Transform, o: Object)
  {
    t.position == o.position && t.rotation == o.rotation && t.scale == o.scale
  }

  /** New objects are reported with their IDs and transforms, in order. */
  predicate RowReported(row: seq<Object>, result: EditResult)
  {
    && result.Instances? && |result.created| == |row|
    && forall k | 0 <= k < |row| ::
         result.created[k].objectId == row[k].id && Shows(result.created[k].transform, row[k])
  }

  ghost predicate Creation(catalog: Catalog, mint: Mint, st: Staging, action: Action, next: Staging,
                           result: EditResult)
    requires action.Creates()
  {
    && 1 <= action.quantity <= 50 && next.minted == st.minted + action.quantity
    && exists start, step, row ::
         && Row(catalog, mint, st.minted, st.snapshot, action, start, step, row) && RowReported(row, result)
         && next.snapshot == st.snapshot.(objects := st.snapshot.objects + row)
  }

  /** The selection keeps its order and loses at most the removed object. */
  predicate Unselected(selected: seq<Id>, id: Id, left: seq<Id>)
  {
    if id !in selected then left == selected
    else exists k | 0 <= k < |selected| :: selected[k] == id && left == selected[..k] + selected[k + 1..]
  }

  ghost predicate Change(st: Staging, edit: Edit, next: Staging, result: EditResult)
  {
    && edit.objectId.Some? && next.minted == st.minted
    && exists i: nat ::
         && PlacedOnce(st.snapshot.objects, edit.objectId.value, i)
         && ChangeAt(st.snapshot, edit, i, next.snapshot, result)
  }

  /** The object at `i` is changed and nothing else; the transforms before and after are reported. */
  ghost predicate ChangeAt(room: Snapshot, edit: Edit, i: nat, after: Snapshot, result: EditResult)
    requires i < |room.objects|
  {
    && Changed(room.objects, i, edit.action, after.objects)
    && after == room.(objects := after.objects, selected := after.selected)
    && (if edit.action.Remove? then Unselected(room.selected, room.objects[i].id, after.selected)
        else after.selected == room.selected)
    && (edit.action.Replace? ==> room.objects[i].CatalogId() == edit.action.expectedCatalogId)
    && result.Edited? && Shows(result.before, room.objects[i])
    && (if edit.action.Remove? then result.after.None?
        else i < |after.objects| && result.after.Some? && Shows(result.after.value, after.objects[i]))
  }

  /** One edit and the room it leaves, which the room rules admit. */
  ghost predicate Applied(catalog: Catalog, mint: Mint, st: Staging, edit: Edit, next: Staging, result: EditResult)
  {
    match edit.action
    case Add(_, _, _) => ValidSnapshot(next.snapshot) && Creation(catalog, mint, st, edit.action, next, result)
    case Duplicate(_, _, _) => ValidSnapshot(next.snapshot) && Creation(catalog, mint, st, edit.action, next, result)
    case _ => ValidSnapshot(next.snapshot) && Change(st, edit, next, result)
  }

  lemma {:induction false} AppliedIsValid(catalog: Catalog, mint: Mint, st: Staging, edit: Edit, next: Staging,
                                          result: EditResult)
    requires Applied(catalog, mint, st, edit, next, result)
    ensures ValidSnapshot(next.snapshot)
  {
  }

  // ---- Places are unique ----------------------------------------------------------------

  lemma {:induction false} FindOnce(objects: seq<Object>, id: Id)
    requires UniqueIds(objects)
    ensures Find(objects, id).Some? ==> PlacedOnce(objects, id, Find(objects, id).value)
    ensures forall i: nat | PlacedOnce(objects, id, i) :: Find(objects, id) == Some(i)
  {
    forall i: nat | PlacedOnce(objects, id, i) ensures Find(objects, id) == Some(i) {
      OnceFound(objects, id, i);
    }
  }

  lemma {:induction false} StepIs(dimensions: Vector3, step: Vector3)
    ensures BesideStep(dimensions, step) <==> step == CopyOffset(dimensions)
  {
  }

  lemma {:induction false} BesideIs(o: Object, position: Vector3)
    ensures Beside(o, position) <==> position == AddVectors(o.position, CopyOffset(o.dimensions), 1.0)
  {
    var away := Vector3(position.x - o.position.x, position.y - o.position.y, position.z - o.position.z);
    StepIs(o.dimensions, away);
  }

  lemma {:induction false} MinIs(s: seq<real>)
    requires s != []
    ensures IsMin(s, MinOf(s))
  {
    if |s| > 1 {
      MinIs(s[1..]);
      assert s == [s[0]] + s[1..];
    }
  }

  lemma {:induction false} MaxIs(s: seq<real>)
    requires s != []
    ensures IsMax(s, MaxOf(s))
  {
    if |s| > 1 {
      MaxIs(s[1..]);
      assert s == [s[0]] + s[1..];
    }
  }

  lemma {:induction false} MiddleIs(s: seq<real>, middle: real)
    requires s != []
    ensures IsMiddle(s, middle) <==> middle == (MinOf(s) + MaxOf(s)) / 2.0
  {
    MinIs(s);
    MaxIs(s);
    if low, high :| IsMin(s, low) && IsMax(s, high) && 2.0 * middle == low + high {
      assert low == MinOf(s) && high == MaxOf(s);
    }
  }

  lemma {:induction false} CenterIs(room: Snapshot, center: Vector3)
    requires room.floor != []
    ensures IsCenter(room.floor, center) <==> center == RoomCenter(room)
  {
    MiddleIs(Xs(room.floor), center.x);
    MiddleIs(Ys(room.floor), center.y);
    CenterFrom(room);
  }

  lemma {:induction false} CenterFrom(room: Snapshot)
    requires room.floor != []
    ensures var xs, ys := Xs(room.floor), Ys(room.floor);
            RoomCenter(room) == Vector3((MinOf(xs) + MaxOf(xs)) / 2.0, (MinOf(ys) + MaxOf(ys)) / 2.0, 0.0)
  {
    assert Xs(room.floor) == seq(|room.floor|, i requires 0 <= i < |room.floor| => room.floor[i].x);
    assert Ys(room.floor) == seq(|room.floor|, i requires 0 <= i < |room.floor| => room.floor[i].y);
  }

  lemma {:induction false} SourceIs(room: Snapshot, action: Action, source: Object)
    requires UniqueIds(room.objects) && action.Duplicate?
    ensures IsSource(room, action, source)
            <==> Find(room.objects, action.source).Some?
                 && source == room.objects[Find(room.objects, action.source).value]
  {
    FindOnce(room.objects, action.source);
  }

  lemma {:induction false} AnchorIs(room: Snapshot, id: Id, anchor: Object)
    requires UniqueIds(room.objects)
    ensures IsAnchor(room, id, anchor)
            <==> Find(room.objects, id).Some? && anchor == room.objects[Find(room.objects, id).value]
  {
    FindOnce(room.objects, id);
  }

  // ---- New objects ----------------------------------------------------------------------

  lemma {:induction false} RelativeIs(room: Snapshot, id: Id, offset: Option<Vector3>, fallback: Vector3,
                                      start: Vector3)
    requires UniqueIds(room.objects)
    ensures ResolveOrigin(room.objects, Some(Relative(id, offset)), fallback) == Ok(start)
            <==> exists anchor :: IsAnchor(room, id, anchor)
                                  && if offset.Some? then Steps(anchor.position, offset.value, 1.0, start)
                                     else Beside(anchor, start)
  {
    var at := Find(room.objects, id);
    if at.Some? {
      var anchor := room.objects[at.value];
      AnchorIs(room, id, anchor);
      BesideIs(anchor, start);
      forall other | IsAnchor(room, id, other) ensures other == anchor {
        AnchorIs(room, id, other);
      }
    } else {
      forall other | IsAnchor(room, id, other) ensures false {
        AnchorIs(room, id, other);
      }
    }
  }

  lemma {:induction false} CopyStartIs(room: Snapshot, action: Action, start: Vector3)
    requires UniqueIds(room.objects) && action.Duplicate?
    ensures (exists source :: IsSource(room, action, source) && Beside(source, start))
            <==> Find(room.objects, action.source).Some?
                 && var source := room.objects[Find(room.objects, action.source).value];
                    start == AddVectors(source.position, CopyOffset(source.dimensions), 1.0)
  {
    var at := Find(room.objects, action.source);
    if at.Some? {
      SourceIs(room, action, room.objects[at.value]);
      BesideIs(room.objects[at.value], start);
    }
    forall other | IsSource(room, action, other) ensures at.Some? && other == room.objects[at.value] {
      SourceIs(room, action, other);
    }
  }

  lemma {:induction false} StartIs(catalog: Catalog, room: Snapshot, action: Action, start: Vector3)
    requires UniqueIds(room.objects) && room.floor != [] && action.Creates()
    requires action.Add? ==> action.product in catalog
    requires action.Duplicate? ==> Find(room.objects, action.source).Some?
    ensures var pattern := CreatePattern(catalog, room, action);
            StartsAt(room, action, start) <==> pattern.Ok? && start == pattern.value.origin
  {
    match action.placement
    case Some(Absolute(_, _)) =>
    case Some(Relative(id, offset)) =>
      var fallback := if action.Add? then RoomCenter(room)
                      else var o := room.objects[Find(room.objects, action.source).value];
                           AddVectors(o.position, CopyOffset(o.dimensions), 1.0);
      RelativeIs(room, id, offset, fallback, start);
    case None =>
      if action.Add? {
        CenterIs(room, start);
      } else {
        CopyStartIs(room, action, start);
      }
  }

  lemma {:induction false} SpaceIs(catalog: Catalog, room: Snapshot, action: Action, step: Vector3)
    requires UniqueIds(room.objects) && room.floor != [] && action.Creates()
    requires CreatePattern(catalog, room, action).Ok?
    ensures SpacedAs(catalog, room, action, step) <==> step == CreatePattern(catalog, room, action).value.step
  {
    if action.Duplicate? {
      var source := room.objects[Find(room.objects, action.source).value];
      SourceIs(room, action, source);
      StepIs(source.dimensions, step);
      forall other | IsSource(room, action, other) ensures other == source {
        SourceIs(room, action, other);
      }
    } else {
      StepIs(catalog[action.product].dimensions, step);
    }
  }

  lemma {:induction false} LookIs(catalog: Catalog, room: Snapshot, action: Action, o: Object)
    requires UniqueIds(room.objects) && room.floor != [] && action.Creates()
    requires CreatePattern(catalog, room, action).Ok?
    ensures LooksAsked(catalog, room, action, o)
            <==> o == CreatePattern(catalog, room, action).value.template.(id := o.id, position := o.position)
  {
    if action.Duplicate? {
      var source := room.objects[Find(room.objects, action.source).value];
      SourceIs(room, action, source);
      forall other | IsSource(room, action, other) ensures other == source {
        SourceIs(room, action, other);
      }
    }
  }

  /** What new objects refer to is there. */
  predicate Findable(catalog: Catalog, room: Snapshot, action: Action)
    requires action.Creates()
  {
    if action.Add? then action.product in catalog else Find(room.objects, action.source).Some?
  }

  lemma {:induction false} FindableIfSpaced(catalog: Catalog, room: Snapshot, action: Action, step: Vector3)
    requires UniqueIds(room.objects) && action.Creates() && SpacedAs(catalog, room, action, step)
    ensures Findable(catalog, room, action)
  {
    if action.Duplicate? {
      var source :| IsSource(room, action, source);
      SourceIs(room, action, source);
    }
  }

  lemma {:induction false} RowIs(catalog: Catalog, mint: Mint, minted: nat, room: Snapshot, action: Action,
                                 start: Vector3, step: Vector3, row: seq<Object>)
    requires UniqueIds(room.objects) && room.floor != [] && action.Creates() && action.quantity >= 0
    ensures Row(catalog, mint, minted, room, action, start, step, row)
            <==> var pattern := CreatePattern(catalog, room, action);
                 pattern.Ok? && start == pattern.value.origin && step == pattern.value.step
                 && row == CreatedObjects(pattern.value, mint, minted, action.quantity)
  {
    var pattern := CreatePattern(catalog, room, action);
    if Row(catalog, mint, minted, room, action, start, step, row) {
      FindableIfSpaced(catalog, room, action, step);
    }
    if Findable(catalog, room, action) {
      StartIs(catalog, room, action, start);
      if pattern.Ok? {
        SpaceIs(catalog, room, action, step);
        RowOf(catalog, mint, minted, room, action, pattern.value, row);
      }
    }
  }

  lemma {:induction false} RowOf(catalog: Catalog, mint: Mint, minted: nat, room: Snapshot, action: Action,
                                 pattern: Pattern, row: seq<Object>)
    requires UniqueIds(room.objects) && room.floor != [] && action.Creates() && action.quantity >= 0
    requires CreatePattern(catalog, room, action) == Ok(pattern)
    ensures row == CreatedObjects(pattern, mint, minted, action.quantity)
            <==> |row| == action.quantity
                 && forall k: nat | k < |row| ::
                      && row[k].id == mint(minted + k)
                      && Steps(pattern.origin, pattern.step, k as real, row[k].position)
                      && LooksAsked(catalog, room, action, row[k])
  {
    var created := CreatedObjects(pattern, mint, minted, action.quantity);
    forall k: nat | k < |row| && k < |created|
      ensures row[k] == created[k]
              <==> row[k].id == mint(minted + k)
                   && Steps(pattern.origin, pattern.step, k as real, row[k].position)
                   && LooksAsked(catalog, room, action, row[k])
    {
      LookIs(catalog, room, action, row[k]);
      assert created[k] == pattern.Instance(mint(minted + k), k);
      StepsIs(pattern.origin, pattern.step, k, row[k].position);
    }
  }

  lemma {:induction false} StepsIs(from: Vector3, step: Vector3, times: nat, to: Vector3)
    ensures Steps(from, step, times as real, to) <==> to == AddVectors(from, step, times as real)
  {
  }

  lemma {:induction false} ReportIs(row: seq<Object>, result: EditResult)
    ensures RowReported(row, result) <==> result == Instances(CreatedBy(row))
  {
    if RowReported(row, result) {
      forall k | 0 <= k < |row| ensures result.created[k] == CreatedBy(row)[k] {
      }
      assert result.created == CreatedBy(row);
    }
  }

  /** What the adapter computes for a row of new objects. */
  lemma {:induction false} CreateOnRow(catalog: Catalog, mint: Mint, st: Staging, action: Action, pattern: Pattern,
                                       next: Staging, result: EditResult)
    requires st.snapshot.floor != [] && action.Creates() && 1 <= action.quantity <= 50
    requires CreatePattern(catalog, st.snapshot, action) == Ok(pattern)
    ensures CreateOn(catalog, mint, st, action) == Ok((next, result))
            <==> var row := CreatedObjects(pattern, mint, st.minted, action.quantity);
                 && next == Staging(st.snapshot.(objects := st.snapshot.objects + row), st.minted + action.quantity)
                 && result == Instances(CreatedBy(row))
  {
  }

  lemma {:induction false} CreationIs(catalog: Catalog, mint: Mint, st: Staging, action: Action, next: Staging,
                                      result: EditResult)
    requires ValidSnapshot(st.snapshot) && action.Creates()
    ensures CreateOn(catalog, mint, st, action) == Ok((next, result))
            <==> Creation(catalog, mint, st, action, next, result)
  {
    if 1 <= action.quantity <= 50 {
      var pattern := CreatePattern(catalog, st.snapshot, action);
      if pattern.Ok? {
        CreationOf(catalog, mint, st, action, pattern.value, next, result);
      } else {
        forall start, step, row ensures !Row(catalog, mint, st.minted, st.snapshot, action, start, step, row) {
          RowIs(catalog, mint, st.minted, st.snapshot, action, start, step, row);
        }
      }
    }
  }

  lemma {:induction false} CreationOf(catalog: Catalog, mint: Mint, st: Staging, action: Action, pattern: Pattern,
                                      next: Staging, result: EditResult)
    requires ValidSnapshot(st.snapshot) && action.Creates() && 1 <= action.quantity <= 50
    requires CreatePattern(catalog, st.snapshot, action) == Ok(pattern)
    ensures CreateOn(catalog, mint, st, action) == Ok((next, result))
            <==> Creation(catalog, mint, st, action, next, result)
  {
    var made := CreatedObjects(pattern, mint, st.minted, action.quantity);
    CreateOnRow(catalog, mint, st, action, pattern, next, result);
    RowIs(catalog, mint, st.minted, st.snapshot, action, pattern.origin, pattern.step, made);
    ReportIs(made, result);
    forall start, step, row | Row(catalog, mint, st.minted, st.snapshot, action, start, step, row) ensures row == made {
      RowIs(catalog, mint, st.minted, st.snapshot, action, start, step, row);
    }
  }

  lemma {:induction false} ShowsIs(t: Transform, o: Object)
    ensures Shows(t, o) <==> t == o.Placed()
  {
  }

  lemma {:induction false} UnselectedIs(selected: seq<Id>, id: Id, left: seq<Id>)
    requires Distinct(selected)
    ensures Unselected(selected, id, left) <==> left == WithoutId(selected, id)
  {
    if id !in selected {
      WithoutNoId(selected, id);
    } else {
      var k :| 0 <= k < |selected| && selected[k] == id;
      WithoutOneId(selected, id, k);
    }
  }

  lemma {:induction false} WithoutNoId(selected: seq<Id>, id: Id)
    requires id !in selected
    ensures WithoutId(selected, id) == selected
  {
    if selected != [] {
      WithoutNoId(selected[1..], id);
    }
  }

  lemma {:induction false} WithoutOneId(selected: seq<Id>, id: Id, k: nat)
    requires Distinct(selected) && k < |selected| && selected[k] == id
    ensures WithoutId(selected, id) == selected[..k] + selected[k + 1..]
  {
    var tail := selected[1..];
    assert forall i | 0 <= i < |tail| :: tail[i] == selected[i + 1];
    if k == 0 {
      WithoutNoId(tail, id);
    } else {
      WithoutOneId(tail, id, k - 1);
      assert selected[..k] + selected[k + 1..] == [selected[0]] + (tail[..k - 1] + tail[k..]);
    }
  }

  /** The change of the object at `i`, as the adapter computes it. */
  lemma {:induction false} ChangeAtIs(st: Staging, edit: Edit, i: nat, next: Staging, result: EditResult)
    requires ValidSnapshot(st.snapshot) && !edit.action.Creates() && edit.objectId.Some?
    requires PlacedOnce(st.snapshot.objects, edit.objectId.value, i) && next.minted == st.minted
    ensures EditOn(st, edit) == Ok((next, result)) <==> ChangeAt(st.snapshot, edit, i, next.snapshot, result)
  {
    OnceFound(st.snapshot.objects, edit.objectId.value, i);
    if result.Edited? {
      ShowsIs(result.before, st.snapshot.objects[i]);
    }
    if edit.action.Remove? {
      RemoveAtIs(st, edit, i, next, result);
    } else if result.Edited? && result.after.Some? && i < |next.snapshot.objects| {
      ShowsIs(result.after.value, next.snapshot.objects[i]);
    }
  }

  lemma {:induction false} RemoveAtIs(st: Staging, edit: Edit, i: nat, next: Staging, result: EditResult)
    requires ValidSnapshot(st.snapshot) && edit.action.Remove? && edit.objectId.Some? && next.minted == st.minted
    requires PlacedOnce(st.snapshot.objects, edit.objectId.value, i)
    ensures EditOn(st, edit) == Ok((next, result)) <==> ChangeAt(st.snapshot, edit, i, next.snapshot, result)
  {
    OnceFound(st.snapshot.objects, edit.objectId.value, i);
    UnselectedIs(st.snapshot.selected, edit.objectId.value, next.snapshot.selected);
    if result.Edited? {
      ShowsIs(result.before, st.snapshot.objects[i]);
    }
  }

  lemma {:induction false} ChangeIs(st: Staging, edit: Edit, next: Staging, result: EditResult)
    requires ValidSnapshot(st.snapshot) && !edit.action.Creates()
    ensures EditOn(st, edit) == Ok((next, result)) <==> Change(st, edit, next, result)
  {
    if edit.objectId.Some? {
      FindOnce(st.snapshot.objects, edit.objectId.value);
      if EditOn(st, edit) == Ok((next, result)) {
        ChangeAtIs(st, edit, Find(st.snapshot.objects, edit.objectId.value).value, next, result);
      }
      if Change(st, edit, next, result) {
        var i: nat :| PlacedOnce(st.snapshot.objects, edit.objectId.value, i)
                      && ChangeAt(st.snapshot, edit, i, next.snapshot, result);
        ChangeAtIs(st, edit, i, next, result);
      }
    }
  }

  /** The adapter applies an edit exactly if it can have its effect and the room rules admit the room it leaves. */
  lemma {:induction false} AppliedExactly(catalog: Catalog, mint: Mint, st: Staging, edit: Edit, next: Staging,
                                          result: EditResult)
    requires ValidSnapshot(st.snapshot)
    ensures ApplyEdit(catalog, mint, st, edit) == Ok((next, result)) <==> Applied(catalog, mint, st, edit, next, result)
  {
    if edit.action.Creates() {
      CreationIs(catalog, mint, st, edit.action, next, result);
    } else {
      ChangeIs(st, edit, next, result);
    }
  }

  // ---- Refusals -------------------------------------------------------------------------

  ghost predicate IsPlaced(room: Snapshot, id: Id) { exists o :: o in room.objects && o.id == id }

  /** The edit names an object that is not in the room. */
  ghost predicate NamesNothing(room: Snapshot, edit: Edit)
  {
    match edit.action
    case Add(_, _, placement) => placement.Some? && placement.value.Relative? && !IsPlaced(room, placement.value.anchor)
    case Duplicate(source, _, placement) =>
      || !IsPlaced(room, source)
      || (placement.Some? && placement.value.Relative? && !IsPlaced(room, placement.value.anchor))
    case _ => edit.objectId.None? || !IsPlaced(room, edit.objectId.value)
  }

  /** The edit asks for a number of objects or for a product that nobody can have. */
  predicate NotToBeHad(catalog: Catalog, action: Action)
  {
    action.Creates() && (!(1 <= action.quantity <= 50) || (action.Add? && action.product !in catalog))
  }

  /** An edit that is refused names a missing object, or is invalid in itself or in what it leaves. */
  lemma {:induction false} RefusedBecause(catalog: Catalog, mint: Mint, st: Staging, edit: Edit)
    requires ValidSnapshot(st.snapshot) && ApplyEdit(catalog, mint, st, edit).Err?
    ensures ApplyEdit(catalog, mint, st, edit).error
            == if NamesNothing(st.snapshot, edit) && !NotToBeHad(catalog, edit.action) then InvalidTarget
               else InvalidArguments
  {
    var objects := st.snapshot.objects;
    if edit.action.Creates() {
      if edit.action.Duplicate? {
        PlacedIsFound(st.snapshot, edit.action.source);
      }
      if edit.action.placement.Some? && edit.action.placement.value.Relative? {
        PlacedIsFound(st.snapshot, edit.action.placement.value.anchor);
      }
    } else if edit.objectId.Some? {
      PlacedIsFound(st.snapshot, edit.objectId.value);
    }
  }

  lemma {:induction false} PlacedIsFound(room: Snapshot, id: Id)
    ensures IsPlaced(room, id) <==> Find(room.objects, id).Some?
  {
    if id in Ids(room.objects) {
      var o :| o in room.objects && o.id == id;
    }
  }

  // ---- Commands -------------------------------------------------------------------------

  /** The room before each edit and at the end, and the outcome of each edit. */
  ghost predicate Applying(catalog: Catalog, mint: Mint, rooms: seq<Staging>, edits: seq<Edit>,
                           outcomes: seq<EditResult>)
  {
    && |outcomes| == |edits| && |rooms| == |edits| + 1
    && forall k: nat | k < |edits| :: Applied(catalog, mint, rooms[k], edits[k], rooms[k + 1], outcomes[k])
  }

  lemma {:induction false} ApplyingCons(catalog: Catalog, mint: Mint, first: Staging, later: seq<Staging>,
                                        edits: seq<Edit>, outcome: EditResult, rest: seq<EditResult>)
    requires edits != [] && Applying(catalog, mint, later, edits[1..], rest)
    requires Applied(catalog, mint, first, edits[0], later[0], outcome)
    ensures Applying(catalog, mint, [first] + later, edits, [outcome] + rest)
  {
    var rooms, outcomes := [first] + later, [outcome] + rest;
    forall k: nat | k < |edits| ensures Applied(catalog, mint, rooms[k], edits[k], rooms[k + 1], outcomes[k]) {
      if k > 0 {
        assert rooms[k] == later[k - 1] && rooms[k + 1] == later[k - 1 + 1] && outcomes[k] == rest[k - 1];
        assert edits[k] == edits[1..][k - 1];
      }
    }
  }

  lemma {:induction false} ApplyingTail(catalog: Catalog, mint: Mint, rooms: seq<Staging>, edits: seq<Edit>,
                                        outcomes: seq<EditResult>)
    requires Applying(catalog, mint, rooms, edits, outcomes) && edits != []
    ensures Applying(catalog, mint, rooms[1..], edits[1..], outcomes[1..])
    ensures Applied(catalog, mint, rooms[0], edits[0], rooms[0 + 1], outcomes[0])
  {
    forall k: nat | k < |edits[1..]|
      ensures Applied(catalog, mint, rooms[1..][k], edits[1..][k], rooms[1..][k + 1], outcomes[1..][k])
    {
      assert Applied(catalog, mint, rooms[k + 1], edits[k + 1], rooms[k + 1 + 1], outcomes[k + 1]);
    }
  }

  lemma {:induction false} ApplyIsApplying(catalog: Catalog, mint: Mint, st: Staging, edits: seq<Edit>,
                                           results: seq<EditResult>)
    returns (rooms: seq<Staging>, outcomes: seq<EditResult>)
    requires ValidSnapshot(st.snapshot) && ApplyFrom(catalog, mint, st, edits, results).Ok?
    ensures Applying(catalog, mint, rooms, edits, outcomes) && rooms[0] == st
    decreases |edits|
  {
    if edits == [] {
      rooms, outcomes := [st], [];
    } else {
      var (next, outcome) := ApplyEdit(catalog, mint, st, edits[0]).value;
      AppliedExactly(catalog, mint, st, edits[0], next, outcome);
      AppliedIsValid(catalog, mint, st, edits[0], next, outcome);
      var later, rest := ApplyIsApplying(catalog, mint, next, edits[1..], results + [outcome]);
      ApplyingCons(catalog, mint, st, later, edits, outcome, rest);
      rooms, outcomes := [st] + later, [outcome] + rest;
    }
  }

  lemma {:induction false} ApplyingIsApplied(catalog: Catalog, mint: Mint, rooms: seq<Staging>, edits: seq<Edit>,
                                             outcomes: seq<EditResult>, results: seq<EditResult>)
    requires Applying(catalog, mint, rooms, edits, outcomes) && ValidSnapshot(rooms[0].snapshot)
    ensures ApplyFrom(catalog, mint, rooms[0], edits, results) == Ok((rooms[|edits|], results + outcomes))
    decreases |edits|
  {
    if edits == [] {
      AppendNone(results);
    } else {
      ApplyingTail(catalog, mint, rooms, edits, outcomes);
      AppliedExactly(catalog, mint, rooms[0], edits[0], rooms[1], outcomes[0]);
      ApplyCons(catalog, mint, rooms[0], edits, results, rooms[1], outcomes[0]);
      AppliedIsValid(catalog, mint, rooms[0], edits[0], rooms[1], outcomes[0]);
      ApplyingIsApplied(catalog, mint, rooms[1..], edits[1..], outcomes[1..], results + [outcomes[0]]);
      assert outcomes == [outcomes[0]] + outcomes[1..];
      ConcatOne(results, outcomes[0], outcomes[1..]);
    }
  }

  /** The edits lead from one room to the other, with these outcomes. */
  ghost predicate Leads(catalog: Catalog, mint: Mint, from: Snapshot, edits: seq<Edit>, to: Snapshot,
                        outcomes: seq<EditResult>)
  {
    exists rooms: seq<Staging> ::
      Applying(catalog, mint, rooms, edits, outcomes)
      && rooms[0] == Staging(from, 0) && rooms[|edits|].snapshot == to
  }

  /** Numbers advance by the number of operations; any other revision is replaced by a name made of the number of
      saves. */
  predicate Advanced(was: string, operations: int, saves: nat, stamp: string, revision: string)
  {
    if IsDecimal(was) then IsDecimal(revision) && DecimalValue(revision) == DecimalValue(was) + operations
    else revision == "simulated:" + Decimal(saves) + ":" + stamp
  }

  /** What may be saved: a command for this room at this revision, unless saving fails, with one to fifty operations
      that lead to `to`. */
  ghost predicate MayBeSaved(store: Store, tabId: Id, catalog: Catalog, failSave: bool, command: Command, mint: Mint,
                             to: Snapshot, outcomes: seq<EditResult>)
  {
    && command.binding.designId == store.snapshot.designId && command.binding.tabId == tabId
    && command.expectedRevision == store.snapshot.revision && !failSave
    && 1 <= Operations(command.payload.Edits()) <= 50
    && Leads(catalog, mint, store.snapshot, command.payload.Edits(), to, outcomes)
  }

  /** The document and the result after a save: the room the edits lead to, under its new revision. */
  predicate SavedTo(store: Store, command: Command, stamp: string, to: Snapshot, outcomes: seq<EditResult>,
                    next: Store, result: CommandResult)
  {
    && next.snapshot == to.(revision := next.snapshot.revision)
    && Advanced(store.snapshot.revision, Operations(command.payload.Edits()), store.saveCount + 1, stamp,
                next.snapshot.revision)
    && next.saveCount == store.saveCount + 1
    && result.Saved? && result.commandId == command.commandId && result.snapshot == next.snapshot
    && result.revision == next.snapshot.revision && result.evidence.Results() == outcomes
    && result.evidence.BatchResults? == command.payload.Batch?
  }

  lemma {:induction false} AppliedLeads(catalog: Catalog, mint: Mint, from: Snapshot, edits: seq<Edit>, to: Snapshot,
                                        outcomes: seq<EditResult>)
    requires ValidSnapshot(from)
    ensures Leads(catalog, mint, from, edits, to, outcomes)
            <==> var r := ApplyFrom(catalog, mint, Staging(from, 0), edits, []);
                 r.Ok? && r.value.0.snapshot == to && r.value.1 == outcomes
  {
    var start := Staging(from, 0);
    PrependNone(outcomes);
    if ApplyFrom(catalog, mint, start, edits, []).Ok? {
      var rooms, found := ApplyIsApplying(catalog, mint, start, edits, []);
      ApplyingIsApplied(catalog, mint, rooms, edits, found, []);
      PrependNone(found);
    }
    if rooms: seq<Staging> :| Applying(catalog, mint, rooms, edits, outcomes)
                              && rooms[0] == start && rooms[|edits|].snapshot == to {
      ApplyingIsApplied(catalog, mint, rooms, edits, outcomes, []);
    }
  }

  lemma {:induction false} RevisionAdvances(was: string, operations: nat, saves: nat, stamp: string)
    ensures Advanced(was, operations, saves, stamp, NextRevision(was, operations, saves, stamp))
  {
  }

  lemma {:induction false} AttemptMust(store: Store, catalog: Catalog, command: Command, mint: Mint, stamp: string,
                                       to: Snapshot, outcomes: seq<EditResult>)
    requires ValidSnapshot(store.snapshot) && 1 <= Operations(command.payload.Edits()) <= 50
    requires Leads(catalog, mint, store.snapshot, command.payload.Edits(), to, outcomes)
    ensures Attempt(store, catalog, false, command, mint, stamp).Ok?
  {
    OperationsAreCounted(command.payload.Edits());
    AppliedLeads(catalog, mint, store.snapshot, command.payload.Edits(), to, outcomes);
  }

  lemma {:induction false} AttemptFails(store: Store, catalog: Catalog, failSave: bool, command: Command, mint: Mint,
                                        stamp: string)
    requires ValidSnapshot(store.snapshot) && Attempt(store, catalog, failSave, command, mint, stamp).Err?
    ensures var code := Attempt(store, catalog, failSave, command, mint, stamp).error;
            if failSave then code == SaveRejected else code == InvalidArguments || code == InvalidTarget
  {
    var edits, start := command.payload.Edits(), Staging(store.snapshot, 0);
    if ApplyFrom(catalog, mint, start, edits, []).Err? {
      RefusedCodes(catalog, mint, start, edits, []);
    }
  }

  /** What an attempt that succeeds has applied. */
  lemma {:induction false} AttemptApplies(store: Store, catalog: Catalog, failSave: bool, command: Command,
                                          mint: Mint, stamp: string)
    requires ValidSnapshot(store.snapshot) && Attempt(store, catalog, failSave, command, mint, stamp).Ok?
    ensures var edits, (after, evidence) := command.payload.Edits(),
              Attempt(store, catalog, failSave, command, mint, stamp).value;
            var applied := ApplyFrom(catalog, mint, Staging(store.snapshot, 0), edits, []);
            && !failSave && 1 <= ExpandedCount(edits) <= 50
            && applied.Ok? && evidence.Results() == applied.value.1
            && evidence.BatchResults? == command.payload.Batch?
            && after == applied.value.0.snapshot.(revision := after.revision)
            && after.revision == NextRevision(store.snapshot.revision, ExpandedCount(edits), store.saveCount + 1, stamp)
  {
    var applied := ApplyFrom(catalog, mint, Staging(store.snapshot, 0), command.payload.Edits(), []);
    if applied.Ok? {
      Singleton(applied.value.1);
    }
  }

  lemma {:induction false} AttemptLeads(store: Store, catalog: Catalog, failSave: bool, command: Command, mint: Mint,
                                        stamp: string)
    requires ValidSnapshot(store.snapshot) && Attempt(store, catalog, failSave, command, mint, stamp).Ok?
    ensures var edits, (after, evidence) := command.payload.Edits(),
              Attempt(store, catalog, failSave, command, mint, stamp).value;
            && !failSave && 1 <= Operations(edits) <= 50 && evidence.BatchResults? == command.payload.Batch?
            && Leads(catalog, mint, store.snapshot, edits, after.(revision := store.snapshot.revision),
                     evidence.Results())
            && Advanced(store.snapshot.revision, Operations(edits), store.saveCount + 1, stamp, after.revision)
  {
    var edits, start := command.payload.Edits(), Staging(store.snapshot, 0);
    AttemptApplies(store, catalog, failSave, command, mint, stamp);
    OperationsAreCounted(edits);
    var applied := ApplyFrom(catalog, mint, start, edits, []).value;
    AppliedLeads(catalog, mint, store.snapshot, edits, applied.0.snapshot, applied.1);
    RevisionAdvances(store.snapshot.revision, Operations(edits), store.saveCount + 1, stamp);
  }

  lemma {:induction false} RefusedCodes(catalog: Catalog, mint: Mint, st: Staging, edits: seq<Edit>,
                                        results: seq<EditResult>)
    requires ValidSnapshot(st.snapshot) && ApplyFrom(catalog, mint, st, edits, results).Err?
    ensures var code := ApplyFrom(catalog, mint, st, edits, results).error;
            code == InvalidArguments || code == InvalidTarget
    decreases |edits|
  {
    var first := ApplyEdit(catalog, mint, st, edits[0]);
    if first.Err? {
      RefusedBecause(catalog, mint, st, edits[0]);
    } else {
      RefusedCodes(catalog, mint, first.value.0, edits[1..], results + [first.value.1]);
    }
  }

  /** A command is saved exactly if it may be, and then the document and the recorded result are those of the room that
      its edits lead to. Otherwise the room stays as it is, and the recorded code says what was wrong first. */
  lemma {:induction false} SavedExactly(store: Store, tabId: Id, catalog: Catalog, failSave: bool, command: Command,
                                        mint: Mint, stamp: string)
    requires ValidSnapshot(store.snapshot)
    ensures var next := ExecuteNew(store, tabId, catalog, failSave, command, mint, stamp);
            && command.commandId in next.commands
            && var result := next.commands[command.commandId].result;
               && next.commands == store.commands[command.commandId := Recorded(command, result)]
               && (result.Saved? <==> exists to, outcomes ::
                     MayBeSaved(store, tabId, catalog, failSave, command, mint, to, outcomes))
               && (result.Saved? ==> exists to, outcomes ::
                     MayBeSaved(store, tabId, catalog, failSave, command, mint, to, outcomes)
                     && SavedTo(store, command, stamp, to, outcomes, next, result))
               && (!result.Saved? ==>
                     next.snapshot == store.snapshot && next.saveCount == store.saveCount
                     && RejectedFor(store, tabId, failSave, command, result))
  {
    var attempt := Attempt(store, catalog, failSave, command, mint, stamp);
    if attempt.Err? {
      AttemptFails(store, catalog, failSave, command, mint, stamp);
      forall to, outcomes | MayBeSaved(store, tabId, catalog, failSave, command, mint, to, outcomes) ensures false {
        AttemptMust(store, catalog, command, mint, stamp, to, outcomes);
      }
    } else {
      AttemptLeads(store, catalog, failSave, command, mint, stamp);
    }
    if attempt.Ok? && command.binding == Binding(store.snapshot.designId, tabId)
       && command.expectedRevision == store.snapshot.revision {
      var (after, evidence) := attempt.value;
      var to, next := after.(revision := store.snapshot.revision),
        ExecuteNew(store, tabId, catalog, failSave, command, mint, stamp);
      assert MayBeSaved(store, tabId, catalog, failSave, command, mint, to, evidence.Results());
      assert SavedTo(store, command, stamp, to, evidence.Results(), next, next.commands[command.commandId].result);
    }
  }

  predicate RejectedFor(store: Store, tabId: Id, failSave: bool, command: Command, result: CommandResult)
  {
    && result.Rejected? && result.commandId == command.commandId
    && if command.binding.designId != store.snapshot.designId || command.binding.tabId != tabId then
         result.code == WrongBinding
       else if command.expectedRevision != store.snapshot.revision then result.code == StaleRevision
       else if failSave then result.code == SaveRejected
       else result.code == InvalidArguments || result.code == InvalidTarget
  }

  // ---- The user of the Studio -----------------------------------------------------------

  predicate Patched(was: Vector3, patch: Option<Vector3>, v: Vector3)
  {
    v == if patch.Some? then patch.value else was
  }

  /** One object has the given parts of its transform, and is as before otherwise. */
  predicate Nudged(was: Object, patch: TransformPatch, o: Object)
  {
    && o == was.(position := o.position, rotation := o.rotation, scale := o.scale)
    && Patched(was.position, patch.position, o.position) && Patched(was.rotation, patch.rotation, o.rotation)
    && Patched(was.scale, patch.scale, o.scale)
  }

  /** A manual edit changes one object and gives the room a name of its own, if the room rules admit that. */
  lemma {:induction false} NudgedExactly(store: Store, id: Id, patch: TransformPatch, stamp: string, next: Store)
    requires ValidSnapshot(store.snapshot)
    ensures ManualEditOn(store, id, patch, stamp) == Ok(next)
            <==> exists i: nat, o: Object ::
                   && PlacedOnce(store.snapshot.objects, id, i) && Nudged(store.snapshot.objects[i], patch, o)
                   && ValidSnapshot(next.snapshot)
                   && next == store.(snapshot := store.snapshot.(objects := store.snapshot.objects[i := o],
                                                                 revision := "simulated-manual:" + stamp))
  {
    FindOnce(store.snapshot.objects, id);
    var at := Find(store.snapshot.objects, id);
    if at.Some? {
      assert Nudged(store.snapshot.objects[at.value], patch, patch.On(store.snapshot.objects[at.value]));
    }
  }

  /** A selection is kept exactly if it names placed objects, each once. */
  lemma {:induction false} SelectedExactly(store: Store, ids: seq<Id>, next: Store)
    requires ValidSnapshot(store.snapshot)
    ensures SelectOn(store, ids) == Ok(next)
            <==> && (forall i | 0 <= i < |ids| :: IsPlaced(store.snapshot, ids[i])) && Distinct(ids)
                 && next == store.(snapshot := store.snapshot.(selected := ids))
  {
    forall i | 0 <= i < |ids| ensures IsPlaced(store.snapshot, ids[i]) <==> ids[i] in Ids(store.snapshot.objects) {
      PlacedIsFound(store.snapshot, ids[i]);
    }
  }
}
