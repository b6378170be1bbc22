/** Three independently written walks over one edit list - the planner's staging, the adapter's
    application and the broker's checks - agree. */
module StudioAgreement {
  import opened Outcomes
  import opened Sequences
  import opened StudioContract
  import opened StudioRecords
  import opened StudioPlanner
  import opened StudioAdapter
  import opened StudioReplies

  /** `randomUUID` neither repeats itself nor names an object that is already placed. */
  ghost predicate FreshMint(mint: Mint, objects: seq<Object>)
  {
    && (forall k: nat :: NonBlank(mint(k)) && mint(k) !in Ids(objects))
    && (forall j: nat, k: nat | j != k :: mint(j) != mint(k))
  }

  predicate GoodFact(fact: CatalogFact)
  {
    && NonBlank(fact.name) && NonBlank(fact.category) && NonBlank(fact.catalogId)
    && Positive(fact.dimensions) && ValidMoney(fact.price)
  }

  predicate YawPlacement(placement: Option<Placement>)
  {
    placement.Some? && placement.value.Absolute? && placement.value.rotation.Some? ==>
      YawOnly(placement.value.rotation.value)
  }

  /** What the adapter needs to know or be told about an edit, whatever the room. */
  predicate Acceptable(catalog: Catalog, action: Action)
  {
    match action
    case Add(product, quantity, placement) =>
      1 <= quantity <= STUDIO_QUANTITY_MAX && product in catalog && GoodFact(catalog[product])
      && YawPlacement(placement)
    case Duplicate(_, quantity, _) => 1 <= quantity <= STUDIO_QUANTITY_MAX
    case Replace(catalogId, _) => NonBlank(catalogId)
    case Rotate(rotation) => YawOnly(rotation)
    case _ => true
  }

  predicate AllAcceptable(catalog: Catalog, edits: seq<Edit>)
  {
    forall i | 0 <= i < |edits| :: Acceptable(catalog, edits[i].action)
  }

  // ---- Lists of objects -------------------------------------------------------------

  lemma {:induction false} FindAppend(a: seq<Object>, b: seq<Object>, id: Id)
    requires Find(a, id).Some?
    ensures Find(a + b, id) == Find(a, id)
  {
    assert (a + b)[0] == a[0];
    if a[0].id != id {
      assert a == [a[0]] + a[1..] && (a + b)[1..] == a[1..] + b;
      FindAppend(a[1..], b, id);
    }
  }

  lemma {:induction false} WithoutAppend(a: seq<Object>, b: seq<Object>, id: Id)
    requires id !in Ids(b)
    ensures Without(a + b, id) == Without(a, id) + b
  {
    if a == [] {
      assert a + b == b;
      WithoutAbsent(b, id);
    } else {
      assert (a + b)[0] == a[0] && (a + b)[1..] == a[1..] + b;
      WithoutAppend(a[1..], b, id);
    }
  }

  lemma {:induction false} WithoutAbsent(a: seq<Object>, id: Id)
    requires id !in Ids(a)
    ensures Without(a, id) == a
  {
    if a != [] {
      assert a == [a[0]] + a[1..] && a[0] in a;
      WithoutAbsent(a[1..], id);
    }
  }

  lemma {:induction false} IdsAppend(a: seq<Object>, b: seq<Object>)
    ensures Ids(a + b) == Ids(a) + Ids(b)
  {
    forall id | id in Ids(a) + Ids(b) ensures id in Ids(a + b) {
      if o :| o in a && o.id == id {
        assert o in a + b;
      } else {
        var o :| o in b && o.id == id;
        assert o in a + b;
      }
    }
  }

  /** Filtering keeps exactly the other objects, in order, and so keeps a valid room valid. */
  lemma {:induction false} WithoutValid(a: seq<Object>, id: Id)
    requires ValidObjects(a)
    ensures ValidObjects(Without(a, id)) && Ids(Without(a, id)) == Ids(a) - {id}
  {
    if a != [] {
      assert a == [a[0]] + a[1..];
      IdsAppend([a[0]], a[1..]);
      WithoutValid(a[1..], id);
      assert a[0].id !in Ids(a[1..]);
      if a[0].id != id {
        var rest := Without(a[1..], id);
        IdsAppend([a[0]], rest);
        forall i | 0 <= i < |rest| ensures rest[i].id != a[0].id {
          assert rest[i].id in Ids(rest);
        }
      }
    }
  }

  predicate Distinct(ids: seq<Id>)
  {
    forall i, j | 0 <= i < j < |ids| :: ids[i] != ids[j]
  }

  lemma {:induction false} WithoutIdMembers(selected: seq<Id>, id: Id)
    requires Distinct(selected)
    ensures Distinct(WithoutId(selected, id))
    ensures forall x | x in WithoutId(selected, id) :: x in selected && x != id
  {
    if selected != [] {
      var first, tail := selected[0], selected[1..];
      assert selected == [first] + tail;
      WithoutIdMembers(tail, id);
      assert first !in tail;
    }
  }

  lemma {:induction false} RemoveValid(s: Snapshot, id: Id)
    requires ValidSnapshot(s)
    ensures ValidSnapshot(s.(objects := Without(s.objects, id), selected := WithoutId(s.selected, id)))
  {
    WithoutValid(s.objects, id);
    assert Distinct(s.selected);
    WithoutIdMembers(s.selected, id);
    var rest := WithoutId(s.selected, id);
    forall i | 0 <= i < |rest| ensures rest[i] in Ids(Without(s.objects, id)) {
      assert rest[i] in rest;
    }
  }

  lemma {:induction false} ExactlyOneFound(objects: seq<Object>, id: Id)
    requires ExactlyOne(objects, id)
    ensures Find(objects, id).Some?
  {
    if objects[0].id != id {
      ExactlyOneFound(objects[1..], id);
    }
  }

  lemma {:induction false} FoundExactlyOne(objects: seq<Object>, id: Id)
    requires UniqueIds(objects) && id in Ids(objects)
    ensures ExactlyOne(objects, id)
  {
    assert objects == [objects[0]] + objects[1..];
    if objects[0].id == id {
      RestrictAbsent(objects[1..], {id});
    } else {
      FoundExactlyOne(objects[1..], id);
    }
  }

  lemma {:induction false} RestrictAbsent(objects: seq<Object>, ids: set<Id>)
    requires Ids(objects) !! ids
    ensures Restrict(objects, ids) == []
  {
    if objects != [] {
      assert objects == [objects[0]] + objects[1..] && objects[0].id in Ids(objects);
      RestrictAbsent(objects[1..], ids);
    }
  }

  lemma {:induction false} RestrictAll(objects: seq<Object>, extras: seq<Object>, ids: set<Id>)
    requires Ids(objects) <= ids && Ids(extras) !! ids
    ensures Restrict(objects + extras, ids) == objects
  {
    if objects == [] {
      assert objects + extras == extras;
      RestrictAbsent(extras, ids);
    } else {
      assert (objects + extras)[0] == objects[0] && (objects + extras)[1..] == objects[1..] + extras;
      assert objects[0].id in Ids(objects);
      RestrictAll(objects[1..], extras, ids);
    }
  }

  lemma {:induction false} ReplaceObject(s: Snapshot, i: nat, o: Object)
    requires ValidSnapshot(s) && i < |s.objects| && ValidObject(o) && o.id == s.objects[i].id
    ensures ValidSnapshot(s.(objects := s.objects[i := o]))
  {
    SameIds(s.objects, i, o);
  }

  // ---- One edit ---------------------------------------------------------------------

  /** The adapter's room is the planner's staged room followed by objects the planner cannot name. */
  ghost predicate Aligned(staged: seq<Object>, extras: seq<Object>, st: Staging, mint: Mint, base: seq<Object>)
  {
    && ValidSnapshot(st.snapshot)
    && st.snapshot.objects == staged + extras
    && Ids(staged) <= Ids(base)
    && forall o | o in extras :: MintedBefore(mint, o.id, st.minted)
  }

  ghost predicate MintedBefore(mint: Mint, id: Id, n: nat)
  {
    exists k: nat :: k < n && id == mint(k)
  }

  lemma {:induction false} AlignedApart(staged: seq<Object>, extras: seq<Object>, st: Staging, mint: Mint,
                                        base: seq<Object>)
    requires Aligned(staged, extras, st, mint, base) && FreshMint(mint, base)
    ensures Ids(extras) !! Ids(base)
    ensures forall k: nat | k >= st.minted :: mint(k) !in Ids(st.snapshot.objects)
  {
    IdsAppend(staged, extras);
    forall o | o in extras ensures o.id !in Ids(base) && forall k: nat | k >= st.minted :: mint(k) != o.id {
      assert MintedBefore(mint, o.id, st.minted);
    }
  }

  /** Staging and applying the same change to the same object. */
  lemma {:induction false} AlignedUpdate(mint: Mint, base: seq<Object>, staged: seq<Object>, extras: seq<Object>,
                                         st: Staging, i: nat, o: Object)
    requires Aligned(staged, extras, st, mint, base) && i < |staged|
    requires ValidObject(o) && o.id == staged[i].id
    ensures Aligned(staged[i := o], extras, st.(snapshot := st.snapshot.(objects := st.snapshot.objects[i := o])),
                    mint, base)
    ensures Find(staged[i := o], o.id) == Find(staged, o.id)
  {
    ReplaceObject(st.snapshot, i, o);
    assert st.snapshot.objects[i := o] == staged[i := o] + extras;
    SameIds(staged, i, o);
    FindUpdate(staged, i, o);
  }

  lemma {:induction false} FindUpdate(objects: seq<Object>, i: nat, o: Object)
    requires i < |objects| && o.id == objects[i].id
    ensures Find(objects[i := o], o.id) == Find(objects, o.id)
  {
    if i > 0 && objects[0].id != o.id {
      UpdateTail(objects, i, o);
      FindUpdate(objects[1..], i - 1, o);
    }
  }

  lemma {:induction false} AlignedRemove(mint: Mint, base: seq<Object>, staged: seq<Object>, extras: seq<Object>,
                                         st: Staging, id: Id)
    requires FreshMint(mint, base) && Aligned(staged, extras, st, mint, base) && id in Ids(staged)
    ensures var s := st.snapshot;
            Aligned(Without(staged, id), extras,
                    st.(snapshot := s.(objects := Without(s.objects, id), selected := WithoutId(s.selected, id))),
                      mint, base)
    ensures Find(Without(staged, id), id).None?
  {
    AlignedApart(staged, extras, st, mint, base);
    WithoutAppend(staged, extras, id);
    RemoveValid(st.snapshot, id);
    ValidPrefix(staged, extras);
    WithoutValid(staged, id);
  }

  /** What a successfully staged change consists of. */
  ghost predicate StagedAs(staged: seq<Object>, edit: Edit, next: seq<Object>)
  {
    && !edit.action.Creates() && edit.objectId.Some?
    && var at := Find(staged, edit.objectId.value);
       && at.Some?
       && (edit.action.Replace? ==> edit.action.expectedCatalogId == staged[at.value].CatalogId())
       && next == if edit.action.Remove? then Without(staged, edit.objectId.value)
                  else staged[at.value := StagedChange(staged[at.value], edit.action)]
  }

  lemma StageShape(desk: Desk, staged: seq<Object>, input: EditInput)
    requires StageChange(desk, staged, input).Ok?
    ensures var (edit, next) := StageChange(desk, staged, input).value;
            input.objectId == edit.objectId && StagedAs(staged, edit, next)
  {
  }

  lemma ApplyChanged(catalog: Catalog, mint: Mint, st: Staging, edit: Edit, i: nat, changed: Snapshot)
    requires st.snapshot.floor != [] && ValidSnapshot(changed) && !edit.action.Creates()
    requires edit.objectId.Some? && Find(st.snapshot.objects, edit.objectId.value) == Some(i)
    requires ChangeOn(st.snapshot, i, edit.action) == Ok(changed)
    ensures edit.action.Remove? || i < |changed.objects|
    ensures ApplyEdit(catalog, mint, st, edit)
         == Ok((st.(snapshot := changed),
                Edited(st.snapshot.objects[i].Placed(), if edit.action.Remove? then None
                       else Some(changed.objects[i].Placed()))))
  {
  }

  lemma {:induction false} AlignedChange(catalog: Catalog, mint: Mint, base: seq<Object>, staged: seq<Object>,
                                         extras: seq<Object>,
                      st: Staging, edit: Edit, next: seq<Object>) returns (after: Staging, result: EditResult)
    requires FreshMint(mint, base) && Aligned(staged, extras, st, mint, base)
    requires StagedAs(staged, edit, next) && Acceptable(catalog, edit.action)
    ensures ApplyEdit(catalog, mint, st, edit) == Ok((after, result))
    ensures Aligned(next, extras, after, mint, base)
    ensures SavedAs(result, staged, edit, next)
  {
    var s, id := st.snapshot, edit.objectId.value;
    var at := Find(staged, id).value;
    FindAppend(staged, extras, id);
    var changed;
    if edit.action.Remove? {
      AlignedRemove(mint, base, staged, extras, st, id);
      changed := s.(objects := Without(s.objects, id), selected := WithoutId(s.selected, id));
    } else {
      var o := StagedChange(staged[at], edit.action);
      AlignedUpdate(mint, base, staged, extras, st, at, o);
      changed := s.(objects := s.objects[at := o]);
    }
    ApplyChanged(catalog, mint, st, edit, at, changed);
    after := st.(snapshot := changed);
    result := Edited(s.objects[at].Placed(), if edit.action.Remove? then None else Some(changed.objects[at].Placed()));
  }

  lemma {:induction false} ValidPrefix(a: seq<Object>, b: seq<Object>)
    requires ValidObjects(a + b)
    ensures ValidObjects(a)
  {
    forall i | 0 <= i < |a| ensures ValidObject(a[i]) {
      assert (a + b)[i] == a[i];
    }
    forall i, j | 0 <= i < j < |a| ensures a[i].id != a[j].id {
      assert (a + b)[i] == a[i] && (a + b)[j] == a[j];
    }
  }

  lemma {:induction false} SameIds(objects: seq<Object>, i: nat, o: Object)
    requires i < |objects| && o.id == objects[i].id
    ensures Ids(objects[i := o]) == Ids(objects)
  {
    var changed := objects[i := o];
    forall id | id in Ids(objects) ensures id in Ids(changed) {
      var k :| 0 <= k < |objects| && objects[k].id == id;
      assert changed[k] in changed;
    }
    forall id | id in Ids(changed) ensures id in Ids(objects) {
      var k :| 0 <= k < |changed| && changed[k].id == id;
      assert objects[k] in objects;
    }
  }

  /** The reported transforms are the staged ones around the edit. */
  predicate SavedAs(result: EditResult, staged: seq<Object>, edit: Edit, next: seq<Object>)
  {
    && edit.objectId.Some? && result.Edited?
    && var at, to := Find(staged, edit.objectId.value), Find(next, edit.objectId.value);
       && at.Some? && result.before == staged[at.value].Placed()
       && (if edit.action.Remove? then to.None? && result.after.None?
           else to.Some? && result.after == Some(next[to.value].Placed()))
  }

  lemma {:induction false} AppendValid(s: Snapshot, objects: seq<Object>)
    requires ValidSnapshot(s)
    requires forall i | 0 <= i < |objects| :: ValidObject(objects[i]) && objects[i].id !in Ids(s.objects)
    requires UniqueIds(objects)
    ensures ValidSnapshot(s.(objects := s.objects + objects))
  {
    IdsAppend(s.objects, objects);
    var all := s.objects + objects;
    forall i, j | 0 <= i < j < |all| ensures all[i].id != all[j].id {
      if i < |s.objects| <= j {
        assert s.objects[i] in s.objects;
      }
    }
  }

  /** A pattern whose instances are acceptable objects. */
  ghost predicate GoodPattern(pattern: Pattern)
  {
    forall id: Id, k: nat | NonBlank(id) :: ValidObject(pattern.Instance(id, k))
  }

  lemma {:induction false} PatternReady(catalog: Catalog, base: seq<Object>, mint: Mint, staged: seq<Object>,
                                        extras: seq<Object>, st: Staging, action: Action)
    requires FreshMint(mint, base) && Aligned(staged, extras, st, mint, base)
    requires action.Creates() && Acceptable(catalog, action)
    requires action.Duplicate? ==> ExactlyOne(staged, action.source)
    requires action.placement.Some? && action.placement.value.Relative? ==>
               ExactlyOne(staged, action.placement.value.anchor)
    ensures CreatePattern(catalog, st.snapshot, action).Ok?
            && GoodPattern(CreatePattern(catalog, st.snapshot, action).value)
  {
    if action.placement.Some? && action.placement.value.Relative? {
      ExactlyOneFound(staged, action.placement.value.anchor);
      FindAppend(staged, extras, action.placement.value.anchor);
    }
    if action.Duplicate? {
      ExactlyOneFound(staged, action.source);
      FindAppend(staged, extras, action.source);
    }
  }

  lemma {:induction false} AlignedCreate(catalog: Catalog, mint: Mint, base: seq<Object>, staged: seq<Object>,
                                         extras: seq<Object>,
                      st: Staging, edit: Edit) returns (more: seq<Object>, after: Staging, result: EditResult)
    requires FreshMint(mint, base) && Aligned(staged, extras, st, mint, base)
    requires edit.action.Creates() && Acceptable(catalog, edit.action)
    requires edit.action.Duplicate? ==> ExactlyOne(staged, edit.action.source)
    requires edit.action.placement.Some? && edit.action.placement.value.Relative? ==>
               ExactlyOne(staged, edit.action.placement.value.anchor)
    ensures ApplyEdit(catalog, mint, st, edit) == Ok((after, result))
    ensures Aligned(staged, extras + more, after, mint, base)
    ensures |more| == edit.action.quantity && result == Instances(CreatedBy(more))
  {
    PatternReady(catalog, base, mint, staged, extras, st, edit.action);
    var pattern, quantity := CreatePattern(catalog, st.snapshot, edit.action).value, edit.action.quantity;
    more := CreatedObjects(pattern, mint, st.minted, quantity);
    after := Staging(st.snapshot.(objects := st.snapshot.objects + more), st.minted + quantity);
    result := Instances(CreatedBy(more));
    AlignedApart(staged, extras, st, mint, base);
    CreatedFresh(mint, st, base, pattern, quantity);
    AppendValid(st.snapshot, more);
    ApplyCreated(catalog, mint, st, edit, pattern);
    MintedBelow(mint, extras, st.minted, pattern, quantity);
    Associative(staged, extras, more);
  }

  lemma {:induction false} CreatedFresh(mint: Mint, st: Staging, base: seq<Object>, pattern: Pattern, quantity: nat)
    requires FreshMint(mint, base) && GoodPattern(pattern)
    requires forall k: nat | k >= st.minted :: mint(k) !in Ids(st.snapshot.objects)
    ensures var more := CreatedObjects(pattern, mint, st.minted, quantity);
            && UniqueIds(more)
            && forall i | 0 <= i < |more| :: ValidObject(more[i]) && more[i].id !in Ids(st.snapshot.objects)
  {
    var more := CreatedObjects(pattern, mint, st.minted, quantity);
    forall i | 0 <= i < |more| ensures more[i] == pattern.Instance(mint(st.minted + i), i)
    && more[i].id == mint(st.minted + i) {
    }
  }

  lemma {:induction false} ApplyCreated(catalog: Catalog, mint: Mint, st: Staging, edit: Edit, pattern: Pattern)
    requires st.snapshot.floor != [] && edit.action.Creates() && 1 <= edit.action.quantity <= STUDIO_QUANTITY_MAX
    requires CreatePattern(catalog, st.snapshot, edit.action) == Ok(pattern)
    requires var created := CreatedObjects(pattern, mint, st.minted, edit.action.quantity);
             ValidSnapshot(st.snapshot.(objects := st.snapshot.objects + created))
    ensures var more := CreatedObjects(pattern, mint, st.minted, edit.action.quantity);
            var after := Staging(st.snapshot.(objects := st.snapshot.objects + more), st.minted + edit.action.quantity);
            ApplyEdit(catalog, mint, st, edit) == Ok((after, Instances(CreatedBy(more))))
  {
    assert Quantity(edit.action) == edit.action.quantity;
  }

  lemma {:induction false} MintedBelow(mint: Mint, extras: seq<Object>, minted: nat, pattern: Pattern, quantity: nat)
    requires forall o | o in extras :: MintedBefore(mint, o.id, minted)
    ensures forall o | o in extras + CreatedObjects(pattern, mint, minted, quantity) ::
              MintedBefore(mint, o.id, minted + quantity)
  {
    var more := CreatedObjects(pattern, mint, minted, quantity);
    forall o | o in extras ensures MintedBefore(mint, o.id, minted + quantity) {
    }
    forall i | 0 <= i < |more| ensures MintedBefore(mint, more[i].id, minted + quantity) {
      assert more[i] == pattern.Instance(mint(minted + i), i);
    }
  }

  // ---- The whole list ---------------------------------------------------------------

  /** The staged objects after these requests. */
  function StagedAfter(desk: Desk, staged: seq<Object>, inputs: seq<EditInput>): seq<Object>
    decreases |inputs|
  {
    if inputs == [] then
      staged
    else
      var step := StageEdit(desk, staged, inputs[0]);
      if step.Err? then staged else StagedAfter(desk, step.value.1, inputs[1..])
  }

  lemma {:induction false} StagePrefix(desk: Desk, staged: seq<Object>, inputs: seq<EditInput>, acc: seq<Edit>, k: nat)
    requires StageFrom(desk, staged, inputs, acc).Ok? && k <= |inputs|
    ensures var all := StageFrom(desk, staged, inputs, acc).value;
            acc <= all && StageFrom(desk, staged, inputs[..k], acc) == Ok(all[..|acc| + k])
    decreases |inputs|
  {
    var all := StageFrom(desk, staged, inputs, acc).value;
    if inputs != [] {
      var (edit, next) := StageEdit(desk, staged, inputs[0]).value;
      StagePrefix(desk, next, inputs[1..], acc + [edit], if k > 0 then k - 1 else 0);
      if k > 0 {
        assert inputs[..k][0] == inputs[0] && inputs[..k][1..] == inputs[1..][..k - 1];
      }
    }
    assert all[..|acc|] == acc && inputs[..0] == [];
  }

  /** Staging and application move in step, whatever the edit. */
  lemma {:induction false} AlignedEdit(desk: Desk, catalog: Catalog, mint: Mint, base: seq<Object>, staged: seq<Object>,
                                       extras: seq<Object>,
                    st: Staging, input: EditInput, edit: Edit, next: seq<Object>)
    returns (more: seq<Object>, after: Staging, result: EditResult)
    requires FreshMint(mint, base) && Aligned(staged, extras, st, mint, base)
    requires StageEdit(desk, staged, input) == Ok((edit, next)) && Acceptable(catalog, edit.action)
    ensures ApplyEdit(catalog, mint, st, edit) == Ok((after, result))
    ensures Aligned(next, more, after, mint, base) && OutcomeMatches(edit.action, result)
  {
    if input.kind == AddKind || input.kind == DuplicateKind {
      var created;
      created, after, result := AlignedCreate(catalog, mint, base, staged, extras, st, edit);
      more := extras + created;
    } else {
      StageShape(desk, staged, input);
      more := extras;
      after, result := AlignedChange(catalog, mint, base, staged, extras, st, edit, next);
    }
  }

  predicate OutcomesMatch(edits: seq<Edit>, outcomes: seq<EditResult>)
  {
    |outcomes| == |edits| && forall i | 0 <= i < |edits| :: OutcomeMatches(edits[i].action, outcomes[i])
  }

  lemma {:induction false} Simulate(desk: Desk, catalog: Catalog, mint: Mint, base: seq<Object>, staged: seq<Object>,
                                    extras: seq<Object>,
                                    st: Staging, inputs: seq<EditInput>, acc: seq<Edit>, todo: seq<Edit>,
                                      results: seq<EditResult>)
    returns (more: seq<Object>, after: Staging, outcomes: seq<EditResult>)
    requires FreshMint(mint, base) && Aligned(staged, extras, st, mint, base)
    requires StageFrom(desk, staged, inputs, acc) == Ok(acc + todo)
    requires AllAcceptable(catalog, todo)
    ensures ApplyFrom(catalog, mint, st, todo, results) == Ok((after, results + outcomes))
    ensures Aligned(StagedAfter(desk, staged, inputs), more, after, mint, base)
    ensures OutcomesMatch(todo, outcomes)
    decreases |inputs|
  {
    if inputs == [] {
      assert acc + todo == acc;
      more, after, outcomes := extras, st, [];
      assert results + outcomes == results;
    } else {
      var next := StageCons(desk, staged, inputs, acc, todo);
      var created, st1, result := AlignedEdit(desk, catalog, mint, base, staged, extras, st, inputs[0], todo[0], next);
      var later;
      more, after, later := Simulate(desk, catalog, mint, base, next, created, st1, inputs[1..], acc + [todo[0]],
                                     todo[1..], results + [result]);
      ApplyCons(catalog, mint, st, todo, results, st1, result);
      OutcomesCons(todo, result, later);
      ConcatOne(results, result, later);
      outcomes := [result] + later;
    }
  }

  lemma {:induction false} StageCons(desk: Desk, staged: seq<Object>, inputs: seq<EditInput>, acc: seq<Edit>,
                                     todo: seq<Edit>) returns (next: seq<Object>)
    requires StageFrom(desk, staged, inputs, acc) == Ok(acc + todo) && inputs != []
    ensures todo != [] && StageEdit(desk, staged, inputs[0]) == Ok((todo[0], next))
    ensures StageFrom(desk, next, inputs[1..], acc + [todo[0]]) == Ok(acc + [todo[0]] + todo[1..])
  {
    var step := StageEdit(desk, staged, inputs[0]).value;
    next := step.1;
    StagePrefix(desk, next, inputs[1..], acc + [step.0], 0);
    assert (acc + todo)[|acc|] == step.0;
    assert acc + [todo[0]] + todo[1..] == acc + todo;
  }

  lemma ApplyCons(catalog: Catalog, mint: Mint, st: Staging, todo: seq<Edit>, results: seq<EditResult>, st1: Staging,
                  result: EditResult)
    requires st.snapshot.floor != [] && todo != []
    requires ApplyEdit(catalog, mint, st, todo[0]) == Ok((st1, result))
    ensures st1.snapshot.floor != []
    ensures ApplyFrom(catalog, mint, st, todo, results) == ApplyFrom(catalog, mint, st1, todo[1..], results + [result])
  {
  }

  lemma UpdateTail<T>(s: seq<T>, i: nat, x: T)
    requires 0 < i < |s|
    ensures s[i := x][0] == s[0] && s[i := x][1..] == s[1..][i - 1 := x]
  {
  }

  /** All but the last, seen from the front. */
  lemma InitTail<T>(s: seq<T>)
    requires |s| > 1
    ensures s[..|s| - 1][0] == s[0] && s[..|s| - 1][1..] == s[1..][..|s| - 2] && s[1..][|s| - 2] == s[|s| - 1]
  {
  }

  lemma ConcatOne<T>(a: seq<T>, x: T, b: seq<T>)
    ensures a + ([x] + b) == a + [x] + b
  {
  }

  lemma {:induction false} OutcomesCons(todo: seq<Edit>, result: EditResult, later: seq<EditResult>)
    requires todo != [] && OutcomeMatches(todo[0].action, result) && OutcomesMatch(todo[1..], later)
    ensures OutcomesMatch(todo, [result] + later)
  {
    forall i | 1 <= i < |todo| ensures OutcomeMatches(todo[i].action, ([result] + later)[i]) {
      assert todo[i] == todo[1..][i - 1];
    }
  }

  /** Whatever the adapter saves was acceptable: validation after every edit leaves no other way. */
  lemma {:induction false} AppliedAcceptable(catalog: Catalog, mint: Mint, st: Staging, edit: Edit)
    requires st.snapshot.floor != [] && forall p | p in catalog :: catalog[p].catalogId == p
    requires ApplyEdit(catalog, mint, st, edit).Ok?
    ensures Acceptable(catalog, edit.action)
  {
    var after := ApplyEdit(catalog, mint, st, edit).value.0.snapshot;
    if edit.action.Creates() {
      var pattern := CreatePattern(catalog, st.snapshot, edit.action).value;
      var first := CreatedObjects(pattern, mint, st.minted, edit.action.quantity)[0];
      assert first == pattern.Instance(mint(st.minted + 0), 0);
      assert after.objects[|st.snapshot.objects|] == first;
      assert ValidObject(first);
    } else {
      var at := Find(st.snapshot.objects, edit.objectId.value).value;
      assert edit.action.Remove? || ValidObject(after.objects[at]);
    }
  }

  lemma {:induction false} SavedAcceptable(catalog: Catalog, mint: Mint, st: Staging, edits: seq<Edit>,
                                           results: seq<EditResult>)
    requires st.snapshot.floor != [] && forall p | p in catalog :: catalog[p].catalogId == p
    requires ApplyFrom(catalog, mint, st, edits, results).Ok?
    ensures AllAcceptable(catalog, edits)
    decreases |edits|
  {
    if edits != [] {
      var (st1, result) := ApplyEdit(catalog, mint, st, edits[0]).value;
      AppliedAcceptable(catalog, mint, st, edits[0]);
      SavedAcceptable(catalog, mint, st1, edits[1..], results + [result]);
      assert forall i | 1 <= i < |edits| :: edits[i] == edits[1..][i - 1];
    }
  }

  lemma {:induction false} CountPositive(catalog: Catalog, edits: seq<Edit>)
    requires AllAcceptable(catalog, edits)
    ensures ExpandedCount(edits) >= |edits|
  {
    if edits != [] {
      var k := |edits| - 1;
      CountPositive(catalog, edits[..k]);
      assert Acceptable(catalog, edits[k].action);
    }
  }

  /** The room is still the one that was planned on, and this Studio is the one that is addressed. */
  predicate SameRoom(desk: Desk, store: Store, tabId: Id)
  {
    && desk.planned.objects == store.snapshot.objects && desk.planned.revision == store.snapshot.revision
    && desk.binding == Binding(store.snapshot.designId, tabId)
  }

  /** A planned edit list is applied in order as planned, at every step: after `k` edits the room
      restricted to the objects that were planned on is the staged room. */
  lemma {:induction false} AgreementAtStep(desk: Desk, store: Store, catalog: Catalog, inputs: seq<EditInput>,
                                           edits: seq<Edit>, mint: Mint, k: nat)
    requires ValidSnapshot(store.snapshot) && FreshMint(mint, store.snapshot.objects)
    requires desk.planned.objects == store.snapshot.objects
    requires StageFrom(desk, desk.planned.objects, inputs, []) == Ok(edits)
    requires AllAcceptable(catalog, edits) && k <= |inputs|
    ensures var base := store.snapshot.objects;
            var r := ApplyFrom(catalog, mint, Staging(store.snapshot, 0), edits[..k], []);
            && r.Ok? && OutcomesMatch(edits[..k], r.value.1)
            && Restrict(r.value.0.snapshot.objects, Ids(base)) == StagedAfter(desk, base, inputs[..k])
  {
    var base := store.snapshot.objects;
    StagePrefix(desk, base, inputs, [], k);
    PrependNone(edits[..k]);
    AppendNone(base);
    var more, after, outcomes := Simulate(desk, catalog, mint, base, base, [], Staging(store.snapshot, 0), inputs[..k],
                                          [], edits[..k], []);
    PrependNone(outcomes);
    AlignedApart(StagedAfter(desk, base, inputs[..k]), more, after, mint, base);
    RestrictAll(StagedAfter(desk, base, inputs[..k]), more, Ids(base));
  }

  lemma {:induction false} AgreementAtEnd(desk: Desk, store: Store, catalog: Catalog, inputs: seq<EditInput>,
                                          edits: seq<Edit>, mint: Mint)
    requires ValidSnapshot(store.snapshot) && FreshMint(mint, store.snapshot.objects)
    requires desk.planned.objects == store.snapshot.objects
    requires StageFrom(desk, desk.planned.objects, inputs, []) == Ok(edits) && AllAcceptable(catalog, edits)
    ensures var base := store.snapshot.objects;
            var r := ApplyFrom(catalog, mint, Staging(store.snapshot, 0), edits, []);
            && r.Ok? && OutcomesMatch(edits, r.value.1)
            && Restrict(r.value.0.snapshot.objects, Ids(base)) == StagedAfter(desk, base, inputs)
  {
    Whole(inputs);
    Whole(edits);
    AgreementAtStep(desk, store, catalog, inputs, edits, mint, |inputs|);
  }

  /** The attempt succeeds exactly on acceptable edits, and then leaves what was staged. */
  lemma {:induction false} AttemptAgrees(desk: Desk, store: Store, catalog: Catalog, inputs: seq<EditInput>,
                                         command: Command, mint: Mint, stamp: string)
    requires ValidSnapshot(store.snapshot) && FreshMint(mint, store.snapshot.objects)
    requires desk.planned.objects == store.snapshot.objects
    requires forall p | p in catalog :: catalog[p].catalogId == p
    requires inputs != [] && StageFrom(desk, desk.planned.objects, inputs, []) == Ok(command.payload.Edits())
    requires ExpandedCount(command.payload.Edits()) <= STUDIO_QUANTITY_MAX
    ensures var edits, base := command.payload.Edits(), store.snapshot.objects;
            var r := Attempt(store, catalog, false, command, mint, stamp);
            && (r.Ok? <==> AllAcceptable(catalog, edits))
            && (r.Ok? ==>
                  && OutcomesMatch(edits, r.value.1.Results()) && (r.value.1.BatchResults? <==> command.payload.Batch?)
                  && Restrict(r.value.0.objects, Ids(base)) == StagedAfter(desk, base, inputs))
  {
    var edits := command.payload.Edits();
    var st := Staging(store.snapshot, 0);
    if AllAcceptable(catalog, edits) {
      CountPositive(catalog, edits);
      AgreementAtEnd(desk, store, catalog, inputs, edits, mint);
    } else if ApplyFrom(catalog, mint, st, edits, []).Ok? {
      SavedAcceptable(catalog, mint, st, edits, []);
    }
  }

  /** The planner, the adapter and the broker agree. A command planned on the room the adapter
      still has is saved if and only if the adapter can supply what its edits ask for; then the
      broker believes the result, and the planned objects are in the saved room as they were staged.
      Otherwise it is rejected and the room does not change. */
  lemma {:induction false} PlannerAdapterBrokerAgree(desk: Desk, store: Store, tabId: Id, catalog: Catalog,
                                                     inputs: seq<EditInput>, batch: bool,
                                  command: Command, mint: Mint, stamp: string)
    requires !batch ==> |inputs| == 1
    requires PlanCommand(desk, command.commandId, inputs, batch) == Ok(command)
    requires ValidSnapshot(store.snapshot) && SameRoom(desk, store, tabId) && FreshMint(mint, store.snapshot.objects)
    requires forall p | p in catalog :: catalog[p].catalogId == p
    ensures var base := store.snapshot.objects;
            var next := ExecuteNew(store, tabId, catalog, false, command, mint, stamp);
            var result := next.commands[command.commandId].result;
            && (result.Saved? <==> AllAcceptable(catalog, command.payload.Edits()))
            && RefuseResult(command.binding.designId, command, result).None?
            && (result.Saved? ==> Restrict(next.snapshot.objects, Ids(base)) == StagedAfter(desk, base, inputs))
            && (!result.Saved? ==> next.snapshot == store.snapshot && next.saveCount == store.saveCount)
  {
    PlannedCommand(desk, inputs, batch, command);
    AttemptAgrees(desk, store, catalog, inputs, command, mint, stamp);
    ExecutedAttempt(store, tabId, catalog, command, mint, stamp);
    var attempt := Attempt(store, catalog, false, command, mint, stamp);
    if attempt.Ok? {
      BelievesMatching(command, attempt.value.1, attempt.value.0);
    }
  }

  /** What a planned command is. */
  lemma {:induction false} PlannedCommand(desk: Desk, inputs: seq<EditInput>, batch: bool, command: Command)
    requires !batch ==> |inputs| == 1
    requires PlanCommand(desk, command.commandId, inputs, batch) == Ok(command)
    ensures inputs != [] && StageFrom(desk, desk.planned.objects, inputs, []) == Ok(command.payload.Edits())
    ensures ExpandedCount(command.payload.Edits()) <= STUDIO_QUANTITY_MAX
    ensures command.binding == desk.binding && command.expectedRevision == desk.planned.revision
  {
    if !batch {
      Singleton(StageFrom(desk, desk.planned.objects, inputs, []).value);
    }
  }

  lemma Singleton<T>(s: seq<T>)
    ensures |s| == 1 ==> s == [s[0]]
  {
  }

  /** What executing a command comes to when it is addressed to this Studio and the room is current. */
  lemma ExecutedAttempt(store: Store, tabId: Id, catalog: Catalog, command: Command, mint: Mint, stamp: string)
    requires ValidSnapshot(store.snapshot)
    requires command.binding == Binding(store.snapshot.designId, tabId)
             && command.expectedRevision == store.snapshot.revision
    ensures var next := ExecuteNew(store, tabId, catalog, false, command, mint, stamp);
            var result := next.commands[command.commandId].result;
            match Attempt(store, catalog, false, command, mint, stamp)
            case Err(code) => result == Rejected(command.commandId, code) && next.snapshot == store.snapshot
                              && next.saveCount == store.saveCount
            case Ok((s, evidence)) =>
              result == Saved(command.commandId, evidence, s.revision, s) && next.snapshot == s
              && s.designId == store.snapshot.designId
  {
  }

  lemma BelievesMatching(command: Command, evidence: Evidence, s: Snapshot)
    requires OutcomesMatch(command.payload.Edits(), evidence.Results())
             && (evidence.BatchResults? <==> command.payload.Batch?)
    requires ValidSnapshot(s)
    ensures RefuseResult(s.designId, command, Saved(command.commandId, evidence, s.revision, s)).None?
  {
  }
}
