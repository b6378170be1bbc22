/** Undo through saved command references: a batch that cites every edit of a saved command in
    reverse order restores the room, prices excepted. */
module StudioUndo {
  import opened Outcomes
  import opened Sequences
  import opened StudioContract
  import opened StudioRecords
  import opened StudioPlanner
  import opened StudioAdapter
  import opened StudioReplies
  import opened StudioAgreement

  /** Moves, rotations, and replacements of a product that is known. */
  predicate Reversible(action: Action)
  {
    action.Move? || action.Rotate? || (action.Replace? && action.expectedCatalogId.Some?)
  }

  predicate AllReversible(edits: seq<Edit>)
  {
    forall i | 0 <= i < |edits| :: Reversible(edits[i].action)
  }

  /** `a` is the same object in the same place as `b`, except that `a` may have lost its price. */
  predicate LikeObject(a: Object, b: Object)
  {
    && a.(product := None) == b.(product := None) && a.CatalogId() == b.CatalogId()
    && (a.product == b.product || a.product.value.price.None?)
  }

  predicate Like(a: seq<Object>, b: seq<Object>)
  {
    |a| == |b| && forall i | 0 <= i < |a| :: LikeObject(a[i], b[i])
  }

  /** How an edit of a saved command is named: a single one needs no index. */
  function IndexOf(command: Command, k: nat): Option<nat> { if command.payload.Batch? then Some(k) else None }

  /** The request that takes back edit `k` of a saved command. */
  function UndoInput(command: Command, k: nat): EditInput
    requires k < |command.payload.Edits()|
  {
    var edit := command.payload.Edits()[k];
    EditInput(edit.action.Kind(), edit.objectId, None, None, Some(command.commandId), IndexOf(command, k), None)
  }

  /** The requests that take back the first `k` edits, last one first. */
  function UndoInputs(command: Command, k: nat): (r: seq<EditInput>)
    requires k <= |command.payload.Edits()|
    ensures |r| == k
  {
    if k == 0 then [] else [UndoInput(command, k - 1)] + UndoInputs(command, k - 1)
  }

  /** A later turn of the same conversation in the same design, with the command in its journal. */
  predicate Remembers(desk: Desk, command: Command, results: seq<EditResult>, result: CommandResult)
  {
    && command.commandId in desk.records
    && result.Saved? && result.evidence.Results() == results
       && (result.evidence.BatchResults? <==> command.payload.Batch?)
    && desk.records[command.commandId].command == command
    && desk.records[command.commandId].state == StateCommitted
    && desk.records[command.commandId].result == Some(result)
    && command.conversationId == desk.conversationId && command.binding.designId == desk.binding.designId
    && (desk.selection.Some? ==> !desk.selection.value.ReplaceAsset?)
  }

  /** One edit of the original batch, seen from the room before it. */
  predicate Changed(before: seq<Object>, after: seq<Object>, edit: Edit, result: EditResult)
  {
    && edit.objectId.Some? && edit.objectId.value != "" && result.Edited? && result.after.Some?
    && var at := Find(before, edit.objectId.value);
       && at.Some? && result.before == before[at.value].Placed() && YawOnly(before[at.value].rotation)
       && after == before[at.value := StagedChange(before[at.value], edit.action)]
       && (edit.action.Replace? ==>
             && edit.action.expectedCatalogId == before[at.value].CatalogId()
             && (edit.action.expectedCatalogId.Some? ==> NonBlank(edit.action.expectedCatalogId.value)))
  }

  lemma {:induction false} LikeFind(a: seq<Object>, b: seq<Object>, id: Id)
    requires Like(a, b)
    ensures Find(a, id) == Find(b, id)
    ensures ExactlyOne(a, id) <==> ExactlyOne(b, id)
  {
    LikeRestrict(a, b, {id});
    LikeFound(a, b, id);
  }

  lemma {:induction false} LikeFound(a: seq<Object>, b: seq<Object>, id: Id)
    requires Like(a, b)
    ensures Find(a, id) == Find(b, id)
  {
    if a != [] && a[0].id != id {
      LikeTail(a, b);
      LikeFound(a[1..], b[1..], id);
    }
  }

  lemma {:induction false} LikeTail(a: seq<Object>, b: seq<Object>)
    requires Like(a, b) && a != []
    ensures b != [] && Like(a[1..], b[1..]) && LikeObject(a[0], b[0])
  {
    assert forall i | 0 <= i < |a[1..]| :: a[1..][i] == a[i + 1] && b[1..][i] == b[i + 1];
  }

  lemma {:induction false} LikeRestrict(a: seq<Object>, b: seq<Object>, ids: set<Id>)
    requires Like(a, b)
    ensures |Restrict(a, ids)| == |Restrict(b, ids)|
  {
    if a != [] {
      LikeTail(a, b);
      LikeRestrict(a[1..], b[1..], ids);
    }
  }

  /** What a request to take back an edit resolves to. */
  function Inverse(edit: Edit, before: Object, now: Object): Action
    requires Reversible(edit.action)
  {
    match edit.action
    case Move(_) => Move(before.position)
    case Rotate(_) => Rotate(before.rotation)
    case Replace(_, expected) => Replace(expected.value, now.CatalogId())
  }

  /** The edit that takes back edit `k`, and the staged objects after it. */
  function TakenBack(command: Command, k: nat, before: Object, now: seq<Object>, at: nat): (Edit, seq<Object>)
    requires k < |command.payload.Edits()| && Reversible(command.payload.Edits()[k].action) && at < |now|
  {
    var original := command.payload.Edits()[k];
    var action := Inverse(original, before, now[at]);
    (Edit(original.objectId, action, Some(Reference(command.commandId, IndexOf(command, k)))),
     now[at := StagedChange(now[at], action)])
  }

  /** Taking one edit back, in a room that is like the one after it, leads to one like the room before. */
  lemma {:induction false} StepBack(desk: Desk, command: Command, results: seq<EditResult>, result: CommandResult,
                                    k: nat,
                 before: seq<Object>, after: seq<Object>, now: seq<Object>)
    returns (edit: Edit, next: seq<Object>)
    requires Remembers(desk, command, results, result) && k < |command.payload.Edits()| && k < |results|
    requires Reversible(command.payload.Edits()[k].action)
    requires UniqueIds(before) && Changed(before, after, command.payload.Edits()[k], results[k])
    requires Like(now, after)
    ensures StageEdit(desk, now, UndoInput(command, k)) == Ok((edit, next))
    ensures Like(next, before) && !edit.action.Creates() && !edit.action.Remove?
    ensures forall catalog :: Acceptable(catalog, edit.action)
  {
    var original := command.payload.Edits()[k];
    var id := original.objectId.value;
    var at := Find(before, id).value;
    UndoTarget(before, after, original, results[k], now);
    UndoStaged(desk, command, results, result, k, before[at], now, at);
    var back := TakenBack(command, k, before[at], now, at);
    edit, next := back.0, back.1;
    assert LikeObject(now[at], after[at]);
  }

  lemma {:induction false} UndoTarget(before: seq<Object>, after: seq<Object>, edit: Edit, result: EditResult,
                                      now: seq<Object>)
    requires UniqueIds(before) && Changed(before, after, edit, result) && Reversible(edit.action) && Like(now, after)
    ensures ExactlyOne(now, edit.objectId.value) && Find(now, edit.objectId.value) == Find(before, edit.objectId.value)
  {
    var id := edit.objectId.value;
    var at := Find(before, id).value;
    SameIds(before, at, after[at]);
    FindUpdate(before, at, after[at]);
    UniqueUpdate(before, at, after[at]);
    LikeFind(now, after, id);
    FoundExactlyOne(after, id);
  }

  lemma {:induction false} UndoStaged(desk: Desk, command: Command, results: seq<EditResult>, result: CommandResult,
                                      k: nat,
                   before: Object, now: seq<Object>, at: nat)
    requires Remembers(desk, command, results, result) && k < |command.payload.Edits()| && k < |results|
    requires Reversible(command.payload.Edits()[k].action) && command.payload.Edits()[k].objectId.Some?
    requires results[k].Edited? && results[k].before == before.Placed() && results[k].after.Some?
             && YawOnly(before.rotation)
    requires command.payload.Edits()[k].action.Replace? ==>
               command.payload.Edits()[k].action.expectedCatalogId.value != ""
    requires var id := command.payload.Edits()[k].objectId.value;
             id != "" && ExactlyOne(now, id) && Find(now, id) == Some(at)
    ensures StageEdit(desk, now, UndoInput(command, k)) == Ok(TakenBack(command, k, before, now, at))
  {
    var input, original := UndoInput(command, k), command.payload.Edits()[k];
    assert Original(desk, input, now[at].id) == Ok((original, before.Placed()));
    ResolvesToInverse(desk, input, original, before, now[at]);
  }

  lemma UniqueUpdate(objects: seq<Object>, i: nat, o: Object)
    requires UniqueIds(objects) && i < |objects| && o.id == objects[i].id
    ensures UniqueIds(objects[i := o])
  {
  }

  lemma ResolvesToInverse(desk: Desk, input: EditInput, original: Edit, before: Object, now: Object)
    requires input.originalCommandId.Some? && input.kind == original.action.Kind() && Reversible(original.action)
    requires Original(desk, input, now.id) == Ok((original, before.Placed()))
    requires desk.selection.Some? ==> !desk.selection.value.ReplaceAsset?
    requires YawOnly(before.rotation)
    requires original.action.Replace? ==> original.action.expectedCatalogId.value != ""
    ensures ResolveAction(desk, input, now) == Ok(Inverse(original, before, now))
  {
  }

  // ---- The saved batch, edit by edit -----------------------------------------------

  /** A successful walk over the edits is a successful walk over all but the last, and then the last. */
  lemma {:induction false} ApplySnoc(catalog: Catalog, mint: Mint, st: Staging, edits: seq<Edit>,
                                     results: seq<EditResult>)
    returns (before: Staging, earlier: seq<EditResult>, after: Staging, last: EditResult)
    requires st.snapshot.floor != [] && edits != []
    requires ApplyFrom(catalog, mint, st, edits, results).Ok?
    ensures ApplyFrom(catalog, mint, st, edits[..|edits| - 1], results) == Ok((before, earlier))
    ensures before.snapshot.floor != [] && ApplyEdit(catalog, mint, before, edits[|edits| - 1]) == Ok((after, last))
    ensures ApplyFrom(catalog, mint, st, edits, results) == Ok((after, earlier + [last]))
    decreases |edits|
  {
    var step := ApplyEdit(catalog, mint, st, edits[0]).value;
    if |edits| == 1 {
      before, earlier, after, last := st, results, step.0, step.1;
    } else {
      var rest := edits[1..];
      before, earlier, after, last := ApplySnoc(catalog, mint, step.0, rest, results + [step.1]);
      InitTail(edits);
    }
  }

  lemma ChangedByEdit(catalog: Catalog, mint: Mint, before: Staging, edit: Edit, after: Staging, result: EditResult)
    requires ValidSnapshot(before.snapshot) && ApplyEdit(catalog, mint, before, edit) == Ok((after, result))
    ensures OutcomeMatches(edit.action, result)
    ensures !edit.action.Creates() && !edit.action.Remove? ==>
              Changed(before.snapshot.objects, after.snapshot.objects, edit, result)
  {
  }

  /** The first `k` edits of the batch, applied to the room it was saved on. */
  ghost predicate Walked(catalog: Catalog, mint: Mint, st: Staging, command: Command, results: seq<EditResult>, k: nat,
                         after: Staging)
  {
    && ValidSnapshot(st.snapshot) && k <= |command.payload.Edits()| && k <= |results|
    && ApplyFrom(catalog, mint, st, command.payload.Edits()[..k], []) == Ok((after, results[..k]))
  }

  lemma {:induction false} WalkBack(catalog: Catalog, mint: Mint, st: Staging, command: Command,
                                    results: seq<EditResult>, k: nat, after: Staging)
    returns (before: Staging)
    requires k > 0 && Walked(catalog, mint, st, command, results, k, after)
    ensures Walked(catalog, mint, st, command, results, k - 1, before) && ValidSnapshot(before.snapshot)
    ensures ApplyEdit(catalog, mint, before, command.payload.Edits()[k - 1]) == Ok((after, results[k - 1]))
  {
    var edits := command.payload.Edits()[..k];
    var earlier, end, last;
    before, earlier, end, last := ApplySnoc(catalog, mint, st, edits, []);
    assert edits[..k - 1] == command.payload.Edits()[..k - 1];
    assert results[..k] == earlier + [last];
    assert results[..k - 1] == results[..k][..k - 1] && results[k - 1] == results[..k][k - 1];
  }

  // ---- Undoing the batch ------------------------------------------------------------

  predicate ChangeOnly(catalog: Catalog, action: Action)
  {
    Acceptable(catalog, action) && !action.Creates() && !action.Remove?
  }

  predicate ChangesOnly(catalog: Catalog, edits: seq<Edit>)
  {
    AllAcceptable(catalog, edits) && forall i | 0 <= i < |edits| :: ChangeOnly(catalog, edits[i].action)
  }

  /** Staging the last `k` undo requests from `now` yields the edits `undo` and ends in `end`, which is like `goal`. */
  ghost predicate Undoes(desk: Desk, catalog: Catalog, command: Command, k: nat, now: seq<Object>, acc: seq<Edit>,
                         undo: seq<Edit>, end: seq<Object>, goal: seq<Object>)
  {
    && k <= |command.payload.Edits()|
    && StageFrom(desk, now, UndoInputs(command, k), acc) == Ok(acc + undo)
    && StagedAfter(desk, now, UndoInputs(command, k)) == end && Like(end, goal)
    && ChangesOnly(catalog, undo)
  }

  lemma {:induction false} UndoSteps(desk: Desk, catalog: Catalog, mint: Mint, st: Staging, command: Command,
                                     results: seq<EditResult>,
                                     result: CommandResult, k: nat, after: Staging, now: seq<Object>, acc: seq<Edit>)
    returns (undo: seq<Edit>, end: seq<Object>)
    requires Remembers(desk, command, results, result) && AllReversible(command.payload.Edits())
    requires Walked(catalog, mint, st, command, results, k, after) && Like(now, after.snapshot.objects)
    ensures Undoes(desk, catalog, command, k, now, acc, undo, end, st.snapshot.objects)
    decreases k
  {
    if k == 0 {
      end := now;
      undo := UndoNothing(desk, catalog, mint, st, command, results, after, now, acc);
    } else {
      var before, edit, next := UndoStep(desk, catalog, mint, st, command, results, result, k - 1, after, now);
      var rest;
      rest, end := UndoSteps(desk, catalog, mint, st, command, results, result, k - 1, before, next,
                             Appended(acc, edit));
      undo := UndoesCons(desk, catalog, command, k, now, acc, edit, next, rest, end, st.snapshot.objects);
    }
  }

  lemma {:induction false} UndoNothing(desk: Desk, catalog: Catalog, mint: Mint, st: Staging, command: Command,
                                       results: seq<EditResult>,
                    after: Staging, now: seq<Object>, acc: seq<Edit>) returns (undo: seq<Edit>)
    requires Walked(catalog, mint, st, command, results, 0, after) && Like(now, after.snapshot.objects)
    ensures Undoes(desk, catalog, command, 0, now, acc, undo, now, st.snapshot.objects)
  {
    undo := [];
    AppendNone(acc);
  }

  lemma {:induction false} UndoStep(desk: Desk, catalog: Catalog, mint: Mint, st: Staging, command: Command,
                                    results: seq<EditResult>, result: CommandResult, k: nat, after: Staging,
                                    now: seq<Object>)
    returns (before: Staging, edit: Edit, next: seq<Object>)
    requires Remembers(desk, command, results, result) && AllReversible(command.payload.Edits())
    requires Walked(catalog, mint, st, command, results, k + 1, after) && Like(now, after.snapshot.objects)
    ensures Walked(catalog, mint, st, command, results, k, before) && Like(next, before.snapshot.objects)
    ensures StageEdit(desk, now, UndoInput(command, k)) == Ok((edit, next)) && ChangeOnly(catalog, edit.action)
  {
    assert Reversible(command.payload.Edits()[k].action);
    before := WalkBack(catalog, mint, st, command, results, k + 1, after);
    edit, next := TakeBack(desk, catalog, mint, before, command, results, result, k, after, now);
  }

  lemma {:induction false} TakeBack(desk: Desk, catalog: Catalog, mint: Mint, before: Staging, command: Command,
                                    results: seq<EditResult>, result: CommandResult, k: nat, after: Staging,
                                    now: seq<Object>)
    returns (edit: Edit, next: seq<Object>)
    requires Remembers(desk, command, results, result) && k < |command.payload.Edits()| && k < |results|
    requires Reversible(command.payload.Edits()[k].action) && ValidSnapshot(before.snapshot)
    requires ApplyEdit(catalog, mint, before, command.payload.Edits()[k]) == Ok((after, results[k]))
    requires Like(now, after.snapshot.objects)
    ensures StageEdit(desk, now, UndoInput(command, k)) == Ok((edit, next))
    ensures Like(next, before.snapshot.objects) && ChangeOnly(catalog, edit.action)
  {
    ChangedByEdit(catalog, mint, before, command.payload.Edits()[k], after, results[k]);
    edit, next := StepBack(desk, command, results, result, k, before.snapshot.objects, after.snapshot.objects, now);
    assert Acceptable(catalog, edit.action);
  }

  function Appended(acc: seq<Edit>, edit: Edit): seq<Edit> { acc + [edit] }

  lemma {:induction false} UndoesCons(desk: Desk, catalog: Catalog, command: Command, k: nat, now: seq<Object>,
                                      acc: seq<Edit>,
                   edit: Edit, next: seq<Object>, rest: seq<Edit>, end: seq<Object>, goal: seq<Object>)
    returns (undo: seq<Edit>)
    requires 0 < k <= |command.payload.Edits()|
    requires StageEdit(desk, now, UndoInput(command, k - 1)) == Ok((edit, next)) && ChangeOnly(catalog, edit.action)
    requires Undoes(desk, catalog, command, k - 1, next, Appended(acc, edit), rest, end, goal)
    ensures Undoes(desk, catalog, command, k, now, acc, undo, end, goal)
  {
    undo := [edit] + rest;
    ConcatOne(acc, edit, rest);
    StagedCons(desk, now, UndoInput(command, k - 1), UndoInputs(command, k - 1), acc, edit, next);
    ChangesCons(catalog, edit, rest);
  }

  lemma {:induction false} ChangesCons(catalog: Catalog, edit: Edit, rest: seq<Edit>)
    requires ChangeOnly(catalog, edit.action) && ChangesOnly(catalog, rest)
    ensures ChangesOnly(catalog, [edit] + rest)
  {
    forall i | 0 <= i < |[edit] + rest| ensures ([edit] + rest)[i] == if i == 0 then edit else rest[i - 1] {
    }
  }

  lemma {:induction false} StagedCons(desk: Desk, now: seq<Object>, input: EditInput, rest: seq<EditInput>,
                                      acc: seq<Edit>, edit: Edit, next: seq<Object>)
    requires StageEdit(desk, now, input) == Ok((edit, next))
    ensures StageFrom(desk, now, [input] + rest, acc) == StageFrom(desk, next, rest, acc + [edit])
    ensures StagedAfter(desk, now, [input] + rest) == StagedAfter(desk, next, rest)
  {
    assert ([input] + rest)[1..] == rest;
  }

  /** An edit that removed or created objects, or replaced a product that was not known, cannot be
      taken back, whatever the room has become. */
  lemma IrreversibleRefused(desk: Desk, command: Command, results: seq<EditResult>, result: CommandResult, k: nat,
                            now: seq<Object>)
    requires Remembers(desk, command, results, result) && k < |command.payload.Edits()| == |results|
    requires OutcomeMatches(command.payload.Edits()[k].action, results[k])
    requires !Reversible(command.payload.Edits()[k].action)
    ensures StageEdit(desk, now, UndoInput(command, k)).Err?
  {
  }

  lemma {:induction false} UndoStops(desk: Desk, command: Command, results: seq<EditResult>, result: CommandResult,
                                     j: nat, k: nat,
                                     now: seq<Object>, acc: seq<Edit>)
    requires Remembers(desk, command, results, result) && j < k <= |command.payload.Edits()| == |results|
    requires OutcomeMatches(command.payload.Edits()[j].action, results[j])
             && !Reversible(command.payload.Edits()[j].action)
    ensures StageFrom(desk, now, UndoInputs(command, k), acc).Err?
    decreases k
  {
    var step := StageEdit(desk, now, UndoInput(command, k - 1));
    if k == j + 1 {
      IrreversibleRefused(desk, command, results, result, j, now);
    } else if step.Ok? {
      UndoStops(desk, command, results, result, j, k - 1, step.value.1, acc + [step.value.0]);
    }
  }

  lemma {:induction false} SavedOutcome(catalog: Catalog, mint: Mint, st: Staging, command: Command,
                                        results: seq<EditResult>,
                                        j: nat, k: nat, after: Staging)
    requires Walked(catalog, mint, st, command, results, k, after) && j < k
    ensures OutcomeMatches(command.payload.Edits()[j].action, results[j])
    decreases k
  {
    var before := WalkBack(catalog, mint, st, command, results, k, after);
    ChangedByEdit(catalog, mint, before, command.payload.Edits()[k - 1], after, results[k - 1]);
    if j < k - 1 {
      SavedOutcome(catalog, mint, st, command, results, j, k - 1, before);
    }
  }

  lemma {:induction false} ChangesCreateNothing(catalog: Catalog, mint: Mint, st: Staging, edits: seq<Edit>,
                                                results: seq<EditResult>)
    requires st.snapshot.floor != [] && ChangesOnly(catalog, edits) && ApplyFrom(catalog, mint, st, edits, results).Ok?
    ensures Ids(ApplyFrom(catalog, mint, st, edits, results).value.0.snapshot.objects) == Ids(st.snapshot.objects)
    decreases |edits|
  {
    if edits != [] {
      var (next, result) := ApplyEdit(catalog, mint, st, edits[0]).value;
      var at := Find(st.snapshot.objects, edits[0].objectId.value).value;
      SameIds(st.snapshot.objects, at, next.snapshot.objects[at]);
      assert forall i | 0 <= i < |edits[1..]| :: edits[1..][i] == edits[i + 1];
      ChangesCreateNothing(catalog, mint, next, edits[1..], results + [result]);
    }
  }

  lemma {:induction false} ChangesCount(edits: seq<Edit>)
    requires forall i | 0 <= i < |edits| :: !edits[i].action.Creates()
    ensures ExpandedCount(edits) == |edits|
  {
    if edits != [] {
      ChangesCount(edits[..|edits| - 1]);
    }
  }

  /** `command` is what saved the room that is now in `after`. */
  ghost predicate SavedBy(before: Store, after: Store, tabId: Id, catalog: Catalog, command: Command, mint: Mint,
                          stamp: string, result: CommandResult)
  {
    && ValidSnapshot(before.snapshot) && command.commandId !in before.commands
    && after == ExecuteNew(before, tabId, catalog, false, command, mint, stamp)
    && result == after.commands[command.commandId].result && result.Saved?
  }

  lemma {:induction false} SavedAttempt(before: Store, after: Store, tabId: Id, catalog: Catalog, command: Command,
                                        mint: Mint, stamp: string,
                                        result: CommandResult)
    requires SavedBy(before, after, tabId, catalog, command, mint, stamp, result)
    ensures var attempt := Attempt(before, catalog, false, command, mint, stamp);
            attempt.Ok? && after.snapshot == attempt.value.0 && result.evidence == attempt.value.1
  {
  }

  lemma {:induction false} AttemptWalk(before: Store, catalog: Catalog, command: Command, mint: Mint, stamp: string)
    returns (end: Staging, results: seq<EditResult>)
    requires ValidSnapshot(before.snapshot) && Attempt(before, catalog, false, command, mint, stamp).Ok?
    ensures var (snapshot, evidence) := Attempt(before, catalog, false, command, mint, stamp).value;
            && snapshot.objects == end.snapshot.objects && evidence.Results() == results
               && (evidence.BatchResults? <==> command.payload.Batch?)
    ensures ApplyFrom(catalog, mint, Staging(before.snapshot, 0), command.payload.Edits(), []) == Ok((end, results))
    ensures command.payload.Edits() != [] && ExpandedCount(command.payload.Edits()) <= STUDIO_QUANTITY_MAX
  {
    var applied := ApplyFrom(catalog, mint, Staging(before.snapshot, 0), command.payload.Edits(), []).value;
    end, results := applied.0, applied.1;
    assert command.payload.Single? ==> [results[0]] == results;
  }

  lemma {:induction false} SavedWalk(before: Store, after: Store, tabId: Id, catalog: Catalog, command: Command,
                                     mint: Mint, stamp: string, result: CommandResult)
    returns (end: Staging)
    requires SavedBy(before, after, tabId, catalog, command, mint, stamp, result)
    ensures (result.evidence.BatchResults? <==> command.payload.Batch?)
    ensures |result.evidence.Results()| == |command.payload.Edits()| <= STUDIO_QUANTITY_MAX
    ensures command.payload.Edits() != [] && after.snapshot.objects == end.snapshot.objects
            && ValidSnapshot(after.snapshot)
    ensures Walked(catalog, mint, Staging(before.snapshot, 0), command, result.evidence.Results(),
                   |command.payload.Edits()|, end)
  {
    SavedAttempt(before, after, tabId, catalog, command, mint, stamp, result);
    var results;
    end, results := AttemptWalk(before, catalog, command, mint, stamp);
    Whole(command.payload.Edits());
    Whole(results);
    EditsCounted(catalog, mint, Staging(before.snapshot, 0), command.payload.Edits(), []);
  }

  lemma {:induction false} EditsCounted(catalog: Catalog, mint: Mint, st: Staging, edits: seq<Edit>,
                                        results: seq<EditResult>)
    requires st.snapshot.floor != [] && ApplyFrom(catalog, mint, st, edits, results).Ok?
    ensures |edits| <= ExpandedCount(edits)
    decreases |edits|
  {
    if edits != [] {
      var before, earlier, after, last := ApplySnoc(catalog, mint, st, edits, results);
      EditsCounted(catalog, mint, st, edits[..|edits| - 1], results);
    }
  }

  /** The turn that takes a saved command back: the room it sees is the one that was saved. */
  ghost predicate CanCite(before: Store, after: Store, tabId: Id, catalog: Catalog, command: Command, mint: Mint,
                          stamp: string,
                          result: CommandResult, desk: Desk, batch: bool, undoMint: Mint)
  {
    match result
    case Saved(_, evidence, _, _) =>
      && (batch || |command.payload.Edits()| == 1)
      && SavedBy(before, after, tabId, catalog, command, mint, stamp, result)
      && (forall p | p in catalog :: catalog[p].catalogId == p)
      && Remembers(desk, command, evidence.Results(), result)
      && SameRoom(desk, after, tabId) && FreshMint(undoMint, after.snapshot.objects)
    case _ => false
  }

  lemma {:induction false} ReversibleRestored(before: Store, after: Store, tabId: Id, catalog: Catalog,
                                              command: Command, mint: Mint, stamp: string,
                            result: CommandResult, desk: Desk, undoId: Id, batch: bool, undoMint: Mint,
                              undoStamp: string)
    requires CanCite(before, after, tabId, catalog, command, mint, stamp, result, desk, batch, undoMint)
    requires AllReversible(command.payload.Edits())
    ensures var undo := PlanCommand(desk, undoId, UndoInputs(command, |command.payload.Edits()|), batch);
            && undo.Ok?
            && var undone := ExecuteNew(after, tabId, catalog, false, undo.value, undoMint, undoStamp);
               undone.commands[undoId].result.Saved? && Like(undone.snapshot.objects, before.snapshot.objects)
  {
    var n, results := |command.payload.Edits()|, result.evidence.Results();
    var end := SavedWalk(before, after, tabId, catalog, command, mint, stamp, result);
    var edits, now := UndoSteps(desk, catalog, mint, Staging(before.snapshot, 0), command, results, result, n, end,
                                after.snapshot.objects, []);
    UndoSaved(after, tabId, catalog, desk, undoId, UndoInputs(command, n), batch, edits, undoMint, undoStamp);
  }

  lemma {:induction false} IrreversibleStops(before: Store, after: Store, tabId: Id, catalog: Catalog, command: Command,
                                             mint: Mint, stamp: string,
                            result: CommandResult, desk: Desk, undoId: Id, batch: bool, undoMint: Mint)
    requires CanCite(before, after, tabId, catalog, command, mint, stamp, result, desk, batch, undoMint)
    requires !AllReversible(command.payload.Edits())
    ensures PlanCommand(desk, undoId, UndoInputs(command, |command.payload.Edits()|), batch).Err?
  {
    var n, results := |command.payload.Edits()|, result.evidence.Results();
    var end := SavedWalk(before, after, tabId, catalog, command, mint, stamp, result);
    var j :| 0 <= j < n && !Reversible(command.payload.Edits()[j].action);
    SavedOutcome(catalog, mint, Staging(before.snapshot, 0), command, results, j, n, end);
    UndoStops(desk, command, results, result, j, n, after.snapshot.objects, []);
  }

  /** Undo is exactly as strong as promised. Citing every edit of a saved batch in reverse order, or the
      one edit of a single command, in a later turn that still sees the resulting room, is accepted if
      and only if the command only moved, rotated and replaced objects whose product was known. Then the
      undo is saved, and puts back every object where it was and what it was, even if it was edited
      several times. */
  lemma {:induction false} ReverseUndoRestores(before: Store, after: Store, tabId: Id, catalog: Catalog,
                                               command: Command, mint: Mint, stamp: string,
                            result: CommandResult, desk: Desk, undoId: Id, batch: bool, undoMint: Mint,
                              undoStamp: string)
    requires CanCite(before, after, tabId, catalog, command, mint, stamp, result, desk, batch, undoMint)
    ensures var undo := PlanCommand(desk, undoId, UndoInputs(command, |command.payload.Edits()|), batch);
            && (undo.Ok? <==> AllReversible(command.payload.Edits()))
            && (undo.Ok? ==>
                  var undone := ExecuteNew(after, tabId, catalog, false, undo.value, undoMint, undoStamp);
                  undone.commands[undoId].result.Saved? && Like(undone.snapshot.objects, before.snapshot.objects))
  {
    if AllReversible(command.payload.Edits()) {
      ReversibleRestored(before, after, tabId, catalog, command, mint, stamp, result, desk, undoId, batch, undoMint,
                         undoStamp);
    } else {
      IrreversibleStops(before, after, tabId, catalog, command, mint, stamp, result, desk, undoId, batch, undoMint);
    }
  }

  lemma {:induction false} UndoSaved(store: Store, tabId: Id, catalog: Catalog, desk: Desk, undoId: Id,
                                     inputs: seq<EditInput>, batch: bool,
                                     edits: seq<Edit>, mint: Mint, stamp: string)
    requires ValidSnapshot(store.snapshot) && SameRoom(desk, store, tabId) && FreshMint(mint, store.snapshot.objects)
    requires forall p | p in catalog :: catalog[p].catalogId == p
    requires 0 < |inputs| <= STUDIO_QUANTITY_MAX && (batch || |inputs| == 1)
    requires StageFrom(desk, desk.planned.objects, inputs, []) == Ok([] + edits)
    requires ChangesOnly(catalog, edits)
    ensures var undo := PlanCommand(desk, undoId, inputs, batch);
            && undo.Ok?
            && var undone := ExecuteNew(store, tabId, catalog, false, undo.value, mint, stamp);
               && undone.commands[undoId].result.Saved?
               && undone.snapshot.objects == StagedAfter(desk, store.snapshot.objects, inputs)
  {
    UndoPlanned(desk, undoId, inputs, batch, edits);
    SingleEdit(batch, edits);
    var command := PlanCommand(desk, undoId, inputs, batch).value;
    SavedChanges(store, tabId, catalog, desk, inputs, batch, command, mint, stamp);
  }

  lemma {:induction false} SingleEdit(batch: bool, edits: seq<Edit>)
    requires edits != [] && (batch || |edits| == 1)
    ensures (if batch then Batch(edits) else Single(edits[0])).Edits() == edits
  {
  }

  /** A planned command that changes objects and neither creates nor removes any is saved as it was staged. */
  lemma {:induction false} SavedChanges(store: Store, tabId: Id, catalog: Catalog, desk: Desk, inputs: seq<EditInput>,
                                        batch: bool, command: Command, mint: Mint, stamp: string)
    requires ValidSnapshot(store.snapshot) && SameRoom(desk, store, tabId) && FreshMint(mint, store.snapshot.objects)
    requires forall p | p in catalog :: catalog[p].catalogId == p
    requires (batch || |inputs| == 1) && PlanCommand(desk, command.commandId, inputs, batch) == Ok(command)
    requires ChangesOnly(catalog, command.payload.Edits())
    ensures var saved := ExecuteNew(store, tabId, catalog, false, command, mint, stamp);
            && saved.commands[command.commandId].result.Saved?
            && saved.snapshot.objects == StagedAfter(desk, store.snapshot.objects, inputs)
  {
    PlannerAdapterBrokerAgree(desk, store, tabId, catalog, inputs, batch, command, mint, stamp);
    PlannedCommand(desk, inputs, batch, command);
    ExecutedAttempt(store, tabId, catalog, command, mint, stamp);
    ChangesKeepAll(store, catalog, command, mint, stamp);
  }

  lemma {:induction false} UndoPlanned(desk: Desk, undoId: Id, inputs: seq<EditInput>, batch: bool, edits: seq<Edit>)
    requires 0 < |inputs| <= STUDIO_QUANTITY_MAX && (batch || |inputs| == 1)
    requires StageFrom(desk, desk.planned.objects, inputs, []) == Ok([] + edits)
    requires forall i | 0 <= i < |edits| :: !edits[i].action.Creates()
    ensures |edits| == |inputs|
    ensures PlanCommand(desk, undoId, inputs, batch)
         == Ok(Command(undoId, desk.conversationId, desk.binding, desk.planned.revision,
                       if batch then Batch(edits) else Single(edits[0])))
  {
    PrependNone(edits);
    StagedLength(desk, desk.planned.objects, inputs, []);
    ChangesCount(edits);
    PlanStaged(desk, undoId, inputs, batch, edits);
  }

  lemma {:induction false} PlanStaged(desk: Desk, undoId: Id, inputs: seq<EditInput>, batch: bool, edits: seq<Edit>)
    requires 0 < |inputs| <= STUDIO_QUANTITY_MAX && (batch || |inputs| == 1) && |edits| == |inputs|
    requires StageFrom(desk, desk.planned.objects, inputs, []) == Ok(edits)
             && ExpandedCount(edits) <= STUDIO_QUANTITY_MAX
    ensures PlanCommand(desk, undoId, inputs, batch)
         == Ok(Command(undoId, desk.conversationId, desk.binding, desk.planned.revision,
                       if batch then Batch(edits) else Single(edits[0])))
  {
  }

  lemma {:induction false} StagedLength(desk: Desk, now: seq<Object>, inputs: seq<EditInput>, acc: seq<Edit>)
    requires StageFrom(desk, now, inputs, acc).Ok?
    ensures |StageFrom(desk, now, inputs, acc).value| == |acc| + |inputs|
    decreases |inputs|
  {
    if inputs != [] {
      var step := StageEdit(desk, now, inputs[0]).value;
      StagedLength(desk, step.1, inputs[1..], acc + [step.0]);
    }
  }

  /** An attempt that only changes objects leaves the objects that were there, all of them and no others. */
  lemma {:induction false} ChangesKeepAll(store: Store, catalog: Catalog, command: Command, mint: Mint, stamp: string)
    requires ValidSnapshot(store.snapshot) && ChangesOnly(catalog, command.payload.Edits())
    requires Attempt(store, catalog, false, command, mint, stamp).Ok?
    ensures var objects := Attempt(store, catalog, false, command, mint, stamp).value.0.objects;
            Restrict(objects, Ids(store.snapshot.objects)) == objects
  {
    var objects := Attempt(store, catalog, false, command, mint, stamp).value.0.objects;
    ChangesCreateNothing(catalog, mint, Staging(store.snapshot, 0), command.payload.Edits(), []);
    assert objects + [] == objects;
    RestrictAll(objects, [], Ids(store.snapshot.objects));
  }
}
