/** The Studio side: scripts/studio-smoke/adapter.ts. Commands are applied atomically to one saved
    document, with deduplication by command ID and optimistic revisions. */
module StudioAdapter {
  import opened Outcomes
  import opened WhiteSpace
  import opened StudioContract

  datatype CatalogFact = CatalogFact(catalogId: Id, name: string, category: string, dimensions: Vector3,
                                     price: Option<Money>)

  type Catalog = map<Id, CatalogFact>

  /** The k-th ID that `randomUUID` returns while one command is executed. */
  type Mint = nat -> Id

  datatype Recorded = Recorded(command: Command, result: CommandResult)

  datatype Store = Store(snapshot: Snapshot, commands: map<Id, Recorded>, saveCount: nat)

  // ---- Decimal revisions ------------------------------------------------------------

  predicate IsDigit(c: char) { '0' <= c <= '9' }

  predicate AllDigits(s: string) { forall i | 0 <= i < |s| :: IsDigit(s[i]) }

  /** `/^(0|[1-9][0-9]*)$/` */
  predicate IsDecimal(s: string)
  {
    |s| > 0 && AllDigits(s) && (s[0] == '0' ==> |s| == 1)
  }

  function DigitValue(c: char): nat
    requires IsDigit(c)
  {
    c as int - '0' as int
  }

  function DecimalValue(s: string): nat
    requires AllDigits(s)
  {
    if s == [] then 0 else DecimalValue(s[..|s| - 1]) * 10 + DigitValue(s[|s| - 1])
  }

  function Digit(d: nat): char
    requires d < 10
  {
    ('0' as int + d) as char
  }

  function Decimal(n: nat): (s: string)
    ensures IsDecimal(s) && DecimalValue(s) == n
    ensures n > 0 ==> s[0] != '0'
  {
    if n < 10 then
      [Digit(n)]
    else
      var s := Decimal(n / 10);
      var r := s + [Digit(n % 10)];
      assert r[..|r| - 1] == s;
      r
  }

  // ---- One edit ---------------------------------------------------------------------

  function AddVectors(origin: Vector3, offset: Vector3, scale: real): Vector3
  {
    Vector3(origin.x + offset.x * scale, origin.y + offset.y * scale, origin.z + offset.z * scale)
  }

  function Max(a: real, b: real): real { if a >= b then a else b }

  function CopyOffset(dimensions: Vector3): Vector3
  {
    Vector3(Max(dimensions.x * 0.35, 0.25), -Max(dimensions.y * 0.35, 0.25), 0.0)
  }

  function MinOf(s: seq<real>): real
    requires s != []
  {
    if |s| == 1 then s[0] else var m := MinOf(s[1..]); if s[0] <= m then s[0] else m
  }

  function MaxOf(s: seq<real>): real
    requires s != []
  {
    if |s| == 1 then s[0] else Max(s[0], MaxOf(s[1..]))
  }

  function RoomCenter(s: Snapshot): Vector3
    requires s.floor != []
  {
    var xs, ys := seq(|s.floor|, i requires 0 <= i < |s.floor| => s.floor[i].x),
      seq(|s.floor|, i requires 0 <= i < |s.floor| => s.floor[i].y);
    Vector3((MinOf(xs) + MaxOf(xs)) / 2.0, (MinOf(ys) + MaxOf(ys)) / 2.0, 0.0)
  }

  function ResolveOrigin(objects: seq<Object>, placement: Option<Placement>,
                         fallback: Vector3): Result<Vector3, ErrorCode>
  {
    match placement
    case None => Ok(fallback)
    case Some(Absolute(position, _)) => Ok(position)
    case Some(Relative(anchor, offset)) =>
      var at := Find(objects, anchor);
      if at.None? then
        Err(InvalidTarget)
      else
        var o := objects[at.value];
        Ok(AddVectors(o.position, if offset.Some? then offset.value else CopyOffset(o.dimensions), 1.0))
  }

  /** What one instance of a create action looks like, before it gets its ID and its place in the row. */
  datatype Pattern = Pattern(template: Object, origin: Vector3, step: Vector3)
  {
    function Instance(id: Id, index: nat): Object
    {
      template.(id := id, position := AddVectors(origin, step, index as real))
    }
  }

  function CreatePattern(catalog: Catalog, snapshot: Snapshot, action: Action): Result<Pattern, ErrorCode>
    requires action.Creates() && snapshot.floor != []
  {
    match action
    case Duplicate(sourceId, _, placement) =>
      var at := Find(snapshot.objects, sourceId);
      if at.None? then
        Err(InvalidTarget)
      else
        var source := snapshot.objects[at.value];
        var step := CopyOffset(source.dimensions);
        var origin := ResolveOrigin(snapshot.objects, placement, AddVectors(source.position, step, 1.0));
        if origin.Err? then Err(origin.error) else Ok(Pattern(source, origin.value, step))
    case Add(product, _, placement) =>
      if product !in catalog then
        Err(InvalidArguments)
      else
        var fact := catalog[product];
        var origin := ResolveOrigin(snapshot.objects, placement, RoomCenter(snapshot));
        if origin.Err? then
          Err(origin.error)
        else
          var rotation := if placement.Some? && placement.value.Absolute? && placement.value.rotation.Some?
                          then placement.value.rotation.value else Vector3(0.0, 0.0, 0.0);
          Ok(Pattern(Object("", fact.name, fact.category, fact.dimensions, origin.value, rotation,
                            Vector3(1.0, 1.0, 1.0), Some(Product(fact.catalogId, fact.price))),
                     origin.value, CopyOffset(fact.dimensions)))
  }

  /** The room in the middle of a command, and how many IDs were minted for it. */
  datatype Staging = Staging(snapshot: Snapshot, minted: nat)

  function CreatedObjects(pattern: Pattern, mint: Mint, minted: nat, quantity: nat): seq<Object>
  {
    seq(quantity, i requires 0 <= i < quantity => pattern.Instance(mint(minted + i), i))
  }

  function CreatedBy(objects: seq<Object>): seq<Created>
  {
    seq(|objects|, i requires 0 <= i < |objects| => Created(objects[i].id, objects[i].Placed()))
  }

  function CreateOn(catalog: Catalog, mint: Mint, st: Staging, action: Action): Result<(Staging, EditResult), ErrorCode>
    requires action.Creates() && st.snapshot.floor != []
  {
    var quantity := Quantity(action);
    if quantity < 1 || quantity > STUDIO_QUANTITY_MAX then
      Err(InvalidArguments)
    else
      var pattern := CreatePattern(catalog, st.snapshot, action);
      if pattern.Err? then
        Err(pattern.error)
      else
        var objects := CreatedObjects(pattern.value, mint, st.minted, quantity);
        Ok((Staging(st.snapshot.(objects := st.snapshot.objects + objects), st.minted + quantity),
            Instances(CreatedBy(objects))))
  }

  /** Move, rotate, replace and remove on the object at index `i`. */
  function ChangeOn(s: Snapshot, i: nat, action: Action): Result<Snapshot, ErrorCode>
    requires i < |s.objects| && !action.Creates()
  {
    var target := s.objects[i];
    match action
    case Move(position) => Ok(s.(objects := s.objects[i := target.(position := position)]))
    case Rotate(rotation) => Ok(s.(objects := s.objects[i := target.(rotation := rotation)]))
    case Replace(catalogId, expected) =>
      if target.CatalogId() != expected then
        Err(InvalidArguments)
      else
        Ok(s.(objects := s.objects[i := target.(product := Some(Product(catalogId, None)))]))
    case Remove =>
      Ok(s.(objects := Without(s.objects, target.id), selected := WithoutId(s.selected, target.id)))
  }

  function EditOn(st: Staging, edit: Edit): Result<(Staging, EditResult), ErrorCode>
    requires !edit.action.Creates()
  {
    var s := st.snapshot;
    var at := if edit.objectId.Some? then Find(s.objects, edit.objectId.value) else None;
    if at.None? then
      Err(InvalidTarget)
    else
      var changed := ChangeOn(s, at.value, edit.action);
      if changed.Err? then
        Err(changed.error)
      else
        var after := if edit.action.Remove? then None else Some(changed.value.objects[at.value].Placed());
        Ok((st.(snapshot := changed.value), Edited(s.objects[at.value].Placed(), after)))
  }

  /** Edits touch only the objects and the selection of a room. */
  predicate SameShell(a: Snapshot, b: Snapshot)
  {
    b == a.(objects := b.objects, selected := b.selected)
  }

  /** One edit and the validation that follows it. */
  function ApplyEdit(catalog: Catalog, mint: Mint, st: Staging, edit: Edit): (r: Result<(Staging, EditResult),
        ErrorCode>)
    requires st.snapshot.floor != []
    ensures r.Ok? ==> ValidSnapshot(r.value.0.snapshot) && SameShell(st.snapshot, r.value.0.snapshot)
  {
    var r := if edit.action.Creates() then CreateOn(catalog, mint, st, edit.action) else EditOn(st, edit);
    if r.Ok? && !ValidSnapshot(r.value.0.snapshot) then Err(InvalidArguments) else r
  }

  // ---- One command ------------------------------------------------------------------

  function ApplyFrom(catalog: Catalog, mint: Mint, st: Staging, edits: seq<Edit>, results: seq<EditResult>)
    : (r: Result<(Staging, seq<EditResult>), ErrorCode>)
    requires st.snapshot.floor != []
    ensures r.Ok? ==> SameShell(st.snapshot, r.value.0.snapshot) && |r.value.1| == |results| + |edits|
    ensures r.Ok? && ValidSnapshot(st.snapshot) ==> ValidSnapshot(r.value.0.snapshot)
    decreases |edits|
  {
    if edits == [] then
      Ok((st, results))
    else
      var step := ApplyEdit(catalog, mint, st, edits[0]);
      if step.Err? then
        Err(step.error)
      else
        ApplyFrom(catalog, mint, step.value.0, edits[1..], results + [step.value.1])
  }

  /** The revision after a save: numbers advance by the number of expanded edits, anything else is
      replaced by a name that no earlier save had. */
  function NextRevision(revision: string, count: nat, saveCount: nat, stamp: string): (r: string)
    ensures NonBlank(r)
  {
    if IsDecimal(revision) then
      var r := Decimal(DecimalValue(revision) + count);
      assert !IsSpace(r[0]);
      r
    else
      var r := "simulated:" + Decimal(saveCount) + ":" + stamp;
      assert !IsSpace(r[0]);
      r
  }

  /** The room after the edits, before it gets its revision, their results, and how many operations they are. */
  function Batched(store: Store, catalog: Catalog, failSave: bool, command: Command, mint: Mint)
    : (r: Result<(Snapshot, seq<EditResult>, nat), ErrorCode>)
    requires ValidSnapshot(store.snapshot)
    ensures r.Ok? ==> |r.value.1| > 0 && ValidSnapshot(r.value.0)
  {
    var edits := command.payload.Edits();
    var count := ExpandedCount(edits);
    if failSave then
      Err(SaveRejected)
    else if count < 1 || count > STUDIO_QUANTITY_MAX then
      Err(InvalidArguments)
    else
      match ApplyFrom(catalog, mint, Staging(store.snapshot, 0), edits, [])
      case Err(e) => Err(e)
      case Ok((staging, results)) =>
        assert edits != [];
        Ok((staging.snapshot, results, count))
  }

  /** What saving this command would leave, or why it is rejected. */
  function Attempt(store: Store, catalog: Catalog, failSave: bool, command: Command, mint: Mint, stamp: string)
    : (r: Result<(Snapshot, Evidence), ErrorCode>)
    requires ValidSnapshot(store.snapshot)
    ensures r.Ok? ==> ValidSnapshot(r.value.0)
  {
    match Batched(store, catalog, failSave, command, mint)
    case Err(e) => Err(e)
    case Ok((snapshot, results, count)) =>
      Ok((snapshot.(revision := NextRevision(snapshot.revision, count, store.saveCount + 1, stamp)),
          if command.payload.Batch? then BatchResults(results) else SingleResult(results[0])))
  }

  /** A command that was never executed before: the document it leaves and its recorded result. */
  function ExecuteNew(store: Store, tabId: Id, catalog: Catalog, failSave: bool, command: Command, mint: Mint,
                      stamp: string): Store
    requires ValidSnapshot(store.snapshot)
  {
    var id := command.commandId;
    var attempt: Result<(Snapshot, Evidence), ErrorCode> :=
      if command.binding != Binding(store.snapshot.designId, tabId) then
                     Err(WrongBinding)
                   else if command.expectedRevision != store.snapshot.revision then
                     Err(StaleRevision)
                   else
                     Attempt(store, catalog, failSave, command, mint, stamp);
    match attempt
    case Err(code) => store.(commands := store.commands[id := Recorded(command, Rejected(id, code))])
    case Ok((snapshot, evidence)) =>
      Store(snapshot, store.commands[id := Recorded(command, Saved(id, evidence, snapshot.revision, snapshot))],
            store.saveCount + 1)
  }

  // ---- Changes that are not commands ------------------------------------------------

  datatype TransformPatch = TransformPatch(position: Option<Vector3>, rotation: Option<Vector3>, scale: Option<Vector3>)
  {
    function On(o: Object): Object
    {
      o.(position := if position.Some? then position.value else o.position,
         rotation := if rotation.Some? then rotation.value else o.rotation,
         scale := if scale.Some? then scale.value else o.scale)
    }
  }

  function SelectOn(store: Store, ids: seq<Id>): Result<Store, AdapterError>
  {
    var snapshot := store.snapshot.(selected := ids);
    if ValidSnapshot(snapshot) then Ok(store.(snapshot := snapshot)) else Err(InvalidRoom)
  }

  function ManualEditOn(store: Store, objectId: Id, patch: TransformPatch, stamp: string): Result<Store, AdapterError>
  {
    var s := store.snapshot;
    var at := Find(s.objects, objectId);
    if at.None? then
      Err(MissingObject)
    else
      var snapshot := s.(objects := s.objects[at.value := patch.On(s.objects[at.value])],
                         revision := "simulated-manual:" + stamp);
      if ValidSnapshot(snapshot) then Ok(store.(snapshot := snapshot)) else Err(InvalidRoom)
  }

  // ---- The adapter ------------------------------------------------------------------

  datatype AdapterError = ReusedCommandId | WriteFailed | MissingObject | InvalidRoom

  class JsonStudioAdapter {
    const tabId: Id
    const catalog: Catalog
    var state: Store
    var failNextSave: bool

    ghost predicate Valid()
      reads this
    {
      ValidSnapshot(state.snapshot)
    }

    constructor (tabId: Id, initial: Snapshot, catalog: Catalog)
      requires ValidSnapshot(initial)
      ensures Valid() && state == Store(initial, map[], 0) && !failNextSave
      ensures this.tabId == tabId && this.catalog == catalog
    {
      this.tabId := tabId;
      this.catalog := catalog;
      state := Store(initial, map[], 0);
      failNextSave := false;
    }

    /** `writes` is false when writing the document fails: the failure is thrown and nothing changes. */
    method Execute(command: Command, mint: Mint, stamp: string, writes: bool)
      returns (r: Result<CommandResult, AdapterError>)
      requires Valid()
      modifies this
      ensures Valid()
      ensures command.commandId in old(state).commands ==>
                var previous := old(state).commands[command.commandId];
                && state == old(state) && failNextSave == old(failNextSave)
                && r == if previous.command == command then Ok(previous.result) else Err(ReusedCommandId)
      ensures command.commandId !in old(state).commands ==>
                var next := ExecuteNew(old(state), tabId, catalog, old(failNextSave), command, mint, stamp);
                if writes then state == next && r == Ok(next.commands[command.commandId].result)
                else state == old(state) && r == Err(WriteFailed)
    {
      if command.commandId in state.commands {
        var previous := state.commands[command.commandId];
        return if previous.command == command then Ok(previous.result) else Err(ReusedCommandId);
      }
      var id := command.commandId;
      var next := state;
      var result;
      if command.binding.designId != next.snapshot.designId || command.binding.tabId != tabId {
        result := Rejected(id, WrongBinding);
      } else if command.expectedRevision != next.snapshot.revision {
        result := Rejected(id, StaleRevision);
      } else {
        var failSave := failNextSave;
        failNextSave := false;
        var saved := ApplyBatch(command, mint, failSave);
        match saved {
          case Err(code) =>
            result := Rejected(id, code);
          case Ok((snapshot, results, count)) =>
            next := next.(saveCount := next.saveCount + 1);
            var revision := NextRevision(snapshot.revision, count, next.saveCount, stamp);
            next := next.(snapshot := snapshot.(revision := revision));
            var evidence := if command.payload.Batch? then BatchResults(results) else SingleResult(results[0]);
            result := Saved(id, evidence, revision, next.snapshot);
        }
      }
      next := next.(commands := next.commands[id := Recorded(command, result)]);
      if !writes {
        return Err(WriteFailed);
      }
      state := next;
      r := Ok(result);
    }

    /** The attempt to apply all edits in order on a copy of the room. */
    method ApplyBatch(command: Command, mint: Mint, failSave: bool)
      returns (r: Result<(Snapshot, seq<EditResult>, nat), ErrorCode>)
      requires Valid()
      ensures r == Batched(state, catalog, failSave, command, mint)
    {
      if failSave {
        return Err(SaveRejected);
      }
      var edits := command.payload.Edits();
      var count := CountEdits(edits);
      if count < 1 || count > STUDIO_QUANTITY_MAX {
        return Err(InvalidArguments);
      }
      var applied := ApplyEdits(edits, mint);
      if applied.Err? {
        return Err(applied.error);
      }
      r := Ok((applied.value.0.snapshot, applied.value.1, count));
    }

    method ApplyEdits(edits: seq<Edit>, mint: Mint) returns (r: Result<(Staging, seq<EditResult>), ErrorCode>)
      requires Valid()
      ensures r == ApplyFrom(catalog, mint, Staging(state.snapshot, 0), edits, [])
    {
      var staging, results := Staging(state.snapshot, 0), [];
      for i := 0 to |edits|
        invariant staging.snapshot.floor != []
        invariant ApplyFrom(catalog, mint, staging, edits[i..], results)
               == ApplyFrom(catalog, mint, Staging(state.snapshot, 0), edits, [])
      {
        assert edits[i..][0] == edits[i] && edits[i..][1..] == edits[i + 1..];
        var step := ApplyOne(staging, edits[i], mint);
        if step.Err? {
          return Err(step.error);
        }
        staging := step.value.0;
        results := results + [step.value.1];
      }
      r := Ok((staging, results));
    }

    static method CountEdits(edits: seq<Edit>) returns (count: int)
      ensures count == ExpandedCount(edits)
    {
      count := 0;
      for i := 0 to |edits|
        invariant count == ExpandedCount(edits[..i])
      {
        count := count + Quantity(edits[i].action);
        assert edits[..i + 1][..i] == edits[..i];
      }
      assert edits[..|edits|] == edits;
    }

    method ApplyOne(st: Staging, edit: Edit, mint: Mint) returns (r: Result<(Staging, EditResult), ErrorCode>)
      requires st.snapshot.floor != []
      ensures r == ApplyEdit(catalog, mint, st, edit)
    {
      if edit.action.Creates() {
        r := ApplyCreate(st, edit.action, mint);
      } else {
        r := EditOn(st, edit);
      }
      if r.Ok? && !ValidSnapshot(r.value.0.snapshot) {
        r := Err(InvalidArguments);
      }
    }

    method ApplyCreate(st: Staging, action: Action, mint: Mint) returns (r: Result<(Staging, EditResult), ErrorCode>)
      requires action.Creates() && st.snapshot.floor != []
      ensures r == CreateOn(catalog, mint, st, action)
    {
      var quantity := Quantity(action);
      if quantity < 1 || quantity > STUDIO_QUANTITY_MAX {
        return Err(InvalidArguments);
      }
      var pattern := CreatePattern(catalog, st.snapshot, action);
      if pattern.Err? {
        return Err(pattern.error);
      }
      var objects: seq<Object>, created: seq<Created> := [], [];
      var index := 0;
      while index < quantity
        invariant 0 <= index <= quantity
        invariant objects == CreatedObjects(pattern.value, mint, st.minted, index)
        invariant created == CreatedBy(objects)
      {
        var instance := pattern.value.Instance(mint(st.minted + index), index);
        objects := objects + [instance];
        created := created + [Created(instance.id, instance.Placed())];
        index := index + 1;
      }
      r := Ok((Staging(st.snapshot.(objects := st.snapshot.objects + objects), st.minted + quantity),
               Instances(created)));
    }

    method Select(ids: seq<Id>) returns (r: Result<(), AdapterError>)
      requires Valid()
      modifies this`state
      ensures Valid()
      ensures state == old(state).(snapshot := old(state).snapshot.(selected := state.snapshot.selected))
      ensures match SelectOn(old(state), ids)
              case Ok(next) => r.Ok? && state == next
              case Err(e) => r == Err(e) && state == old(state)
    {
      var snapshot := state.snapshot.(selected := ids);
      if !ValidSnapshot(snapshot) {
        return Err(InvalidRoom);
      }
      state := state.(snapshot := state.snapshot.(selected := ids));
      r := Ok(());
    }

    method ManualEdit(objectId: Id, patch: TransformPatch, stamp: string, writes: bool)
      returns (r: Result<(), AdapterError>)
      requires Valid()
      modifies this`state
      ensures Valid()
      ensures state.commands == old(state).commands && state.saveCount == old(state).saveCount
      ensures r.Ok? ==> state.snapshot.revision == "simulated-manual:" + stamp
                        && forall i | 0 <= i < |state.snapshot.objects| && state.snapshot.objects[i].id != objectId ::
                             i < |old(state).snapshot.objects|
                             && state.snapshot.objects[i] == old(state).snapshot.objects[i]
      ensures match ManualEditOn(old(state), objectId, patch, stamp)
              case Ok(next) => if writes then r.Ok? && state == next else r == Err(WriteFailed) && state == old(state)
              case Err(e) => r == Err(e) && state == old(state)
    {
      var next := state;
      var at := Find(next.snapshot.objects, objectId);
      if at.None? {
        return Err(MissingObject);
      }
      var objects := next.snapshot.objects;
      next := next.(snapshot := next.snapshot.(objects := objects[at.value := patch.On(objects[at.value])]));
      next := next.(snapshot := next.snapshot.(revision := "simulated-manual:" + stamp));
      if !ValidSnapshot(next.snapshot) {
        return Err(InvalidRoom);
      }
      if !writes {
        return Err(WriteFailed);
      }
      state := next;
      r := Ok(());
    }
  }
}
