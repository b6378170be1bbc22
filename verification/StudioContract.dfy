/** The Studio vocabulary: packages/decorator-agent/src/services/studio.ts, and the room rules of
    scripts/studio-smoke/room.ts. Numbers are reals; a vector always has three finite parts here. */
module StudioContract {
  import opened Outcomes
  import opened WhiteSpace

  type Id = string

  const STUDIO_QUANTITY_MAX := 50

  datatype Vector3 = Vector3(x: real, y: real, z: real)
  datatype Transform = Transform(position: Vector3, rotation: Vector3, scale: Vector3)
  datatype Money = Money(amountMinor: int, currency: string)
  datatype Product = Product(catalogId: Id, price: Option<Money>)

  datatype Object = Object(id: Id, name: string, category: string, dimensions: Vector3,
                           position: Vector3, rotation: Vector3, scale: Vector3, product: Option<Product>)
  {
    function Placed(): Transform { Transform(position, rotation, scale) }

    function CatalogId(): Option<Id> { if product.Some? then Some(product.value.catalogId) else None }
  }

  datatype OpeningKind = Door | Window
  datatype Opening = Opening(id: Id, kind: OpeningKind, position: Vector3, dimensions: Vector3)
  datatype Point = Point(x: real, y: real)

  datatype Snapshot = Snapshot(designId: Id, revision: string, floor: seq<Point>, height: real, openings: seq<Opening>,
                               objects: seq<Object>, selected: seq<Id>, budget: Option<Money>)

  datatype Binding = Binding(designId: Id, tabId: Id)

  datatype Placement =
    | Absolute(position: Vector3, rotation: Option<Vector3>)
    | Relative(anchor: Id, offset: Option<Vector3>)

  datatype Kind = MoveKind | RotateKind | RemoveKind | ReplaceKind | AddKind | DuplicateKind

  datatype Action =
    | Move(position: Vector3)
    | Rotate(rotation: Vector3)
    | Remove
    | Replace(catalogId: Id, expectedCatalogId: Option<Id>)
    | Add(product: Id, quantity: int, placement: Option<Placement>)
    | Duplicate(source: Id, quantity: int, placement: Option<Placement>)
  {
    function Kind(): Kind
    {
      match this
      case Move(_) => MoveKind
      case Rotate(_) => RotateKind
      case Remove => RemoveKind
      case Replace(_, _) => ReplaceKind
      case Add(_, _, _) => AddKind
      case Duplicate(_, _, _) => DuplicateKind
    }

    predicate Creates() { Add? || Duplicate? }
  }

  /** A saved edit that an edit takes back. */
  datatype Reference = Reference(commandId: Id, editIndex: Option<nat>)

  datatype Edit = Edit(objectId: Option<Id>, action: Action, reverses: Option<Reference>)

  datatype Payload = Single(edit: Edit) | Batch(edits: seq<Edit>)
  {
    function Edits(): seq<Edit> { if Batch? then edits else [edit] }
  }

  datatype Command = Command(commandId: Id, conversationId: Id, binding: Binding, expectedRevision: string,
                             payload: Payload)

  datatype Created = Created(objectId: Id, transform: Transform)

  datatype EditResult =
    | Edited(before: Transform, after: Option<Transform>)
    | Instances(created: seq<Created>)

  datatype ErrorCode =
    | StudioUnavailable | WrongBinding | InvalidTarget | InvalidArguments
    | StaleRevision | SaveRejected | OutcomeUnknown | MutationBlocked

  datatype Evidence = BatchResults(results: seq<EditResult>) | SingleResult(result: EditResult)
  {
    function Results(): seq<EditResult> { if BatchResults? then results else [result] }
  }

  datatype CommandResult =
    | Saved(commandId: Id, evidence: Evidence, revision: string, snapshot: Snapshot)
    | Rejected(commandId: Id, code: ErrorCode)
    | Unknown(commandId: Id)

  /** How many operations an edit stands for: a create action counts once per instance. */
  function Quantity(action: Action): int
  {
    match action
    case Add(_, quantity, _) => quantity
    case Duplicate(_, quantity, _) => quantity
    case _ => 1
  }

  function ExpandedCount(edits: seq<Edit>): int
  {
    if edits == [] then 0 else ExpandedCount(edits[..|edits| - 1]) + Quantity(edits[|edits| - 1].action)
  }

  // ---- Collections of objects -------------------------------------------------------

  function Ids(objects: seq<Object>): set<Id>
  {
    set o | o in objects :: o.id
  }

  predicate UniqueIds(objects: seq<Object>)
  {
    forall i, j | 0 <= i < j < |objects| :: objects[i].id != objects[j].id
  }

  /** `objects.find`: the first object with this id. */
  function Find(objects: seq<Object>, id: Id): (r: Option<nat>)
    ensures r.Some? ==> r.value < |objects| && objects[r.value].id == id
    ensures r.None? <==> id !in Ids(objects)
  {
    if objects == [] then
      None
    else if objects[0].id == id then
      Some(0)
    else
      var r := Find(objects[1..], id);
      assert objects == [objects[0]] + objects[1..];
      if r.Some? then Some(r.value + 1) else None
  }

  /** `objects.filter` on the ids that are in `ids`. */
  function Restrict(objects: seq<Object>, ids: set<Id>): seq<Object>
  {
    if objects == [] then
      []
    else if objects[0].id in ids then
      [objects[0]] + Restrict(objects[1..], ids)
    else
      Restrict(objects[1..], ids)
  }

  /** `objects.filter` on the ids other than `id`. */
  function Without(objects: seq<Object>, id: Id): seq<Object>
  {
    if objects == [] then
      []
    else if objects[0].id == id then
      Without(objects[1..], id)
    else
      [objects[0]] + Without(objects[1..], id)
  }

  function WithoutId(ids: seq<Id>, id: Id): seq<Id>
  {
    if ids == [] then [] else (if ids[0] == id then [] else [ids[0]]) + WithoutId(ids[1..], id)
  }

  // ---- The rules a room must satisfy ------------------------------------------------

  predicate NonBlank(s: string)
  {
    exists i | 0 <= i < |s| :: !IsSpace(s[i])
  }

  predicate Positive(v: Vector3) { v.x > 0.0 && v.y > 0.0 && v.z > 0.0 }

  predicate YawOnly(v: Vector3) { v.x == 0.0 && v.y == 0.0 }

  predicate ValidMoney(m: Option<Money>)
  {
    m.Some? ==> NonBlank(m.value.currency) && m.value.amountMinor >= 0
  }

  predicate ValidObject(o: Object)
  {
    && NonBlank(o.id) && NonBlank(o.name) && NonBlank(o.category)
    && Positive(o.scale) && Positive(o.dimensions) && YawOnly(o.rotation)
    && (o.product.Some? ==> NonBlank(o.product.value.catalogId) && ValidMoney(o.product.value.price))
  }

  predicate ValidShell(s: Snapshot)
  {
    && NonBlank(s.designId) && s.height > 0.0 && |s.floor| >= 3
    && (forall i | 0 <= i < |s.openings| :: NonBlank(s.openings[i].id) && Positive(s.openings[i].dimensions))
    && (forall i, j | 0 <= i < j < |s.openings| :: s.openings[i].id != s.openings[j].id)
    && ValidMoney(s.budget)
  }

  predicate ValidObjects(objects: seq<Object>)
  {
    UniqueIds(objects) && forall i | 0 <= i < |objects| :: ValidObject(objects[i])
  }

  predicate ValidSelection(objects: seq<Object>, selected: seq<Id>)
  {
    && (forall i | 0 <= i < |selected| :: selected[i] in Ids(objects))
    && (forall i, j | 0 <= i < j < |selected| :: selected[i] != selected[j])
  }

  /** `validateSnapshot` accepts the room. */
  predicate ValidSnapshot(s: Snapshot)
  {
    ValidShell(s) && NonBlank(s.revision) && ValidObjects(s.objects) && ValidSelection(s.objects, s.selected)
  }
}
