/** How the base operator pins product names to product IDs in a cluster's status. */
module ProductIds {
  import opened Wrappers

  // A product resource: `id` is its resource name, `name` the name in its spec.
  datatype Product = Product(id: string, name: string, deleting: bool)

  /** The API server during one run: the stored products in listing order, and the
      names and IDs for which the List or Get call of this run fails. */
  datatype World = World(products: seq<Product>, listFails: set<string>, getFails: set<string>)

  predicate UniqueIds(w: World) {
    forall i, j :: 0 <= i < j < |w.products| ==> w.products[i].id != w.products[j].id
  }

  datatype Lookup = Found(id: string) | NotFound | LookupFailed

  datatype Check = Match | Gone | Mismatch | CheckFailed

  datatype WarningType = ProductNotFound | ProductNotMatch | OtherType(typ: string)

  datatype Origin = BaseOperator | Another(operator: string)

  datatype Warning = Warning(typ: WarningType, origin: Origin, id: string, message: string)

  /** The entry of the code's warningProducts map; `message` is absent for the entries
      read back from the stored warnings. */
  datatype WarningProduct = WarningProduct(name: string, typ: WarningType, message: Option<string>)

  type Warnings = map<string, WarningProduct>

  datatype Spec = Spec(
    reservedNamespacesAllowedProducts: map<string, seq<string>>,
    productAllowedClusterResources: set<string>)

  function NotFoundMessage(name: string): string {
    "unable to find product " + name + " in the system"
  }

  function NotMatchMessage(name: string, id: string): string {
    "product ID " + id + " does not match product name " + name
  }

  function NotFoundWarning(name: string): WarningProduct {
    WarningProduct(name, ProductNotFound, Some(NotFoundMessage(name)))
  }

  function NotMatchWarning(name: string, id: string): WarningProduct {
    WarningProduct(name, ProductNotMatch, Some(NotMatchMessage(name, id)))
  }

  // The product names the spec refers to.
  ghost function Referenced(spec: Spec): set<string> {
    (set ns, p | ns in spec.reservedNamespacesAllowedProducts && p in spec.reservedNamespacesAllowedProducts[ns] :: p)
    + spec.productAllowedClusterResources
  }

  /******* The two API calls *******/

  // What the index of products by name lists; it leaves out products without a name.
  function Named(products: seq<Product>, name: string): seq<Product> {
    if |products| == 0 then []
    else (if products[0].name == name && name != "" then [products[0]] else []) + Named(products[1..], name)
  }

  function Alive(products: seq<Product>): seq<Product> {
    if |products| == 0 then []
    else (if products[0].deleting then [] else [products[0]]) + Alive(products[1..])
  }

  // What getProductByName answers: the deletion filter looks at the first item only.
  function ProductByName(w: World, name: string): Lookup {
    var items := Named(w.products, name);
    if name in w.listFails then LookupFailed
    else if |items| == 0 || items[0].deleting then NotFound
    else if |items| == 1 then Found(items[0].id)
    else LookupFailed
  }

  // What it is meant to answer: the one product of that name that is not being deleted.
  function LiveProductByName(w: World, name: string): Lookup {
    var items := Alive(Named(w.products, name));
    if name in w.listFails then LookupFailed
    else if |items| == 0 then NotFound
    else if |items| == 1 then Found(items[0].id)
    else LookupFailed
  }

  function NameOfId(products: seq<Product>, id: string): Option<string> {
    if |products| == 0 then None
    else if products[0].id == id then Some(products[0].name)
    else NameOfId(products[1..], id)
  }

  // What checkProductIDIsMatch answers.
  function CheckId(w: World, name: string, id: string): Check {
    if id in w.getFails then CheckFailed
    else match NameOfId(w.products, id)
      case None => Gone
      case Some(n) => if n == name then Match else Mismatch
  }

  /******* What one run is to produce *******/

  // The run stops at this product with an error.
  predicate Fails(ids: map<string, string>, w: World, name: string) {
    if name in ids then CheckId(w, name, ids[name]).CheckFailed? else ProductByName(w, name).LookupFailed?
  }

  // The name is already pinned, or the system knows the product.
  predicate Known(ids: map<string, string>, w: World, name: string) {
    name in ids || ProductByName(w, name).Found?
  }

  function IdOf(ids: map<string, string>, w: World, name: string): string
    requires Known(ids, w, name)
  {
    if name in ids then ids[name] else ProductByName(w, name).id
  }

  function WarningFor(ids: map<string, string>, w: World, name: string): Option<WarningProduct> {
    if name in ids then
      match CheckId(w, name, ids[name])
      case Gone => Some(NotFoundWarning(name))
      case Mismatch => Some(NotMatchWarning(name, ids[name]))
      case _ => None
    else if ProductByName(w, name).NotFound? then Some(NotFoundWarning(name))
    else None
  }

  function Pinned(ids: map<string, string>, products: set<string>, w: World): map<string, string> {
    map p | p in products && Known(ids, w, p) :: IdOf(ids, w, p)
  }

  function FreshWarnings(ids: map<string, string>, products: set<string>, w: World): Warnings {
    map p | p in products && WarningFor(ids, w, p).Some? :: WarningFor(ids, w, p).value
  }

  predicate Same(a: Warnings, b: Warnings) {
    |a| == |b| && forall p :: p in a ==> p in b && a[p].name == b[p].name && a[p].typ == b[p].typ
  }

  // The base operator's stored warnings, by product; a later one replaces an earlier one.
  function Stored(warnings: seq<Warning>): Warnings {
    if |warnings| == 0 then map[]
    else
      var w := warnings[|warnings| - 1];
      var rest := Stored(warnings[..|warnings| - 1]);
      if w.origin == BaseOperator then rest[w.id := WarningProduct(w.id, w.typ, None)] else rest
  }

  function FromOthers(warnings: seq<Warning>): seq<Warning> {
    if |warnings| == 0 then []
    else
      var w := warnings[|warnings| - 1];
      FromOthers(warnings[..|warnings| - 1]) + (if w.origin == BaseOperator then [] else [w])
  }

  function AsWarning(p: WarningProduct): Warning {
    Warning(p.typ, BaseOperator, p.name, p.message.GetOr(""))
  }

  /** `list` holds one warning for each entry of `expected`, in some order. */
  ghost predicate Lists(list: seq<Warning>, expected: Warnings) {
    && (forall i, j :: 0 <= i < j < |list| ==> list[i].id != list[j].id)
    && (forall w :: w in list ==> w.id in expected && w == AsWarning(expected[w.id]))
    && (forall p :: p in expected ==> AsWarning(expected[p]) in list)
  }

  datatype Status = Status(ids: map<string, string>, warnings: seq<Warning>)

  datatype Outcome = Outcome(changed: bool, failed: bool)

  /** What one setProductsInfo may do to a status, for any order of iteration. */
  ghost predicate Updates(products: set<string>, w: World, s: Status, s': Status, o: Outcome) {
    var expected := FreshWarnings(s.ids, products, w);
    && (o.failed <==> exists p :: p in products && Fails(s.ids, w, p))
    && (o.failed ==>
          && s'.warnings == s.warnings
          && (forall p :: p in s.ids ==> p in s'.ids && s'.ids[p] == s.ids[p])
          && (forall p :: p in s'.ids && p !in s.ids ==> p in products && ProductByName(w, p) == Found(s'.ids[p]))
          && (o.changed <==> s'.ids != s.ids))
    && (!o.failed ==>
          && s'.ids == Pinned(s.ids, products, w)
          && (if Same(expected, Stored(s.warnings)) then s'.warnings == s.warnings
              else exists list :: Lists(list, expected) && s'.warnings == FromOthers(s.warnings) + list)
          && (o.changed <==> s'.ids != s.ids || !Same(expected, Stored(s.warnings))))
  }
}
