/** The product updater of the base operator, working on a cluster's status in place. */
module ClusterUpdater {
  import opened Wrappers
  import opened ProductIds

  class Cluster {
    var productIDMap: map<string, string>
    var warnings: seq<Warning>

    function Snapshot(): Status
      reads this
    {
      Status(productIDMap, warnings)
    }

    constructor ()
      ensures Snapshot() == Status(map[], [])
    {
      productIDMap, warnings := map[], [];
    }

    method SetProductIDMap(spec: Spec, w: World) returns (isChanged: bool, found: Warnings, failed: bool)
      modifies this`productIDMap
      ensures failed <==> exists p :: p in Referenced(spec) && Fails(old(productIDMap), w, p)
      ensures !failed ==> productIDMap == Pinned(old(productIDMap), Referenced(spec), w)
      ensures !failed ==> found == FreshWarnings(old(productIDMap), Referenced(spec), w)
      ensures failed ==> Extends(old(productIDMap), productIDMap, Referenced(spec), w)
      ensures isChanged <==> productIDMap != old(productIDMap)
    {
      var products := CollectProducts(spec);
      var before := productIDMap;
      isChanged, found, failed := false, map[], false;
      var todo := products;
      while todo != {}
        invariant todo <= products
        invariant Progress(before, productIDMap, products - todo, w)
        invariant found == FreshWarnings(before, products - todo, w)
        invariant isChanged <==> productIDMap != before
      {
        var p :| p in todo;
        var rest := todo - {p};
        assert products - rest == (products - todo) + {p};
        ProgressAt(before, productIDMap, products - todo, w, p);
        FreshOneMore(before, products - todo, w, p);
        var added, warning, stop := SetProductID(p, w);
        if stop {
          return isChanged, found, true;
        }
        isChanged := isChanged || added;
        if warning.Some? {
          found := found[p := warning.value];
        }
        todo := rest;
      }
      assert products - {} == products;
      ProgressDone(before, productIDMap, products, w);
      isChanged := RemoveUnreferenced(products, isChanged, before, w);
    }

    // The body of the first loop: one referenced product.
    method SetProductID(p: string, w: World) returns (added: bool, warning: Option<WarningProduct>, failed: bool)
      modifies this`productIDMap
      ensures failed <==> Fails(old(productIDMap), w, p)
      ensures !failed ==> warning == WarningFor(old(productIDMap), w, p)
      ensures added <==> p !in old(productIDMap) && ProductByName(w, p).Found?
      ensures productIDMap == if added then old(productIDMap)[p := ProductByName(w, p).id] else old(productIDMap)
    {
      added, warning, failed := false, None, false;
      if p !in productIDMap {
        var product := GetProductByName(w, p);
        match product
        case LookupFailed => failed := true;
        case NotFound => warning := Some(NotFoundWarning(p));
        case Found(id) => productIDMap, added := productIDMap[p := id], true;
      } else {
        match CheckId(w, p, productIDMap[p])
        case CheckFailed => failed := true;
        case Match =>
        case Gone => warning := Some(NotFoundWarning(p));
        case Mismatch => warning := Some(NotMatchWarning(p, productIDMap[p]));
      }
    }

    // The second loop of setProductIDMap.
    method RemoveUnreferenced(products: set<string>, changed: bool, ghost before: map<string, string>, ghost w: World)
      returns (isChanged: bool)
      requires Extends(before, productIDMap, products, w)
      requires changed <==> productIDMap != before
      modifies this`productIDMap
      ensures productIDMap == map p | p in old(productIDMap) && p in products :: old(productIDMap)[p]
      ensures isChanged <==> productIDMap != before
    {
      isChanged := changed;
      var all := productIDMap;
      var todo := all.Keys;
      while todo != {}
        invariant todo <= all.Keys
        invariant productIDMap == map p | p in all && (p in products || p in todo) :: all[p]
        invariant isChanged <==> productIDMap != before
      {
        var p :| p in todo;
        todo := todo - {p};
        if p !in products {
          assert p in before;
          productIDMap := productIDMap - {p};
          isChanged := true;
        }
      }
    }

    // The first loop of setProductsInfo.
    method SplitWarnings() returns (oldWarnings: Warnings, others: seq<Warning>)
      ensures oldWarnings == Stored(warnings) && others == FromOthers(warnings)
    {
      oldWarnings, others := map[], [];
      for i := 0 to |warnings|
        invariant oldWarnings == Stored(warnings[..i]) && others == FromOthers(warnings[..i])
      {
        assert warnings[..i + 1][..i] == warnings[..i];
        if warnings[i].origin == BaseOperator {
          oldWarnings := oldWarnings[warnings[i].id := WarningProduct(warnings[i].id, warnings[i].typ, None)];
        } else {
          others := others + [warnings[i]];
        }
      }
      assert warnings[..|warnings|] == warnings;
    }

    method SetProductsInfo(spec: Spec, w: World) returns (isChanged: bool, failed: bool)
      modifies this
      ensures Updates(Referenced(spec), w, old(Snapshot()), Snapshot(), Outcome(isChanged, failed))
    {
      var oldWarnings, others := SplitWarnings();
      var found;
      isChanged, found, failed := SetProductIDMap(spec, w);
      if failed {
        return isChanged, true;
      }
      var same := IsSame(found, oldWarnings);
      if !same {
        var list := GetWarnings(found);
        warnings := others + list;
        isChanged := true;
      }
    }
  }

  // The map grew by products that were looked up, and by nothing else.
  ghost predicate Extends(before: map<string, string>, ids: map<string, string>, products: set<string>, w: World) {
    && (forall p :: p in before ==> p in ids && ids[p] == before[p])
    && (forall p :: p in ids && p !in before ==> p in products && ProductByName(w, p) == Found(ids[p]))
  }

  // The products in `done` are dealt with, and the run has not failed.
  ghost predicate Progress(before: map<string, string>, ids: map<string, string>, done: set<string>, w: World) {
    && Extends(before, ids, done, w)
    && (forall p :: p in done && Known(before, w, p) ==> p in ids)
    && (forall p :: p in done ==> !Fails(before, w, p))
  }

  // A product not yet dealt with stands as it did before the run.
  lemma ProgressAt(before: map<string, string>, ids: map<string, string>, done: set<string>, w: World, p: string)
    requires Progress(before, ids, done, w) && p !in done
    ensures Fails(ids, w, p) == Fails(before, w, p)
    ensures WarningFor(ids, w, p) == WarningFor(before, w, p)
    ensures !Fails(before, w, p) && p !in ids && ProductByName(w, p).Found? ==>
      Progress(before, ids[p := ProductByName(w, p).id], done + {p}, w)
    ensures !Fails(before, w, p) && (p in ids || !ProductByName(w, p).Found?) ==>
      Progress(before, ids, done + {p}, w)
  {
  }

  lemma FreshOneMore(before: map<string, string>, done: set<string>, w: World, p: string)
    ensures FreshWarnings(before, done + {p}, w) ==
      match WarningFor(before, w, p)
      case Some(warning) => FreshWarnings(before, done, w)[p := warning]
      case None => FreshWarnings(before, done, w)
  {
  }

  lemma ProgressDone(before: map<string, string>, ids: map<string, string>, products: set<string>, w: World)
    requires Progress(before, ids, products, w)
    ensures Extends(before, ids, products, w)
    ensures (map p | p in ids && p in products :: ids[p]) == Pinned(before, products, w)
  {
  }

  method CollectProducts(spec: Spec) returns (products: set<string>)
    ensures products == Referenced(spec)
    ensures forall p :: p in products <==>
      || p in spec.productAllowedClusterResources
      || exists ns :: ns in spec.reservedNamespacesAllowedProducts && p in spec.reservedNamespacesAllowedProducts[ns]
  {
    products := {};
    var reserved := spec.reservedNamespacesAllowedProducts;
    var todo := reserved.Keys;
    while todo != {}
      invariant todo <= reserved.Keys
      invariant products == set ns, p | ns in reserved.Keys - todo && p in reserved[ns] :: p
    {
      var ns :| ns in todo;
      ghost var before := products;
      for i := 0 to |reserved[ns]|
        invariant products == before + set p | p in reserved[ns][..i]
      {
        products := products + {reserved[ns][i]};
      }
      assert reserved[ns][..|reserved[ns]|] == reserved[ns];
      todo := todo - {ns};
    }
    products := products + spec.productAllowedClusterResources;
  }

  method IsSame(a: Warnings, b: Warnings) returns (same: bool)
    ensures same <==> Same(a, b)
  {
    if |a| != |b| {
      return false;
    }
    var todo := a.Keys;
    while todo != {}
      invariant todo <= a.Keys
      invariant forall p :: p in a.Keys - todo ==> p in b && a[p].name == b[p].name && a[p].typ == b[p].typ
    {
      var p :| p in todo;
      if p !in b || a[p].name != b[p].name || a[p].typ != b[p].typ {
        return false;
      }
      todo := todo - {p};
    }
    return true;
  }

  method GetWarnings(found: Warnings) returns (list: seq<Warning>)
    requires forall p :: p in found ==> found[p].name == p
    ensures Lists(list, found)
  {
    list := [];
    var todo := found.Keys;
    while todo != {}
      invariant todo <= found.Keys
      invariant forall i, j :: 0 <= i < j < |list| ==> list[i].id != list[j].id
      invariant forall w :: w in list ==> w.id in found.Keys - todo && w == AsWarning(found[w.id])
      invariant forall p :: p in found.Keys - todo ==> AsWarning(found[p]) in list
    {
      var p :| p in todo;
      list := list + [AsWarning(found[p])];
      todo := todo - {p};
    }
  }

  method GetProductByName(w: World, name: string) returns (r: Lookup)
    ensures r == ProductByName(w, name)
  {
    if name in w.listFails {
      return LookupFailed;
    }
    var items := Named(w.products, name);
    var products: seq<Product> := [];
    for i := 0 to |items|
      invariant products == if |items| > 0 && items[0].deleting then [] else items[..i]
    {
      if items[0].deleting {
        continue;
      }
      products := products + [items[i]];
    }
    match |products|
    case 0 => return NotFound;
    case 1 => return Found(products[0].id);
    case _ => return LookupFailed;
  }
}
