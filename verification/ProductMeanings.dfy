/** What a run of the product-ID reconciler does, told by the listed products and the
    stored status. */
module ProductMeanings {
  import opened Wrappers
  import opened ProductIds
  import opened ProductRuns
  import opened Selections

  /******* The lookups *******/

  // One listed product has the name.
  predicate OnlyNamed(w: World, i: nat, name: string) {
    i < |w.products| && w.products[i].name == name
    && forall j :: 0 <= j < |w.products| && j != i ==> w.products[j].name != name
  }

  predicate FirstNamed(w: World, i: nat, name: string) {
    i < |w.products| && w.products[i].name == name && forall j :: 0 <= j < i ==> w.products[j].name != name
  }

  lemma {:induction false} NamedSelected(products: seq<Product>, name: string)
    requires name != ""
    ensures Selects(products, Named(products, name), (x: Product) => x.name == name)
  {
    if |products| == 0 {
      SelectsNothing<Product>((x: Product) => x.name == name);
    } else {
      NamedSelected(products[1..], name);
      SelectsCons(products[1..], Named(products[1..], name), products[0], (x: Product) => x.name == name);
      assert products == [products[0]] + products[1..];
    }
  }

  lemma {:induction false} UnnamedProducts(products: seq<Product>)
    ensures Named(products, "") == []
  {
    if |products| > 0 { UnnamedProducts(products[1..]); }
  }

  lemma NoneNamed(w: World, items: seq<Product>, name: string)
    requires Selects(w.products, items, (x: Product) => x.name == name)
    ensures |items| == 0 <==> forall x :: x in w.products ==> x.name != name
  {
    forall x ensures x in items <==> x in w.products && x.name == name {
      SelectsMembers(w.products, items, (x: Product) => x.name == name, x);
    }
    assert |items| > 0 ==> items[0] in items;
  }

  // The first of the named products is the first of that name; there is one iff one has it.
  lemma NamedPlaces(w: World, name: string)
    requires name != ""
    ensures |Named(w.products, name)| == 0 <==> forall x :: x in w.products ==> x.name != name
    ensures |Named(w.products, name)| > 0 ==>
      exists i: nat ::
        && FirstNamed(w, i, name) && w.products[i] == Named(w.products, name)[0]
        && (|Named(w.products, name)| == 1 <==> OnlyNamed(w, i, name))
  {
    NamedSelected(w.products, name);
    NoneNamed(w, Named(w.products, name), name);
    if |Named(w.products, name)| > 0 {
      var i := FirstSelected(w.products, Named(w.products, name), (x: Product) => x.name == name);
      assert FirstNamed(w, i, name);
    }
  }

  /** The lookup by name finds a product iff it is the only listed one of that name and is not
      being deleted; it finds none iff no product has the name or the first one that has it
      is being deleted; anything else fails. */
  lemma LookupExactly(w: World, name: string, id: string)
    requires name !in w.listFails
    ensures ProductByName(w, name) == Found(id) <==>
      name != "" && exists i: nat :: OnlyNamed(w, i, name) && w.products[i] == Product(id, name, false)
    ensures ProductByName(w, name) == NotFound <==>
      || name == "" || (forall x :: x in w.products ==> x.name != name)
      || exists i: nat :: FirstNamed(w, i, name) && w.products[i].deleting
  {
    if name == "" {
      UnnamedProducts(w.products);
    } else {
      NamedPlaces(w, name);
      var items := Named(w.products, name);
      if |items| > 0 {
        var i: nat :| FirstNamed(w, i, name) && w.products[i] == items[0] && (|items| == 1 <==> OnlyNamed(w, i, name));
        assert forall j: nat :: FirstNamed(w, j, name) ==> j == i;
        assert forall j: nat :: OnlyNamed(w, j, name) ==> FirstNamed(w, j, name);
        assert w.products[i] in w.products;
      }
    }
  }

  // Some listed product has the ID, and the name or another one.
  predicate HasId(w: World, id: string) {
    exists x :: x in w.products && x.id == id
  }

  predicate IdHasOtherName(w: World, id: string, name: string) {
    exists x :: x in w.products && x.id == id && x.name != name
  }

  lemma {:induction false} IdUnknown(products: seq<Product>, id: string)
    ensures NameOfId(products, id).None? <==> forall x :: x in products ==> x.id != id
  {
    if |products| > 0 {
      assert products == [products[0]] + products[1..];
      IdUnknown(products[1..], id);
    }
  }

  /** A pinned ID is gone iff no listed product has it, and mismatched iff the product that
      has it has another name. */
  lemma CheckExactly(w: World, name: string, id: string)
    requires UniqueIds(w)
    ensures CheckId(w, name, id) == CheckFailed <==> id in w.getFails
    ensures id !in w.getFails ==> (CheckId(w, name, id) == Gone <==> !HasId(w, id))
    ensures id !in w.getFails ==> (CheckId(w, name, id) == Mismatch <==> IdHasOtherName(w, id, name))
  {
    IdUnknown(w.products, id);
    forall x | x in w.products && x.id == id ensures NameOfId(w.products, id) == Some(x.name) {
      IdGivesName(w.products, x);
    }
  }

  /******* Whole runs *******/

  // The base operator warns about the product in this way.
  predicate Warned(s: Status, p: string, typ: WarningType) {
    exists x :: x in s.warnings && x.origin == BaseOperator && x.id == p && x.typ == typ
  }

  lemma WarnedExactly(products: set<string>, w: World, s: Status, s': Status, o: Outcome, p: string, typ: WarningType)
    requires Sound(s) && Updates(products, w, s, s', o) && !o.failed
    ensures Warned(s', p, typ) <==>
      p in products && WarningFor(s.ids, w, p).Some? && WarningFor(s.ids, w, p).value.typ == typ
  {
    var expected := FreshWarnings(s.ids, products, w);
    FreshNames(s.ids, products, w);
    forall x | x in s'.warnings && x.origin == BaseOperator
      ensures x.id in expected && x == AsWarning(expected[x.id])
    {
      WarningsExact(products, w, s, s', o, x);
    }
    if p in expected {
      WarningsExact(products, w, s, s', o, AsWarning(expected[p]));
    }
  }

  /** After a successful run the base operator warns of a mismatch iff the name is referenced
      and pinned to the ID of a product of another name. */
  lemma MismatchWarned(products: set<string>, w: World, s: Status, s': Status, o: Outcome, p: string)
    requires Sound(s) && UniqueIds(w) && Updates(products, w, s, s', o) && !o.failed
    ensures Warned(s', p, ProductNotMatch) <==>
      p in products && p in s.ids && exists x :: x in w.products && x.id == s.ids[p] && x.name != p
  {
    WarnedExactly(products, w, s, s', o, p, ProductNotMatch);
    if p in products && p in s.ids {
      assert !Fails(s.ids, w, p);
      CheckExactly(w, p, s.ids[p]);
    }
  }

  /** It warns of a missing product iff the name is referenced and pinned to an ID that no
      product has, or is not pinned and cannot be found. */
  lemma MissingWarned(products: set<string>, w: World, s: Status, s': Status, o: Outcome, p: string)
    requires Sound(s) && UniqueIds(w) && Updates(products, w, s, s', o) && !o.failed
    ensures p in s.ids ==>
      (Warned(s', p, ProductNotFound) <==> p in products && forall x :: x in w.products ==> x.id != s.ids[p])
    ensures p !in s.ids ==>
      (Warned(s', p, ProductNotFound) <==>
        p in products
        && (p == "" || (forall x :: x in w.products ==> x.name != p)
            || exists i: nat :: FirstNamed(w, i, p) && w.products[i].deleting))
  {
    WarnedExactly(products, w, s, s', o, p, ProductNotFound);
    if p in products {
      assert !Fails(s.ids, w, p);
      if p in s.ids {
        CheckExactly(w, p, s.ids[p]);
      } else {
        assert p !in w.listFails;
        LookupExactly(w, p, "");
      }
    }
  }

  /** The text of each warning names what it is about, with the ID that is pinned now. */
  lemma WarningTexts(s: Status, x: Warning)
    requires Sound(s) && x in s.warnings && x.origin == BaseOperator
    ensures x.typ == ProductNotFound ==> x.message == "unable to find product " + x.id + " in the system"
    ensures x.typ == ProductNotMatch ==>
      x.id in s.ids && x.message == "product ID " + s.ids[x.id] + " does not match product name " + x.id
  {
    assert Truthful(s, x);
  }

  // The only listed product of this name is live and has this ID.
  ghost predicate LiveWithId(w: World, p: string, id: string) {
    p !in w.listFails && p != "" && exists i: nat :: OnlyNamed(w, i, p) && w.products[i] == Product(id, p, false)
  }

  /** After a successful run a name is pinned iff it is referenced and was pinned or has one
      live product; a pinned ID stays, and a new one is that product's. */
  lemma PinnedExactly(products: set<string>, w: World, s: Status, s': Status, o: Outcome, p: string, id: string)
    requires Updates(products, w, s, s', o) && !o.failed
    ensures p in s'.ids && s'.ids[p] == id <==>
      p in products && (if p in s.ids then s.ids[p] == id else LiveWithId(w, p, id))
  {
    if p in products {
      assert !Fails(s.ids, w, p);
      if p !in s.ids {
        assert p !in w.listFails;
        LookupExactly(w, p, id);
      }
    }
  }

  /** A run that fails takes nothing away and pins live products only. */
  lemma FailedRunPins(products: set<string>, w: World, s: Status, s': Status, o: Outcome, p: string)
    requires Updates(products, w, s, s', o) && o.failed
    ensures s'.warnings == s.warnings
    ensures p in s.ids ==> p in s'.ids && s'.ids[p] == s.ids[p]
    ensures p in s'.ids && p !in s.ids ==> p in products && LiveWithId(w, p, s'.ids[p])
  {
    if p in s'.ids && p !in s.ids {
      LookupExactly(w, p, s'.ids[p]);
    }
  }

  // Two products have the name, and the first of them is live.
  ghost predicate Ambiguous(w: World, p: string) {
    p != ""
    && exists i: nat, j: nat ::
      i < j < |w.products| && w.products[j].name == p && FirstNamed(w, i, p) && !w.products[i].deleting
  }

  /** A run fails iff a call it makes fails, or it looks for a name that several products
      have, the first of them live. */
  lemma FailsExactly(products: set<string>, w: World, s: Status, s': Status, o: Outcome)
    requires UniqueIds(w) && Updates(products, w, s, s', o)
    ensures o.failed <==>
      exists p :: p in products && if p in s.ids then s.ids[p] in w.getFails else p in w.listFails || Ambiguous(w, p)
  {
    forall p ensures Fails(s.ids, w, p) <==>
      (if p in s.ids then s.ids[p] in w.getFails else p in w.listFails || Ambiguous(w, p))
    {
      if p in s.ids {
        CheckExactly(w, p, s.ids[p]);
      } else if p !in w.listFails {
        AmbiguousFails(w, p);
      }
    }
  }

  lemma AmbiguousFails(w: World, p: string)
    requires p !in w.listFails
    ensures ProductByName(w, p).LookupFailed? <==> Ambiguous(w, p)
  {
    if p == "" {
      UnnamedProducts(w.products);
    } else {
      NamedPlaces(w, p);
      var items := Named(w.products, p);
      if |items| > 0 {
        var i: nat :| FirstNamed(w, i, p) && w.products[i] == items[0] && (|items| == 1 <==> OnlyNamed(w, i, p));
        assert forall k: nat :: FirstNamed(w, k, p) ==> k == i;
      } else {
        forall k: nat | k < |w.products| ensures w.products[k].name != p {
          assert w.products[k] in w.products;
        }
      }
    }
  }

  /******* The warnings of others *******/

  lemma {:induction false} OthersSelected(ws: seq<Warning>)
    ensures Selects(ws, FromOthers(ws), (x: Warning) => x.origin != BaseOperator)
    decreases |ws|
  {
    if |ws| == 0 {
      SelectsNothing<Warning>((x: Warning) => x.origin != BaseOperator);
    } else {
      var rest, last := ws[..|ws| - 1], ws[|ws| - 1];
      OthersSelected(rest);
      SelectsSnoc(rest, FromOthers(rest), last, (x: Warning) => x.origin != BaseOperator);
      assert ws == rest + [last];
    }
  }

  /** One list is what other operators have in the status before the run and after it: none
      of their warnings is lost, added, doubled or moved. */
  lemma OthersUntouched(products: set<string>, w: World, s: Status, s': Status, o: Outcome) returns (list: seq<Warning>)
    requires Updates(products, w, s, s', o)
    ensures Selects(s.warnings, list, (x: Warning) => x.origin != BaseOperator)
    ensures Selects(s'.warnings, list, (x: Warning) => x.origin != BaseOperator)
  {
    list := FromOthers(s.warnings);
    OthersKept(products, w, s, s', o);
    OthersSelected(s.warnings);
    OthersSelected(s'.warnings);
  }

  /** A run reports a change iff the status differs. */
  lemma ChangeReported(products: set<string>, w: World, s: Status, s': Status, o: Outcome)
    requires Updates(products, w, s, s', o)
    ensures o.changed <==> s' != s
  {
    if !o.failed {
      StoredMatches(products, w, s, s', o);
    }
  }
}
