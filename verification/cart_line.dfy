/** One cart line: its merge key and its price (`createCartItemObject`, App.tsx). */
module CartLine {
  import opened Basics
  import opened Dict
  import opened Sorting
  import opened Seqs
  import opened Text
  import opened Types

  function EntryKey(e: Entry<int>): string { e.key }

  /** The entries whose count is truthy and positive, in their original order. */
  function Positive(d: seq<Entry<int>>): seq<Entry<int>>
  {
    if |d| == 0 then []
    else if d[0].value > 0 then [d[0]] + Positive(d[1..])
    else Positive(d[1..])
  }

  /** `Positive` keeps exactly the entries with a positive count. */
  lemma {:induction false} PositiveMembers(d: seq<Entry<int>>)
    ensures forall e :: e in Positive(d) <==> e in d && e.value > 0
  {
    if |d| > 0 {
      PositiveMembers(d[1..]);
      assert d == [d[0]] + d[1..];
    }
  }

  /** `generateStableObjectString`: `''` for an empty mapping, otherwise the positive entries
      sorted by name (an all-zero mapping therefore gives the empty object `{}`). */
  function StableObjectString(d: seq<Entry<int>>): (r: Stable)
    ensures r == Blank <==> |d| == 0
  {
    if |d| == 0 then Blank else Object(SortBy(Positive(d), EntryKey))
  }

  /** A non-empty mapping is written as exactly its positive entries, in name order. */
  lemma StableContents(d: seq<Entry<int>>)
    requires |d| > 0
    ensures StableObjectString(d).Object?
    ensures SortedBy(StableObjectString(d).entries, EntryKey)
    ensures forall e :: e in StableObjectString(d).entries <==> e in d && e.value > 0
  {
    var p := Positive(d);
    var sorted := SortBy(p, EntryKey);
    PositiveMembers(d);
    SortBySpec(p, EntryKey);
    forall e ensures e in sorted <==> e in p {
      assert e in sorted <==> e in multiset(sorted);
      assert e in p <==> e in multiset(p);
    }
  }

  lemma {:induction false} PositiveMultiplicity(d: seq<Entry<int>>, e: Entry<int>)
    ensures multiset(Positive(d))[e] == if e.value > 0 then multiset(d)[e] else 0
  {
    if |d| > 0 {
      PositiveMultiplicity(d[1..], e);
      var h := if d[0].value > 0 then [d[0]] else [];
      assert Positive(d) == h + Positive(d[1..]);
      assert multiset(Positive(d)) == multiset(h) + multiset(Positive(d[1..]));
      assert d == [d[0]] + d[1..];
    }
  }

  lemma {:induction false} DistinctMultiplicity(d: seq<Entry<int>>, e: Entry<int>)
    requires DistinctKeys(d)
    ensures multiset(d)[e] == if e in d then 1 else 0
  {
    if |d| > 0 {
      DistinctMultiplicity(d[1..], e);
      assert d == [d[0]] + d[1..];
      if d[0] == e {
        if e in d[1..] {
          FindHasEntry(d[1..], e);
        }
      }
    }
  }

  /** For dictionaries without repeated names, two mappings serialise to the same key text
      exactly when both or neither are empty and they hold the same positive entries: the
      order in which the choices were clicked never matters, and zero counts are ignored. */
  lemma StableEqualIff(a: seq<Entry<int>>, b: seq<Entry<int>>)
    requires DistinctKeys(a) && DistinctKeys(b)
    ensures StableObjectString(a) == StableObjectString(b) <==>
              (|a| == 0 <==> |b| == 0) &&
              (forall e :: e in a && e.value > 0 <==> e in b && e.value > 0)
  {
    if StableObjectString(a) == StableObjectString(b) {
      StableAgreement(a, b);
    }
    if (|a| == 0 <==> |b| == 0) && (forall e :: e in a && e.value > 0 <==> e in b && e.value > 0) {
      if |a| > 0 {
        SamePositiveEntries(a, b);
      }
    }
  }

  lemma StableAgreement(a: seq<Entry<int>>, b: seq<Entry<int>>)
    requires StableObjectString(a) == StableObjectString(b)
    ensures |a| == 0 <==> |b| == 0
    ensures forall e :: e in a && e.value > 0 <==> e in b && e.value > 0
  {
    if |a| > 0 {
      var s := StableObjectString(a);
      StableContents(a);
      StableContents(b);
      forall e ensures e in a && e.value > 0 <==> e in b && e.value > 0 {
        assert e in s.entries <==> e in a && e.value > 0;
      }
    }
  }

  lemma SamePositiveEntries(a: seq<Entry<int>>, b: seq<Entry<int>>)
    requires DistinctKeys(a) && DistinctKeys(b)
    requires forall e :: e in a && e.value > 0 <==> e in b && e.value > 0
    ensures SortBy(Positive(a), EntryKey) == SortBy(Positive(b), EntryKey)
  {
    var pa, pb := Positive(a), Positive(b);
    forall e ensures multiset(pa)[e] == multiset(pb)[e] {
      PositiveMultiplicity(a, e);
      PositiveMultiplicity(b, e);
      DistinctMultiplicity(a, e);
      DistinctMultiplicity(b, e);
    }
    assert multiset(pa) == multiset(pb);
    PositiveMembers(a);
    forall x, y | x in pa && y in pa && EntryKey(x) == EntryKey(y) ensures x == y {
      DistinctKeyIdentifies(a, x, y);
    }
    SortIgnoresOrder(pa, pb, EntryKey);
  }

  /** A permutation of a mapping's entries, such as the one a different click order
      produces, gives the same key text. */
  lemma StableIgnoresOrder(a: seq<Entry<int>>, b: seq<Entry<int>>)
    requires DistinctKeys(a) && multiset(a) == multiset(b)
    ensures StableObjectString(a) == StableObjectString(b)
  {
    var pa, pb := Positive(a), Positive(b);
    forall e ensures multiset(pa)[e] == multiset(pb)[e] {
      PositiveMultiplicity(a, e);
      PositiveMultiplicity(b, e);
    }
    assert multiset(pa) == multiset(pb);
    assert |a| == |multiset(a)| == |multiset(b)| == |b|;
    PositiveMembers(a);
    forall x, y | x in pa && y in pa && EntryKey(x) == EntryKey(y) ensures x == y {
      DistinctKeyIdentifies(a, x, y);
    }
    SortIgnoresOrder(pa, pb, EntryKey);
  }

  // ---- The list categories of the key ----

  /** `${name}:${quantity}` for sauces, desserts and pastas. */
  function ChoiceToken(e: Entry<int>): string { e.key + ":" + IntToString(e.value) }

  /** `${id}:${quantity}` for addons: neither the addon's name nor its price is part of it. */
  function AddonToken(a: SelectedAddon): string { a.id + ":" + IntToString(a.quantity) }

  /** Sort the tokens and join them with commas. */
  function ListKey(tokens: seq<string>): string { Join(SortBy(tokens, Id), ",") }

  /** The key text of a list category is independent of the order of its tokens. */
  lemma ListKeyIgnoresOrder(a: seq<string>, b: seq<string>)
    requires multiset(a) == multiset(b)
    ensures ListKey(a) == ListKey(b)
  {
    SortIgnoresOrder(a, b, Id);
  }

  function ChoiceListKey(d: seq<Entry<int>>): string { ListKey(MapSeq(d, ChoiceToken)) }

  function AddonListKey(addons: seq<SelectedAddon>): string { ListKey(MapSeq(addons, AddonToken)) }

  /** A single-choice addon that is not selected is written `'none'`. */
  function SingleChoiceKey(chosen: string): string { if chosen == "" then "none" else chosen }

  /** The cart key of an item with a selection bundle, field by field in the source's order. */
  function KeyOf(item: MenuItem, b: Bundle): (k: CartKey)
    ensures k.id == item.id && k.notes == b.notes
  {
    CartKey(
      item.id,
      StableObjectString(b.donenesses),
      StableObjectString(b.drinks),
      StableObjectString(b.sideChoices),
      StableObjectString(b.multiChoice),
      StableObjectString(b.componentChoices),
      b.notes,
      AddonListKey(b.addons),
      ChoiceListKey(b.sauces),
      ChoiceListKey(b.desserts),
      ChoiceListKey(b.pastas),
      SingleChoiceKey(b.singleChoiceAddon))
  }

  /** Two bundles that record the same choices, each category possibly in another order. */
  predicate SameChoices(b1: Bundle, b2: Bundle)
  {
    && multiset(b1.donenesses) == multiset(b2.donenesses)
    && multiset(b1.drinks) == multiset(b2.drinks)
    && multiset(b1.sideChoices) == multiset(b2.sideChoices)
    && multiset(b1.multiChoice) == multiset(b2.multiChoice)
    && multiset(b1.componentChoices) == multiset(b2.componentChoices)
    && multiset(b1.sauces) == multiset(b2.sauces)
    && multiset(b1.desserts) == multiset(b2.desserts)
    && multiset(b1.pastas) == multiset(b2.pastas)
    && multiset(b1.addons) == multiset(b2.addons)
    && b1.singleChoiceAddon == b2.singleChoiceAddon
    && b1.notes == b2.notes
  }

  /** Each mapping category of the bundle names every choice at most once. */
  predicate WellFormedBundle(b: Bundle)
  {
    && DistinctKeys(b.donenesses)
    && DistinctKeys(b.drinks)
    && DistinctKeys(b.sideChoices)
    && DistinctKeys(b.multiChoice)
    && DistinctKeys(b.componentChoices)
  }

  /** The key never depends on the order in which the choices were made. */
  lemma KeyIgnoresOrder(item: MenuItem, b1: Bundle, b2: Bundle)
    requires WellFormedBundle(b1) && SameChoices(b1, b2)
    ensures KeyOf(item, b1) == KeyOf(item, b2)
  {
    StableIgnoresOrder(b1.donenesses, b2.donenesses);
    StableIgnoresOrder(b1.drinks, b2.drinks);
    StableIgnoresOrder(b1.sideChoices, b2.sideChoices);
    StableIgnoresOrder(b1.multiChoice, b2.multiChoice);
    StableIgnoresOrder(b1.componentChoices, b2.componentChoices);
    MapPermutation(b1.addons, b2.addons, AddonToken);
    ListKeyIgnoresOrder(MapSeq(b1.addons, AddonToken), MapSeq(b2.addons, AddonToken));
    MapPermutation(b1.sauces, b2.sauces, ChoiceToken);
    ListKeyIgnoresOrder(MapSeq(b1.sauces, ChoiceToken), MapSeq(b2.sauces, ChoiceToken));
    MapPermutation(b1.desserts, b2.desserts, ChoiceToken);
    ListKeyIgnoresOrder(MapSeq(b1.desserts, ChoiceToken), MapSeq(b2.desserts, ChoiceToken));
    MapPermutation(b1.pastas, b2.pastas, ChoiceToken);
    ListKeyIgnoresOrder(MapSeq(b1.pastas, ChoiceToken), MapSeq(b2.pastas, ChoiceToken));
  }

  /** No addon id and no sauce, dessert or pasta name contains a comma, the separator of
      the list categories' key text. */
  predicate CommaFreeNames(b: Bundle)
  {
    && (forall a :: a in b.addons ==> ',' !in a.id)
    && (forall e :: e in b.sauces ==> ',' !in e.key)
    && (forall e :: e in b.desserts ==> ',' !in e.key)
    && (forall e :: e in b.pastas ==> ',' !in e.key)
  }

  lemma IntToStringNoComma(i: int)
    ensures ',' !in IntToString(i)
  {
    assert !IsDigit(',');
  }

  lemma ChoiceTokensSeparable(d: seq<Entry<int>>)
    requires forall e :: e in d ==> ',' !in e.key
    ensures Separable(MapSeq(d, ChoiceToken), ',')
  {
    var ts := MapSeq(d, ChoiceToken);
    forall p | p in ts ensures p != [] && ',' !in p {
      var i :| 0 <= i < |ts| && ts[i] == p;
      assert d[i] in d;
      IntToStringNoComma(d[i].value);
      assert p == d[i].key + ":" + IntToString(d[i].value);
    }
  }

  lemma AddonTokensSeparable(addons: seq<SelectedAddon>)
    requires forall a :: a in addons ==> ',' !in a.id
    ensures Separable(MapSeq(addons, AddonToken), ',')
  {
    var ts := MapSeq(addons, AddonToken);
    forall p | p in ts ensures p != [] && ',' !in p {
      var i :| 0 <= i < |ts| && ts[i] == p;
      assert addons[i] in addons;
      IntToStringNoComma(addons[i].quantity);
      assert p == addons[i].id + ":" + IntToString(addons[i].quantity);
    }
  }

  /** Sorted and joined tokens without commas can be read back: equal key texts come from
      the same tokens, up to order. */
  lemma ListKeyInjective(a: seq<string>, b: seq<string>)
    requires Separable(a, ',') && Separable(b, ',')
    requires ListKey(a) == ListKey(b)
    ensures multiset(a) == multiset(b)
  {
    var sa, sb := SortBy(a, Id), SortBy(b, Id);
    SortBySpec(a, Id);
    SortBySpec(b, Id);
    forall p | p in sa ensures p != [] && ',' !in p {
      assert p in multiset(sa);
      assert p in multiset(a);
      assert p in a;
    }
    forall p | p in sb ensures p != [] && ',' !in p {
      assert p in multiset(sb);
      assert p in multiset(b);
      assert p in b;
    }
    JoinInjective(sa, sb, ',');
  }

  /** When no list name contains a comma, equal keys mean the same addon tokens (`id:quantity`)
      and the same sauce, dessert and pasta tokens (`name:quantity`), up to order. */
  lemma EqualKeysAgreeOnLists(item1: MenuItem, b1: Bundle, item2: MenuItem, b2: Bundle)
    requires KeyOf(item1, b1) == KeyOf(item2, b2)
    requires CommaFreeNames(b1) && CommaFreeNames(b2)
    ensures multiset(MapSeq(b1.addons, AddonToken)) == multiset(MapSeq(b2.addons, AddonToken))
    ensures multiset(MapSeq(b1.sauces, ChoiceToken)) == multiset(MapSeq(b2.sauces, ChoiceToken))
    ensures multiset(MapSeq(b1.desserts, ChoiceToken)) == multiset(MapSeq(b2.desserts, ChoiceToken))
    ensures multiset(MapSeq(b1.pastas, ChoiceToken)) == multiset(MapSeq(b2.pastas, ChoiceToken))
  {
    AddonTokensSeparable(b1.addons);
    AddonTokensSeparable(b2.addons);
    ListKeyInjective(MapSeq(b1.addons, AddonToken), MapSeq(b2.addons, AddonToken));
    ChoiceTokensSeparable(b1.sauces);
    ChoiceTokensSeparable(b2.sauces);
    ListKeyInjective(MapSeq(b1.sauces, ChoiceToken), MapSeq(b2.sauces, ChoiceToken));
    ChoiceTokensSeparable(b1.desserts);
    ChoiceTokensSeparable(b2.desserts);
    ListKeyInjective(MapSeq(b1.desserts, ChoiceToken), MapSeq(b2.desserts, ChoiceToken));
    ChoiceTokensSeparable(b1.pastas);
    ChoiceTokensSeparable(b2.pastas);
    ListKeyInjective(MapSeq(b1.pastas, ChoiceToken), MapSeq(b2.pastas, ChoiceToken));
  }

  /** A name with a comma in it can make two different sauce selections share a key: one
      sauce named `x:1,y` reads like the two sauces `x` and `y`, one of each. */
  lemma CommaNamesCollide()
    ensures var b1 := EmptyBundle.(sauces := [Entry("x:1,y", 1)]);
            var b2 := EmptyBundle.(sauces := [Entry("x", 1), Entry("y", 1)]);
            KeyOf(Set1, b1) == KeyOf(Set1, b2) && b1.sauces != b2.sauces
  {
    assert IntToString(1) == "1";
    var t1 := MapSeq([Entry("x:1,y", 1)], ChoiceToken);
    var t2 := MapSeq([Entry("x", 1), Entry("y", 1)], ChoiceToken);
    assert ChoiceToken(Entry("x:1,y", 1)) == "x:1,y" + ":" + "1" == "x:1,y:1";
    assert ChoiceToken(Entry("x", 1)) == "x" + ":" + "1" == "x:1";
    assert ChoiceToken(Entry("y", 1)) == "y" + ":" + "1" == "y:1";
    assert |t1| == 1 && t1[0] == "x:1,y:1";
    assert t1 == ["x:1,y:1"];
    assert |t2| == 2 && t2[0] == "x:1" && t2[1] == "y:1";
    assert t2 == ["x:1", "y:1"];
    assert SortBy(t1, Id) == ["x:1,y:1"];
    assert SortBy(["y:1"], Id) == ["y:1"];
    assert Leq("x:1", "y:1");
    assert SortBy(t2, Id) == ["x:1", "y:1"];
    assert Join(["x:1", "y:1"], ",") == "x:1,y:1";
  }

  /** Equal keys mean the same item, the same notes, the same single-choice addon (unless one
      of them is literally named `none`), category by category the same positive mapping
      entries and, when no list name contains a comma, the same addon, sauce, dessert and
      pasta tokens: selections that differ in any of these are never merged. */
  lemma EqualKeysAgree(item1: MenuItem, b1: Bundle, item2: MenuItem, b2: Bundle)
    requires WellFormedBundle(b1) && WellFormedBundle(b2)
    requires KeyOf(item1, b1) == KeyOf(item2, b2)
    ensures item1.id == item2.id && b1.notes == b2.notes
    ensures b1.singleChoiceAddon != "none" && b2.singleChoiceAddon != "none" ==>
              b1.singleChoiceAddon == b2.singleChoiceAddon
    ensures forall e :: e in b1.donenesses && e.value > 0 <==> e in b2.donenesses && e.value > 0
    ensures forall e :: e in b1.drinks && e.value > 0 <==> e in b2.drinks && e.value > 0
    ensures forall e :: e in b1.sideChoices && e.value > 0 <==> e in b2.sideChoices && e.value > 0
    ensures forall e :: e in b1.multiChoice && e.value > 0 <==> e in b2.multiChoice && e.value > 0
    ensures forall e :: e in b1.componentChoices && e.value > 0 <==>
                        e in b2.componentChoices && e.value > 0
    ensures CommaFreeNames(b1) && CommaFreeNames(b2) ==>
              multiset(MapSeq(b1.addons, AddonToken)) == multiset(MapSeq(b2.addons, AddonToken)) &&
              multiset(MapSeq(b1.sauces, ChoiceToken)) == multiset(MapSeq(b2.sauces, ChoiceToken)) &&
              multiset(MapSeq(b1.desserts, ChoiceToken)) == multiset(MapSeq(b2.desserts, ChoiceToken)) &&
              multiset(MapSeq(b1.pastas, ChoiceToken)) == multiset(MapSeq(b2.pastas, ChoiceToken))
  {
    if CommaFreeNames(b1) && CommaFreeNames(b2) {
      EqualKeysAgreeOnLists(item1, b1, item2, b2);
    }
    StableEqualIff(b1.donenesses, b2.donenesses);
    StableEqualIff(b1.drinks, b2.drinks);
    StableEqualIff(b1.sideChoices, b2.sideChoices);
    StableEqualIff(b1.multiChoice, b2.multiChoice);
    StableEqualIff(b1.componentChoices, b2.componentChoices);
  }

  // ---- Price ----

  /** The single-choice addon's price counts only when one is selected and the item
      defines a single-choice addon. */
  function SingleChoicePrice(item: MenuItem, chosen: string): (p: int)
    ensures p != 0 ==> chosen != "" && item.customizations.singleChoiceAddon.Some?
  {
    if chosen != "" && item.customizations.singleChoiceAddon.Some?
    then item.customizations.singleChoiceAddon.value.price
    else 0
  }

  /** Σ addon.price * addon.quantity. */
  function AddonsTotal(addons: seq<SelectedAddon>): int
  {
    if |addons| == 0 then 0 else addons[0].price * addons[0].quantity + AddonsTotal(addons[1..])
  }

  lemma {:induction false} AddonsTotalAppend(a: seq<SelectedAddon>, b: seq<SelectedAddon>)
    ensures AddonsTotal(a + b) == AddonsTotal(a) + AddonsTotal(b)
  {
    if |a| == 0 {
      assert a + b == b;
    } else {
      AddonsTotalAppend(a[1..], b);
      assert (a + b)[1..] == a[1..] + b;
    }
  }

  /** The addon total does not depend on the order of the addons. */
  lemma {:induction false} AddonsTotalIgnoresOrder(a: seq<SelectedAddon>, b: seq<SelectedAddon>)
    requires multiset(a) == multiset(b)
    ensures AddonsTotal(a) == AddonsTotal(b)
  {
    if |a| > 0 {
      var x := a[0];
      assert a == [x] + a[1..];
      assert x in multiset(b);
      var j :| 0 <= j < |b| && b[j] == x;
      var left, right := b[..j], b[j + 1..];
      RemoveAt(b, j);
      assert multiset(a[1..]) == multiset(left + right);
      AddonsTotalIgnoresOrder(a[1..], left + right);
      SplitTotal(b, j);
      AddonsTotalAppend(left, right);
    }
  }

  /** Taking one addon out of a list takes its cost out of the total. */
  lemma {:induction false} SplitTotal(b: seq<SelectedAddon>, j: nat)
    requires j < |b|
    ensures AddonsTotal(b) == AddonsTotal(b[..j]) + AddonsTotal([b[j]]) + AddonsTotal(b[j + 1..])
  {
    assert b == b[..j] + [b[j]] + b[j + 1..];
    AddonsTotalAppend(b[..j] + [b[j]], b[j + 1..]);
    AddonsTotalAppend(b[..j], [b[j]]);
  }

  /** The price of a line: unit price (item plus selected single-choice addon) times the
      quantity, plus the addons, which are charged once and not per unit. */
  function LinePrice(item: MenuItem, quantity: int, chosen: string, addons: seq<SelectedAddon>): int
  {
    (item.price + SingleChoicePrice(item, chosen)) * quantity + AddonsTotal(addons)
  }

  /** Each extra unit costs exactly the unit price; the addons are not multiplied. */
  lemma LinePriceLinear(item: MenuItem, q: int, chosen: string, addons: seq<SelectedAddon>)
    ensures LinePrice(item, q + 1, chosen, addons) - LinePrice(item, q, chosen, addons)
              == item.price + SingleChoicePrice(item, chosen)
    ensures LinePrice(item, 0, chosen, addons) == AddonsTotal(addons)
  {
  }

  /** A stored line's price agrees with the formula applied to its own item and selection. */
  predicate PriceConsistent(line: CartItem)
  {
    line.totalPrice ==
      LinePrice(line.item, line.quantity, line.selection.singleChoiceAddon, line.selection.addons)
  }

  /** A stored line's key is the key of its own item and selection. */
  predicate KeyConsistent(line: CartItem)
  {
    line.cartKey == KeyOf(line.item, line.selection)
  }

  /** `createCartItemObject` completed with a cartId: the line records the bundle, is keyed by
      it and is priced by the formula. */
  function NewLine(item: MenuItem, quantity: int, b: Bundle, categoryTitle: string, cartId: CartId)
    : (line: CartItem)
    ensures PriceConsistent(line) && KeyConsistent(line)
    ensures line.item == item && line.quantity == quantity && line.selection == b
    ensures line.categoryTitle == categoryTitle && line.cartId == cartId
  {
    CartItem(cartId, KeyOf(item, b), item, quantity, categoryTitle, b,
             LinePrice(item, quantity, b.singleChoiceAddon, b.addons))
  }

  // ---- Concrete values ----

  /** One set-1 (399) with nothing extra costs 399; with one soup and two fries 399 + 30 + 120. */
  lemma Set1Prices()
    ensures LinePrice(Set1, 1, "", []) == 399
    ensures LinePrice(Set1, 2, "", []) == 798
    ensures LinePrice(Set1, 2, "", [Sel(AddonSoup, 1), Sel(AddonFries, 2)]) == 798 + 150
  {
    var fries := [Sel(AddonFries, 2)];
    assert AddonsTotal(fries) == 120 by { assert fries[1..] == []; }
    var both := [Sel(AddonSoup, 1)] + fries;
    assert both[1..] == fries;
    assert both == [Sel(AddonSoup, 1), Sel(AddonFries, 2)];
  }

  function Sel(a: Addon, quantity: int): SelectedAddon
  {
    SelectedAddon(a.id, a.name, a.price, a.category, a.isAvailable, a.weight, quantity)
  }
}
