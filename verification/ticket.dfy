/** The one-line kitchen ticket (components/PrintableOrder.tsx, `formatOrderByCategory`): main
    items merged by display name, then per-name counts of fried sides, drinks, sauces, extras
    and donenesses, between the order number and the order total, joined by '.'. */
module Ticket {
  import opened Basics
  import opened Dict
  import opened Text
  import opened Types

  // ---- Display names ----

  /** `name.replace(/半全餐|半套餐/g, '套餐')`: left to right, each occurrence of either
      pattern becomes 套餐 and the scan resumes after it. */
  function DisplayName(name: string): (r: string)
    ensures |r| <= |name|
  {
    if |name| >= 3 && (name[..3] == "半全餐" || name[..3] == "半套餐") then "套餐" + DisplayName(name[3..])
    else if name == [] then []
    else [name[0]] + DisplayName(name[1..])
  }

  /** Names that never mention 半 are printed as they are. */
  lemma {:induction false} DisplayNameKeeps(name: string)
    requires forall i :: 0 <= i < |name| ==> name[i] != '半'
    ensures DisplayName(name) == name
  {
    if name != [] {
      assert name[0] != '半';
      assert !(|name| >= 3 && (name[..3] == "半全餐" || name[..3] == "半套餐")) by {
        if |name| >= 3 {
          assert name[..3][0] == name[0];
        }
      }
      DisplayNameKeeps(name[1..]);
    }
  }

  /** The half-set names print as the set, and a name without those patterns is kept. */
  lemma DisplayNameExamples()
    ensures DisplayName("半全餐") == "套餐"
    ensures DisplayName("牛排半套餐") == "牛排套餐"
    ensures DisplayName("炸雞") == "炸雞"
  {
    assert "牛排半套餐"[..3] != "半全餐" && "牛排半套餐"[..3] != "半套餐";
    assert "牛排半套餐"[1..] == "排半套餐";
    assert "排半套餐"[..3] != "半全餐" && "排半套餐"[..3] != "半套餐";
    assert "排半套餐"[1..] == "半套餐";
    assert "半套餐"[3..] == [];
    assert "炸雞"[1..] == "雞";
  }

  // ---- Main items merged by display name ----

  /** The merged quantity and price printed for one display name. */
  datatype MainLine = MainLine(quantity: int, totalPrice: int)

  /** `mainItemsMap` after the lines seen so far: a name seen before adds to its entry, a new
      name is appended. */
  function MainItems(items: seq<CartItem>): seq<Entry<MainLine>>
  {
    if items == [] then []
    else
      var before := MainItems(items[..|items| - 1]);
      var line := items[|items| - 1];
      var name := DisplayName(line.item.name);
      Put(before, name, Merge(Find(before, name), line))
  }

  /** The entry for a name after one more line with that name. */
  function Merge(existing: Option<MainLine>, line: CartItem): MainLine
  {
    match existing
    case Some(m) => MainLine(m.quantity + line.quantity, m.totalPrice + line.totalPrice)
    case None => MainLine(line.quantity, line.totalPrice)
  }

  /** The display names of the lines, in order. */
  function DisplayNames(items: seq<CartItem>): (ns: seq<string>)
    ensures |ns| == |items|
  {
    if items == [] then [] else DisplayNames(items[..|items| - 1]) + [DisplayName(items[|items| - 1].item.name)]
  }

  /** Each name once, in order of first occurrence. */
  function FirstOccurrences(ns: seq<string>): seq<string>
  {
    if ns == [] then []
    else
      var before := FirstOccurrences(ns[..|ns| - 1]);
      if ns[|ns| - 1] in before then before else before + [ns[|ns| - 1]]
  }

  /** Quantity and price summed over the lines that print under the name. */
  function NameQuantity(items: seq<CartItem>, name: string): int
  {
    if items == [] then 0
    else NameQuantity(items[..|items| - 1], name) +
         (if DisplayName(items[|items| - 1].item.name) == name then items[|items| - 1].quantity else 0)
  }

  function NamePrice(items: seq<CartItem>, name: string): int
  {
    if items == [] then 0
    else NamePrice(items[..|items| - 1], name) +
         (if DisplayName(items[|items| - 1].item.name) == name then items[|items| - 1].totalPrice else 0)
  }

  /** The `forEach` that fills `mainItemsMap`. */
  method MergeMainItems(items: seq<CartItem>) returns (m: seq<Entry<MainLine>>)
    ensures m == MainItems(items)
  {
    m := [];
    var i := 0;
    while i < |items|
      invariant 0 <= i <= |items|
      invariant m == MainItems(items[..i])
    {
      assert items[..i + 1][..i] == items[..i];
      var name := DisplayName(items[i].item.name);
      var existing := Find(m, name);
      var merged := if existing.Some?
                    then MainLine(existing.value.quantity + items[i].quantity,
                                  existing.value.totalPrice + items[i].totalPrice)
                    else MainLine(items[i].quantity, items[i].totalPrice);
      m := Put(m, name, merged);
      i := i + 1;
    }
    assert items[..|items|] == items;
  }

  lemma {:induction false} FirstOccurrencesMembers(ns: seq<string>, n: string)
    ensures n in FirstOccurrences(ns) <==> n in ns
  {
    if ns != [] {
      FirstOccurrencesMembers(ns[..|ns| - 1], n);
      assert ns == ns[..|ns| - 1] + [ns[|ns| - 1]];
    }
  }

  /** Merged lines: one per display name, in order of first occurrence. */
  lemma {:induction false} MainItemsKeys(items: seq<CartItem>)
    ensures Keys(MainItems(items)) == FirstOccurrences(DisplayNames(items))
  {
    if items != [] {
      var init, line := items[..|items| - 1], items[|items| - 1];
      var before := MainItems(init);
      var n := DisplayName(line.item.name);
      MainItemsKeys(init);
      KeysPut(before, n, Merge(Find(before, n), line));
      FirstOccurrencesMembers(DisplayNames(init), n);
      var names := DisplayNames(items);
      assert names[..|names| - 1] == DisplayNames(init);
      assert names[|names| - 1] == n;
    }
  }

  /** Each merged line carries the quantities and prices of every line with that display
      name summed; names no line prints under are absent. */
  lemma {:induction false} MainItemsFind(items: seq<CartItem>, name: string)
    ensures Find(MainItems(items), name) ==
              if name in DisplayNames(items)
              then Some(MainLine(NameQuantity(items, name), NamePrice(items, name)))
              else None
  {
    if items != [] {
      var init, line := items[..|items| - 1], items[|items| - 1];
      var before := MainItems(init);
      var n := DisplayName(line.item.name);
      MainItemsFind(init, name);
      MainItemsFind(init, n);
      FindPut(before, n, Merge(Find(before, n), line), name);
      var names := DisplayNames(items);
      assert names[..|names| - 1] == DisplayNames(init);
      assert names[|names| - 1] == n;
      assert name in names <==> name in DisplayNames(init) || name == n;
      if name !in DisplayNames(init) {
        NoNameNoTotals(init, name);
      }
      if n !in DisplayNames(init) {
        NoNameNoTotals(init, n);
      }
    }
  }

  lemma {:induction false} NoNameNoTotals(items: seq<CartItem>, name: string)
    requires name !in DisplayNames(items)
    ensures NameQuantity(items, name) == 0 && NamePrice(items, name) == 0
  {
    if items != [] {
      var init := items[..|items| - 1];
      assert DisplayNames(items) == DisplayNames(init) + [DisplayName(items[|items| - 1].item.name)];
      NoNameNoTotals(init, name);
    }
  }

  // ---- Per-name category counts ----

  /** The 加購 label of an addon: its name, followed by its weight when it has one. */
  function AddonLabel(a: SelectedAddon): string
  {
    if a.weight != "" then a.name + a.weight else a.name
  }

  function AddonEntries(addons: seq<SelectedAddon>): seq<Entry<int>>
  {
    if addons == [] then [] else [Entry(AddonLabel(addons[0]), addons[0].quantity)] + AddonEntries(addons[1..])
  }

  /** What one line adds to 加購: each addon's quantity under its label, then the line's
      quantity under its single-choice addon, if one is selected. */
  function Extras(line: CartItem): seq<Entry<int>>
  {
    AddonEntries(line.selection.addons) +
    (if line.selection.singleChoiceAddon != "" then [Entry(line.selection.singleChoiceAddon, line.quantity)] else [])
  }

  /** The printed categories: 炸物, 飲料, 醬料, 加購 and 熟度. */
  datatype Section = Fried | Drinks | Sauces | Extra | Doneness

  datatype Tallies = Tallies(
    fried: seq<Entry<int>>,
    drinks: seq<Entry<int>>,
    sauces: seq<Entry<int>>,
    extras: seq<Entry<int>>,
    doneness: seq<Entry<int>>)

  /** What one line contributes to a section. */
  function Contribution(line: CartItem, s: Section): seq<Entry<int>>
  {
    match s
    case Fried => line.selection.componentChoices
    case Drinks => line.selection.drinks
    case Sauces => line.selection.sauces
    case Extra => Extras(line)
    case Doneness => line.selection.donenesses
  }

  function SectionOf(t: Tallies, s: Section): seq<Entry<int>>
  {
    match s
    case Fried => t.fried
    case Drinks => t.drinks
    case Sauces => t.sauces
    case Extra => t.extras
    case Doneness => t.doneness
  }

  /** The section maps after the lines seen so far. */
  function TalliesOf(items: seq<CartItem>): Tallies
  {
    if items == [] then Tallies([], [], [], [], [])
    else
      var t := TalliesOf(items[..|items| - 1]);
      var line := items[|items| - 1];
      Tallies(
        Tally(t.fried, Contribution(line, Fried)),
        Tally(t.drinks, Contribution(line, Drinks)),
        Tally(t.sauces, Contribution(line, Sauces)),
        Tally(t.extras, Contribution(line, Extra)),
        Tally(t.doneness, Contribution(line, Doneness)))
  }

  /** Quantities listed under `name` in a section, summed over the lines. */
  function SectionQty(items: seq<CartItem>, s: Section, name: string): int
  {
    if items == [] then 0
    else SectionQty(items[..|items| - 1], s, name) + QtyOf(Contribution(items[|items| - 1], s), name)
  }

  /** The second `forEach`, which fills the section maps line by line. */
  method CollectSections(items: seq<CartItem>) returns (t: Tallies)
    ensures t == TalliesOf(items)
  {
    t := Tallies([], [], [], [], []);
    var i := 0;
    while i < |items|
      invariant 0 <= i <= |items|
      invariant t == TalliesOf(items[..i])
    {
      assert items[..i + 1][..i] == items[..i];
      var line := items[i];
      var fried := TallyInto(t.fried, line.selection.componentChoices);
      var drinks := TallyInto(t.drinks, line.selection.drinks);
      var sauces := TallyInto(t.sauces, line.selection.sauces);
      var extras := TallyInto(t.extras, Extras(line));
      var doneness := TallyInto(t.doneness, line.selection.donenesses);
      t := Tallies(fried, drinks, sauces, extras, doneness);
      i := i + 1;
    }
    assert items[..|items|] == items;
  }

  /** Every section counts, per name, the quantities all lines list under that name. */
  lemma {:induction false} SectionCounts(items: seq<CartItem>, s: Section, name: string)
    ensures Count(SectionOf(TalliesOf(items), s), name) == SectionQty(items, s, name)
    ensures DistinctKeys(SectionOf(TalliesOf(items), s))
  {
    if items != [] {
      var init, line := items[..|items| - 1], items[|items| - 1];
      var before := SectionOf(TalliesOf(init), s);
      SectionCounts(init, s, name);
      assert SectionOf(TalliesOf(items), s) == Tally(before, Contribution(line, s));
      CountTally(before, Contribution(line, s), name);
      TallyDistinct(before, Contribution(line, s));
    }
  }

  /** The quantities of the addons whose label is `name`. */
  function LabelQty(addons: seq<SelectedAddon>, name: string): int
  {
    if addons == [] then 0
    else (if AddonLabel(addons[0]) == name then addons[0].quantity else 0) + LabelQty(addons[1..], name)
  }

  /** A line's 加購 contribution to a name: its addons with that label, plus the line's
      quantity when the name is the line's single-choice addon. */
  lemma ExtrasQty(line: CartItem, name: string)
    ensures QtyOf(Extras(line), name) ==
              LabelQty(line.selection.addons, name) +
              (if line.selection.singleChoiceAddon != "" && line.selection.singleChoiceAddon == name
               then line.quantity else 0)
  {
    QtyOfAppend(AddonEntries(line.selection.addons),
                if line.selection.singleChoiceAddon != "" then [Entry(line.selection.singleChoiceAddon, line.quantity)] else [],
                name);
    AddonEntriesQty(line.selection.addons, name);
  }

  lemma {:induction false} AddonEntriesQty(addons: seq<SelectedAddon>, name: string)
    ensures QtyOf(AddonEntries(addons), name) == LabelQty(addons, name)
  {
    if addons != [] {
      AddonEntriesQty(addons[1..], name);
    }
  }

  // ---- Formatting ----

  function CountTexts(m: seq<Entry<int>>): (r: seq<string>)
    ensures |r| == |m|
  {
    if m == [] then [] else [m[0].key + "x" + IntToString(m[0].value)] + CountTexts(m[1..])
  }

  /** `formatCategory`: nothing for an empty map, else `namexcount` per entry joined by '.'. */
  function FormatCategory(m: seq<Entry<int>>): string
  {
    if |m| == 0 then "" else Join(CountTexts(m), ".")
  }

  /** A category prints as nothing exactly when it is empty. */
  lemma FormatCategoryEmpty(m: seq<Entry<int>>)
    ensures FormatCategory(m) == "" <==> |m| == 0
  {
    if |m| > 0 {
      JoinFrame(CountTexts(m), ".");
      assert CountTexts(m)[0] == m[0].key + "x" + IntToString(m[0].value);
    }
  }

  function MainTexts(m: seq<Entry<MainLine>>): (r: seq<string>)
    ensures |r| == |m|
  {
    if m == [] then []
    else [m[0].key + "x" + IntToString(m[0].value.quantity) + "$" + IntToString(m[0].value.totalPrice)]
         + MainTexts(m[1..])
  }

  /** `parts.filter(part => part !== '')`. */
  function NonEmpty(parts: seq<string>): (r: seq<string>)
  {
    if parts == [] then []
    else (if parts[0] == "" then [] else [parts[0]]) + NonEmpty(parts[1..])
  }

  lemma {:induction false} NonEmptyAppend(a: seq<string>, b: seq<string>)
    ensures NonEmpty(a + b) == NonEmpty(a) + NonEmpty(b)
  {
    if a == [] {
      assert a + b == b;
    } else {
      assert (a + b)[0] == a[0] && (a + b)[1..] == a[1..] + b;
      NonEmptyAppend(a[1..], b);
    }
  }

  /** An order as printed: a stored order, which carries its own id, or order data, which is
      printed under the id passed alongside. */
  datatype Printable = Stored(order: Order) | Fresh(data: OrderData)

  function TicketId(p: Printable, orderId: string): string
  {
    match p
    case Stored(o) => o.id
    case Fresh(_) => orderId
  }

  function ItemsOf(p: Printable): seq<CartItem>
  {
    match p
    case Stored(o) => o.items
    case Fresh(d) => d.items
  }

  function TotalOf(p: Printable): int
  {
    match p
    case Stored(o) => o.totalPrice
    case Fresh(d) => d.totalPrice
  }

  function Header(p: Printable, orderId: string): string { "單號:" + TicketId(p, orderId) }

  function Footer(p: Printable): string { "總金額:$" + IntToString(TotalOf(p)) }

  /** The parts between the header and the footer, in the printed order. */
  function Body(items: seq<CartItem>): seq<string>
  {
    var t := TalliesOf(items);
    [Join(MainTexts(MainItems(items)), "."),
     FormatCategory(t.fried), FormatCategory(t.drinks), FormatCategory(t.sauces),
     FormatCategory(t.extras), FormatCategory(t.doneness)]
  }

  /** `formatOrderByCategory` as a value: the non-empty parts joined by '.'. */
  function TicketText(p: Printable, orderId: string): string
  {
    Join(NonEmpty([Header(p, orderId)] + Body(ItemsOf(p)) + [Footer(p)]), ".")
  }

  /** Between the order number and the order total the ticket holds exactly the non-empty
      body parts, in order. */
  lemma TicketParts(p: Printable, orderId: string)
    ensures TicketText(p, orderId) ==
              Join([Header(p, orderId)] + NonEmpty(Body(ItemsOf(p))) + [Footer(p)], ".")
  {
    KeepEnds(Header(p, orderId), Body(ItemsOf(p)), Footer(p));
  }

  /** The ticket always starts with `單號:<id>` and ends with `總金額:$<total>`. */
  lemma TicketFrame(p: Printable, orderId: string)
    ensures |Header(p, orderId)| <= |TicketText(p, orderId)|
    ensures TicketText(p, orderId)[..|Header(p, orderId)|] == Header(p, orderId)
    ensures |Footer(p)| <= |TicketText(p, orderId)|
    ensures TicketText(p, orderId)[|TicketText(p, orderId)| - |Footer(p)|..] == Footer(p)
  {
    FrameEnds(Header(p, orderId), Body(ItemsOf(p)), Footer(p), TicketText(p, orderId));
  }

  lemma FrameEnds(h: string, body: seq<string>, f: string, text: string)
    requires h != "" && f != ""
    requires text == Join(NonEmpty([h] + body + [f]), ".")
    ensures |h| <= |text| && text[..|h|] == h && |f| <= |text| && text[|text| - |f|..] == f
  {
    KeepEnds(h, body, f);
    JoinEnds(h, NonEmpty(body), f, text);
  }

  lemma KeepEnds(h: string, body: seq<string>, f: string)
    requires h != "" && f != ""
    ensures NonEmpty([h] + body + [f]) == [h] + NonEmpty(body) + [f]
  {
    NonEmptyAppend([h] + body, [f]);
    NonEmptyAppend([h], body);
    assert NonEmpty([h]) == [h];
    assert NonEmpty([f]) == [f];
  }

  lemma JoinEnds(h: string, mid: seq<string>, f: string, text: string)
    requires text == Join([h] + mid + [f], ".")
    ensures |h| <= |text| && text[..|h|] == h && |f| <= |text| && text[|text| - |f|..] == f
  {
    var parts := [h] + mid + [f];
    JoinFrame(parts, ".");
    assert parts[0] == h && parts[|parts| - 1] == f;
  }

  /** The printed ticket, built as the source builds it: the two loops, then the parts. */
  method FormatOrder(p: Printable, orderId: string) returns (text: string)
    ensures text == TicketText(p, orderId)
  {
    var items := ItemsOf(p);
    var main := MergeMainItems(items);
    var t := CollectSections(items);
    var body := [Join(MainTexts(main), "."),
                 FormatCategory(t.fried), FormatCategory(t.drinks), FormatCategory(t.sauces),
                 FormatCategory(t.extras), FormatCategory(t.doneness)];
    assert body == Body(items);
    text := Join(NonEmpty([Header(p, orderId)] + body + [Footer(p)]), ".");
  }
}
