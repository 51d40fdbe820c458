/** The cart panel's option summary (components/Cart.tsx, `aggregatedOptions`): one pass over
    the cart lines that adds every line's drinks, sauces, desserts, pastas, fried sides and
    side dishes into per-name totals, and its addons into per-name quantity and price.
    Donenesses and multi-choice selections are not summarised. */
module CartSummary {
  import opened Basics
  import opened Dict
  import opened Types

  /** What the summary keeps for one addon name: the summed quantity and the price last seen. */
  datatype AddonSummary = AddonSummary(quantity: int, price: int)

  datatype Summary = Summary(
    drinks: seq<Entry<int>>,
    sauces: seq<Entry<int>>,
    desserts: seq<Entry<int>>,
    pastas: seq<Entry<int>>,
    components: seq<Entry<int>>,
    sideChoices: seq<Entry<int>>,
    addons: seq<Entry<AddonSummary>>)

  const EmptySummary := Summary([], [], [], [], [], [], [])

  /** The six per-name categories of the summary. */
  datatype Category = Drinks | Sauces | Desserts | Pastas | Components | Sides

  /** The part of a line's selection a category reads. */
  function Of(line: CartItem, c: Category): seq<Entry<int>>
  {
    match c
    case Drinks => line.selection.drinks
    case Sauces => line.selection.sauces
    case Desserts => line.selection.desserts
    case Pastas => line.selection.pastas
    case Components => line.selection.componentChoices
    case Sides => line.selection.sideChoices
  }

  /** The part of the summary a category fills. */
  function Field(s: Summary, c: Category): seq<Entry<int>>
  {
    match c
    case Drinks => s.drinks
    case Sauces => s.sauces
    case Desserts => s.desserts
    case Pastas => s.pastas
    case Components => s.components
    case Sides => s.sideChoices
  }

  /** `addons[a.name] = { quantity: (addons[a.name]?.quantity || 0) + a.quantity, price: a.price }`
      for each addon in turn. */
  function TallyAddons(acc: seq<Entry<AddonSummary>>, xs: seq<SelectedAddon>)
    : seq<Entry<AddonSummary>>
  {
    if xs == [] then acc
    else
      var before := TallyAddons(acc, xs[..|xs| - 1]);
      var a := xs[|xs| - 1];
      Put(before, a.name, AddonSummary(SummedSoFar(before, a.name) + a.quantity, a.price))
  }

  /** `addons[name]?.quantity || 0`. */
  function SummedSoFar(acc: seq<Entry<AddonSummary>>, name: string): int
  {
    match Find(acc, name)
    case Some(s) => s.quantity
    case None => 0
  }

  /** One turn of the loop: the line's categories and addons added into the summary. */
  function AddLine(s: Summary, line: CartItem): Summary
  {
    Summary(
      Tally(s.drinks, line.selection.drinks),
      Tally(s.sauces, line.selection.sauces),
      Tally(s.desserts, line.selection.desserts),
      Tally(s.pastas, line.selection.pastas),
      Tally(s.components, line.selection.componentChoices),
      Tally(s.sideChoices, line.selection.sideChoices),
      TallyAddons(s.addons, line.selection.addons))
  }

  /** The summary of the lines, taken in cart order. */
  function SummaryOf(lines: seq<CartItem>): Summary
  {
    if lines == [] then EmptySummary
    else AddLine(SummaryOf(lines[..|lines| - 1]), lines[|lines| - 1])
  }

  /** The quantities listed under `name` in category `c`, summed over all lines. */
  function LinesQty(lines: seq<CartItem>, c: Category, name: string): int
  {
    if lines == [] then 0
    else LinesQty(lines[..|lines| - 1], c, name) + QtyOf(Of(lines[|lines| - 1], c), name)
  }

  /** Every addon of every line, in cart order. */
  function AllAddons(lines: seq<CartItem>): seq<SelectedAddon>
  {
    if lines == [] then [] else AllAddons(lines[..|lines| - 1]) + lines[|lines| - 1].selection.addons
  }

  /** Whether some addon in the list has the name. */
  predicate Named(xs: seq<SelectedAddon>, name: string)
  {
    exists i :: 0 <= i < |xs| && xs[i].name == name
  }

  /** The quantities of the addons with the name, summed. */
  function NameQty(xs: seq<SelectedAddon>, name: string): int
  {
    if xs == [] then 0
    else NameQty(xs[..|xs| - 1], name) + (if xs[|xs| - 1].name == name then xs[|xs| - 1].quantity else 0)
  }

  /** The price of the last addon with the name. */
  function LastPrice(xs: seq<SelectedAddon>, name: string): int
  {
    if xs == [] then 0
    else if xs[|xs| - 1].name == name then xs[|xs| - 1].price
    else LastPrice(xs[..|xs| - 1], name)
  }

  // ---- The loop ----

  /** `addons.forEach(...)` over one line's addons. */
  method TallyAddonsInto(acc: seq<Entry<AddonSummary>>, xs: seq<SelectedAddon>)
    returns (r: seq<Entry<AddonSummary>>)
    ensures r == TallyAddons(acc, xs)
  {
    r := acc;
    var i := 0;
    while i < |xs|
      invariant 0 <= i <= |xs|
      invariant r == TallyAddons(acc, xs[..i])
    {
      assert xs[..i + 1][..i] == xs[..i];
      r := Put(r, xs[i].name, AddonSummary(SummedSoFar(r, xs[i].name) + xs[i].quantity, xs[i].price));
      i := i + 1;
    }
    assert xs[..|xs|] == xs;
  }

  /** `aggregatedOptions`: the dictionaries start empty and each line is added in turn. */
  method Aggregate(lines: seq<CartItem>) returns (s: Summary)
    ensures s == SummaryOf(lines)
  {
    s := EmptySummary;
    var i := 0;
    while i < |lines|
      invariant 0 <= i <= |lines|
      invariant s == SummaryOf(lines[..i])
    {
      var line := lines[i];
      var drinks := TallyInto(s.drinks, line.selection.drinks);
      var sauces := TallyInto(s.sauces, line.selection.sauces);
      var desserts := TallyInto(s.desserts, line.selection.desserts);
      var pastas := TallyInto(s.pastas, line.selection.pastas);
      var components := TallyInto(s.components, line.selection.componentChoices);
      var sides := TallyInto(s.sideChoices, line.selection.sideChoices);
      var addons := TallyAddonsInto(s.addons, line.selection.addons);
      assert lines[..i + 1][..i] == lines[..i];
      s := Summary(drinks, sauces, desserts, pastas, components, sides, addons);
      i := i + 1;
    }
    assert lines[..|lines|] == lines;
  }

  // ---- What the summary says ----

  lemma FieldAddLine(s: Summary, line: CartItem, c: Category)
    ensures Field(AddLine(s, line), c) == Tally(Field(s, c), Of(line, c))
  {
  }

  /** Each per-name total of the summary is that name's quantity summed over all lines. */
  lemma {:induction false} SummaryCounts(lines: seq<CartItem>, c: Category, name: string)
    ensures Count(Field(SummaryOf(lines), c), name) == LinesQty(lines, c, name)
    ensures DistinctKeys(Field(SummaryOf(lines), c))
  {
    if lines != [] {
      var init, last := lines[..|lines| - 1], lines[|lines| - 1];
      SummaryCounts(init, c, name);
      FieldAddLine(SummaryOf(init), last, c);
      CountTally(Field(SummaryOf(init), c), Of(last, c), name);
      TallyDistinct(Field(SummaryOf(init), c), Of(last, c));
    }
  }

  lemma {:induction false} NamedAppend(a: seq<SelectedAddon>, b: seq<SelectedAddon>, name: string)
    ensures Named(a + b, name) <==> Named(a, name) || Named(b, name)
  {
    if Named(a + b, name) {
      var i :| 0 <= i < |a + b| && (a + b)[i].name == name;
      if i >= |a| {
        assert b[i - |a|] == (a + b)[i];
      }
    }
    if Named(b, name) {
      var i :| 0 <= i < |b| && b[i].name == name;
      assert (a + b)[|a| + i] == b[i];
    }
    if Named(a, name) {
      var i :| 0 <= i < |a| && a[i].name == name;
      assert (a + b)[i] == a[i];
    }
  }

  lemma {:induction false} NamedSnoc(xs: seq<SelectedAddon>, name: string)
    requires xs != []
    ensures Named(xs, name) <==> Named(xs[..|xs| - 1], name) || xs[|xs| - 1].name == name
  {
    assert xs == xs[..|xs| - 1] + [xs[|xs| - 1]];
    NamedAppend(xs[..|xs| - 1], [xs[|xs| - 1]], name);
    assert [xs[|xs| - 1]][0] == xs[|xs| - 1];
  }

  /** Tallying addons: a name that never occurs keeps its old summary; a name that occurs
      has its quantities added and takes the price of its last occurrence. */
  lemma {:induction false} TallyAddonsSpec(acc: seq<Entry<AddonSummary>>, xs: seq<SelectedAddon>,
                                          name: string)
    ensures Find(TallyAddons(acc, xs), name) ==
              if Named(xs, name)
              then Some(AddonSummary(SummedSoFar(acc, name) + NameQty(xs, name), LastPrice(xs, name)))
              else Find(acc, name)
  {
    if xs != [] {
      var init, a := xs[..|xs| - 1], xs[|xs| - 1];
      var before := TallyAddons(acc, init);
      TallyAddonsSpec(acc, init, name);
      NamedSnoc(xs, name);
      FindPut(before, a.name, AddonSummary(SummedSoFar(before, a.name) + a.quantity, a.price), name);
      if a.name == name && !Named(init, name) {
        assert NameQty(init, name) == 0 by { NoNameNoQty(init, name); }
      }
    }
  }

  lemma {:induction false} NoNameNoQty(xs: seq<SelectedAddon>, name: string)
    requires !Named(xs, name)
    ensures NameQty(xs, name) == 0
  {
    if xs != [] {
      NamedSnoc(xs, name);
      NoNameNoQty(xs[..|xs| - 1], name);
    }
  }

  lemma {:induction false} NameQtyAppend(a: seq<SelectedAddon>, b: seq<SelectedAddon>, name: string)
    ensures NameQty(a + b, name) == NameQty(a, name) + NameQty(b, name)
  {
    if b == [] {
      assert a + b == a;
    } else {
      assert (a + b)[..|a + b| - 1] == a + b[..|b| - 1];
      NameQtyAppend(a, b[..|b| - 1], name);
    }
  }

  lemma {:induction false} LastPriceAppend(a: seq<SelectedAddon>, b: seq<SelectedAddon>, name: string)
    ensures LastPrice(a + b, name) == if Named(b, name) then LastPrice(b, name) else LastPrice(a, name)
  {
    if b == [] {
      assert a + b == a;
    } else {
      assert (a + b)[..|a + b| - 1] == a + b[..|b| - 1];
      LastPriceAppend(a, b[..|b| - 1], name);
      NamedSnoc(b, name);
    }
  }

  /** Each addon name's summary is its quantity summed over every line's addons, priced as the
      last addon of that name in cart order; names that no line orders are absent. Addons with
      the same name but different ids are therefore summarised together. */
  lemma {:induction false} SummaryAddons(lines: seq<CartItem>, name: string)
    ensures Find(SummaryOf(lines).addons, name) ==
              if Named(AllAddons(lines), name)
              then Some(AddonSummary(NameQty(AllAddons(lines), name), LastPrice(AllAddons(lines), name)))
              else None
  {
    if lines != [] {
      var init, last := lines[..|lines| - 1], lines[|lines| - 1];
      assert SummaryOf(lines).addons == TallyAddons(SummaryOf(init).addons, last.selection.addons);
      assert AllAddons(lines) == AllAddons(init) + last.selection.addons;
      SummaryAddons(init, name);
      TallyAfter(SummaryOf(init).addons, AllAddons(init), last.selection.addons, name);
    }
  }

  /** One line's addons tallied into a summary that already describes the earlier addons. */
  lemma TallyAfter(prev: seq<Entry<AddonSummary>>, before: seq<SelectedAddon>,
                   xs: seq<SelectedAddon>, name: string)
    requires Find(prev, name) ==
               if Named(before, name)
               then Some(AddonSummary(NameQty(before, name), LastPrice(before, name)))
               else None
    ensures Find(TallyAddons(prev, xs), name) ==
              if Named(before + xs, name)
              then Some(AddonSummary(NameQty(before + xs, name), LastPrice(before + xs, name)))
              else None
  {
    TallyAddonsSpec(prev, xs, name);
    NamedAppend(before, xs, name);
    NameQtyAppend(before, xs, name);
    LastPriceAppend(before, xs, name);
    if !Named(xs, name) {
      NoNameNoQty(xs, name);
    }
    if !Named(before, name) {
      NoNameNoQty(before, name);
    }
  }
}
