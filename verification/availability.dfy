/** The administrator's availability screen: three dictionaries of "is it on sale" flags
    (menu items by id, addons by id, and one dictionary per option list keyed by option
    name), the copy derived from the last load that they are compared against, and the
    toggles that edit them. */
module Availability {
  import opened Basics
  import opened Dict
  import opened Types

  /** `Object.fromEntries(pairs)`: the pairs are written in order, so a repeated key keeps
      the position of its first occurrence and the value of its last. */
  function FromEntries<V>(pairs: seq<Entry<V>>): seq<Entry<V>>
  {
    if pairs == [] then []
    else Put(FromEntries(pairs[..|pairs| - 1]), pairs[|pairs| - 1].key, pairs[|pairs| - 1].value)
  }

  /** The value of the last pair with key `k`, an independent reading of "the last write wins". */
  function LastValue<V>(pairs: seq<Entry<V>>, k: string): Option<V>
  {
    if pairs == [] then None
    else if pairs[|pairs| - 1].key == k then Some(pairs[|pairs| - 1].value)
    else LastValue(pairs[..|pairs| - 1], k)
  }

  /** Looking a key up in `Object.fromEntries(pairs)` gives the last value written for it,
      and the result never repeats a key. */
  lemma {:induction false} FromEntriesFind<V>(pairs: seq<Entry<V>>, k: string)
    ensures Find(FromEntries(pairs), k) == LastValue(pairs, k)
    ensures DistinctKeys(FromEntries(pairs))
  {
    if pairs != [] {
      var init := pairs[..|pairs| - 1];
      FromEntriesFind(init, k);
      FindPut(FromEntries(init), pairs[|pairs| - 1].key, pairs[|pairs| - 1].value, k);
      DistinctPut(FromEntries(init), pairs[|pairs| - 1].key, pairs[|pairs| - 1].value);
    }
  }

  /** `LastValue` finds a value exactly when some pair carries `k`, ... */
  lemma {:induction false} LastValueSome<V>(pairs: seq<Entry<V>>, k: string)
    ensures LastValue(pairs, k).Some? <==> exists i :: 0 <= i < |pairs| && pairs[i].key == k
  {
    if pairs != [] {
      var n := |pairs| - 1;
      var init := pairs[..n];
      LastValueSome(init, k);
      if pairs[n].key != k && exists i :: 0 <= i < |pairs| && pairs[i].key == k {
        var i :| 0 <= i < |pairs| && pairs[i].key == k;
        assert init[i].key == k;
      }
    }
  }

  /** ... and the value it finds is that of a pair carrying `k` that no later pair overrides. */
  lemma {:induction false} LastValueLast<V>(pairs: seq<Entry<V>>, k: string)
    requires LastValue(pairs, k).Some?
    ensures exists i ::
      0 <= i < |pairs| && pairs[i] == Entry(k, LastValue(pairs, k).value) &&
      forall j :: i < j < |pairs| ==> pairs[j].key != k
  {
    var n := |pairs| - 1;
    var init := pairs[..n];
    if pairs[n].key == k {
      assert pairs[n] == Entry(k, LastValue(pairs, k).value);
    } else {
      LastValueLast(init, k);
      var i :| 0 <= i < |init| && init[i] == Entry(k, LastValue(init, k).value) &&
        forall j :: i < j < |init| ==> init[j].key != k;
      assert pairs[i] == Entry(k, LastValue(pairs, k).value);
      forall j | i < j < |pairs| ensures pairs[j].key != k {
        if j < n {
          assert pairs[j] == init[j];
        }
      }
    }
  }

  /** `xs.map(x => [key(x), flag(x)])`: one pair per element, in order. */
  function Pairs<T>(xs: seq<T>, key: T -> string, flag: T -> bool): (r: seq<Entry<bool>>)
    ensures |r| == |xs|
    ensures forall i :: 0 <= i < |xs| ==> r[i] == Entry(key(xs[i]), flag(xs[i]))
  {
    if xs == [] then []
    else Pairs(xs[..|xs| - 1], key, flag) + [Entry(key(xs[|xs| - 1]), flag(xs[|xs| - 1]))]
  }

  function ItemId(x: MenuItem): string { x.id }
  function ItemAvailable(x: MenuItem): bool { x.isAvailable }
  function AddonId(x: Addon): string { x.id }
  function AddonAvailable(x: Addon): bool { x.isAvailable }
  function ChoiceName(x: Choice): string { x.name }
  function ChoiceAvailable(x: Choice): bool { x.isAvailable }

  /** `[item.id, item.isAvailable]` for each item of one category. */
  function ItemPairs(items: seq<MenuItem>): seq<Entry<bool>>
  {
    Pairs(items, ItemId, ItemAvailable)
  }

  /** `[addon.id, addon.isAvailable]` for each addon. */
  function AddonPairs(addons: seq<Addon>): seq<Entry<bool>>
  {
    Pairs(addons, AddonId, AddonAvailable)
  }

  /** `[opt.name, opt.isAvailable]` for each choice of an option list. */
  function ChoicePairs(choices: seq<Choice>): seq<Entry<bool>>
  {
    Pairs(choices, ChoiceName, ChoiceAvailable)
  }

  /** `menu.flatMap(cat => cat.items.map(...))`: the pairs of every category, in order. */
  function MenuPairs(menu: seq<MenuCategory>): seq<Entry<bool>>
  {
    if menu == [] then []
    else MenuPairs(menu[..|menu| - 1]) + ItemPairs(menu[|menu| - 1].items)
  }

  /** Every item of every category contributes its own pair. */
  lemma {:induction false} MenuPairsMembers(menu: seq<MenuCategory>, c: int, i: int)
    requires 0 <= c < |menu| && 0 <= i < |menu[c].items|
    ensures Entry(menu[c].items[i].id, menu[c].items[i].isAvailable) in MenuPairs(menu)
  {
    var n := |menu| - 1;
    if c < n {
      MenuPairsMembers(menu[..n], c, i);
    } else {
      assert ItemPairs(menu[n].items)[i] == Entry(menu[c].items[i].id, menu[c].items[i].isAvailable);
    }
  }

  /** ... and every pair comes from some item. */
  lemma {:induction false} MenuPairsFrom(menu: seq<MenuCategory>, e: Entry<bool>)
    requires e in MenuPairs(menu)
    ensures exists c, i ::
      0 <= c < |menu| && 0 <= i < |menu[c].items| &&
      e == Entry(menu[c].items[i].id, menu[c].items[i].isAvailable)
  {
    var n := |menu| - 1;
    if e in MenuPairs(menu[..n]) {
      MenuPairsFrom(menu[..n], e);
      var c, i :| 0 <= c < |menu[..n]| && 0 <= i < |menu[..n][c].items| &&
        e == Entry(menu[..n][c].items[i].id, menu[..n][c].items[i].isAvailable);
      assert menu[..n][c] == menu[c];
    } else {
      var ps := ItemPairs(menu[n].items);
      assert e in ps;
      var i :| 0 <= i < |ps| && ps[i] == e;
      assert e == Entry(menu[n].items[i].id, menu[n].items[i].isAvailable);
    }
  }

  /** The option lists, by their key in `OptionsData`. */
  datatype Group = Sauces | DessertsA | DessertsB | PastasA | PastasB | ColdNoodles | SimpleMeals

  function GroupName(g: Group): string
  {
    match g
    case Sauces => "sauces"
    case DessertsA => "dessertsA"
    case DessertsB => "dessertsB"
    case PastasA => "pastasA"
    case PastasB => "pastasB"
    case ColdNoodles => "coldNoodles"
    case SimpleMeals => "simpleMeals"
  }

  /** The list stored under a group; `simpleMeals` is the one list that may be missing. */
  function GroupList(o: OptionsData, g: Group): Option<seq<Choice>>
  {
    match g
    case Sauces => Some(o.sauces)
    case DessertsA => Some(o.dessertsA)
    case DessertsB => Some(o.dessertsB)
    case PastasA => Some(o.pastasA)
    case PastasB => Some(o.pastasB)
    case ColdNoodles => Some(o.coldNoodles)
    case SimpleMeals => o.simpleMeals
  }

  /** One list's name-to-flag dictionary. */
  function ListAvailability(choices: seq<Choice>): seq<Entry<bool>>
  {
    FromEntries(ChoicePairs(choices))
  }

  /** The keys of `OptionsData` in their declared order. */
  const Declared: seq<Group> := [Sauces, DessertsA, DessertsB, PastasA, PastasB, ColdNoodles, SimpleMeals]

  /** `Object.entries(options)` mapped to `[key, list dictionary]`: one pair per list the
      catalogue holds, in the order of `groups`. */
  function PairsOf(o: OptionsData, groups: seq<Group>): seq<Entry<seq<Entry<bool>>>>
  {
    if groups == [] then []
    else
      var g := groups[|groups| - 1];
      PairsOf(o, groups[..|groups| - 1]) +
      (if GroupList(o, g).Some? then [Entry(GroupName(g), ListAvailability(GroupList(o, g).value))] else [])
  }

  lemma GroupNameInjective(g: Group, h: Group)
    ensures GroupName(g) == GroupName(h) ==> g == h
  {
  }

  lemma {:induction false} LastValueAppend<V>(a: seq<Entry<V>>, b: seq<Entry<V>>, k: string)
    ensures LastValue(a + b, k) == if LastValue(b, k).Some? then LastValue(b, k) else LastValue(a, k)
  {
    if b != [] {
      var n := |b| - 1;
      assert (a + b)[..|a + b| - 1] == a + b[..n];
      LastValueAppend(a, b[..n], k);
    } else {
      assert a + b == a;
    }
  }

  /** The pair for a list is there exactly when the list is one of `groups` and the
      catalogue holds it. */
  lemma {:induction false} PairsOfFind(o: OptionsData, groups: seq<Group>, g: Group)
    ensures LastValue(PairsOf(o, groups), GroupName(g)) ==
      if g in groups && GroupList(o, g).Some? then Some(ListAvailability(GroupList(o, g).value)) else None
  {
    if groups != [] {
      var n := |groups| - 1;
      var h, init := groups[n], groups[..n];
      var prev := PairsOf(o, init);
      var tail := if GroupList(o, h).Some? then [Entry(GroupName(h), ListAvailability(GroupList(o, h).value))] else [];
      assert PairsOf(o, groups) == prev + tail;
      PairsOfFind(o, init, g);
      LastValueAppend(prev, tail, GroupName(g));
      GroupNameInjective(g, h);
      assert groups == init + [h];
      assert g in groups <==> g in init || g == h;
      if tail != [] {
        assert tail[..0] == [];
        assert LastValue(tail, GroupName(g)) == if g == h then Some(tail[0].value) else None;
      }
    }
  }

  /** Every list dictionary is free of repeated names. */
  lemma ListDistinct(choices: seq<Choice>)
    ensures DistinctKeys(ListAvailability(choices))
  {
    FromEntriesFind(ChoicePairs(choices), "");
  }

  lemma {:induction false} PairsOfDistinctValues(o: OptionsData, groups: seq<Group>, e: Entry<seq<Entry<bool>>>)
    requires e in PairsOf(o, groups)
    ensures DistinctKeys(e.value)
  {
    var n := |groups| - 1;
    var h := groups[n];
    if e in PairsOf(o, groups[..n]) {
      PairsOfDistinctValues(o, groups[..n], e);
    } else {
      ListDistinct(GroupList(o, h).value);
    }
  }

  /** The three dictionaries of flags (the `availability` state). */
  datatype Flags = Flags(
    menu: seq<Entry<bool>>,
    addons: seq<Entry<bool>>,
    options: seq<Entry<seq<Entry<bool>>>>)

  const NoFlags := Flags([], [], [])

  /** The flags a load derives from the catalogue; no options yet gives no option lists. */
  function Derive(menu: seq<MenuCategory>, addons: seq<Addon>, options: Option<OptionsData>): Flags
  {
    Flags(
      FromEntries(MenuPairs(menu)),
      FromEntries(AddonPairs(addons)),
      if options.Some? then FromEntries(PairsOf(options.value, Declared)) else [])
  }

  /** No dictionary repeats a key. */
  predicate WellFormed(a: Flags)
  {
    DistinctKeys(a.menu) && DistinctKeys(a.addons) && DistinctKeys(a.options) &&
    forall e :: e in a.options ==> DistinctKeys(e.value)
  }

  /** The menu flags give each item id the `isAvailable` of the last item carrying that id
      (of the item itself when ids are unique), and no flag for an id no item carries. */
  lemma DeriveMenu(menu: seq<MenuCategory>, addons: seq<Addon>, options: Option<OptionsData>, id: string)
    ensures Find(Derive(menu, addons, options).menu, id) == LastValue(MenuPairs(menu), id)
    ensures Find(Derive(menu, addons, options).menu, id).Some? <==>
      exists c, i :: 0 <= c < |menu| && 0 <= i < |menu[c].items| && menu[c].items[i].id == id
  {
    var ps := MenuPairs(menu);
    FromEntriesFind(ps, id);
    LastValueSome(ps, id);
    if exists c, i :: 0 <= c < |menu| && 0 <= i < |menu[c].items| && menu[c].items[i].id == id {
      var c, i :| 0 <= c < |menu| && 0 <= i < |menu[c].items| && menu[c].items[i].id == id;
      MenuPairsMembers(menu, c, i);
      var e := Entry(menu[c].items[i].id, menu[c].items[i].isAvailable);
      var j :| 0 <= j < |ps| && ps[j] == e;
      assert ps[j].key == id;
    }
    if LastValue(ps, id).Some? {
      var j :| 0 <= j < |ps| && ps[j].key == id;
      assert ps[j] in ps;
      MenuPairsFrom(menu, ps[j]);
    }
  }

  /** The addon flags give each addon id the `isAvailable` of the last addon carrying it. */
  lemma DeriveAddons(menu: seq<MenuCategory>, addons: seq<Addon>, options: Option<OptionsData>, id: string)
    ensures Find(Derive(menu, addons, options).addons, id) == LastValue(AddonPairs(addons), id)
    ensures Find(Derive(menu, addons, options).addons, id).Some? <==>
      exists i :: 0 <= i < |addons| && addons[i].id == id
  {
    var ps := AddonPairs(addons);
    FromEntriesFind(ps, id);
    LastValueSome(ps, id);
    if exists i :: 0 <= i < |addons| && addons[i].id == id {
      var i :| 0 <= i < |addons| && addons[i].id == id;
      assert ps[i].key == id;
    }
  }

  /** Each option list present in the catalogue gets its own name-to-flag dictionary, in
      which every name maps to the `isAvailable` of the last option with that name. */
  lemma DeriveOptions(menu: seq<MenuCategory>, addons: seq<Addon>, o: OptionsData, g: Group, name: string)
    ensures Find(Derive(menu, addons, Some(o)).options, GroupName(g)) ==
      if GroupList(o, g).Some? then Some(ListAvailability(GroupList(o, g).value)) else None
    ensures GroupList(o, g).Some? ==>
      Find(ListAvailability(GroupList(o, g).value), name) == LastValue(ChoicePairs(GroupList(o, g).value), name)
  {
    FromEntriesFind(PairsOf(o, Declared), GroupName(g));
    PairsOfFind(o, Declared, g);
    if GroupList(o, g).Some? {
      FromEntriesFind(ChoicePairs(GroupList(o, g).value), name);
    }
  }

  /** Every derived dictionary is free of repeated keys. */
  lemma DeriveWellFormed(menu: seq<MenuCategory>, addons: seq<Addon>, options: Option<OptionsData>)
    ensures WellFormed(Derive(menu, addons, options))
  {
    FromEntriesFind(MenuPairs(menu), "");
    FromEntriesFind(AddonPairs(addons), "");
    if options.Some? {
      var gs := PairsOf(options.value, Declared);
      FromEntriesFind(gs, "");
      forall e | e in FromEntries(gs)
        ensures DistinctKeys(e.value)
      {
        FromEntriesValues(gs, e);
        PairsOfDistinctValues(options.value, Declared, e);
      }
    }
  }

  /** Every entry of `Object.fromEntries(pairs)` was one of the pairs. */
  lemma {:induction false} FromEntriesValues<V>(pairs: seq<Entry<V>>, e: Entry<V>)
    requires e in FromEntries(pairs)
    ensures e in pairs
  {
    var n := |pairs| - 1;
    var init := pairs[..n];
    var d := FromEntries(init);
    if HasKey(d, pairs[n].key) {
      SetAllMembers(d, pairs[n].key, pairs[n].value, e);
      if e in d {
        FromEntriesValues(init, e);
      }
    } else if e in d {
      FromEntriesValues(init, e);
    }
  }

  /** What a toggle targets (`type`). */
  datatype Target = Menu | Addons | Options

  /** `handleToggle` on the flags: a menu or addons toggle writes `[type][id]`; an options
      toggle writes `options[optionType][id]`, creating the list if it was missing; an options
      toggle without a list leaves the flags alone. */
  function Toggled(a: Flags, target: Target, id: string, status: bool, optionType: Option<Group>): Flags
  {
    match target
    case Menu => a.(menu := Put(a.menu, id, status))
    case Addons => a.(addons := Put(a.addons, id, status))
    case Options =>
      if optionType.None? then a
      else
        var g := GroupName(optionType.value);
        var list := if HasKey(a.options, g) then Find(a.options, g).value else [];
        a.(options := Put(a.options, g, Put(list, id, status)))
  }

  /** A menu or addons toggle sets exactly that one flag and changes no other dictionary. */
  lemma ToggleEntry(a: Flags, target: Target, id: string, status: bool, optionType: Option<Group>, n: string)
    requires target != Options
    ensures var r := Toggled(a, target, id, status, optionType);
      r.options == a.options &&
      (target == Menu ==>
        r.addons == a.addons && Find(r.menu, n) == if n == id then Some(status) else Find(a.menu, n)) &&
      (target == Addons ==>
        r.menu == a.menu && Find(r.addons, n) == if n == id then Some(status) else Find(a.addons, n))
  {
    FindPut(a.menu, id, status, n);
    FindPut(a.addons, id, status, n);
  }

  /** An options toggle sets exactly that flag of that one list: other lists, other names and
      the menu and addon flags are unchanged. */
  lemma ToggleOption(a: Flags, id: string, status: bool, g: Group, h: string, n: string)
    ensures var r := Toggled(a, Options, id, status, Some(g));
      r.menu == a.menu && r.addons == a.addons &&
      (h != GroupName(g) ==> Find(r.options, h) == Find(a.options, h)) &&
      Find(r.options, GroupName(g)).Some? &&
      Find(Find(r.options, GroupName(g)).value, n) ==
        if n == id then Some(status)
        else if HasKey(a.options, GroupName(g)) then Find(Find(a.options, GroupName(g)).value, n)
        else None
  {
    var name := GroupName(g);
    var list := if HasKey(a.options, name) then Find(a.options, name).value else [];
    FindPut(a.options, name, Put(list, id, status), h);
    FindPut(a.options, name, Put(list, id, status), name);
    FindPut(list, id, status, n);
  }

  /** An options toggle that names no list changes nothing. */
  lemma ToggleWithoutList(a: Flags, id: string, status: bool)
    ensures Toggled(a, Options, id, status, None) == a
  {
  }

  /** Toggles keep every dictionary free of repeated keys. */
  lemma ToggleWellFormed(a: Flags, target: Target, id: string, status: bool, optionType: Option<Group>)
    requires WellFormed(a)
    ensures WellFormed(Toggled(a, target, id, status, optionType))
  {
    DistinctPut(a.menu, id, status);
    DistinctPut(a.addons, id, status);
    if target == Options && optionType.Some? {
      var g := GroupName(optionType.value);
      var list := if HasKey(a.options, g) then Find(a.options, g).value else [];
      if HasKey(a.options, g) {
        FindIn(a.options, g);
      }
      DistinctPut(list, id, status);
      DistinctPut(a.options, g, Put(list, id, status));
      var r := Toggled(a, target, id, status, optionType);
      forall e | e in r.options
        ensures DistinctKeys(e.value)
      {
        if HasKey(a.options, g) {
          SetAllMembers(a.options, g, Put(list, id, status), e);
        } else {
          assert e in a.options || e == Entry(g, Put(list, id, status));
        }
      }
    }
  }

  /** Writing a key twice is writing it once. */
  lemma {:induction false} SetAllTwice<V>(d: seq<Entry<V>>, k: string, v: V, w: V)
    ensures SetAll(SetAll(d, k, w), k, v) == SetAll(d, k, v)
  {
    if d != [] {
      SetAllTwice(d[1..], k, v, w);
    }
  }

  /** Writing the value a key already holds changes nothing. */
  lemma {:induction false} SetAllSame<V>(d: seq<Entry<V>>, k: string, v: V)
    requires DistinctKeys(d) && Find(d, k) == Some(v)
    ensures SetAll(d, k, v) == d
  {
    if d[0].key == k {
      SetAllAbsent(d[1..], k, v);
    } else {
      SetAllSame(d[1..], k, v);
    }
  }

  /** Setting a key to another value and back restores the dictionary exactly. */
  lemma PutBack<V>(d: seq<Entry<V>>, k: string, v: V, w: V)
    requires DistinctKeys(d) && Find(d, k) == Some(v)
    ensures Put(Put(d, k, w), k, v) == d
  {
    HasKeySetAll(d, k, w, k);
    SetAllTwice(d, k, v, w);
    SetAllSame(d, k, v);
  }

  /** Toggling an existing flag away and back restores the flags exactly, so the
      "has changes" comparison gives what it gave before the first toggle. */
  lemma ToggleBack(a: Flags, target: Target, id: string, v: bool, w: bool, optionType: Option<Group>)
    requires WellFormed(a)
    requires target == Menu ==> Find(a.menu, id) == Some(v)
    requires target == Addons ==> Find(a.addons, id) == Some(v)
    requires target == Options && optionType.Some? ==>
      HasKey(a.options, GroupName(optionType.value)) &&
      Find(Find(a.options, GroupName(optionType.value)).value, id) == Some(v)
    ensures Toggled(Toggled(a, target, id, w, optionType), target, id, v, optionType) == a
  {
    match target
    case Menu => PutBack(a.menu, id, v, w);
    case Addons => PutBack(a.addons, id, v, w);
    case Options =>
      if optionType.Some? {
        var g := GroupName(optionType.value);
        var list := Find(a.options, g).value;
        FindIn(a.options, g);
        PutBack(list, id, v, w);
        var b := Toggled(a, target, id, w, optionType);
        FindPut(a.options, g, Put(list, id, w), g);
        assert Find(b.options, g) == Some(Put(list, id, w));
        PutBack(a.options, g, list, Put(list, id, w));
      }
  }

  /** Toggling an existing flag to a different value is a change. */
  lemma ToggleDiffers(a: Flags, target: Target, id: string, v: bool, w: bool)
    requires target != Options && v != w
    requires target == Menu ==> Find(a.menu, id) == Some(v)
    requires target == Addons ==> Find(a.addons, id) == Some(v)
    ensures Toggled(a, target, id, w, None) != a
  {
    ToggleEntry(a, target, id, w, None, id);
  }

  /** What a load returns: the catalogue. */
  datatype Catalog = Catalog(menu: seq<MenuCategory>, addons: seq<Addon>, options: OptionsData)

  const LoadError := "無法載入菜單資料，請稍後再試。"
  const SaveError := "儲存失敗，請重試。"
  const Saved := "供應狀態已成功儲存！"

  /** The screen's state. The catalogue fetch and the save request are parameters: `None`
      is a failed fetch, and a save outcome carries the server's optional message. */
  class Manager {
    var initialMenu: seq<MenuCategory>
    var initialAddons: seq<Addon>
    var initialOptions: Option<OptionsData>
    var availability: Flags
    var error: Option<string>
    var successMessage: Option<string>

    /** `initialAvailability`: the flags derived from the last loaded catalogue. */
    function Initial(): Flags
      reads this
    {
      Derive(initialMenu, initialAddons, initialOptions)
    }

    /** `hasChanges`: the edited flags differ from the loaded ones. */
    predicate HasChanges()
      reads this
    {
      availability != Initial()
    }

    constructor()
      ensures initialMenu == [] && initialAddons == [] && initialOptions == None
      ensures availability == NoFlags && error == None && successMessage == None
      ensures !HasChanges()
    {
      initialMenu, initialAddons, initialOptions := [], [], None;
      availability := NoFlags;
      error, successMessage := None, None;
    }

    /** `fetchData`: a fetched catalogue becomes the loaded one and the flags are derived
        from it afresh, so nothing is changed; a failed fetch only records the error. */
    method Load(fetched: Option<Catalog>)
      modifies this
      ensures successMessage == old(successMessage)
      ensures fetched.None? ==>
        error == Some(LoadError) && initialMenu == old(initialMenu) &&
        initialAddons == old(initialAddons) && initialOptions == old(initialOptions) &&
        availability == old(availability)
      ensures fetched.Some? ==>
        error == None && initialMenu == fetched.value.menu &&
        initialAddons == fetched.value.addons && initialOptions == Some(fetched.value.options) &&
        availability == Derive(fetched.value.menu, fetched.value.addons, Some(fetched.value.options))
      ensures fetched.Some? ==> !HasChanges() && WellFormed(availability)
    {
      error := None;
      if fetched.None? {
        error := Some(LoadError);
        return;
      }
      var c := fetched.value;
      initialMenu, initialAddons, initialOptions := c.menu, c.addons, Some(c.options);
      availability := Derive(c.menu, c.addons, Some(c.options));
      DeriveWellFormed(c.menu, c.addons, Some(c.options));
    }

    /** `handleToggle`: clears the success message and edits one flag. */
    method Toggle(target: Target, id: string, status: bool, optionType: Option<Group>)
      modifies this
      ensures availability == Toggled(old(availability), target, id, status, optionType)
      ensures successMessage == None && error == old(error)
      ensures initialMenu == old(initialMenu) && initialAddons == old(initialAddons) &&
        initialOptions == old(initialOptions)
      ensures old(WellFormed(availability)) ==> WellFormed(availability)
    {
      successMessage := None;
      if WellFormed(availability) {
        ToggleWellFormed(availability, target, id, status, optionType);
      }
      availability := Toggled(availability, target, id, status, optionType);
    }

    /** `handleSaveChanges`: on success, the success message is shown and the catalogue is
        loaded again, which makes the saved flags the new loaded ones (a failed reload
        records the load error and keeps the edited flags); on failure the server's message,
        or a default when there is none or it is empty, becomes the error. */
    method Save(outcome: Result<(), Option<string>>, refetched: Option<Catalog>)
      modifies this
      ensures outcome.Failure? ==>
        error == Some(if outcome.error.Some? && outcome.error.value != "" then outcome.error.value
                      else SaveError) &&
        successMessage == None && availability == old(availability) &&
        initialMenu == old(initialMenu) && initialAddons == old(initialAddons) &&
        initialOptions == old(initialOptions)
      ensures outcome.Success? ==> successMessage == Some(Saved)
      ensures outcome.Success? && refetched.Some? ==>
        error == None && initialMenu == refetched.value.menu &&
        initialAddons == refetched.value.addons &&
        initialOptions == Some(refetched.value.options) &&
        availability == Derive(refetched.value.menu, refetched.value.addons,
                               Some(refetched.value.options)) &&
        !HasChanges() && WellFormed(availability)
      ensures outcome.Success? && refetched.None? ==>
        error == Some(LoadError) && availability == old(availability) &&
        initialMenu == old(initialMenu) && initialAddons == old(initialAddons) &&
        initialOptions == old(initialOptions)
    {
      error := None;
      successMessage := None;
      if outcome.Success? {
        successMessage := Some(Saved);
        Load(refetched);
      } else {
        error := Some(if outcome.error.Some? && outcome.error.value != "" then outcome.error.value
                      else SaveError);
      }
    }
  }
}
