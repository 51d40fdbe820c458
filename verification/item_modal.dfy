/** The item editor (components/ItemModal.tsx): counters that add or remove choices within a
    per-category limit, the addon counters, the running price, the quantity stepper and the
    quota check run before the selection is handed to the cart. */
module SelectionEditor {
  import opened Basics
  import opened Dict
  import opened Types
  import opened CartLine

  function MaxZero(x: int): int { if x < 0 then 0 else x }

  // ---- Counters on objects: donenesses, drinks, components, side dishes, multi-choice ----

  /** The count a counter asks for: the old count moved by `change`, never below zero. */
  function Requested(d: seq<Entry<int>>, name: string, change: int): int
  {
    MaxZero(Count(d, name) + change)
  }

  /** A step that is taken: the name gets the new count, and a count of zero deletes it. */
  function Applied(d: seq<Entry<int>>, name: string, newCount: int): seq<Entry<int>>
  {
    var temp := Put(d, name, newCount);
    if newCount == 0 then Remove(temp, name) else temp
  }

  /** A taken step sets the stepped name's count and moves the total by the difference,
      touches no other name, and keeps the names distinct and the counts positive. */
  lemma AppliedSpec(d: seq<Entry<int>>, name: string, newCount: int, n: string)
    requires DistinctKeys(d) && newCount >= 0
    ensures Count(Applied(d, name, newCount), name) == newCount
    ensures Total(Applied(d, name, newCount)) == Total(d) - Count(d, name) + newCount
    ensures n != name ==> Find(Applied(d, name, newCount), n) == Find(d, n)
    ensures DistinctKeys(Applied(d, name, newCount))
    ensures AllPositive(d) ==> AllPositive(Applied(d, name, newCount))
  {
    var temp := Put(d, name, newCount);
    TotalPut(d, name, newCount);
    FindPut(d, name, newCount, name);
    FindPut(d, name, newCount, n);
    DistinctPut(d, name, newCount);
    if newCount == 0 {
      FindRemove(temp, name, name);
      FindRemove(temp, name, n);
      TotalRemove(temp, name);
      DistinctRemove(temp, name);
      RemoveDropsKey(temp, name);
      if AllPositive(d) {
        forall e | e in Remove(temp, name) ensures e.value > 0 {
          SetAllOrAppendMember(d, name, newCount, e);
        }
      }
    } else if AllPositive(d) {
      PutPositive(d, name, newCount);
    }
  }

  lemma SetAllOrAppendMember(d: seq<Entry<int>>, k: string, v: int, e: Entry<int>)
    requires e in Put(d, k, v) && e.key != k
    ensures e in d
  {
    if HasKey(d, k) {
      SetAllMembers(d, k, v, e);
    } else {
      assert e in d + [Entry(k, v)];
    }
  }

  /** `handleDonenessChange` and `handleOptionChange` as written: the step is refused whenever
      the total after it would exceed the limit, a decrease included. */
  function BoundedStepAsWritten(d: seq<Entry<int>>, name: string, change: int, limit: int)
    : seq<Entry<int>>
  {
    var newCount := Requested(d, name, change);
    if Total(Put(d, name, newCount)) > limit then d else Applied(d, name, newCount)
  }

  /** As written, a step is taken exactly when the total after it stays within the limit,
      whether it raises or lowers the count: a refused step changes nothing, a taken one sets
      the stepped name's count. */
  lemma BoundedStepAsWrittenCount(d: seq<Entry<int>>, name: string, change: int, limit: int)
    requires DistinctKeys(d)
    ensures var newCount := Requested(d, name, change);
            var after := Total(d) - Count(d, name) + newCount;
            after > limit ==> BoundedStepAsWritten(d, name, change, limit) == d
    ensures var newCount := Requested(d, name, change);
            var after := Total(d) - Count(d, name) + newCount;
            var r := BoundedStepAsWritten(d, name, change, limit);
            after <= limit ==> Count(r, name) == newCount && Total(r) == after
  {
    var newCount := Requested(d, name, change);
    TotalPut(d, name, newCount);
    AppliedSpec(d, name, newCount, name);
  }

  /** As written, a step touches the stepped name only, keeps the names distinct and the
      counts positive. */
  lemma BoundedStepAsWrittenFrame(d: seq<Entry<int>>, name: string, change: int, limit: int, n: string)
    requires DistinctKeys(d)
    ensures n != name ==> Find(BoundedStepAsWritten(d, name, change, limit), n) == Find(d, n)
    ensures DistinctKeys(BoundedStepAsWritten(d, name, change, limit))
    ensures AllPositive(d) ==> AllPositive(BoundedStepAsWritten(d, name, change, limit))
  {
    AppliedSpec(d, name, Requested(d, name, change), n);
  }

  /** As written, a total within the limit stays within it: every step is checked against
      the limit, so not even counts that are not positive are needed for this. */
  lemma BoundedStepAsWrittenKeepsLimit(d: seq<Entry<int>>, name: string, change: int, limit: int)
    requires DistinctKeys(d) && Total(d) <= limit
    ensures Total(BoundedStepAsWritten(d, name, change, limit)) <= limit
  {
    BoundedStepAsWrittenCount(d, name, change, limit);
  }

  /** Once the quantity is lowered below what is already chosen, the minus button cannot take
      a count down: three donenesses with a limit of one stay three. */
  lemma DecreaseRefusedAsWritten()
    ensures var d := [Entry("三分熟", 1), Entry("五分熟", 1), Entry("七分熟", 1)];
            BoundedStepAsWritten(d, "三分熟", -1, 1) == d
  {
    var d := [Entry("三分熟", 1), Entry("五分熟", 1), Entry("七分熟", 1)];
    assert Count(d, "三分熟") == 1;
    assert Put(d, "三分熟", 0) == [Entry("三分熟", 0), Entry("五分熟", 1), Entry("七分熟", 1)];
  }

  /** The counter step with the limit guarding increases only, as the list counters do: a
      step that would raise the count and push the total over the limit is refused; a zero
      count deletes the key. */
  function BoundedStep(d: seq<Entry<int>>, name: string, change: int, limit: int)
    : seq<Entry<int>>
  {
    var newCount := Requested(d, name, change);
    if newCount > Count(d, name) && Total(Put(d, name, newCount)) > limit then d
    else Applied(d, name, newCount)
  }

  /** The two steps differ only on a step that does not raise the count and ends over the
      limit: the written one refuses it, the corrected one takes it. */
  lemma BoundedStepsAgree(d: seq<Entry<int>>, name: string, change: int, limit: int)
    requires DistinctKeys(d)
    ensures var newCount := Requested(d, name, change);
            BoundedStep(d, name, change, limit) == BoundedStepAsWritten(d, name, change, limit) <==>
              newCount > Count(d, name) || Total(d) - Count(d, name) + newCount <= limit ||
              Applied(d, name, newCount) == d
  {
    TotalPut(d, name, Requested(d, name, change));
  }

  /** With the corrected step, an increase is taken exactly when the new total stays within
      the limit, and a decrease always. */
  lemma BoundedStepCount(d: seq<Entry<int>>, name: string, change: int, limit: int)
    requires DistinctKeys(d)
    ensures var newCount := Requested(d, name, change);
            var refused := newCount > Count(d, name) && Total(d) - Count(d, name) + newCount > limit;
            Count(BoundedStep(d, name, change, limit), name) ==
              if refused then Count(d, name) else newCount
    ensures var r := BoundedStep(d, name, change, limit);
            Count(r, name) > Count(d, name) ==> Total(r) <= limit
  {
    var newCount := Requested(d, name, change);
    TotalPut(d, name, newCount);
    AppliedSpec(d, name, newCount, name);
  }

  /** With the corrected step, a step touches the stepped name only, keeps the names
      distinct and the counts positive. */
  lemma BoundedStepFrame(d: seq<Entry<int>>, name: string, change: int, limit: int, n: string)
    requires DistinctKeys(d)
    ensures n != name ==> Find(BoundedStep(d, name, change, limit), n) == Find(d, n)
    ensures DistinctKeys(BoundedStep(d, name, change, limit))
    ensures AllPositive(d) ==> AllPositive(BoundedStep(d, name, change, limit))
  {
    AppliedSpec(d, name, Requested(d, name, change), n);
  }

  /** With the corrected step, a decrease of a chosen name always lowers its count, whatever
      the limit. */
  lemma DecreaseAlwaysApplies(d: seq<Entry<int>>, name: string, change: int, limit: int)
    requires DistinctKeys(d) && change < 0 && Count(d, name) > 0
    ensures Count(BoundedStep(d, name, change, limit), name) < Count(d, name)
  {
    BoundedStepCount(d, name, change, limit);
  }

  /** With the corrected step, a total within the limit stays within it, whatever step is
      taken, as long as the counts are positive. */
  lemma BoundedStepKeepsLimit(d: seq<Entry<int>>, name: string, change: int, limit: int)
    requires DistinctKeys(d) && AllPositive(d) && Total(d) <= limit
    ensures Total(BoundedStep(d, name, change, limit)) <= limit
  {
    var newCount := Requested(d, name, change);
    TotalPut(d, name, newCount);
    CountNonNegative(d, name);
    AppliedSpec(d, name, newCount, name);
  }

  // ---- Counters on lists of { name, quantity }: sauces, desserts, pastas ----

  /** `group.includes(name)`, where no group means every name. */
  predicate InGroup(k: string, group: Option<seq<string>>)
  {
    group.None? || k in group.value
  }

  /** The quantities of the entries whose names are in the group. */
  function GroupTotal(d: seq<Entry<int>>, group: Option<seq<string>>): int
  {
    if d == [] then 0
    else (if InGroup(d[0].key, group) then d[0].value else 0) + GroupTotal(d[1..], group)
  }

  /** The names of a server-supplied option list. */
  function Names(choices: seq<Choice>): (ns: seq<string>)
    ensures |ns| == |choices|
    ensures forall i :: 0 <= i < |choices| ==> ns[i] == choices[i].name
  {
    if choices == [] then [] else [choices[0].name] + Names(choices[1..])
  }

  /** `handleArrayOfObjectsChange`: an increase is refused once the group's total has reached
      the limit; a quantity that falls to zero or below removes the record; otherwise the
      record is updated in place or appended. */
  function ArrayStep(d: seq<Entry<int>>, name: string, change: int, limit: int,
                     group: Option<seq<string>>): seq<Entry<int>>
  {
    var existing := Count(d, name);
    var newQ := existing + change;
    if newQ > existing && GroupTotal(d, group) >= limit then d
    else if newQ <= 0 then Remove(d, name)
    else Put(d, name, newQ)
  }

  lemma {:induction false} GroupTotalAppend(a: seq<Entry<int>>, b: seq<Entry<int>>,
                                           group: Option<seq<string>>)
    ensures GroupTotal(a + b, group) == GroupTotal(a, group) + GroupTotal(b, group)
  {
    if a == [] {
      assert a + b == b;
    } else {
      assert (a + b)[0] == a[0] && (a + b)[1..] == a[1..] + b;
      GroupTotalAppend(a[1..], b, group);
    }
  }

  lemma {:induction false} GroupTotalSetAll(d: seq<Entry<int>>, k: string, v: int,
                                           group: Option<seq<string>>)
    requires DistinctKeys(d)
    ensures GroupTotal(SetAll(d, k, v), group) ==
              GroupTotal(d, group) + (if InGroup(k, group) && HasKey(d, k) then v - Count(d, k) else 0)
  {
    if d != [] {
      if d[0].key == k {
        SetAllAbsent(d[1..], k, v);
      } else {
        GroupTotalSetAll(d[1..], k, v, group);
      }
    }
  }

  lemma {:induction false} GroupTotalRemove(d: seq<Entry<int>>, k: string, group: Option<seq<string>>)
    requires DistinctKeys(d)
    ensures GroupTotal(Remove(d, k), group) ==
              GroupTotal(d, group) - (if InGroup(k, group) then Count(d, k) else 0)
  {
    if d != [] {
      if d[0].key == k {
        RemoveAbsent(d[1..], k);
        assert Remove(d, k) == Remove(d[1..], k);
      } else {
        GroupTotalRemove(d[1..], k, group);
        assert Remove(d, k) == [d[0]] + Remove(d[1..], k);
      }
    }
  }

  /** With no group the group total is the plain total. */
  lemma {:induction false} GroupTotalAll(d: seq<Entry<int>>)
    ensures GroupTotal(d, None) == Total(d)
  {
    if d != [] {
      GroupTotalAll(d[1..]);
    }
  }

  /** What a list step does to the stepped name: an increase is refused exactly when the
      group has reached its limit; otherwise the count moves by `change`, and a count at or
      below zero is removed. Every other name is untouched. */
  lemma ArrayStepCount(d: seq<Entry<int>>, name: string, change: int, limit: int,
                       group: Option<seq<string>>, n: string)
    requires DistinctKeys(d)
    ensures var r := ArrayStep(d, name, change, limit, group);
            Count(r, name) ==
              if change > 0 && GroupTotal(d, group) >= limit then Count(d, name)
              else MaxZero(Count(d, name) + change)
    ensures n != name ==> Find(ArrayStep(d, name, change, limit, group), n) == Find(d, n)
  {
    var newQ := Count(d, name) + change;
    FindRemove(d, name, name);
    FindRemove(d, name, n);
    FindPut(d, name, newQ, name);
    FindPut(d, name, newQ, n);
  }

  /** A list step keeps the names distinct and the quantities positive. */
  lemma ArrayStepShape(d: seq<Entry<int>>, name: string, change: int, limit: int,
                       group: Option<seq<string>>)
    requires DistinctKeys(d)
    ensures DistinctKeys(ArrayStep(d, name, change, limit, group))
    ensures AllPositive(d) ==> AllPositive(ArrayStep(d, name, change, limit, group))
  {
    var newQ := Count(d, name) + change;
    DistinctRemove(d, name);
    DistinctPut(d, name, newQ);
    RemoveDropsKey(d, name);
    if AllPositive(d) && newQ > 0 {
      PutPositive(d, name, newQ);
    }
  }

  /** Single-unit clicks never take a group past its limit: a group within the limit stays
      within it. */
  lemma ArrayStepKeepsLimit(d: seq<Entry<int>>, name: string, change: int, limit: int,
                            group: Option<seq<string>>)
    requires DistinctKeys(d) && AllPositive(d) && change <= 1
    requires GroupTotal(d, group) <= limit
    ensures GroupTotal(ArrayStep(d, name, change, limit, group), group) <= limit
  {
    var newQ := Count(d, name) + change;
    CountNonNegative(d, name);
    GroupTotalRemove(d, name, group);
    if HasKey(d, name) {
      GroupTotalSetAll(d, name, newQ, group);
    } else {
      GroupTotalAppend(d, [Entry(name, newQ)], group);
      assert Count(d, name) == 0;
    }
  }

  // ---- Addons ----

  /** `prev.find(a => a.id === id)`. */
  function FindAddon(sel: seq<SelectedAddon>, id: string): Option<SelectedAddon>
  {
    if sel == [] then None
    else if sel[0].id == id then Some(sel[0])
    else FindAddon(sel[1..], id)
  }

  /** `existing?.quantity || 0`. */
  function AddonCount(sel: seq<SelectedAddon>, id: string): int
  {
    match FindAddon(sel, id)
    case Some(a) => a.quantity
    case None => 0
  }

  predicate DistinctAddons(sel: seq<SelectedAddon>)
  {
    sel == [] || (FindAddon(sel[1..], sel[0].id).None? && DistinctAddons(sel[1..]))
  }

  predicate AddonsPositive(sel: seq<SelectedAddon>)
  {
    forall a :: a in sel ==> a.quantity > 0
  }

  /** `prev.filter(a => a.id !== id)`. */
  function DropAddon(sel: seq<SelectedAddon>, id: string): (r: seq<SelectedAddon>)
    ensures |r| <= |sel|
  {
    if sel == [] then []
    else (if sel[0].id == id then [] else [sel[0]]) + DropAddon(sel[1..], id)
  }

  /** `prev.map(a => a.id === id ? { ...a, quantity: q } : a)`. */
  function SetAddonCount(sel: seq<SelectedAddon>, id: string, q: int): (r: seq<SelectedAddon>)
    ensures |r| == |sel|
  {
    if sel == [] then []
    else [if sel[0].id == id then sel[0].(quantity := q) else sel[0]] + SetAddonCount(sel[1..], id, q)
  }

  /** `handleAddonChange`: no limit; a quantity at or below zero removes the addon, otherwise
      the selected record is updated or the catalogue record appended with the quantity. */
  function AddonStep(sel: seq<SelectedAddon>, addon: Addon, change: int): seq<SelectedAddon>
  {
    var existing := FindAddon(sel, addon.id);
    var newQ := AddonCount(sel, addon.id) + change;
    if newQ <= 0 then DropAddon(sel, addon.id)
    else if existing.Some? then SetAddonCount(sel, addon.id, newQ)
    else sel + [SelectedAddon(addon.id, addon.name, addon.price, addon.category,
                              addon.isAvailable, addon.weight, newQ)]
  }

  lemma {:induction false} FindAddonAppend(a: seq<SelectedAddon>, b: seq<SelectedAddon>, id: string)
    ensures FindAddon(a + b, id) == if FindAddon(a, id).Some? then FindAddon(a, id) else FindAddon(b, id)
  {
    if a == [] {
      assert a + b == b;
    } else {
      assert (a + b)[0] == a[0] && (a + b)[1..] == a[1..] + b;
      FindAddonAppend(a[1..], b, id);
    }
  }

  lemma {:induction false} FindDropAddon(sel: seq<SelectedAddon>, id: string, n: string)
    ensures FindAddon(DropAddon(sel, id), n) == if n == id then None else FindAddon(sel, n)
  {
    if sel != [] {
      FindDropAddon(sel[1..], id, n);
      if sel[0].id == id {
        assert DropAddon(sel, id) == DropAddon(sel[1..], id);
      } else {
        assert DropAddon(sel, id) == [sel[0]] + DropAddon(sel[1..], id);
      }
    }
  }

  lemma {:induction false} FindSetAddonCount(sel: seq<SelectedAddon>, id: string, q: int, n: string)
    ensures FindAddon(SetAddonCount(sel, id, q), n) ==
              if n == id && FindAddon(sel, id).Some? then Some(FindAddon(sel, id).value.(quantity := q))
              else FindAddon(sel, n)
  {
    if sel != [] {
      FindSetAddonCount(sel[1..], id, q, n);
    }
  }

  /** An addon step sets the clicked addon's count to the old count moved by `change` (gone
      when that is zero or less) and leaves every other addon as it was. */
  lemma AddonStepCount(sel: seq<SelectedAddon>, addon: Addon, change: int, n: string)
    ensures AddonCount(AddonStep(sel, addon, change), addon.id) ==
              MaxZero(AddonCount(sel, addon.id) + change)
    ensures n != addon.id ==> FindAddon(AddonStep(sel, addon, change), n) == FindAddon(sel, n)
  {
    var newQ := AddonCount(sel, addon.id) + change;
    var added := SelectedAddon(addon.id, addon.name, addon.price, addon.category,
                               addon.isAvailable, addon.weight, newQ);
    FindDropAddon(sel, addon.id, addon.id);
    FindDropAddon(sel, addon.id, n);
    FindSetAddonCount(sel, addon.id, newQ, addon.id);
    FindSetAddonCount(sel, addon.id, newQ, n);
    FindAddonAppend(sel, [added], addon.id);
    FindAddonAppend(sel, [added], n);
  }

  lemma {:induction false} AddonsTotalSetCount(sel: seq<SelectedAddon>, id: string, q: int)
    requires DistinctAddons(sel) && FindAddon(sel, id).Some?
    ensures var e := FindAddon(sel, id).value;
            AddonsTotal(SetAddonCount(sel, id, q)) == AddonsTotal(sel) - e.price * e.quantity + e.price * q
  {
    if sel[0].id == id {
      SetAddonCountAbsent(sel[1..], id, q);
    } else {
      AddonsTotalSetCount(sel[1..], id, q);
    }
  }

  lemma {:induction false} SetAddonCountAbsent(sel: seq<SelectedAddon>, id: string, q: int)
    requires FindAddon(sel, id).None?
    ensures SetAddonCount(sel, id, q) == sel
  {
    if sel != [] {
      SetAddonCountAbsent(sel[1..], id, q);
    }
  }

  lemma {:induction false} DropAddonAbsent(sel: seq<SelectedAddon>, id: string)
    requires FindAddon(sel, id).None?
    ensures DropAddon(sel, id) == sel
  {
    if sel != [] {
      DropAddonAbsent(sel[1..], id);
    }
  }

  lemma {:induction false} AddonsTotalDrop(sel: seq<SelectedAddon>, id: string)
    requires DistinctAddons(sel)
    ensures AddonsTotal(DropAddon(sel, id)) ==
              AddonsTotal(sel) - (if FindAddon(sel, id).Some?
                                  then FindAddon(sel, id).value.price * FindAddon(sel, id).value.quantity
                                  else 0)
  {
    if sel != [] {
      if sel[0].id == id {
        DropAddonAbsent(sel[1..], id);
        assert DropAddon(sel, id) == DropAddon(sel[1..], id);
      } else {
        AddonsTotalDrop(sel[1..], id);
        assert DropAddon(sel, id) == [sel[0]] + DropAddon(sel[1..], id);
      }
    }
  }

  /** The running price moves by exactly the clicked addon's price times the change in its
      count: one click on a selected addon adds or subtracts that addon's price once. */
  lemma AddonStepPrice(sel: seq<SelectedAddon>, addon: Addon, change: int)
    requires DistinctAddons(sel)
    ensures var newQ := MaxZero(AddonCount(sel, addon.id) + change);
            var unit := if FindAddon(sel, addon.id).Some? then FindAddon(sel, addon.id).value.price
                        else addon.price;
            AddonsTotal(AddonStep(sel, addon, change)) ==
              AddonsTotal(sel) - unit * AddonCount(sel, addon.id) + unit * newQ
  {
    var newQ := AddonCount(sel, addon.id) + change;
    if newQ <= 0 {
      AddonsTotalDrop(sel, addon.id);
    } else if FindAddon(sel, addon.id).Some? {
      AddonsTotalSetCount(sel, addon.id, newQ);
    } else {
      var added := SelectedAddon(addon.id, addon.name, addon.price, addon.category,
                                 addon.isAvailable, addon.weight, newQ);
      AddonsTotalAppend(sel, [added]);
      assert AddonsTotal([added]) == addon.price * newQ;
    }
  }

  lemma {:induction false} DistinctDropAddon(sel: seq<SelectedAddon>, id: string)
    requires DistinctAddons(sel)
    ensures DistinctAddons(DropAddon(sel, id))
  {
    if sel != [] {
      DistinctDropAddon(sel[1..], id);
      FindDropAddon(sel[1..], id, sel[0].id);
      if sel[0].id == id {
        assert DropAddon(sel, id) == DropAddon(sel[1..], id);
      } else {
        var r := DropAddon(sel, id);
        assert r == [sel[0]] + DropAddon(sel[1..], id);
        assert r[1..] == DropAddon(sel[1..], id);
      }
    }
  }

  lemma {:induction false} DistinctSetAddonCount(sel: seq<SelectedAddon>, id: string, q: int)
    requires DistinctAddons(sel)
    ensures DistinctAddons(SetAddonCount(sel, id, q))
  {
    if sel != [] {
      DistinctSetAddonCount(sel[1..], id, q);
      FindSetAddonCount(sel[1..], id, q, sel[0].id);
    }
  }

  lemma {:induction false} DistinctAppendAddon(sel: seq<SelectedAddon>, a: SelectedAddon)
    requires DistinctAddons(sel) && FindAddon(sel, a.id).None?
    ensures DistinctAddons(sel + [a])
  {
    if sel == [] {
      assert sel + [a] == [a];
      assert [a][1..] == [];
    } else {
      assert (sel + [a])[1..] == sel[1..] + [a];
      DistinctAppendAddon(sel[1..], a);
      FindAddonAppend(sel[1..], [a], sel[0].id);
    }
  }

  lemma {:induction false} SetAddonCountMembers(sel: seq<SelectedAddon>, id: string, q: int, a: SelectedAddon)
    requires a in SetAddonCount(sel, id, q)
    ensures a.quantity == q || a in sel
  {
    if SetAddonCount(sel, id, q)[0] != a {
      assert a in SetAddonCount(sel[1..], id, q);
      SetAddonCountMembers(sel[1..], id, q, a);
    }
  }

  lemma {:induction false} DropAddonMembers(sel: seq<SelectedAddon>, id: string, a: SelectedAddon)
    requires a in DropAddon(sel, id)
    ensures a in sel
  {
    if sel[0].id == id || a != sel[0] {
      assert sel[0].id == id ==> DropAddon(sel, id) == DropAddon(sel[1..], id);
      assert sel[0].id != id ==> DropAddon(sel, id) == [sel[0]] + DropAddon(sel[1..], id);
      DropAddonMembers(sel[1..], id, a);
    }
  }

  /** An addon step keeps the ids distinct and every selected quantity positive. */
  lemma AddonStepShape(sel: seq<SelectedAddon>, addon: Addon, change: int)
    requires DistinctAddons(sel)
    ensures DistinctAddons(AddonStep(sel, addon, change))
    ensures AddonsPositive(sel) ==> AddonsPositive(AddonStep(sel, addon, change))
  {
    var newQ := AddonCount(sel, addon.id) + change;
    var added := SelectedAddon(addon.id, addon.name, addon.price, addon.category,
                               addon.isAvailable, addon.weight, newQ);
    var r := AddonStep(sel, addon, change);
    if newQ <= 0 {
      DistinctDropAddon(sel, addon.id);
      forall a | a in r ensures a in sel {
        DropAddonMembers(sel, addon.id, a);
      }
    } else if FindAddon(sel, addon.id).Some? {
      DistinctSetAddonCount(sel, addon.id, newQ);
      forall a | a in r ensures a.quantity == newQ || a in sel {
        SetAddonCountMembers(sel, addon.id, newQ, a);
      }
    } else {
      DistinctAppendAddon(sel, added);
    }
  }

  // ---- Quotas checked on confirmation ----

  /** `sauceLimit`: the per-item sauce count times the quantity, or the quantity when the
      item sets no per-item count. */
  function SauceLimit(c: Customizations, quantity: int): int
  {
    if c.saucesPerItem == 0 then quantity else c.saucesPerItem * quantity
  }

  /** `sideChoiceLimit`: sides per unit times the quantity, zero without a side choice. */
  function SideLimit(c: Customizations, quantity: int): int
  {
    match c.sideChoice
    case Some(s) => s.choices * quantity
    case None => 0
  }

  /** The message the editor shows for the first unmet quota. */
  datatype Shortfall =
    | DonenessShort(need: int)
    | SauceShort(need: int)
    | DrinkShort(need: int)
    | DessertShort(need: int)
    | PastaShort(need: int)
    | ComponentShort(title: string, need: int)
    | SideShort(title: string, need: int)
    | MultiShort(title: string, need: int)

  /** Each quota the item's customizations impose, taken on its own. */
  predicate DonenessMet(c: Customizations, q: int, b: Bundle)
  { c.doneness ==> Total(b.donenesses) == q }

  predicate SauceMet(c: Customizations, q: int, b: Bundle)
  { c.sauceChoice ==> Total(b.sauces) == SauceLimit(c, q) }

  predicate DrinkMet(c: Customizations, q: int, b: Bundle)
  { c.drinkChoice ==> Total(b.drinks) == q }

  predicate DessertMet(c: Customizations, options: OptionsData, q: int, b: Bundle)
  {
    c.dessertChoice ==>
      GroupTotal(b.desserts, Some(Names(options.dessertsA))) == q &&
      GroupTotal(b.desserts, Some(Names(options.dessertsB))) == q
  }

  predicate PastaMet(c: Customizations, options: OptionsData, q: int, b: Bundle)
  {
    c.pastaChoice ==>
      GroupTotal(b.pastas, Some(Names(options.pastasA))) == q &&
      GroupTotal(b.pastas, Some(Names(options.pastasB))) == q
  }

  predicate ComponentMet(c: Customizations, q: int, b: Bundle)
  { c.componentChoice.Some? ==> Total(b.componentChoices) == q }

  predicate SideMet(c: Customizations, q: int, b: Bundle)
  { c.sideChoice.Some? ==> Total(b.sideChoices) == SideLimit(c, q) }

  predicate MultiMet(c: Customizations, q: int, b: Bundle)
  { c.multiChoice.Some? ==> Total(b.multiChoice) == q }

  predicate QuotasMet(c: Customizations, options: OptionsData, q: int, b: Bundle)
  {
    && DonenessMet(c, q, b) && SauceMet(c, q, b) && DrinkMet(c, q, b)
    && DessertMet(c, options, q, b) && PastaMet(c, options, q, b)
    && ComponentMet(c, q, b) && SideMet(c, q, b) && MultiMet(c, q, b)
  }

  /** `handleConfirm`'s validations, in the source's order; on success the bundle is passed on
      unchanged. */
  function ConfirmCheck(c: Customizations, options: OptionsData, q: int, b: Bundle)
    : (r: Result<Bundle, Shortfall>)
    ensures r.Success? ==> r.value == b
  {
    if !DonenessMet(c, q, b) then Failure(DonenessShort(q))
    else if !SauceMet(c, q, b) then Failure(SauceShort(SauceLimit(c, q)))
    else if !DrinkMet(c, q, b) then Failure(DrinkShort(q))
    else if !DessertMet(c, options, q, b) then Failure(DessertShort(q))
    else if !PastaMet(c, options, q, b) then Failure(PastaShort(q))
    else if !ComponentMet(c, q, b) then Failure(ComponentShort(c.componentChoice.value.title, q))
    else if !SideMet(c, q, b) then Failure(SideShort(c.sideChoice.value.title, SideLimit(c, q)))
    else if !MultiMet(c, q, b) then Failure(MultiShort(c.multiChoice.value.title, q))
    else Success(b)
  }

  /** The selection is accepted exactly when every quota holds; each message appears exactly
      when its quota fails and every earlier one holds. */
  lemma ConfirmCheckIff(c: Customizations, options: OptionsData, q: int, b: Bundle)
    ensures ConfirmCheck(c, options, q, b).Success? <==> QuotasMet(c, options, q, b)
    ensures ConfirmCheck(c, options, q, b) == Failure(DonenessShort(q)) <==>
              c.doneness && Total(b.donenesses) != q
    ensures ConfirmCheck(c, options, q, b).Failure? &&
            ConfirmCheck(c, options, q, b).error.SauceShort? <==>
              DonenessMet(c, q, b) && c.sauceChoice && Total(b.sauces) != SauceLimit(c, q)
    ensures ConfirmCheck(c, options, q, b).Failure? &&
            ConfirmCheck(c, options, q, b).error.MultiShort? <==>
              (&& DonenessMet(c, q, b) && SauceMet(c, q, b) && DrinkMet(c, q, b)
               && DessertMet(c, options, q, b) && PastaMet(c, options, q, b)
               && ComponentMet(c, q, b) && SideMet(c, q, b) && !MultiMet(c, q, b))
  {
  }

  /** Set 1 ordered twice needs two donenesses, four sauces, two drinks and two fried sides. */
  lemma Set1Quotas(options: OptionsData)
    ensures var b := EmptyBundle.(donenesses := [Entry("五分熟", 2)],
                                  sauces := [Entry("蘑菇醬", 3), Entry("黑胡椒醬", 1)],
                                  drinks := [Entry("紅茶", 2)],
                                  componentChoices := [Entry("炸魚", 1), Entry("脆皮炸雞", 1)]);
            && ConfirmCheck(Set1.customizations, options, 2, b) == Success(b)
            && ConfirmCheck(Set1.customizations, options, 2, b.(sauces := [Entry("蘑菇醬", 2)]))
                 == Failure(SauceShort(4))
  {
  }

  /** A bundle with no choices passes only for an item without quotas, or a zero quantity. */
  lemma EmptyBundleShort(c: Customizations, options: OptionsData, q: int)
    requires c.doneness && q != 0
    ensures ConfirmCheck(c, options, q, EmptyBundle) == Failure(DonenessShort(q))
  {
  }

  // ---- The editor's state ----

  /** Which object-valued counter a click belongs to. */
  /** The buttons of a choice counter (`renderChoiceCounter`): the plus is disabled for an
      unavailable choice, the minus while the count is 0. */
  predicate ChoiceClickDisabled(count: int, change: int, available: bool)
  {
    (change > 0 && !available) || (change < 0 && count == 0)
  }

  datatype Counter = Doneness | Drink | Component | Side | Multi

  /** Which list-valued counter a click belongs to. */
  datatype ListCounter = Sauce | DessertA | DessertB | PastaA | PastaB

  /** Every category names each choice at most once with a positive quantity. */
  predicate Tidy(b: Bundle)
  {
    && Clean(b.donenesses) && Clean(b.drinks) && Clean(b.sideChoices) && Clean(b.multiChoice)
    && Clean(b.componentChoices) && Clean(b.sauces) && Clean(b.desserts) && Clean(b.pastas)
    && DistinctAddons(b.addons) && AddonsPositive(b.addons)
  }

  /** One category's dictionary: each name once, with a positive quantity. */
  predicate Clean(d: seq<Entry<int>>)
  {
    DistinctKeys(d) && AllPositive(d)
  }

  /** The item editor for one menu item, opened for a new line or on an existing one. The
      eleven choice states are kept together as the bundle they are handed on as. */
  class Selection {
    const item: MenuItem
    const options: OptionsData
    var quantity: int
    var selection: Bundle
    var validationError: Option<Shortfall>

    predicate Valid()
      reads this
    {
      quantity >= 1 && Tidy(selection)
    }

    /** `totalPrice`: the price on the confirm button is what the cart line will charge. */
    function Price(): (p: int)
      reads this
      ensures forall title, id :: p == NewLine(item, quantity, selection, title, id).totalPrice
    {
      LinePrice(item, quantity, selection.singleChoiceAddon, selection.addons)
    }

    /** Opening the editor: an existing line's quantity and selection, or one unit and
        nothing chosen. */
    constructor (item: MenuItem, options: OptionsData, editing: Option<CartItem>)
      ensures this.item == item && this.options == options && validationError == None
      ensures editing.Some? ==> quantity == editing.value.quantity && selection == editing.value.selection
      ensures editing.None? ==> quantity == 1 && selection == EmptyBundle
      ensures editing.None? ==> Valid()
    {
      this.item := item;
      this.options := options;
      quantity := if editing.Some? then editing.value.quantity else 1;
      selection := if editing.Some? then editing.value.selection else EmptyBundle;
      validationError := None;
    }

    /** The counter's limit: the quantity, except sides (per-unit count times quantity). */
    function Limit(counter: Counter): int
      reads this
    {
      if counter == Side then SideLimit(item.customizations, quantity) else quantity
    }

    /** A click on an object counter. On the multi-choice counter a plus on an unavailable
        option and a minus at count 0 are disabled buttons and do nothing; any other click
        clears the message and takes the corrected bounded step, which lets a decrease
        through over the limit (BoundedStepsAgree says where this parts from the written
        step). */
    method ChangeCount(counter: Counter, name: string, change: int, available: bool)
      modifies this
      ensures quantity == old(quantity)
      ensures counter == Multi && ChoiceClickDisabled(Count(CounterOf(old(selection), Multi), name), change, available) ==>
                selection == old(selection) && validationError == old(validationError)
      ensures !(counter == Multi && ChoiceClickDisabled(Count(CounterOf(old(selection), Multi), name), change, available)) ==>
                validationError == None
      ensures !(counter == Multi && ChoiceClickDisabled(Count(CounterOf(old(selection), Multi), name), change, available)) ==>
                selection == WithCounter(old(selection), counter,
                  BoundedStep(CounterOf(old(selection), counter), name, change, old(Limit(counter))))
      ensures old(Valid()) ==> Valid()
    {
      if counter == Multi && ChoiceClickDisabled(Count(CounterOf(selection, Multi), name), change, available) {
        return;
      }
      validationError := None;
      var d := BoundedStep(CounterOf(selection, counter), name, change, Limit(counter));
      if Tidy(selection) {
        BoundedStepFrame(CounterOf(selection, counter), name, change, Limit(counter), name);
        TidyWithCounter(selection, counter, d);
      }
      selection := WithCounter(selection, counter, d);
    }

    function Group(counter: ListCounter): Option<seq<string>>
      reads this
    {
      match counter
      case Sauce => None
      case DessertA => Some(Names(options.dessertsA))
      case DessertB => Some(Names(options.dessertsB))
      case PastaA => Some(Names(options.pastasA))
      case PastaB => Some(Names(options.pastasB))
    }

    function ListLimit(counter: ListCounter): int
      reads this
    {
      if counter == Sauce then SauceLimit(item.customizations, quantity) else quantity
    }

    /** A click on a sauce, dessert or pasta counter. A plus on an unavailable choice and a
        minus at count 0 are disabled buttons and do nothing; any other click clears the
        message and takes a list step within the counter's group. */
    method ChangeListCount(counter: ListCounter, name: string, change: int, available: bool)
      modifies this
      ensures quantity == old(quantity)
      ensures ChoiceClickDisabled(Count(ListOf(old(selection), counter), name), change, available) ==>
                selection == old(selection) && validationError == old(validationError)
      ensures !ChoiceClickDisabled(Count(ListOf(old(selection), counter), name), change, available) ==>
                validationError == None
      ensures !ChoiceClickDisabled(Count(ListOf(old(selection), counter), name), change, available) ==>
                selection == WithList(old(selection), counter,
                  ArrayStep(ListOf(old(selection), counter), name, change,
                            old(ListLimit(counter)), old(Group(counter))))
      ensures old(Valid()) ==> Valid()
    {
      if ChoiceClickDisabled(Count(ListOf(selection, counter), name), change, available) {
        return;
      }
      validationError := None;
      var d := ArrayStep(ListOf(selection, counter), name, change, ListLimit(counter), Group(counter));
      if Tidy(selection) {
        ArrayStepShape(ListOf(selection, counter), name, change, ListLimit(counter), Group(counter));
        TidyWithList(selection, counter, d);
      }
      selection := WithList(selection, counter, d);
    }

    /** `handleAddonChange`; unlike the other counters it leaves the message alone. */
    method ChangeAddon(addon: Addon, change: int)
      modifies this
      ensures quantity == old(quantity) && validationError == old(validationError)
      ensures selection == old(selection).(addons := AddonStep(old(selection).addons, addon, change))
      ensures old(Valid()) ==> Valid()
    {
      if Tidy(selection) {
        AddonStepShape(selection.addons, addon, change);
      }
      selection := selection.(addons := AddonStep(selection.addons, addon, change));
    }

    /** The notes text area. */
    method SetNotes(text: string)
      modifies this
      ensures selection == old(selection).(notes := text)
      ensures quantity == old(quantity) && validationError == old(validationError)
      ensures old(Valid()) ==> Valid()
    {
      selection := selection.(notes := text);
    }

    /** The minus button of the quantity stepper: never below one. Choices are kept. */
    method DecreaseQuantity()
      modifies this
      ensures quantity == if old(quantity) - 1 < 1 then 1 else old(quantity) - 1
      ensures selection == old(selection) && validationError == old(validationError)
      ensures old(Valid()) ==> Valid()
    {
      quantity := if quantity - 1 < 1 then 1 else quantity - 1;
    }

    /** The plus button of the quantity stepper. */
    method IncreaseQuantity()
      modifies this
      ensures quantity == old(quantity) + 1
      ensures selection == old(selection) && validationError == old(validationError)
      ensures old(Valid()) ==> Valid()
    {
      quantity := quantity + 1;
    }

    /** `handleConfirm`: the bundle to hand to the cart, or the first unmet quota, which is
        also shown. */
    method Confirm() returns (r: Result<Bundle, Shortfall>)
      modifies this
      ensures r == ConfirmCheck(item.customizations, options, quantity, selection)
      ensures validationError == if r.Failure? then Some(r.error) else None
      ensures selection == old(selection) && quantity == old(quantity)
    {
      r := ConfirmCheck(item.customizations, options, quantity, selection);
      validationError := if r.Failure? then Some(r.error) else None;
    }
  }

  function CounterOf(b: Bundle, counter: Counter): seq<Entry<int>>
  {
    match counter
    case Doneness => b.donenesses
    case Drink => b.drinks
    case Component => b.componentChoices
    case Side => b.sideChoices
    case Multi => b.multiChoice
  }

  function WithCounter(b: Bundle, counter: Counter, d: seq<Entry<int>>): Bundle
  {
    match counter
    case Doneness => b.(donenesses := d)
    case Drink => b.(drinks := d)
    case Component => b.(componentChoices := d)
    case Side => b.(sideChoices := d)
    case Multi => b.(multiChoice := d)
  }

  function ListOf(b: Bundle, counter: ListCounter): seq<Entry<int>>
  {
    match counter
    case Sauce => b.sauces
    case DessertA => b.desserts
    case DessertB => b.desserts
    case PastaA => b.pastas
    case PastaB => b.pastas
  }

  function WithList(b: Bundle, counter: ListCounter, d: seq<Entry<int>>): Bundle
  {
    match counter
    case Sauce => b.(sauces := d)
    case DessertA => b.(desserts := d)
    case DessertB => b.(desserts := d)
    case PastaA => b.(pastas := d)
    case PastaB => b.(pastas := d)
  }

  lemma {:induction false} TidyWithCounter(b: Bundle, counter: Counter, d: seq<Entry<int>>)
    requires Tidy(b) && Clean(d)
    ensures Tidy(WithCounter(b, counter, d))
  {
    var r := WithCounter(b, counter, d);
    assert r.sauces == b.sauces && r.desserts == b.desserts && r.pastas == b.pastas;
    assert r.addons == b.addons;
    assert Clean(r.donenesses) && Clean(r.drinks) && Clean(r.sideChoices) &&
           Clean(r.multiChoice) && Clean(r.componentChoices) by {
      match counter
      case Doneness =>
      case Drink =>
      case Component =>
      case Side =>
      case Multi =>
    }
  }

  lemma {:induction false} TidyWithList(b: Bundle, counter: ListCounter, d: seq<Entry<int>>)
    requires Tidy(b) && Clean(d)
    ensures Tidy(WithList(b, counter, d))
  {
    match counter
    case Sauce => TidySauces(b, d);
    case DessertA => TidyDesserts(b, d);
    case DessertB => TidyDesserts(b, d);
    case PastaA => TidyPastas(b, d);
    case PastaB => TidyPastas(b, d);
  }

  lemma {:induction false} TidySauces(b: Bundle, d: seq<Entry<int>>)
    requires Tidy(b) && Clean(d)
    ensures Tidy(b.(sauces := d))
  {
  }

  lemma {:induction false} TidyDesserts(b: Bundle, d: seq<Entry<int>>)
    requires Tidy(b) && Clean(d)
    ensures Tidy(b.(desserts := d))
  {
  }

  lemma {:induction false} TidyPastas(b: Bundle, d: seq<Entry<int>>)
    requires Tidy(b) && Clean(d)
    ensures Tidy(b.(pastas := d))
  {
  }
}
