/** The cart of the ordering page (App.tsx): adding a confirmed selection (merging into a
    line with the same key), replacing an edited line, changing quantities, removing lines,
    and the two totals shown on the cart button. */
module CartEngine {
  import opened Basics
  import opened Dict
  import opened Seqs
  import opened Types
  import opened CartLine

  // ---- Queries ----

  /** `findIndex` by cart key: the first line with the key, or -1. */
  function FindKey(lines: seq<CartItem>, key: CartKey): (i: int)
    ensures -1 <= i < |lines|
    ensures i >= 0 ==> lines[i].cartKey == key && forall j :: 0 <= j < i ==> lines[j].cartKey != key
    ensures i == -1 ==> forall j :: 0 <= j < |lines| ==> lines[j].cartKey != key
  {
    if |lines| == 0 then -1
    else if lines[0].cartKey == key then 0
    else
      var i := FindKey(lines[1..], key);
      if i == -1 then -1 else i + 1
  }

  predicate HasCartId(lines: seq<CartItem>, cartId: CartId)
  {
    exists j :: 0 <= j < |lines| && lines[j].cartId == cartId
  }

  /** `find` by cartId: the index of the first line with the cartId, or -1. */
  function FindId(lines: seq<CartItem>, cartId: CartId): (i: int)
    ensures -1 <= i < |lines|
    ensures i >= 0 ==> lines[i].cartId == cartId && forall j :: 0 <= j < i ==> lines[j].cartId != cartId
    ensures i == -1 <==> !HasCartId(lines, cartId)
  {
    if |lines| == 0 then -1
    else if lines[0].cartId == cartId then 0
    else
      var i := FindId(lines[1..], cartId);
      if i == -1 then -1 else i + 1
  }

  /** `cartItemCount`: Σ quantity. */
  function ItemCount(lines: seq<CartItem>): int
  {
    if |lines| == 0 then 0 else lines[0].quantity + ItemCount(lines[1..])
  }

  /** `cartTotalPrice`: Σ totalPrice. */
  function TotalPrice(lines: seq<CartItem>): int
  {
    if |lines| == 0 then 0 else lines[0].totalPrice + TotalPrice(lines[1..])
  }

  // ---- Transitions ----

  /** The merge of a fresh selection into an existing line: the quantities add up and the
      price is recomputed with the passed item's price and the line's own stored
      single-choice addon and addons. */
  function Merged(existing: CartItem, item: MenuItem, quantity: int): (m: CartItem)
    ensures m.quantity == existing.quantity + quantity
    ensures m.totalPrice == LinePrice(item, m.quantity, existing.selection.singleChoiceAddon,
                                      existing.selection.addons)
    ensures m.cartId == existing.cartId && m.cartKey == existing.cartKey
    ensures m.item == existing.item && m.selection == existing.selection
    ensures m.categoryTitle == existing.categoryTitle
  {
    var q := existing.quantity + quantity;
    existing.(quantity := q,
              totalPrice := LinePrice(item, q, existing.selection.singleChoiceAddon,
                                      existing.selection.addons))
  }

  /** The add path of `handleConfirmSelection`: merge into the first line with the same key,
      or append a new line identified by the key and the fresh token. */
  function AddSelection(lines: seq<CartItem>, item: MenuItem, quantity: int, b: Bundle,
                        categoryTitle: string, token: nat): seq<CartItem>
  {
    var key := KeyOf(item, b);
    var i := FindKey(lines, key);
    if i >= 0 then lines[i := Merged(lines[i], item, quantity)]
    else lines + [NewLine(item, quantity, b, categoryTitle, CartId(key, token))]
  }

  /** The add path merges into the first line with the same key, changing that line's
      quantity and price only, and otherwise appends one new line identified by the key and
      the fresh token. */
  lemma AddCases(lines: seq<CartItem>, item: MenuItem, quantity: int, b: Bundle,
                 categoryTitle: string, token: nat)
    ensures var r := AddSelection(lines, item, quantity, b, categoryTitle, token);
            var i := FindKey(lines, KeyOf(item, b));
            i >= 0 ==> |r| == |lines| && r[i] == Merged(lines[i], item, quantity) &&
                       forall j :: 0 <= j < |lines| && j != i ==> r[j] == lines[j]
    ensures (forall j :: 0 <= j < |lines| ==> lines[j].cartKey != KeyOf(item, b)) ==>
              AddSelection(lines, item, quantity, b, categoryTitle, token) ==
                lines + [NewLine(item, quantity, b, categoryTitle, CartId(KeyOf(item, b), token))]
  {
  }

  /** The edit path: every line with the edited cartId becomes the new line, keeping that
      cartId and its position; no merge with other lines takes place. */
  function ReplaceLine(lines: seq<CartItem>, cartId: CartId, draft: CartItem): (r: seq<CartItem>)
    ensures |r| == |lines|
    ensures forall j :: 0 <= j < |lines| ==>
              r[j] == if lines[j].cartId == cartId then draft.(cartId := cartId) else lines[j]
  {
    seq(|lines|, j requires 0 <= j < |lines| =>
      if lines[j].cartId == cartId then draft.(cartId := cartId) else lines[j])
  }

  /** `handleConfirmSelection`. While the edited line is still in the cart, every line with
      its cartId becomes the new selection under that cartId, in place, and no other line
      changes: nothing is merged. Otherwise the selection merges into the first line with
      its key, which changes that line's quantity and price only, or is appended as a new
      line identified by the key and the fresh token. */
  function Confirm(lines: seq<CartItem>, editing: Option<CartItem>, item: MenuItem,
                   quantity: int, b: Bundle, categoryTitle: string, token: nat): (r: seq<CartItem>)
    ensures editing.Some? && HasCartId(lines, editing.value.cartId) ==>
              |r| == |lines| &&
              forall j :: 0 <= j < |lines| ==>
                r[j] == if lines[j].cartId == editing.value.cartId
                        then NewLine(item, quantity, b, categoryTitle, editing.value.cartId)
                        else lines[j]
    ensures !(editing.Some? && HasCartId(lines, editing.value.cartId)) &&
            FindKey(lines, KeyOf(item, b)) >= 0 ==>
              var i := FindKey(lines, KeyOf(item, b));
              |r| == |lines| && r[i] == Merged(lines[i], item, quantity) &&
              forall j :: 0 <= j < |lines| && j != i ==> r[j] == lines[j]
    ensures !(editing.Some? && HasCartId(lines, editing.value.cartId)) &&
            FindKey(lines, KeyOf(item, b)) < 0 ==>
              r == lines + [NewLine(item, quantity, b, categoryTitle, CartId(KeyOf(item, b), token))]
  {
    if editing.Some? && HasCartId(lines, editing.value.cartId) then
      var id := editing.value.cartId;
      ReplaceLine(lines, id, NewLine(item, quantity, b, categoryTitle, id))
    else
      AddCases(lines, item, quantity, b, categoryTitle, token);
      AddSelection(lines, item, quantity, b, categoryTitle, token)
  }

  /** `filter(item => item.cartId !== cartId)`. */
  function RemoveLines(lines: seq<CartItem>, cartId: CartId): (r: seq<CartItem>)
    ensures |r| <= |lines|
  {
    if |lines| == 0 then []
    else if lines[0].cartId == cartId then RemoveLines(lines[1..], cartId)
    else [lines[0]] + RemoveLines(lines[1..], cartId)
  }

  /** RemoveLines keeps exactly the lines with another cartId. */
  lemma {:induction false} RemoveLinesMembers(lines: seq<CartItem>, cartId: CartId)
    ensures forall x :: x in RemoveLines(lines, cartId) <==> x in lines && x.cartId != cartId
  {
    if |lines| > 0 {
      RemoveLinesMembers(lines[1..], cartId);
      assert lines == [lines[0]] + lines[1..];
    }
  }

  /** The lines carrying a cartId (the complement of RemoveLines). */
  function LinesWith(lines: seq<CartItem>, cartId: CartId): (r: seq<CartItem>)
    ensures |r| <= |lines|
  {
    if |lines| == 0 then []
    else if lines[0].cartId == cartId then [lines[0]] + LinesWith(lines[1..], cartId)
    else LinesWith(lines[1..], cartId)
  }

  /** A line at a new quantity, priced from its own item and selection. */
  function Repriced(line: CartItem, quantity: int): (r: CartItem)
    ensures r.quantity == quantity && PriceConsistent(r)
    ensures r.cartId == line.cartId && r.cartKey == line.cartKey
    ensures r.item == line.item && r.selection == line.selection
    ensures r.categoryTitle == line.categoryTitle
  {
    line.(quantity := quantity,
          totalPrice := LinePrice(line.item, quantity, line.selection.singleChoiceAddon,
                                  line.selection.addons))
  }

  /** `handleUpdateQuantity`: a quantity of zero or less removes the lines with the cartId;
      otherwise those lines take the new quantity and are repriced. */
  function UpdateQuantity(lines: seq<CartItem>, cartId: CartId, quantity: int): (r: seq<CartItem>)
    ensures quantity <= 0 ==> r == RemoveLines(lines, cartId)
    ensures quantity > 0 ==> |r| == |lines|
    ensures quantity > 0 ==> forall j :: 0 <= j < |lines| ==>
              r[j] == if lines[j].cartId == cartId then Repriced(lines[j], quantity) else lines[j]
  {
    if quantity <= 0 then RemoveLines(lines, cartId) else RepriceLines(lines, cartId, quantity)
  }

  /** The `map` of `handleUpdateQuantity`. */
  function RepriceLines(lines: seq<CartItem>, cartId: CartId, quantity: int): (r: seq<CartItem>)
    ensures |r| == |lines|
    ensures forall j :: 0 <= j < |lines| ==>
              r[j] == if lines[j].cartId == cartId then Repriced(lines[j], quantity) else lines[j]
  {
    if |lines| == 0 then []
    else
      [if lines[0].cartId == cartId then Repriced(lines[0], quantity) else lines[0]]
        + RepriceLines(lines[1..], cartId, quantity)
  }

  // ---- Invariants of the line list ----

  /** No two lines share a cartId. */
  predicate UniqueIds(lines: seq<CartItem>)
  {
    forall i, j :: 0 <= i < j < |lines| ==> lines[i].cartId != lines[j].cartId
  }

  /** No two lines share a cart key. */
  predicate UniqueKeys(lines: seq<CartItem>)
  {
    forall i, j :: 0 <= i < j < |lines| ==> lines[i].cartKey != lines[j].cartKey
  }

  /** Every line is keyed and priced from its own item and selection. */
  predicate AllConsistent(lines: seq<CartItem>)
  {
    forall line :: line in lines ==> PriceConsistent(line) && KeyConsistent(line)
  }

  predicate AllPositiveQuantities(lines: seq<CartItem>)
  {
    forall line :: line in lines ==> line.quantity >= 1
  }

  /** The lines that hold the item with the same id hold the very same item record, as
      long as the menu has not been reloaded with other data. */
  predicate CatalogueAgrees(lines: seq<CartItem>, item: MenuItem)
  {
    forall j :: 0 <= j < |lines| && lines[j].item.id == item.id ==> lines[j].item == item
  }

  /** The line a selection would merge into, if any, has the same unit price under its stored
      item as under the item passed in. This fails only when a menu refresh changed the
      item's price (or its single-choice addon's price) after the line was added. */
  predicate MergePriceAgrees(lines: seq<CartItem>, item: MenuItem, b: Bundle)
  {
    var i := FindKey(lines, KeyOf(item, b));
    i < 0 ||
      lines[i].item.price + SingleChoicePrice(lines[i].item, lines[i].selection.singleChoiceAddon) ==
      item.price + SingleChoicePrice(item, lines[i].selection.singleChoiceAddon)
  }

  /** The token was not used by any line yet. */
  predicate FreshToken(lines: seq<CartItem>, token: nat)
  {
    forall j :: 0 <= j < |lines| ==> lines[j].cartId.token != token
  }

  predicate CartInvariant(lines: seq<CartItem>)
  {
    UniqueIds(lines) && AllConsistent(lines) && AllPositiveQuantities(lines)
  }

  // ---- Sums ----

  lemma {:induction false} ItemCountAppend(a: seq<CartItem>, b: seq<CartItem>)
    ensures ItemCount(a + b) == ItemCount(a) + ItemCount(b)
    ensures TotalPrice(a + b) == TotalPrice(a) + TotalPrice(b)
  {
    if |a| == 0 {
      assert a + b == b;
    } else {
      ItemCountAppend(a[1..], b);
      assert (a + b)[1..] == a[1..] + b;
    }
  }

  lemma {:induction false} ItemCountUpdate(lines: seq<CartItem>, i: nat, x: CartItem)
    requires i < |lines|
    ensures ItemCount(lines[i := x]) == ItemCount(lines) - lines[i].quantity + x.quantity
    ensures TotalPrice(lines[i := x]) == TotalPrice(lines) - lines[i].totalPrice + x.totalPrice
  {
    if i > 0 {
      ItemCountUpdate(lines[1..], i - 1, x);
      assert lines[i := x][1..] == lines[1..][i - 1 := x];
    }
  }

  /** The lines with a cartId and the rest split both totals. */
  lemma {:induction false} PartitionTotals(lines: seq<CartItem>, cartId: CartId)
    ensures ItemCount(lines) == ItemCount(LinesWith(lines, cartId)) + ItemCount(RemoveLines(lines, cartId))
    ensures TotalPrice(lines) == TotalPrice(LinesWith(lines, cartId)) + TotalPrice(RemoveLines(lines, cartId))
  {
    if |lines| > 0 {
      PartitionTotals(lines[1..], cartId);
      var w, o := LinesWith(lines[1..], cartId), RemoveLines(lines[1..], cartId);
      assert ([lines[0]] + w)[1..] == w;
      assert ([lines[0]] + o)[1..] == o;
    }
  }

  /** With unique cartIds, at most one line carries a given cartId. */
  lemma {:induction false} LinesWithUnique(lines: seq<CartItem>, cartId: CartId)
    requires UniqueIds(lines)
    ensures |LinesWith(lines, cartId)| == if HasCartId(lines, cartId) then 1 else 0
  {
    if |lines| > 0 {
      LinesWithUnique(lines[1..], cartId);
      if lines[0].cartId != cartId {
        if HasCartId(lines, cartId) {
          var j :| 0 <= j < |lines| && lines[j].cartId == cartId;
          assert lines[1..][j - 1].cartId == cartId;
        }
      }
    }
  }

  // ---- Adding a selection ----

  /** Adding a selection adds exactly its quantity to the cart's item count, whether it was
      merged or appended. */
  lemma AddCount(lines: seq<CartItem>, item: MenuItem, quantity: int, b: Bundle,
                 categoryTitle: string, token: nat)
    ensures ItemCount(AddSelection(lines, item, quantity, b, categoryTitle, token))
              == ItemCount(lines) + quantity
  {
    var i := FindKey(lines, KeyOf(item, b));
    if i >= 0 {
      ItemCountUpdate(lines, i, Merged(lines[i], item, quantity));
    } else {
      ItemCountAppend(lines, [NewLine(item, quantity, b, categoryTitle, CartId(KeyOf(item, b), token))]);
    }
  }

  /** Adding a selection whose key is already in the cart replaces the merged line's price
      by its price at the new quantity under the item passed in. When that line was
      consistent and the unit price has not changed since, the total rises by the unit price
      times the added quantity: the merged line's addons were already paid for. */
  lemma {:induction false} AddTotalMerged(lines: seq<CartItem>, item: MenuItem, quantity: int, b: Bundle,
                       categoryTitle: string, token: nat)
    requires FindKey(lines, KeyOf(item, b)) >= 0
    ensures var i := FindKey(lines, KeyOf(item, b));
            TotalPrice(AddSelection(lines, item, quantity, b, categoryTitle, token)) ==
              TotalPrice(lines) - lines[i].totalPrice +
              LinePrice(item, lines[i].quantity + quantity, lines[i].selection.singleChoiceAddon,
                        lines[i].selection.addons)
    ensures var i := FindKey(lines, KeyOf(item, b));
            PriceConsistent(lines[i]) && MergePriceAgrees(lines, item, b) ==>
              TotalPrice(AddSelection(lines, item, quantity, b, categoryTitle, token)) ==
                TotalPrice(lines) +
                (item.price + SingleChoicePrice(item, lines[i].selection.singleChoiceAddon)) * quantity
  {
    var i := FindKey(lines, KeyOf(item, b));
    MergeTotalShift(lines, i, item, quantity);
    if PriceConsistent(lines[i]) && MergePriceAgrees(lines, item, b) {
      MergeTotal(lines, i, item, quantity);
    }
  }

  /** Merging line `i` with `item` replaces that line's price by its price at the new quantity. */
  lemma MergeTotalShift(lines: seq<CartItem>, i: nat, item: MenuItem, quantity: int)
    requires i < |lines|
    ensures TotalPrice(lines[i := Merged(lines[i], item, quantity)]) ==
              TotalPrice(lines) - lines[i].totalPrice +
              LinePrice(item, lines[i].quantity + quantity, lines[i].selection.singleChoiceAddon,
                        lines[i].selection.addons)
  {
    ItemCountUpdate(lines, i, Merged(lines[i], item, quantity));
  }

  /** A merge into a consistent line whose unit price is unchanged raises the cart total by
      the unit price times the added quantity. */
  lemma MergeTotal(lines: seq<CartItem>, i: nat, item: MenuItem, quantity: int)
    requires i < |lines| && PriceConsistent(lines[i])
    requires lines[i].item.price + SingleChoicePrice(lines[i].item, lines[i].selection.singleChoiceAddon) ==
             item.price + SingleChoicePrice(item, lines[i].selection.singleChoiceAddon)
    ensures TotalPrice(lines[i := Merged(lines[i], item, quantity)]) ==
              TotalPrice(lines) +
              (item.price + SingleChoicePrice(item, lines[i].selection.singleChoiceAddon)) * quantity
  {
    ItemCountUpdate(lines, i, Merged(lines[i], item, quantity));
    MergedPriceDelta(lines[i], item, quantity);
  }

  lemma ConsistentAt(lines: seq<CartItem>, i: nat)
    requires AllConsistent(lines) && i < |lines|
    ensures PriceConsistent(lines[i]) && KeyConsistent(lines[i])
  {
    assert lines[i] in lines;
  }

  /** Adding a selection whose key is not in the cart raises the total by the new line's
      full price. */
  lemma AddTotalAppended(lines: seq<CartItem>, item: MenuItem, quantity: int, b: Bundle,
                         categoryTitle: string, token: nat)
    requires FindKey(lines, KeyOf(item, b)) == -1
    ensures TotalPrice(AddSelection(lines, item, quantity, b, categoryTitle, token)) ==
              TotalPrice(lines) + LinePrice(item, quantity, b.singleChoiceAddon, b.addons)
  {
    var line := NewLine(item, quantity, b, categoryTitle, CartId(KeyOf(item, b), token));
    ItemCountAppend(lines, [line]);
    assert TotalPrice([line]) == line.totalPrice;
  }

  /** The line a selection merges into holds the same item record. */
  lemma {:induction false} MergedItemIsLineItem(lines: seq<CartItem>, i: nat, item: MenuItem, b: Bundle)
    requires AllConsistent(lines) && CatalogueAgrees(lines, item)
    requires i < |lines| && lines[i].cartKey == KeyOf(item, b)
    ensures lines[i].item == item
  {
    assert KeyConsistent(lines[i]);
  }

  /** As long as the menu has not been reloaded with other data, every merge prices the
      line as its stored item does. */
  lemma CatalogueAgreesPrices(lines: seq<CartItem>, item: MenuItem, b: Bundle)
    requires AllConsistent(lines) && CatalogueAgrees(lines, item)
    ensures MergePriceAgrees(lines, item, b)
  {
    var i := FindKey(lines, KeyOf(item, b));
    if i >= 0 {
      ConsistentAt(lines, i);
      MergedItemIsLineItem(lines, i, item, b);
    }
  }

  lemma MergedPriceDelta(existing: CartItem, item: MenuItem, quantity: int)
    requires PriceConsistent(existing)
    requires existing.item.price + SingleChoicePrice(existing.item, existing.selection.singleChoiceAddon) ==
             item.price + SingleChoicePrice(item, existing.selection.singleChoiceAddon)
    ensures Merged(existing, item, quantity).totalPrice - existing.totalPrice ==
              (item.price + SingleChoicePrice(item, existing.selection.singleChoiceAddon)) * quantity
  {
    var unit := item.price + SingleChoicePrice(item, existing.selection.singleChoiceAddon);
    assert unit * (existing.quantity + quantity) == unit * existing.quantity + unit * quantity;
  }

  /** Two unit prices charged on the same positive quantity agree only if they are equal.
      Kept apart so that the cart lemmas do not reason about products themselves. */
  lemma MulCancel(x: int, y: int, q: int)
    requires q > 0
    ensures x * q == y * q <==> x == y
  {
    if x < y {
      assert y * q - x * q == (y - x) * q;
    } else if y < x {
      assert x * q - y * q == (x - y) * q;
    }
  }

  /** A merged line is consistent exactly when its stored item prices a unit as the item
      passed in does. */
  lemma MergedConsistentIff(existing: CartItem, item: MenuItem, quantity: int)
    requires KeyConsistent(existing) && existing.quantity + quantity > 0
    ensures KeyConsistent(Merged(existing, item, quantity))
    ensures PriceConsistent(Merged(existing, item, quantity)) <==>
              existing.item.price + SingleChoicePrice(existing.item, existing.selection.singleChoiceAddon) ==
              item.price + SingleChoicePrice(item, existing.selection.singleChoiceAddon)
  {
    var s := existing.selection.singleChoiceAddon;
    MulCancel(existing.item.price + SingleChoicePrice(existing.item, s),
              item.price + SingleChoicePrice(item, s), existing.quantity + quantity);
  }

  /** Adding keeps cart keys unique: a selection whose key is present is merged, any other
      is appended. */
  lemma AddKeepsUniqueKeys(lines: seq<CartItem>, item: MenuItem, quantity: int, b: Bundle,
                           categoryTitle: string, token: nat)
    requires UniqueKeys(lines)
    ensures UniqueKeys(AddSelection(lines, item, quantity, b, categoryTitle, token))
  {
  }

  /** With a fresh token and a positive quantity, adding keeps the cartIds unique and the
      quantities positive, and it keeps every line consistent with its own item exactly when
      the merged line's unit price has not changed since it was added. */
  lemma AddKeepsInvariant(lines: seq<CartItem>, item: MenuItem, quantity: int, b: Bundle,
                          categoryTitle: string, token: nat)
    requires CartInvariant(lines) && FreshToken(lines, token)
    requires quantity >= 1
    ensures var r := AddSelection(lines, item, quantity, b, categoryTitle, token);
            UniqueIds(r) && AllPositiveQuantities(r)
    ensures CartInvariant(AddSelection(lines, item, quantity, b, categoryTitle, token)) <==>
              MergePriceAgrees(lines, item, b)
  {
    var i := FindKey(lines, KeyOf(item, b));
    if i >= 0 {
      var m := Merged(lines[i], item, quantity);
      ConsistentAt(lines, i);
      assert lines[i].quantity >= 1 by { assert lines[i] in lines; }
      MergedConsistentIff(lines[i], item, quantity);
      assert KeyConsistent(m);
      MergeKeepsInvariant(lines, i, m);
    } else {
      AppendKeepsInvariant(lines, NewLine(item, quantity, b, categoryTitle, CartId(KeyOf(item, b), token)));
    }
  }

  /** Replacing one line by a line with the same cartId and a positive quantity keeps the
      cartIds unique and the quantities positive; the lines stay consistent exactly when
      the new line is. */
  lemma {:induction false} MergeKeepsInvariant(lines: seq<CartItem>, i: nat, m: CartItem)
    requires CartInvariant(lines) && i < |lines|
    requires m.cartId == lines[i].cartId && m.quantity >= 1
    ensures UniqueIds(lines[i := m]) && AllPositiveQuantities(lines[i := m])
    ensures CartInvariant(lines[i := m]) <==> PriceConsistent(m) && KeyConsistent(m)
  {
    var r := lines[i := m];
    assert r[i] == m;
    assert forall j :: 0 <= j < |r| ==> r[j].cartId == lines[j].cartId;
    forall x | x in r ensures x.quantity >= 1 && (x != m ==> PriceConsistent(x) && KeyConsistent(x)) {
      var j :| 0 <= j < |r| && r[j] == x;
      if j != i {
        assert x == lines[j];
      }
    }
  }

  lemma AppendKeepsInvariant(lines: seq<CartItem>, line: CartItem)
    requires CartInvariant(lines) && FreshToken(lines, line.cartId.token)
    requires line.quantity >= 1 && PriceConsistent(line) && KeyConsistent(line)
    ensures CartInvariant(lines + [line])
  {
    var r := lines + [line];
    forall x | x in r ensures PriceConsistent(x) && KeyConsistent(x) && x.quantity >= 1 {
      if x != line {
        assert x in lines;
      }
    }
    forall i, j | 0 <= i < j < |r| ensures r[i].cartId != r[j].cartId {
      if j == |lines| {
        assert r[i].cartId.token != line.cartId.token;
      } else {
        assert r[i] == lines[i] && r[j] == lines[j];
      }
    }
  }

  /** Selections whose notes differ from those of every line are never merged: a new line
      is appended. */
  lemma NotesNeverMerge(lines: seq<CartItem>, item: MenuItem, quantity: int, b: Bundle,
                        categoryTitle: string, token: nat)
    requires AllConsistent(lines)
    requires forall j :: 0 <= j < |lines| ==> lines[j].selection.notes != b.notes
    ensures AddSelection(lines, item, quantity, b, categoryTitle, token)
              == lines + [NewLine(item, quantity, b, categoryTitle, CartId(KeyOf(item, b), token))]
  {
    forall j | 0 <= j < |lines| ensures lines[j].cartKey != KeyOf(item, b) {
      assert lines[j] in lines;
      assert lines[j].cartKey.notes == lines[j].selection.notes;
    }
  }

  // ---- Editing ----

  /** Replacing an edited line keeps every cartId where it was. */
  lemma ReplaceKeepsIds(lines: seq<CartItem>, cartId: CartId, draft: CartItem)
    ensures forall j :: 0 <= j < |lines| ==> ReplaceLine(lines, cartId, draft)[j].cartId == lines[j].cartId
    ensures UniqueIds(lines) ==> UniqueIds(ReplaceLine(lines, cartId, draft))
  {
  }

  /** With a fresh token and a positive quantity, a confirm keeps the cartIds unique and
      the quantities positive. The edit path always keeps every line consistent with its own
      item; the add path does exactly when the merged line's unit price has not changed. */
  lemma ConfirmKeepsInvariant(lines: seq<CartItem>, editing: Option<CartItem>, item: MenuItem,
                              quantity: int, b: Bundle, categoryTitle: string, token: nat)
    requires CartInvariant(lines) && FreshToken(lines, token)
    requires quantity >= 1
    ensures var r := Confirm(lines, editing, item, quantity, b, categoryTitle, token);
            UniqueIds(r) && AllPositiveQuantities(r)
    ensures CartInvariant(Confirm(lines, editing, item, quantity, b, categoryTitle, token)) <==>
              (editing.Some? && HasCartId(lines, editing.value.cartId)) || MergePriceAgrees(lines, item, b)
  {
    var r := Confirm(lines, editing, item, quantity, b, categoryTitle, token);
    if editing.Some? && HasCartId(lines, editing.value.cartId) {
      var id := editing.value.cartId;
      var line := NewLine(item, quantity, b, categoryTitle, id);
      ReplaceKeepsIds(lines, id, line);
      assert r == ReplaceLine(lines, id, line);
      forall x | x in r ensures PriceConsistent(x) && KeyConsistent(x) && x.quantity >= 1 {
        var j :| 0 <= j < |r| && r[j] == x;
        if lines[j].cartId != id {
          assert lines[j] in lines;
        }
      }
    } else {
      AddKeepsInvariant(lines, item, quantity, b, categoryTitle, token);
    }
  }

  /** A merge after a menu refresh changed the item's price: a line of one set-1 at 399,
      merged with one more at the new price 450, is priced 900 under an item record that
      still says 399, and setting its quantity to 2 afterwards reprices it to 798. */
  lemma RefreshedMergeBreaksPrice()
    ensures var b := EmptyBundle;
            var lines := [NewLine(Set1, 1, b, "套餐", CartId(KeyOf(Set1, b), 1))];
            var r := AddSelection(lines, Set1.(price := 450), 1, b, "套餐", 2);
            CartInvariant(lines) && !MergePriceAgrees(lines, Set1.(price := 450), b) &&
            |r| == 1 && r[0].quantity == 2 && r[0].totalPrice == 900 && !CartInvariant(r) &&
            UpdateQuantity(r, r[0].cartId, 2)[0].totalPrice == 798
  {
    var b := EmptyBundle;
    var line := NewLine(Set1, 1, b, "套餐", CartId(KeyOf(Set1, b), 1));
    var lines := [line];
    var newer := Set1.(price := 450);
    assert KeyOf(newer, b) == KeyOf(Set1, b);
    assert FindKey(lines, KeyOf(newer, b)) == 0;
    var r := AddSelection(lines, newer, 1, b, "套餐", 2);
    assert r[0] in r;
    assert UniqueIds(lines);
  }

  /** Editing a line so that its key equals another line's key leaves two lines with the same
      key: the edit path never merges. */
  lemma EditCanDuplicateKeys()
    ensures var b1 := EmptyBundle.(notes := "少冰");
            var b2 := EmptyBundle.(notes := "");
            var lines := [NewLine(Set1, 1, b1, "套餐", CartId(KeyOf(Set1, b1), 1)),
                          NewLine(Set1, 1, b2, "套餐", CartId(KeyOf(Set1, b2), 2))];
            var r := Confirm(lines, Some(lines[0]), Set1, 1, b2, "套餐", 3);
            |r| == 2 && r[0].cartKey == r[1].cartKey && r[0].cartId != r[1].cartId &&
            UniqueKeys(lines) && !UniqueKeys(r)
  {
    var b1 := EmptyBundle.(notes := "少冰");
    var b2 := EmptyBundle.(notes := "");
    var lines := [NewLine(Set1, 1, b1, "套餐", CartId(KeyOf(Set1, b1), 1)),
                  NewLine(Set1, 1, b2, "套餐", CartId(KeyOf(Set1, b2), 2))];
    assert HasCartId(lines, lines[0].cartId);
    assert KeyOf(Set1, b1).notes != KeyOf(Set1, b2).notes;
  }

  // ---- Quantity changes and removal ----

  /** A cartId that is not in the cart leaves it unchanged. */
  lemma {:induction false} UnknownIdUnchanged(lines: seq<CartItem>, cartId: CartId, quantity: int)
    requires !HasCartId(lines, cartId)
    ensures RemoveLines(lines, cartId) == lines
    ensures UpdateQuantity(lines, cartId, quantity) == lines
  {
    if |lines| > 0 {
      UnknownIdUnchanged(lines[1..], cartId, quantity);
      assert lines == [lines[0]] + lines[1..];
    }
  }

  /** Removing the line with a cartId lowers the item count by that line's quantity and the
      total by its price. */
  lemma RemoveTotals(lines: seq<CartItem>, cartId: CartId)
    requires UniqueIds(lines)
    ensures var r := RemoveLines(lines, cartId);
            HasCartId(lines, cartId) ==>
              exists j :: 0 <= j < |lines| && lines[j].cartId == cartId &&
                          ItemCount(r) == ItemCount(lines) - lines[j].quantity &&
                          TotalPrice(r) == TotalPrice(lines) - lines[j].totalPrice
  {
    PartitionTotals(lines, cartId);
    LinesWithUnique(lines, cartId);
    if HasCartId(lines, cartId) {
      var w := LinesWith(lines, cartId);
      assert w[0] in w;
      LinesWithMember(lines, cartId, w[0]);
      var j :| 0 <= j < |lines| && lines[j] == w[0];
      assert w == [w[0]];
      assert w[1..] == [];
    }
  }

  lemma {:induction false} LinesWithMember(lines: seq<CartItem>, cartId: CartId, x: CartItem)
    requires x in LinesWith(lines, cartId)
    ensures x in lines
  {
    if |lines| > 0 && x != lines[0] {
      LinesWithMember(lines[1..], cartId, x);
    }
  }

  /** Setting a positive quantity: the line's share of the item count becomes the new
      quantity. */
  lemma SetQuantityCount(lines: seq<CartItem>, cartId: CartId, quantity: int)
    requires quantity > 0
    ensures ItemCount(UpdateQuantity(lines, cartId, quantity)) ==
              ItemCount(RemoveLines(lines, cartId)) + quantity * |LinesWith(lines, cartId)|
  {
    var r := RepriceLines(lines, cartId, quantity);
    PartitionTotals(r, cartId);
    RepriceKeepsOthers(lines, cartId, quantity);
    RepriceSelected(lines, cartId, quantity);
  }

  lemma {:induction false} RepriceKeepsOthers(lines: seq<CartItem>, cartId: CartId, quantity: int)
    ensures RemoveLines(RepriceLines(lines, cartId, quantity), cartId) == RemoveLines(lines, cartId)
  {
    if |lines| > 0 {
      var rest := RepriceLines(lines[1..], cartId, quantity);
      RepriceKeepsOthers(lines[1..], cartId, quantity);
      var head := if lines[0].cartId == cartId then Repriced(lines[0], quantity) else lines[0];
      var r := [head] + rest;
      assert RepriceLines(lines, cartId, quantity) == r;
      assert r[1..] == rest;
    }
  }

  lemma {:induction false} RepriceSelected(lines: seq<CartItem>, cartId: CartId, quantity: int)
    ensures ItemCount(LinesWith(RepriceLines(lines, cartId, quantity), cartId)) ==
              quantity * |LinesWith(lines, cartId)|
  {
    if |lines| > 0 {
      var rest := RepriceLines(lines[1..], cartId, quantity);
      RepriceSelected(lines[1..], cartId, quantity);
      var n := |LinesWith(lines[1..], cartId)|;
      if lines[0].cartId == cartId {
        var head := Repriced(lines[0], quantity);
        var r := [head] + rest;
        assert RepriceLines(lines, cartId, quantity) == r;
        assert r[1..] == rest;
        var w := LinesWith(rest, cartId);
        assert LinesWith(r, cartId) == [head] + w;
        assert ([head] + w)[1..] == w;
        assert |LinesWith(lines, cartId)| == n + 1;
        MulStep(quantity, |LinesWith(lines, cartId)|, n);
      } else {
        var r := [lines[0]] + rest;
        assert RepriceLines(lines, cartId, quantity) == r;
        assert r[1..] == rest;
      }
    }
  }


  /** One more selected line adds one more quantity to the share. */
  lemma MulStep(a: int, m: int, n: int)
    requires m == n + 1
    ensures a * m == a * n + a
  {
  }

  /** Removal and quantity changes keep the line invariant (a quantity of zero or less
      removes the line instead). */
  lemma ChangesKeepInvariant(lines: seq<CartItem>, cartId: CartId, quantity: int)
    requires CartInvariant(lines)
    ensures CartInvariant(RemoveLines(lines, cartId))
    ensures CartInvariant(UpdateQuantity(lines, cartId, quantity))
  {
    RemoveKeepsInvariant(lines, cartId);
    if quantity > 0 {
      RepriceKeepsInvariant(lines, cartId, quantity);
    }
  }

  lemma RepriceKeepsInvariant(lines: seq<CartItem>, cartId: CartId, quantity: int)
    requires CartInvariant(lines) && quantity > 0
    ensures CartInvariant(RepriceLines(lines, cartId, quantity))
  {
    var r := RepriceLines(lines, cartId, quantity);
    forall i, j | 0 <= i < j < |r| ensures r[i].cartId != r[j].cartId {
      assert r[i].cartId == lines[i].cartId && r[j].cartId == lines[j].cartId;
    }
    forall x | x in r ensures PriceConsistent(x) && KeyConsistent(x) && x.quantity >= 1 {
      var j :| 0 <= j < |r| && r[j] == x;
      assert lines[j] in lines;
    }
  }

  lemma RemoveKeepsInvariant(lines: seq<CartItem>, cartId: CartId)
    requires CartInvariant(lines)
    ensures CartInvariant(RemoveLines(lines, cartId))
  {
    RemoveLinesMembers(lines, cartId);
    RemoveKeepsIds(lines, cartId);
  }

  lemma {:induction false} RemoveKeepsIds(lines: seq<CartItem>, cartId: CartId)
    requires UniqueIds(lines)
    ensures UniqueIds(RemoveLines(lines, cartId))
  {
    if |lines| > 0 {
      RemoveKeepsIds(lines[1..], cartId);
      RemoveLinesMembers(lines[1..], cartId);
      var rest := RemoveLines(lines[1..], cartId);
      if lines[0].cartId != cartId {
        var r := [lines[0]] + rest;
        forall i, j | 0 <= i < j < |r| ensures r[i].cartId != r[j].cartId {
          if i == 0 {
            assert r[j] in rest;
            var k :| 0 <= k < |lines[1..]| && lines[1..][k] == r[j];
            assert lines[k + 1] == r[j];
          } else {
            assert r[i] == rest[i - 1] && r[j] == rest[j - 1];
          }
        }
      }
    }
  }

  // ---- Concrete scenario ----

  /** Adding two set-1 meals and then three more with the same choices gives a single line
      of five, priced 5 × 399. */
  lemma MergeScenario()
    ensures var b := EmptyBundle;
            var r := AddSelection(AddSelection([], Set1, 2, b, "套餐", 1), Set1, 3, b, "套餐", 2);
            |r| == 1 && r[0].quantity == 5 && r[0].totalPrice == 1995 && r[0].cartId.token == 1
  {
    var b := EmptyBundle;
    var first := AddSelection([], Set1, 2, b, "套餐", 1);
    assert first == [NewLine(Set1, 2, b, "套餐", CartId(KeyOf(Set1, b), 1))];
    assert FindKey(first, KeyOf(Set1, b)) == 0;
  }

  // ---- The cart as mutable state ----

  /** The `cart` and `editingCartItem` state of the page. */
  class Cart {
    var lines: seq<CartItem>
    var editing: Option<CartItem>

    constructor ()
      ensures lines == [] && editing == None
    {
      lines := [];
      editing := None;
    }

    /** `handleEditItem`: start editing the first line with the cartId, if there is one. */
    method EditItem(cartId: CartId)
      modifies this
      ensures lines == old(lines)
      ensures HasCartId(lines, cartId) ==>
                var j := FindId(lines, cartId);
                0 <= j < |lines| && editing == Some(lines[j]) && lines[j].cartId == cartId &&
                forall k :: 0 <= k < j ==> lines[k].cartId != cartId
      ensures !HasCartId(lines, cartId) ==> editing == old(editing)
    {
      var j := FindId(lines, cartId);
      if j >= 0 {
        editing := Some(lines[j]);
      }
    }

    /** `handleCloseModal`. */
    method CloseModal()
      modifies this
      ensures lines == old(lines) && editing == None
    {
      editing := None;
    }

    /** `handleConfirmSelection`, with `token` standing for `Date.now()`. */
    method ConfirmSelection(item: MenuItem, quantity: int, b: Bundle, categoryTitle: string,
                            token: nat)
      modifies this
      ensures lines == Confirm(old(lines), old(editing), item, quantity, b, categoryTitle, token)
      ensures editing == old(editing)
      ensures (CartInvariant(old(lines)) && FreshToken(old(lines), token) && quantity >= 1) ==>
                UniqueIds(lines) && AllPositiveQuantities(lines)
      ensures (CartInvariant(old(lines)) && FreshToken(old(lines), token) && quantity >= 1 &&
               MergePriceAgrees(old(lines), item, b)) ==> CartInvariant(lines)
    {
      if CartInvariant(lines) && FreshToken(lines, token) && quantity >= 1 {
        ConfirmKeepsInvariant(lines, editing, item, quantity, b, categoryTitle, token);
      }
      if editing.Some? && HasCartId(lines, editing.value.cartId) {
        var id := editing.value.cartId;
        lines := ReplaceLine(lines, id, NewLine(item, quantity, b, categoryTitle, id));
      } else {
        var key := KeyOf(item, b);
        var i := FindKey(lines, key);
        if i > -1 {
          var updated := lines;
          updated := updated[i := Merged(updated[i], item, quantity)];
          lines := updated;
        } else {
          lines := lines + [NewLine(item, quantity, b, categoryTitle, CartId(key, token))];
        }
      }
    }

    /** `handleUpdateQuantity`. */
    method SetQuantity(cartId: CartId, quantity: int)
      modifies this
      ensures lines == UpdateQuantity(old(lines), cartId, quantity)
      ensures editing == old(editing)
      ensures CartInvariant(old(lines)) ==> CartInvariant(lines)
    {
      if CartInvariant(lines) {
        ChangesKeepInvariant(lines, cartId, quantity);
      }
      lines := UpdateQuantity(lines, cartId, quantity);
    }

    /** `handleRemoveFromCart`. */
    method RemoveFromCart(cartId: CartId)
      modifies this
      ensures lines == RemoveLines(old(lines), cartId)
      ensures editing == old(editing)
      ensures CartInvariant(old(lines)) ==> CartInvariant(lines)
    {
      if CartInvariant(lines) {
        RemoveKeepsInvariant(lines, cartId);
      }
      lines := RemoveLines(lines, cartId);
    }

    function Count(): int
      reads this
    {
      ItemCount(lines)
    }

    function Total(): int
      reads this
    {
      TotalPrice(lines)
    }
  }
}
