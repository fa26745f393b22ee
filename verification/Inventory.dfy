/**
 A player's inventory as slots updated one at a time, and what the escrow operations do to it.
 The last slot stands for the off hand, which every operation visits last.
 */
module Inventory {
  import opened Sums
  import opened Domain

  /** The marker the exchange keeps in a stack's NBT, if any. */
  datatype Mark = Plain | Claimed(id: Id) | Selling(id: Id) | Receipt(id: Id)

  /** A stack; `item` is its type, data and NBT without the marker. */
  datatype Stack = Stack(item: Item, mark: Mark, amount: int)

  type Slot = Option<Stack>

  /** A stack that matches the market's item exactly and carries no marker. */
  predicate Sellable(s: Slot, p: Item)
  {
    s.Some? && s.value.mark.Plain? && s.value.item == p
  }

  predicate IsSelling(s: Slot, e: Id) { s.Some? && s.value.mark == Selling(e) }

  predicate IsReceipt(s: Slot, e: Id) { s.Some? && s.value.mark == Receipt(e) }

  predicate IsClaimed(s: Slot, c: Id) { s.Some? && s.value.mark == Claimed(c) }

  function Amount(s: Slot): int { if s.Some? then s.value.amount else 0 }

  // ----- counts -----

  function SellableUnits(p: Item): Slot -> int { (s: Slot) => if Sellable(s, p) then s.value.amount else 0 }

  function SellingUnits(e: Id): Slot -> int { (s: Slot) => if IsSelling(s, e) then s.value.amount else 0 }

  function SellingStacks(e: Id): Slot -> int { (s: Slot) => if IsSelling(s, e) then 1 else 0 }

  function ReceiptUnits(e: Id): Slot -> int { (s: Slot) => if IsReceipt(s, e) then s.value.amount else 0 }

  function ClaimedUnits(c: Id): Slot -> int { (s: Slot) => if IsClaimed(s, c) then s.value.amount else 0 }

  // ----- one slot -----

  function Tag(s: Slot, e: Id): Slot { if s.Some? then Some(s.value.(mark := Selling(e))) else s }

  /** Gives a stack marked for sale its original NBT back. */
  function RestoreSlot(s: Slot, e: Id, p: Item): Slot
  {
    if IsSelling(s, e) then Some(s.value.(item := s.value.item.(nbt := p.nbt), mark := Plain)) else s
  }

  /** A receipt: one barrier with a name, a lore and the escrow's id. */
  function ReceiptSlot(e: Id, text: string): Slot { Some(Stack(Item("minecraft:barrier", 0, text), Receipt(e), 1)) }

  function ReplaceSlot(s: Slot, e: Id, text: string): Slot { if IsSelling(s, e) then ReceiptSlot(e, text) else s }

  function RemoveSlot(s: Slot, e: Id): Slot { if IsSelling(s, e) then None else s }

  function ClearSlot(s: Slot, e: Id): Slot { if IsReceipt(s, e) then None else s }

  function UnclaimSlot(s: Slot, c: Id): Slot { if IsClaimed(s, c) then Some(s.value.(mark := Plain)) else s }

  function DiscardSlot(s: Slot, c: Id): Slot { if IsClaimed(s, c) then None else s }

  // ----- all slots -----

  /** Applies a change to every slot. */
  function Each(s: seq<Slot>, f: Slot -> Slot): (r: seq<Slot>)
    ensures |r| == |s| && forall i :: 0 <= i < |s| ==> r[i] == f(s[i])
  {
    seq(|s|, i requires 0 <= i < |s| => f(s[i]))
  }

  function Restored(s: seq<Slot>, e: Id, p: Item): seq<Slot> { Each(s, x => RestoreSlot(x, e, p)) }

  function WithReceipts(s: seq<Slot>, e: Id, text: string): seq<Slot> { Each(s, x => ReplaceSlot(x, e, text)) }

  function WithoutSelling(s: seq<Slot>, e: Id): seq<Slot> { Each(s, x => RemoveSlot(x, e)) }

  function WithoutReceipts(s: seq<Slot>, e: Id): seq<Slot> { Each(s, x => ClearSlot(x, e)) }

  function Unclaimed(s: seq<Slot>, c: Id): seq<Slot> { Each(s, x => UnclaimSlot(x, c)) }

  function Discarded(s: seq<Slot>, c: Id): seq<Slot> { Each(s, x => DiscardSlot(x, c)) }

  // ----- choosing what to sell -----

  /** The slots that hold the market's item, among the first `n`. */
  function Sources(s: seq<Slot>, p: Item, n: nat): (r: seq<nat>)
    requires n <= |s|
    ensures forall k :: 0 <= k < |r| ==> r[k] < n && Sellable(s[r[k]], p)
    ensures forall j, k :: 0 <= j < k < |r| ==> r[j] < r[k]
    ensures forall i: nat :: i < n && Sellable(s[i], p) ==> i in r
  {
    if n == 0 then [] else
      var rest := Sources(s, p, n - 1);
      if Sellable(s[n - 1], p) then rest + [n - 1] else rest
  }

  /** Units in the listed slots. */
  function Units(s: seq<Slot>, ids: seq<nat>): int
    requires forall k :: 0 <= k < |ids| ==> ids[k] < |s|
  {
    if ids == [] then 0 else Units(s, ids[..|ids| - 1]) + Amount(s[ids[|ids| - 1]])
  }

  predicate Distinct(ids: seq<nat>)
  {
    forall j, k :: 0 <= j < k < |ids| ==> ids[j] != ids[k]
  }

  /**
   The slots `tagSellItems` may mark, in order: smallest stacks first, ties in any order, no
   more stacks than needed.
   */
  ghost predicate Plan(s: seq<Slot>, p: Item, requested: int, ids: seq<nat>)
  {
    && Distinct(ids)
    && (forall k :: 0 <= k < |ids| ==> ids[k] < |s| && Sellable(s[ids[k]], p))
    && (forall j, k :: 0 <= j < k < |ids| ==> Amount(s[ids[j]]) <= Amount(s[ids[k]]))
    && (forall i: nat, k :: i < |s| && Sellable(s[i], p) && i !in ids && 0 <= k < |ids| ==>
          Amount(s[ids[k]]) <= Amount(s[i]))
    && requested <= Units(s, ids) && |ids| > 0
    && Units(s, ids[..|ids| - 1]) < requested
  }

  /** Marks the listed slots. */
  function TagAll(s: seq<Slot>, ids: seq<nat>, e: Id): (r: seq<Slot>)
    requires forall k :: 0 <= k < |ids| ==> ids[k] < |s|
    ensures |r| == |s|
  {
    if ids == [] then s
    else
      var last := ids[|ids| - 1];
      TagAll(s, ids[..|ids| - 1], e)[last := Tag(s[last], e)]
  }

  lemma {:induction false} TagAllAt(s: seq<Slot>, ids: seq<nat>, e: Id)
    requires forall k :: 0 <= k < |ids| ==> ids[k] < |s|
    ensures forall i: nat :: i < |s| ==> TagAll(s, ids, e)[i] == if i in ids then Tag(s[i], e) else s[i]
  {
    if ids != [] {
      var front := ids[..|ids| - 1];
      TagAllAt(s, front, e);
      assert ids == front + [ids[|ids| - 1]];
    }
  }

  /**
   What is marked are stacks of exactly the market's item without a marker; they change in nothing
   but the marker, and a matching stack that is left is no smaller than any that was taken.
   */
  lemma OnlyMatchingStacksAreMarked(s: seq<Slot>, p: Item, requested: int, ids: seq<nat>, e: Id)
    requires Plan(s, p, requested, ids)
    ensures forall i: nat :: i < |s| ==>
              if i in ids then s[i] == Some(Stack(p, Plain, Amount(s[i])))
                               && TagAll(s, ids, e)[i] == Some(Stack(p, Selling(e), Amount(s[i])))
              else TagAll(s, ids, e)[i] == s[i]
    ensures forall i: nat, k |
              i < |s| && i !in ids && s[i] == Some(Stack(p, Plain, Amount(s[i]))) && 0 <= k < |ids| ::
              Amount(s[ids[k]]) <= Amount(s[i])
    ensures forall i: nat :: i < |s| ==>
              SellableUnits(p)(s[i]) == if s[i] == Some(Stack(p, Plain, Amount(s[i]))) then Amount(s[i]) else 0
  {
    TagAllAt(s, ids, e);
  }

  /** Marking moves exactly the planned units and stacks from sellable to sold. */
  lemma {:induction false} TagAllMoves(s: seq<Slot>, p: Item, ids: seq<nat>, e: Id)
    requires Distinct(ids) && forall k :: 0 <= k < |ids| ==> ids[k] < |s| && Sellable(s[ids[k]], p)
    ensures var r := TagAll(s, ids, e);
            && Sum(r, SellableUnits(p)) == Sum(s, SellableUnits(p)) - Units(s, ids)
            && Sum(r, SellingUnits(e)) == Sum(s, SellingUnits(e)) + Units(s, ids)
            && Sum(r, SellingStacks(e)) == Sum(s, SellingStacks(e)) + |ids|
  {
    hide Sum;
    if ids != [] {
      var front, last := ids[..|ids| - 1], ids[|ids| - 1];
      TagAllMoves(s, p, front, e);
      TagAllAt(s, front, e);
      var r := TagAll(s, front, e);
      assert last !in front;
      SumUpdate(r, last, Tag(s[last], e), SellableUnits(p));
      SumUpdate(r, last, Tag(s[last], e), SellingUnits(e));
      SumUpdate(r, last, Tag(s[last], e), SellingStacks(e));
    }
  }

  lemma UnitsAppend(s: seq<Slot>, ids: seq<nat>, x: nat)
    requires x < |s| && forall k :: 0 <= k < |ids| ==> ids[k] < |s|
    ensures Units(s, ids + [x]) == Units(s, ids) + Amount(s[x])
  {
    assert (ids + [x])[..|ids|] == ids;
  }

  lemma NoSources(s: seq<Slot>, p: Item)
    ensures Sources(s, p, 0) == [] && Units(s, []) == 0
  {
  }

  lemma SourcesNext(s: seq<Slot>, p: Item, n: nat)
    requires n < |s|
    ensures Sources(s, p, n + 1) == if Sellable(s[n], p) then Sources(s, p, n) + [n] else Sources(s, p, n)
  {
  }

  /** The units available are those of all source slots. */
  lemma {:induction false} SourcesHoldAll(s: seq<Slot>, p: Item, n: nat)
    requires n <= |s|
    ensures Units(s, Sources(s, p, n)) == Sum(s[..n], SellableUnits(p))
  {
    hide Sum;
    if n == 0 {
      SumZero(s[..0], SellableUnits(p));
    } else {
      SourcesHoldAll(s, p, n - 1);
      assert s[..n] == s[..n - 1] + [s[n - 1]];
      SumAppend(s[..n - 1], s[n - 1], SellableUnits(p));
      UnitsAppend(s, Sources(s, p, n - 1), n - 1);
    }
  }

  // ----- sorting -----

  predicate Ascending(s: seq<Slot>, ids: seq<nat>)
    requires forall k :: 0 <= k < |ids| ==> ids[k] < |s|
  {
    forall j, k :: 0 <= j < k < |ids| ==> Amount(s[ids[j]]) <= Amount(s[ids[k]])
  }

  /** The same slots, each once, in ascending order of their amounts. */
  ghost predicate SortedCopy(s: seq<Slot>, ids: seq<nat>, r: seq<nat>)
  {
    && Distinct(r) && |r| == |ids| && (forall i :: i in r <==> i in ids)
    && (forall k :: 0 <= k < |r| ==> r[k] < |s|) && Ascending(s, r)
    && (forall k :: 0 <= k < |ids| ==> ids[k] < |s|) && Units(s, r) == Units(s, ids)
  }

  lemma SortedCopyInRange(s: seq<Slot>, ids: seq<nat>, r: seq<nat>)
    requires SortedCopy(s, ids, r)
    ensures forall k :: 0 <= k < |r| ==> r[k] < |s|
  {
  }

  lemma InsertSorted(s: seq<Slot>, ids: seq<nat>, x: nat, r: seq<nat>, k: nat)
    requires SortedCopy(s, ids, r) && x !in ids && x < |s| && k <= |r|
    requires forall j :: 0 <= j < |r| ==> r[j] < |s|
    requires forall j :: k <= j < |r| ==> Amount(s[r[j]]) > Amount(s[x])
    requires k > 0 ==> Amount(s[r[k - 1]]) <= Amount(s[x])
    ensures SortedCopy(s, ids + [x], r[..k] + [x] + r[k..])
  {
    hide Ascending; hide Distinct; hide Units; hide Amount;
    var n := r[..k] + [x] + r[k..];
    Spliced(r, k, x, n);
    InsertKeepsOrder(s, r, k, x, n);
    UnitsInsert(s, r, k, x);
    UnitsAppend(s, ids, x);
  }

  /** Sorts slots by their amounts; the order of equal amounts is left open. */
  method SortByAmount(s: seq<Slot>, ids: seq<nat>) returns (r: seq<nat>)
    requires Distinct(ids) && forall k :: 0 <= k < |ids| ==> ids[k] < |s|
    ensures SortedCopy(s, ids, r)
  {
    hide SortedCopy; hide Distinct; hide Amount;
    r := [];
    var i := 0;
    NothingSorted(s, ids);
    while i < |ids|
      invariant i <= |ids| && SortedCopy(s, ids[..i], r)
    {
      SortedCopyInRange(s, ids[..i], r);
      var k := |r|;
      while k > 0 && Amount(s[r[k - 1]]) > Amount(s[ids[i]])
        invariant 0 <= k <= |r|
        invariant forall j :: k <= j < |r| ==> Amount(s[r[j]]) > Amount(s[ids[i]])
      {
        k := k - 1;
      }
      NextIsNew(ids, i);
      InsertSorted(s, ids[..i], ids[i], r, k);
      r := r[..k] + [ids[i]] + r[k..];
      i := i + 1;
    }
    assert ids[..i] == ids;
  }

  lemma NothingSorted(s: seq<Slot>, ids: seq<nat>)
    ensures SortedCopy(s, ids[..0], [])
  {
  }

  lemma NextIsNew(ids: seq<nat>, i: nat)
    requires Distinct(ids) && i < |ids|
    ensures ids[i] !in ids[..i] && ids[..i + 1] == ids[..i] + [ids[i]]
  {
  }

  lemma InsertKeepsOrder(s: seq<Slot>, r: seq<nat>, k: nat, x: nat, n: seq<nat>)
    requires k <= |r| && x < |s| && x !in r && Distinct(r) && forall j :: 0 <= j < |r| ==> r[j] < |s|
    requires Ascending(s, r) && (forall j :: k <= j < |r| ==> Amount(s[r[j]]) > Amount(s[x]))
    requires k > 0 ==> Amount(s[r[k - 1]]) <= Amount(s[x])
    requires |n| == |r| + 1 && n[k] == x && forall j :: 0 <= j < |n| && j != k ==> n[j] == r[if j < k then j else j - 1]
    ensures Distinct(n) && (forall j :: 0 <= j < |n| ==> n[j] < |s|) && Ascending(s, n)
  {
    forall i, j | 0 <= i < j < |n|
      ensures n[i] != n[j] && n[i] < |s| && n[j] < |s| && Amount(s[n[i]]) <= Amount(s[n[j]])
    {
      var a, b := if i < k then i else i - 1, if j < k then j else j - 1;
      if i == k {
        assert n[j] == r[b];
      } else if j == k {
        assert n[i] == r[a] && Amount(s[r[a]]) <= Amount(s[r[k - 1]]);
      } else {
        assert n[i] == r[a] && n[j] == r[b];
      }
    }
  }

  lemma Spliced(r: seq<nat>, k: nat, x: nat, n: seq<nat>)
    requires k <= |r| && n == r[..k] + [x] + r[k..]
    ensures |n| == |r| + 1 && n[k] == x
    ensures forall j :: 0 <= j < |n| && j != k ==> n[j] == r[if j < k then j else j - 1]
    ensures forall y :: y in n <==> y == x || y in r
  {
    assert r == r[..k] + r[k..];
  }

  lemma {:induction false} UnitsInsert(s: seq<Slot>, ids: seq<nat>, k: nat, x: nat)
    requires k <= |ids| && x < |s| && forall j :: 0 <= j < |ids| ==> ids[j] < |s|
    ensures Units(s, ids[..k] + [x] + ids[k..]) == Units(s, ids) + Amount(s[x])
    decreases |ids|
  {
    var now := ids[..k] + [x] + ids[k..];
    if k == |ids| {
      assert now[..|now| - 1] == ids;
    } else {
      var front := ids[..|ids| - 1];
      UnitsInsert(s, front, k, x);
      assert now[..|now| - 1] == front[..k] + [x] + front[k..];
    }
  }

  // ----- stacks for a delivery -----

  function StackUnits(): Stack -> int { (x: Stack) => x.amount }

  /** Full stacks first, and as many units in all as asked for. */
  method SplitStacks(p: Item, quantity: int, claim: Option<Id>, maxStack: int) returns (r: seq<Stack>)
    ensures Sum(r, StackUnits()) == if quantity > 0 then quantity else 0
    ensures forall k :: 0 <= k < |r| ==>
              && r[k].item == p && r[k].mark == (if claim.Some? then Claimed(claim.value) else Plain)
              && 0 < r[k].amount && (maxStack >= 1 ==> r[k].amount <= maxStack)
              && (k < |r| - 1 && maxStack >= 1 ==> r[k].amount == maxStack)
  {
    var size := if maxStack > 1 then maxStack else 1;
    var remaining := quantity;
    r := [];
    while remaining > 0
      invariant Sum(r, StackUnits()) + remaining == quantity && (quantity > 0 ==> remaining >= 0)
      invariant quantity <= 0 ==> r == []
      invariant forall k :: 0 <= k < |r| ==>
                  && r[k].item == p && r[k].mark == (if claim.Some? then Claimed(claim.value) else Plain)
                  && 0 < r[k].amount <= size && (k < |r| - 1 || remaining > 0 ==> r[k].amount == size)
    {
      var stack := Stack(p, if claim.Some? then Claimed(claim.value) else Plain, Min(remaining, size));
      SumAppend(r, stack, StackUnits());
      r := r + [stack];
      remaining := remaining - stack.amount;
    }
  }

  // ----- the inventory itself -----

  class PlayerInventory {
    const slots: array<Slot>

    constructor (slots: array<Slot>)
      ensures this.slots == slots
    {
      this.slots := slots;
    }

    /** Marks enough of the market's item for an escrow, or leaves every slot alone. */
    method TagSellItems(p: Item, requested: int, e: Id) returns (r: Result<(int, int)>)
      modifies slots
      ensures requested <= 0 ==> r == Err(QuantityRange)
      ensures 0 < requested && Sum(old(slots[..]), SellableUnits(p)) < requested ==> r == Err(InventoryInsufficient)
      ensures 0 < requested <= Sum(old(slots[..]), SellableUnits(p)) ==> r.Ok?
      ensures match r
              case Err(_) => slots[..] == old(slots[..])
              case Ok((units, stacks)) =>
                exists ids ::
                  Plan(old(slots[..]), p, requested, ids) && slots[..] == TagAll(old(slots[..]), ids, e)
                  && units == Units(old(slots[..]), ids) && stacks == |ids|
    {
      if requested <= 0 { return Err(QuantityRange); }
      ghost var before := slots[..];
      var candidates, available := CollectSources(p);
      if available < requested { return Err(InventoryInsufficient); }
      var sorted := SortByAmount(slots[..], candidates);
      var units, stacks := TagSorted(sorted, p, requested, e);
      assert Plan(before, p, requested, sorted[..stacks]);
      r := Ok((units, stacks));
    }

    /** The slots that may be sold from, and the units in them. */
    method CollectSources(p: Item) returns (ids: seq<nat>, available: int)
      ensures ids == Sources(slots[..], p, slots.Length) && available == Sum(slots[..], SellableUnits(p))
      ensures Units(slots[..], ids) == available && Distinct(ids)
    {
      hide Sources; hide Units; hide Sum;
      ids, available := [], 0;
      var i := 0;
      NoSources(slots[..], p);
      while i < slots.Length
        invariant i <= slots.Length
        invariant ids == Sources(slots[..], p, i) && available == Units(slots[..], ids)
      {
        SourcesNext(slots[..], p, i);
        if Sellable(slots[i], p) {
          UnitsAppend(slots[..], ids, i);
          ids, available := ids + [i], available + slots[i].value.amount;
        }
        i := i + 1;
      }
      SourcesHoldAll(slots[..], p, slots.Length);
      assert slots[..][..slots.Length] == slots[..];
    }

    /** Marks slots in the given order until enough units are marked. */
    method TagSorted(sorted: seq<nat>, p: Item, requested: int, e: Id) returns (units: int, stacks: nat)
      requires Distinct(sorted) && forall k :: 0 <= k < |sorted| ==> sorted[k] < slots.Length
      requires forall i: nat :: i < slots.Length ==> (i in sorted <==> Sellable(slots[i], p))
      requires Ascending(slots[..], sorted) && 0 < requested <= Units(slots[..], sorted)
      modifies slots
      ensures stacks <= |sorted| && units == Units(old(slots[..]), sorted[..stacks])
      ensures Plan(old(slots[..]), p, requested, sorted[..stacks])
      ensures slots[..] == TagAll(old(slots[..]), sorted[..stacks], e)
    {
      hide Plan; hide Ascending; hide TagAll; hide Units;
      ghost var before := slots[..];
      units, stacks := 0, 0;
      NoneTagged(before, sorted, e);
      while stacks < |sorted| && units < requested
        invariant stacks <= |sorted| && units == Units(before, sorted[..stacks])
        invariant stacks > 0 ==> Units(before, sorted[..stacks - 1]) < requested
        invariant slots[..] == TagAll(before, sorted[..stacks], e)
      {
        NextTagged(before, sorted, stacks, e);
        var next := sorted[stacks];
        assert slots[..][next] == before[next] && next in sorted;
        units := units + slots[next].value.amount;
        slots[next] := Tag(slots[next], e);
        stacks := stacks + 1;
      }
      assert sorted[..|sorted|] == sorted;
      PrefixIsPlan(before, p, requested, sorted, stacks);
    }

    method TaggedSellItems(e: Id) returns (units: int, stacks: int)
      ensures units == Sum(slots[..], SellingUnits(e)) && stacks == Sum(slots[..], SellingStacks(e))
    {
      units, stacks := 0, 0;
      var i := 0;
      while i < slots.Length
        invariant i <= slots.Length
        invariant units == Sum(slots[..i], SellingUnits(e)) && stacks == Sum(slots[..i], SellingStacks(e))
      {
        assert slots[..i + 1] == slots[..i] + [slots[i]];
        SumAppend(slots[..i], slots[i], SellingUnits(e));
        SumAppend(slots[..i], slots[i], SellingStacks(e));
        if IsSelling(slots[i], e) { units, stacks := units + slots[i].value.amount, stacks + 1; }
        i := i + 1;
      }
      assert slots[..i] == slots[..];
    }

    method SellReceiptCount(e: Id) returns (units: int)
      ensures units == Sum(slots[..], ReceiptUnits(e))
    {
      units := 0;
      var i := 0;
      while i < slots.Length
        invariant i <= slots.Length && units == Sum(slots[..i], ReceiptUnits(e))
      {
        assert slots[..i + 1] == slots[..i] + [slots[i]];
        SumAppend(slots[..i], slots[i], ReceiptUnits(e));
        if IsReceipt(slots[i], e) { units := units + slots[i].value.amount; }
        i := i + 1;
      }
      assert slots[..i] == slots[..];
    }

    method TaggedItemCount(c: Id) returns (units: int)
      ensures units == Sum(slots[..], ClaimedUnits(c))
    {
      units := 0;
      var i := 0;
      while i < slots.Length
        invariant i <= slots.Length && units == Sum(slots[..i], ClaimedUnits(c))
      {
        assert slots[..i + 1] == slots[..i] + [slots[i]];
        SumAppend(slots[..i], slots[i], ClaimedUnits(c));
        if IsClaimed(slots[i], c) { units := units + slots[i].value.amount; }
        i := i + 1;
      }
      assert slots[..i] == slots[..];
    }

    method RestoreTaggedSellItems(e: Id, p: Item)
      modifies slots
      ensures slots[..] == Restored(old(slots[..]), e, p)
    {
      var i := 0;
      while i < slots.Length
        invariant i <= slots.Length
        invariant forall k :: 0 <= k < i ==> slots[k] == RestoreSlot(old(slots[k]), e, p)
        invariant forall k :: i <= k < slots.Length ==> slots[k] == old(slots[k])
      {
        if IsSelling(slots[i], e) {
          slots[i] := Some(slots[i].value.(item := slots[i].value.item.(nbt := p.nbt), mark := Plain));
        }
        i := i + 1;
      }
    }

    method ReplaceTaggedSellItemsWithReceipts(e: Id, text: string)
      modifies slots
      ensures slots[..] == WithReceipts(old(slots[..]), e, text)
    {
      var i := 0;
      while i < slots.Length
        invariant i <= slots.Length
        invariant forall k :: 0 <= k < i ==> slots[k] == ReplaceSlot(old(slots[k]), e, text)
        invariant forall k :: i <= k < slots.Length ==> slots[k] == old(slots[k])
      {
        if IsSelling(slots[i], e) { slots[i] := ReceiptSlot(e, text); }
        i := i + 1;
      }
    }

    method RemoveTaggedSellItems(e: Id)
      modifies slots
      ensures slots[..] == WithoutSelling(old(slots[..]), e)
    {
      var i := 0;
      while i < slots.Length
        invariant i <= slots.Length
        invariant forall k :: 0 <= k < i ==> slots[k] == RemoveSlot(old(slots[k]), e)
        invariant forall k :: i <= k < slots.Length ==> slots[k] == old(slots[k])
      {
        if IsSelling(slots[i], e) { slots[i] := None; }
        i := i + 1;
      }
    }

    method RemoveSellReceipts(e: Id)
      modifies slots
      ensures slots[..] == WithoutReceipts(old(slots[..]), e)
    {
      var i := 0;
      while i < slots.Length
        invariant i <= slots.Length
        invariant forall k :: 0 <= k < i ==> slots[k] == ClearSlot(old(slots[k]), e)
        invariant forall k :: i <= k < slots.Length ==> slots[k] == old(slots[k])
      {
        if IsReceipt(slots[i], e) { slots[i] := None; }
        i := i + 1;
      }
    }

    method ClearDeliveryClaimTag(c: Id)
      modifies slots
      ensures slots[..] == Unclaimed(old(slots[..]), c)
    {
      var i := 0;
      while i < slots.Length
        invariant i <= slots.Length
        invariant forall k :: 0 <= k < i ==> slots[k] == UnclaimSlot(old(slots[k]), c)
        invariant forall k :: i <= k < slots.Length ==> slots[k] == old(slots[k])
      {
        if IsClaimed(slots[i], c) { slots[i] := Some(slots[i].value.(mark := Plain)); }
        i := i + 1;
      }
    }

    method RemoveDeliveryClaimItems(c: Id)
      modifies slots
      ensures slots[..] == Discarded(old(slots[..]), c)
    {
      var i := 0;
      while i < slots.Length
        invariant i <= slots.Length
        invariant forall k :: 0 <= k < i ==> slots[k] == DiscardSlot(old(slots[k]), c)
        invariant forall k :: i <= k < slots.Length ==> slots[k] == old(slots[k])
      {
        if IsClaimed(slots[i], c) { slots[i] := None; }
        i := i + 1;
      }
    }
  }

  lemma PrefixIsPlan(s: seq<Slot>, p: Item, requested: int, sorted: seq<nat>, n: nat)
    requires Distinct(sorted) && (forall k :: 0 <= k < |sorted| ==> sorted[k] < |s|) && 0 < requested && n <= |sorted|
    requires forall i: nat :: i < |s| ==> (i in sorted <==> Sellable(s[i], p))
    requires Ascending(s, sorted) && requested <= Units(s, sorted[..n])
             && (n > 0 ==> Units(s, sorted[..n - 1]) < requested)
    ensures Plan(s, p, requested, sorted[..n])
  {
    hide Distinct; hide Ascending; hide Sellable; hide Units; hide Amount;
    PrefixSorted(s, sorted, n);
    PrefixSellable(s, p, sorted, n);
    PrefixLeavesLarger(s, p, sorted, n);
    PrefixEnough(s, requested, sorted, n);
  }

  lemma PrefixSellable(s: seq<Slot>, p: Item, sorted: seq<nat>, n: nat)
    requires (forall k :: 0 <= k < |sorted| ==> sorted[k] < |s|) && n <= |sorted|
    requires forall i: nat :: i < |s| ==> (i in sorted <==> Sellable(s[i], p))
    ensures forall k :: 0 <= k < n ==> sorted[..n][k] < |s| && Sellable(s[sorted[..n][k]], p)
  {
    hide Sellable;
    forall k | 0 <= k < n
      ensures sorted[..n][k] < |s| && Sellable(s[sorted[..n][k]], p)
    {
      assert sorted[k] in sorted;
    }
  }

  lemma PrefixLeavesLarger(s: seq<Slot>, p: Item, sorted: seq<nat>, n: nat)
    requires (forall k :: 0 <= k < |sorted| ==> sorted[k] < |s|) && n <= |sorted| && Ascending(s, sorted)
    requires forall i: nat :: i < |s| ==> (i in sorted <==> Sellable(s[i], p))
    ensures forall i: nat, k :: i < |s| && Sellable(s[i], p) && i !in sorted[..n] && 0 <= k < n ==>
              Amount(s[sorted[..n][k]]) <= Amount(s[i])
  {
    hide Ascending; hide Sellable; hide Amount;
    forall i: nat, k: nat | i < |s| && Sellable(s[i], p) && i !in sorted[..n] && k < n
      ensures Amount(s[sorted[..n][k]]) <= Amount(s[i])
    {
      PrefixSmallest(s, sorted, n, i, k);
    }
  }

  lemma PrefixEnough(s: seq<Slot>, requested: int, sorted: seq<nat>, n: nat)
    requires (forall k :: 0 <= k < |sorted| ==> sorted[k] < |s|) && n <= |sorted| && 0 < requested
    requires requested <= Units(s, sorted[..n])
    ensures 0 < n && sorted[..n][..n - 1] == sorted[..n - 1]
  {
  }

  lemma PrefixSorted(s: seq<Slot>, sorted: seq<nat>, n: nat)
    requires Distinct(sorted) && (forall k :: 0 <= k < |sorted| ==> sorted[k] < |s|) && n <= |sorted|
             && Ascending(s, sorted)
    ensures Distinct(sorted[..n])
    ensures forall j, k :: 0 <= j < k < n ==> Amount(s[sorted[..n][j]]) <= Amount(s[sorted[..n][k]])
  {
    hide Amount;
  }

  lemma PrefixSmallest(s: seq<Slot>, sorted: seq<nat>, n: nat, i: nat, k: nat)
    requires (forall k :: 0 <= k < |sorted| ==> sorted[k] < |s|) && n <= |sorted| && Ascending(s, sorted)
    requires i in sorted && i !in sorted[..n] && k < n
    ensures i < |s| && Amount(s[sorted[k]]) <= Amount(s[i])
  {
    hide Amount;
    assert sorted == sorted[..n] + sorted[n..];
    var j :| 0 <= j < |sorted[n..]| && sorted[n..][j] == i;
    assert sorted[n + j] == i;
  }

  lemma NoneTagged(s: seq<Slot>, sorted: seq<nat>, e: Id)
    ensures TagAll(s, sorted[..0], e) == s && Units(s, sorted[..0]) == 0
  {
  }

  lemma NextTagged(s: seq<Slot>, sorted: seq<nat>, k: nat, e: Id)
    requires Distinct(sorted) && (forall j :: 0 <= j < |sorted| ==> sorted[j] < |s|) && k < |sorted|
    ensures var next := sorted[k];
            && TagAll(s, sorted[..k], e)[next] == s[next]
            && TagAll(s, sorted[..k + 1], e) == TagAll(s, sorted[..k], e)[next := Tag(s[next], e)]
            && Units(s, sorted[..k + 1]) == Units(s, sorted[..k]) + Amount(s[next])
  {
    assert sorted[..k + 1][..k] == sorted[..k];
    TagAllAt(s, sorted[..k], e);
    assert sorted[k] !in sorted[..k];
  }

  // ----- what the loops do to the counts -----

  /** Restoring turns every unit marked for sale into a sellable unit again. */
  lemma RestoredCounts(s: seq<Slot>, e: Id, p: Item)
    requires forall i :: 0 <= i < |s| && IsSelling(s[i], e) ==> s[i].value.item == p
    ensures Sum(Restored(s, e, p), SellingUnits(e)) == 0
    ensures Sum(Restored(s, e, p), SellableUnits(p)) == Sum(s, SellableUnits(p)) + Sum(s, SellingUnits(e))
  {
    hide Sum;
    var r := Restored(s, e, p);
    SumZero(r, SellingUnits(e));
    RestoredPrefix(s, e, p, |s|);
    assert r[..|s|] == r && s[..|s|] == s;
  }

  lemma {:induction false} RestoredPrefix(s: seq<Slot>, e: Id, p: Item, n: nat)
    requires n <= |s| && forall i :: 0 <= i < |s| && IsSelling(s[i], e) ==> s[i].value.item == p
    ensures Sum(Restored(s, e, p)[..n], SellableUnits(p))
            == Sum(s[..n], SellableUnits(p)) + Sum(s[..n], SellingUnits(e))
  {
    hide Sum;
    var r := Restored(s, e, p);
    if n == 0 {
      SumZero(s[..0], SellableUnits(p));
      SumZero(s[..0], SellingUnits(e));
      SumZero(r[..0], SellableUnits(p));
    } else {
      RestoredPrefix(s, e, p, n - 1);
      assert r[..n] == r[..n - 1] + [r[n - 1]] && s[..n] == s[..n - 1] + [s[n - 1]];
      SumAppend(r[..n - 1], r[n - 1], SellableUnits(p));
      SumAppend(s[..n - 1], s[n - 1], SellableUnits(p));
      SumAppend(s[..n - 1], s[n - 1], SellingUnits(e));
    }
  }

  /** Tagging and restoring are inverse on a plan, slot by slot. */
  lemma RestoreUndoesTag(s: seq<Slot>, p: Item, requested: int, ids: seq<nat>, e: Id)
    requires Plan(s, p, requested, ids) && forall i :: 0 <= i < |s| ==> !IsSelling(s[i], e)
    ensures Restored(TagAll(s, ids, e), e, p) == s
  {
    TagAllAt(s, ids, e);
    var r := Restored(TagAll(s, ids, e), e, p);
    forall i: nat | i < |s|
      ensures r[i] == s[i]
    {
      if i in ids { assert Sellable(s[i], p); }
    }
  }

  /** Every marked stack becomes one receipt. */
  lemma {:induction false} ReceiptsMatchStacks(s: seq<Slot>, e: Id, text: string, n: nat)
    requires n <= |s|
    ensures var r := WithReceipts(s, e, text);
            && Sum(r[..n], ReceiptUnits(e)) == Sum(s[..n], ReceiptUnits(e)) + Sum(s[..n], SellingStacks(e))
            && Sum(r[..n], SellingUnits(e)) == 0
  {
    hide Sum;
    var r := WithReceipts(s, e, text);
    if n == 0 {
      SumZero(r[..0], ReceiptUnits(e));
      SumZero(s[..0], ReceiptUnits(e));
      SumZero(s[..0], SellingStacks(e));
      SumZero(r[..0], SellingUnits(e));
    } else {
      ReceiptsMatchStacks(s, e, text, n - 1);
      assert r[..n] == r[..n - 1] + [r[n - 1]] && s[..n] == s[..n - 1] + [s[n - 1]];
      SumAppend(r[..n - 1], r[n - 1], ReceiptUnits(e));
      SumAppend(s[..n - 1], s[n - 1], ReceiptUnits(e));
      SumAppend(s[..n - 1], s[n - 1], SellingStacks(e));
      SumAppend(r[..n - 1], r[n - 1], SellingUnits(e));
    }
  }
}
