/** Rebuilding an order's parts and total from its stored items. */
module OrderRebuild {
  import opened Domain

  const TWO_63: int := 0x8000_0000_0000_0000
  const TWO_64: int := 0x1_0000_0000_0000_0000

  /** The int64 that a mathematical sum leaves behind when it overflows. */
  function Wrap(n: int): Int64 {
    ((n + TWO_63) % TWO_64 - TWO_63) as Int64
  }

  function AddInt64(a: Int64, b: Int64): Int64 {
    Wrap(a as int + b as int)
  }

  function PriceSum(items: seq<OrderItem>): int {
    if items == [] then 0
    else PriceSum(items[..|items| - 1]) + items[|items| - 1].price as int
  }

  /** The part of the last item of the given type. */
  function PartOf(items: seq<OrderItem>, kind: PartType): Option<Uuid> {
    if items == [] then None
    else if items[|items| - 1].partType == kind then Some(items[|items| - 1].partUuid)
    else PartOf(items[..|items| - 1], kind)
  }

  function OrNil(u: Option<Uuid>): Uuid {
    if u.Some? then u.value else NIL_UUID
  }

  /** An order as read back: with items, its parts and its total come from the items alone. */
  function Rebuilt(order: Order): Order {
    if order.items == [] then order
    else order.(
      hull := OrNil(PartOf(order.items, Hull)),
      engine := OrNil(PartOf(order.items, Engine)),
      shield := PartOf(order.items, Shield),
      weapon := PartOf(order.items, Weapon),
      totalPrice := Wrap(PriceSum(order.items)))
  }

  lemma WrapAbsorbs(a: int, b: int)
    ensures Wrap(Wrap(a) as int + b) == Wrap(a + b)
  {
  }

  /** Wrapping changes a sum by a multiple of 2^64 only, and the result is an int64. */
  lemma WrapIsCongruent(n: int)
    ensures (n - Wrap(n) as int) % 0x1_0000_0000_0000_0000 == 0
  {
    var q, m := (n + TWO_63) / TWO_64, n - Wrap(n) as int;
    assert m == q * TWO_64;
  }

  lemma WrapKeepsInt64(n: int)
    requires -TWO_63 <= n < TWO_63
    ensures Wrap(n) as int == n
  {
  }

  method OrderItemsToModel(items: seq<OrderItem>) returns (result: seq<OrderItem>)
    ensures result == items
  {
    result := [];
    for i := 0 to |items|
      invariant result == items[..i]
    {
      result := result + [OrderItem(items[i].partUuid, items[i].partType, items[i].price)];
    }
  }

  method OrderToModel(order: Order) returns (result: Order)
    ensures result == Rebuilt(order)
  {
    var items := OrderItemsToModel(order.items);
    result := order.(items := items);
    if |result.items| == 0 {
      return;
    }
    result := result.(hull := NIL_UUID, engine := NIL_UUID, shield := None, weapon := None, totalPrice := 0);
    ghost var start := result;
    for i := 0 to |items|
      invariant result == start.(
        hull := OrNil(PartOf(items[..i], Hull)),
        engine := OrNil(PartOf(items[..i], Engine)),
        shield := PartOf(items[..i], Shield),
        weapon := PartOf(items[..i], Weapon),
        totalPrice := Wrap(PriceSum(items[..i])))
    {
      var item := items[i];
      assert items[..i + 1][..i] == items[..i];
      WrapAbsorbs(PriceSum(items[..i]), item.price as int);
      result := result.(totalPrice := AddInt64(result.totalPrice, item.price));
      match item.partType {
        case Hull => result := result.(hull := item.partUuid);
        case Engine => result := result.(engine := item.partUuid);
        case Shield => result := result.(shield := Some(item.partUuid));
        case Weapon => result := result.(weapon := Some(item.partUuid));
        case OtherPart(_) =>
      }
    }
    assert items[..|items|] == items;
  }

  /** Among the items of one type the last one counts. */
  lemma {:induction false} PartOfIsLast(items: seq<OrderItem>, kind: PartType, i: nat)
    requires i < |items| && items[i].partType == kind
    requires forall j :: i < j < |items| ==> items[j].partType != kind
    ensures PartOf(items, kind) == Some(items[i].partUuid)
  {
    if i < |items| - 1 {
      PartOfIsLast(items[..|items| - 1], kind, i);
    }
  }

  // ----- Independence of the row order -----

  /** No two items of one type name different parts. */
  ghost predicate OnePartPerType(items: seq<OrderItem>) {
    forall x, y :: x in items && y in items && x.partType == y.partType ==> x.partUuid == y.partUuid
  }

  lemma {:induction false} PartOfIsMember(items: seq<OrderItem>, kind: PartType)
    ensures PartOf(items, kind).Some? <==> exists x :: x in items && x.partType == kind
    ensures PartOf(items, kind).Some? ==>
      exists x :: x in items && x.partType == kind && PartOf(items, kind) == Some(x.partUuid)
  {
    if items != [] {
      var front, last := items[..|items| - 1], items[|items| - 1];
      PartOfIsMember(front, kind);
      assert last in items;
      if last.partType != kind {
        forall x | x in items && x.partType == kind ensures x in front {
          assert x != last;
        }
      }
    }
  }

  /** Every item counts with its own price, whatever its type. */
  lemma PriceSumOne(item: OrderItem)
    ensures PriceSum([item]) == item.price as int
  {
    assert PriceSum([item][..0]) == 0;
  }

  lemma {:induction false} PriceSumSplit(a: seq<OrderItem>, b: seq<OrderItem>)
    ensures PriceSum(a + b) == PriceSum(a) + PriceSum(b)
  {
    if b == [] {
      assert a + b == a;
    } else {
      assert (a + b)[..|a + b| - 1] == a + b[..|b| - 1];
      PriceSumSplit(a, b[..|b| - 1]);
    }
  }

  /** Takes the last item of `a` out of a permutation `b` of it. */
  lemma WithoutLast(a: seq<OrderItem>, b: seq<OrderItem>) returns (k: nat)
    requires a != [] && multiset(a) == multiset(b)
    ensures k < |b| && b[k] == a[|a| - 1]
    ensures multiset(a[..|a| - 1]) == multiset(b[..k] + b[k + 1..])
  {
    var front, last := a[..|a| - 1], a[|a| - 1];
    assert last in multiset(b);
    k :| 0 <= k < |b| && b[k] == last;
    assert a == front + [last];
    assert b == b[..k] + [last] + b[k + 1..];
    assert multiset(a) == multiset(front) + multiset{last};
    var rest := multiset(b[..k]) + multiset(b[k + 1..]);
    assert multiset(b) == rest + multiset{last};
    assert multiset(front) == multiset(front) + multiset{last} - multiset{last};
    assert rest == rest + multiset{last} - multiset{last};
  }

  lemma PriceSumWithout(b: seq<OrderItem>, k: nat)
    requires k < |b|
    ensures PriceSum(b) == PriceSum(b[..k] + b[k + 1..]) + b[k].price as int
  {
    assert b == b[..k + 1] + b[k + 1..];
    assert b[..k + 1][..k] == b[..k];
    PriceSumSplit(b[..k + 1], b[k + 1..]);
    PriceSumSplit(b[..k], b[k + 1..]);
  }

  lemma {:induction false} PriceSumOfPermutation(a: seq<OrderItem>, b: seq<OrderItem>)
    requires multiset(a) == multiset(b)
    ensures PriceSum(a) == PriceSum(b)
    decreases |a|
  {
    if a == [] {
      assert |multiset(b)| == 0;
    } else {
      var k := WithoutLast(a, b);
      PriceSumOfPermutation(a[..|a| - 1], b[..k] + b[k + 1..]);
      PriceSumWithout(b, k);
    }
  }

  /** Rebuilding does not depend on the order in which the rows of an order are read. */
  lemma RebuiltFromPermutation(order: Order, items: seq<OrderItem>)
    requires multiset(items) == multiset(order.items) && OnePartPerType(order.items)
    ensures Rebuilt(order.(items := items)) == Rebuilt(order).(items := items)
  {
    assert forall x :: x in items <==> x in multiset(items);
    assert forall x :: x in order.items <==> x in multiset(order.items);
    forall kind ensures PartOf(items, kind) == PartOf(order.items, kind) {
      PartOfIsMember(items, kind);
      PartOfIsMember(order.items, kind);
    }
    PriceSumOfPermutation(items, order.items);
    assert |multiset(items)| == |items| && |multiset(order.items)| == |order.items|;
  }

  // ----- Orders made by Create -----

  /** Hull, engine, then shield and weapon if they were ordered; the total is the wrapped sum of their prices. */
  ghost predicate MadeByCreate(order: Order) {
    && |order.items| >= 2
    && order.items[0].partType == Hull && order.items[0].partUuid == order.hull
    && order.items[1].partType == Engine && order.items[1].partUuid == order.engine
    && order.totalPrice == Wrap(PriceSum(order.items))
    && var rest := order.items[2..];
       match (order.shield, order.weapon) {
         case (None, None) => rest == []
         case (Some(s), None) => |rest| == 1 && IsPart(rest[0], Shield, s)
         case (None, Some(w)) => |rest| == 1 && IsPart(rest[0], Weapon, w)
         case (Some(s), Some(w)) => |rest| == 2 && IsPart(rest[0], Shield, s) && IsPart(rest[1], Weapon, w)
       }
  }

  predicate IsPart(item: OrderItem, kind: PartType, part: Uuid) {
    item.partType == kind && item.partUuid == part
  }

  lemma CreatedPart(order: Order, x: OrderItem)
    requires MadeByCreate(order) && x in order.items
    ensures match x.partType
      case Hull => x.partUuid == order.hull
      case Engine => x.partUuid == order.engine
      case Shield => order.shield == Some(x.partUuid)
      case Weapon => order.weapon == Some(x.partUuid)
      case OtherPart(_) => false
  {
  }

  lemma CreatedParts(order: Order)
    requires MadeByCreate(order)
    ensures OnePartPerType(order.items)
    ensures order.shield.Some? ==> exists x :: x in order.items && x.partType == Shield
    ensures order.weapon.Some? ==> exists x :: x in order.items && x.partType == Weapon
  {
  }

  /**
   For an order made by Create and any permutation of its items, reading it back gives the parts that
   were asked for and the total that Create returned, even when the sum overflowed.
   */
  lemma CreatedOrderReadsBack(order: Order, items: seq<OrderItem>)
    requires MadeByCreate(order) && multiset(items) == multiset(order.items)
    ensures Rebuilt(order.(items := items)) == order.(items := items)
  {
    CreatedParts(order);
    RebuiltFromPermutation(order, items);
    assert order.items[0] in order.items && order.items[1] in order.items;
    forall kind ensures PartOf(order.items, kind).Some? ==>
        exists x :: x in order.items && x.partType == kind && PartOf(order.items, kind) == Some(x.partUuid) {
      PartOfIsMember(order.items, kind);
    }
    ReadBackPart(order, Hull);
    ReadBackPart(order, Engine);
    ReadBackPart(order, Shield);
    ReadBackPart(order, Weapon);
  }

  lemma ReadBackPart(order: Order, kind: PartType)
    requires MadeByCreate(order) && !kind.OtherPart?
    ensures PartOf(order.items, kind) == match kind
      case Hull => Some(order.hull)
      case Engine => Some(order.engine)
      case Shield => order.shield
      case Weapon => order.weapon
  {
    CreatedParts(order);
    PartOfIsMember(order.items, kind);
    assert order.items[0] in order.items && order.items[1] in order.items;
    if PartOf(order.items, kind).Some? {
      var x :| x in order.items && x.partType == kind && PartOf(order.items, kind) == Some(x.partUuid);
      CreatedPart(order, x);
    }
  }

  lemma {:induction false} PriceSumBounds(items: seq<OrderItem>, bound: nat)
    requires forall x :: x in items ==> 0 <= x.price as int <= bound
    ensures 0 <= PriceSum(items) <= |items| * bound
  {
    if items != [] {
      PriceSumBounds(items[..|items| - 1], bound);
      assert items[|items| - 1] in items;
    }
  }

  /** With prices in [0, 2^61) no overflow is possible: the total is the true sum. */
  lemma TotalIsTrueSum(order: Order)
    requires MadeByCreate(order)
    requires forall x :: x in order.items ==> 0 <= x.price as int < 0x2000_0000_0000_0000
    ensures order.totalPrice as int == PriceSum(order.items)
  {
    PriceSumBounds(order.items, 0x1FFF_FFFF_FFFF_FFFF);
    WrapKeepsInt64(PriceSum(order.items));
  }
}
