/**
 * The due predictor of `gerar_lista_compras`: which tracked items should be bought
 * again, in the order the items were added.
 */
module Prediction {
  import opened Common

  /** One tracked item, `{'duracao': ..., 'ultima_compra': ...}`, with the date of the
      last purchase as a day number. */
  datatype Item = Item(duration: int, lastPurchase: int)

  /** `dias_passados >= duracao * 0.8`, where `dias_passados` is the whole number of days
      since the last purchase; stated on integers as 5 * days >= 4 * duration. */
  predicate IsDue(item: Item, today: int): (r: bool)
    ensures item.duration <= 0 && today >= item.lastPurchase ==> r
    ensures item.duration > 0 && today == item.lastPurchase ==> !r
  {
    5 * (today - item.lastPurchase) >= 4 * item.duration
  }

  /** The first day on which an item is due: the last purchase plus 80% of the interval,
      rounded up to a whole day. */
  function FirstDueDay(item: Item): int
  {
    item.lastPurchase + (4 * item.duration + 4) / 5
  }

  /** The 80% test and the first due day agree: an item is due exactly from that day on. */
  lemma DueFromFirstDueDay(item: Item, today: int)
    ensures IsDue(item, today) <==> today >= FirstDueDay(item)
  {
    var q := (4 * item.duration + 4) / 5;
    var r := (4 * item.duration + 4) % 5;
    assert 4 * item.duration + 4 == 5 * q + r && 0 <= r < 5;
  }

  /** Duration 10 and 8 days elapsed is due (the boundary is inclusive);
      duration 30 and 8 days elapsed is not. */
  lemma MilkAndRice(today: int)
    ensures IsDue(Item(10, today - 8), today)
    ensures !IsDue(Item(30, today - 8), today)
    ensures !IsDue(Item(10, today - 7), today)
  {
  }

  /** Every key of the order is tracked. */
  predicate Tracked(order: seq<string>, items: map<string, Item>)
  {
    forall k :: k in order ==> k in items
  }

  /** The items due today, walked in insertion order as the loop of
      `gerar_lista_compras` walks `dados['itens']`. */
  function DueItems(order: seq<string>, items: map<string, Item>, today: int): (due: seq<string>)
    requires Tracked(order, items)
    ensures |due| <= |order|
    ensures forall k :: k in due ==> k in order && IsDue(items[k], today)
  {
    if order == [] then []
    else
      var last := order[|order| - 1];
      DueItems(order[..|order| - 1], items, today) + (if IsDue(items[last], today) then [last] else [])
  }

  /** An item is listed exactly when it is tracked and due. */
  lemma {:induction false} DueItemsMembership(order: seq<string>, items: map<string, Item>, today: int)
    requires Tracked(order, items)
    ensures forall k :: k in DueItems(order, items, today) <==> k in order && IsDue(items[k], today)
  {
    if order != [] {
      var init := order[..|order| - 1];
      DueItemsMembership(init, items, today);
      assert order == init + [order[|order| - 1]];
    }
  }

  /** Walking two runs of keys one after the other lists the due items of the first run,
      then those of the second: the output keeps the input order. */
  lemma {:induction false} DueItemsAppend(a: seq<string>, b: seq<string>, items: map<string, Item>, today: int)
    requires Tracked(a, items) && Tracked(b, items)
    ensures Tracked(a + b, items)
    ensures DueItems(a + b, items, today) == DueItems(a, items, today) + DueItems(b, items, today)
    decreases |b|
  {
    if b == [] {
      assert a + b == a;
    } else {
      var init := b[..|b| - 1];
      var last := b[|b| - 1];
      assert (a + b)[..|a + b| - 1] == a + init;
      assert Tracked(init, items);
      DueItemsAppend(a, init, items, today);
    }
  }

  /** No item is listed twice, and the list is never longer than the item store. */
  lemma {:induction false} DueItemsDistinct(order: seq<string>, items: map<string, Item>, today: int)
    requires Tracked(order, items)
    requires Distinct(order)
    ensures Distinct(DueItems(order, items, today))
    ensures |DueItems(order, items, today)| <= |order|
  {
    if order != [] {
      var init := order[..|order| - 1];
      var last := order[|order| - 1];
      DueItemsDistinct(init, items, today);
      DueItemsMembership(init, items, today);
      assert last !in init;
    }
  }

  /** With every tracked item due, the list is the whole key order. */
  lemma {:induction false} DueItemsAllDue(order: seq<string>, items: map<string, Item>, today: int)
    requires Tracked(order, items)
    requires forall k :: k in order ==> IsDue(items[k], today)
    ensures DueItems(order, items, today) == order
  {
    if order != [] {
      var init := order[..|order| - 1];
      var last := order[|order| - 1];
      assert Tracked(init, items) by {
        forall k | k in init ensures k in items {
          assert k in order;
        }
      }
      DueItemsAllDue(init, items, today);
      assert IsDue(items[last], today) by {
        assert last in order;
      }
      assert DueItems(order, items, today) == DueItems(init, items, today) + [last];
      assert order == init + [last];
    }
  }

  /** With no tracked item due, the list is empty. */
  lemma {:induction false} DueItemsNoneDue(order: seq<string>, items: map<string, Item>, today: int)
    requires Tracked(order, items)
    requires forall k :: k in order ==> !IsDue(items[k], today)
    ensures DueItems(order, items, today) == []
  {
    if order != [] {
      var init := order[..|order| - 1];
      var last := order[|order| - 1];
      assert forall k :: k in init ==> k in order;
      DueItemsNoneDue(init, items, today);
      assert !IsDue(items[last], today);
    }
  }
}
