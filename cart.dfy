/**
 * The local shopping cart (ManagmentCart): a list of items kept in a
 * device-local key-value store under the key "CartList". Lines are
 * identified by title. Clock readings are passed in as `now`.
 */
module Cart {
  import opened ItemsModel

  const CartKey: string := "CartList"

  /** `getListCart`: the stored list, or the empty list when nothing is stored. */
  function StoredList(db: map<string, seq<Item>>): seq<Item> {
    if CartKey in db then db[CartKey] else []
  }

  /** No two lines share a title. */
  ghost predicate UniqueTitles(s: seq<Item>) {
    forall i, j :: 0 <= i < j < |s| ==> s[i].title != s[j].title
  }

  /** Every line has a quantity of at least 1. */
  ghost predicate QuantitiesPositive(s: seq<Item>) {
    forall i :: 0 <= i < |s| ==> s[i].numberInCart >= 1
  }

  /** `indexOfFirst { it.title == title }`: the first line with that title, or -1. */
  function IndexOfTitle(s: seq<Item>, title: string): (r: int)
    ensures -1 <= r < |s|
    ensures r >= 0 ==> s[r].title == title && forall j :: 0 <= j < r ==> s[j].title != title
    ensures r == -1 <==> forall j :: 0 <= j < |s| ==> s[j].title != title
  {
    if s == [] then -1
    else if s[0].title == title then 0
    else
      var r := IndexOfTitle(s[1..], title);
      if r == -1 then -1 else r + 1
  }

  /** `insertItem` on the stored list: overwrite the quantity of the line with that title, or append. */
  function Inserted(s: seq<Item>, item: Item, now: int): seq<Item> {
    var i := IndexOfTitle(s, item.title);
    if i >= 0 then s[i := s[i].(numberInCart := item.numberInCart, timestamp := now)]
    else s + [item.(timestamp := now)]
  }

  /** `minusItem`: drop a line whose quantity is exactly 1, otherwise decrement it. */
  function Decremented(s: seq<Item>, pos: nat, now: int): seq<Item>
    requires pos < |s|
  {
    if s[pos].numberInCart == 1 then s[..pos] + s[pos + 1..]
    else s[pos := s[pos].(numberInCart := s[pos].numberInCart - 1, timestamp := now)]
  }

  /** `plusItem`: increment one line. */
  function Incremented(s: seq<Item>, pos: nat, now: int): seq<Item>
    requires pos < |s|
  {
    s[pos := s[pos].(numberInCart := s[pos].numberInCart + 1, timestamp := now)]
  }

  /** The amount a line contributes: quantity times unit price. */
  function LineTotal(it: Item): int {
    it.numberInCart * it.price
  }

  /** Sum of the line totals, accumulated from the first line onwards as `getTotalFee` does. */
  function TotalFee(s: seq<Item>): int {
    if s == [] then 0 else TotalFee(s[..|s| - 1]) + LineTotal(s[|s| - 1])
  }

  /** An independent, front-recursive sum of the line totals. */
  function SumOfLines(s: seq<Item>): int {
    if s == [] then 0 else LineTotal(s[0]) + SumOfLines(s[1..])
  }

  lemma {:induction false} TotalFeeAppend(a: seq<Item>, b: seq<Item>)
    ensures TotalFee(a + b) == TotalFee(a) + TotalFee(b)
    decreases |b|
  {
    if b == [] {
      assert a + b == a;
    } else {
      var b' := b[..|b| - 1];
      assert (a + b)[..|a + b| - 1] == a + b';
      TotalFeeAppend(a, b');
    }
  }

  /** The loop total equals the sum of the displayed line totals. */
  lemma {:induction false} TotalFeeIsSumOfLines(s: seq<Item>)
    ensures TotalFee(s) == SumOfLines(s)
  {
    if s != [] {
      TotalFeeIsSumOfLines(s[1..]);
      TotalFeeAppend([s[0]], s[1..]);
      assert s == [s[0]] + s[1..];
    }
  }

  /** The worked example: lines (100 x 2) and (50 x 3) cost 350. */
  lemma TotalFeeExample(a: Item, b: Item)
    requires a.price == 100 && a.numberInCart == 2 && b.price == 50 && b.numberInCart == 3
    ensures TotalFee([a, b]) == 350
  {
    assert [a, b][..1] == [a] && [a][..0] == [];
    assert TotalFee([a]) == LineTotal(a) == 200;
  }

  /** Inserting keeps titles unique. */
  lemma InsertKeepsUniqueTitles(s: seq<Item>, item: Item, now: int)
    requires UniqueTitles(s)
    ensures UniqueTitles(Inserted(s, item, now))
  {
  }

  /**
   * Inserting an existing title overwrites that line's quantity and stamps it
   * with the insertion time; the line keeps everything else and nothing else moves.
   */
  lemma InsertExisting(s: seq<Item>, item: Item, now: int, i: nat)
    requires UniqueTitles(s) && i < |s| && s[i].title == item.title
    ensures var r := Inserted(s, item, now);
      |r| == |s| && r[i] == s[i].(numberInCart := item.numberInCart, timestamp := now) &&
      forall j :: 0 <= j < |s| && j != i ==> r[j] == s[j]
  {
    assert IndexOfTitle(s, item.title) == i;
  }

  /** Inserting a new title appends it; earlier lines are unchanged. */
  lemma InsertNew(s: seq<Item>, item: Item, now: int)
    requires forall j :: 0 <= j < |s| ==> s[j].title != item.title
    ensures var r := Inserted(s, item, now);
      |r| == |s| + 1 && r[..|s|] == s && r[|s|] == item.(timestamp := now)
  {
  }

  /**
   * After inserting, exactly one line carries the title, and its quantity is
   * the inserted one, whatever was in the cart before.
   */
  lemma {:induction false} InsertLeavesOneLine(s: seq<Item>, item: Item, now: int)
    requires UniqueTitles(s)
    ensures var r := Inserted(s, item, now);
      var i := IndexOfTitle(r, item.title);
      i >= 0 && r[i].numberInCart == item.numberInCart &&
      forall j :: 0 <= j < |r| && j != i ==> r[j].title != item.title
  {
    var r := Inserted(s, item, now);
    InsertKeepsUniqueTitles(s, item, now);
    var k := IndexOfTitle(s, item.title);
    if k >= 0 {
      assert r[k].title == item.title;
    } else {
      assert r[|s|].title == item.title;
    }
  }

  /** Inserting a line with a positive quantity keeps every quantity positive. */
  lemma InsertKeepsPositive(s: seq<Item>, item: Item, now: int)
    requires QuantitiesPositive(s) && item.numberInCart >= 1
    ensures QuantitiesPositive(Inserted(s, item, now))
  {
  }

  /** Decrementing a line of quantity 1 removes only that line, keeping the others in order. */
  lemma MinusAtOneRemoves(s: seq<Item>, pos: nat, now: int)
    requires pos < |s| && s[pos].numberInCart == 1
    ensures var r := Decremented(s, pos, now);
      |r| == |s| - 1 &&
      (forall j :: 0 <= j < pos ==> r[j] == s[j]) &&
      (forall j :: pos <= j < |r| ==> r[j] == s[j + 1])
  {
  }

  /** Decrementing any other quantity subtracts exactly 1 and stamps the line; nothing else changes. */
  lemma MinusDecrements(s: seq<Item>, pos: nat, now: int)
    requires pos < |s| && s[pos].numberInCart != 1
    ensures var r := Decremented(s, pos, now);
      |r| == |s| && r[pos] == s[pos].(numberInCart := s[pos].numberInCart - 1, timestamp := now) &&
      forall j :: 0 <= j < |s| && j != pos ==> r[j] == s[j]
  {
  }

  /** The quantity floor: if every quantity is at least 1, it still is after a decrement. */
  lemma MinusKeepsPositive(s: seq<Item>, pos: nat, now: int)
    requires pos < |s| && QuantitiesPositive(s)
    ensures QuantitiesPositive(Decremented(s, pos, now))
  {
    var r := Decremented(s, pos, now);
    if s[pos].numberInCart == 1 {
      forall j | 0 <= j < |r| ensures r[j].numberInCart >= 1 {
        if j >= pos {
          assert r[j] == s[j + 1];
        }
      }
    }
  }

  /** Decrementing and incrementing keep titles unique. */
  lemma ChangeKeepsUniqueTitles(s: seq<Item>, pos: nat, now: int)
    requires pos < |s| && UniqueTitles(s)
    ensures UniqueTitles(Decremented(s, pos, now)) && UniqueTitles(Incremented(s, pos, now))
  {
    var r := Decremented(s, pos, now);
    if s[pos].numberInCart == 1 {
      forall i, j | 0 <= i < j < |r| ensures r[i].title != r[j].title {
        var i' := if i < pos then i else i + 1;
        var j' := if j < pos then j else j + 1;
        assert r[i] == s[i'] && r[j] == s[j'];
      }
    }
  }

  /** Incrementing adds exactly 1 to the chosen line and stamps it; nothing else changes. */
  lemma PlusIncrements(s: seq<Item>, pos: nat, now: int)
    requires pos < |s|
    ensures var r := Incremented(s, pos, now);
      |r| == |s| && r[pos] == s[pos].(numberInCart := s[pos].numberInCart + 1, timestamp := now) &&
      forall j :: 0 <= j < |s| && j != pos ==> r[j] == s[j]
  {
  }

  /** Incrementing raises the total fee by exactly the line's unit price. */
  lemma {:induction false} PlusRaisesTotalByPrice(s: seq<Item>, pos: nat, now: int)
    requires pos < |s|
    ensures TotalFee(Incremented(s, pos, now)) == TotalFee(s) + s[pos].price
  {
    var r := Incremented(s, pos, now);
    var front, back, x, y := s[..pos], s[pos + 1..], s[pos], r[pos];
    assert s == front + [x] + back;
    assert r == front + [y] + back;
    TotalFeeAppend(front + [x], back);
    TotalFeeAppend(front, [x]);
    TotalFeeAppend(front + [y], back);
    TotalFeeAppend(front, [y]);
    assert [x][..0] == [] && [y][..0] == [];
    assert TotalFee([x]) == x.numberInCart * x.price;
    assert TotalFee([y]) == (x.numberInCart + 1) * x.price == x.numberInCart * x.price + x.price;
  }

  /** A Kotlin ArrayList<ItemsModel> that the screen and the cart share. */
  class ItemList {
    var elems: seq<Item>

    constructor (s: seq<Item>)
      ensures elems == s
    {
      elems := s;
    }
  }

  /** ManagmentCart: the store it writes to and the completion listener calls it has made. */
  class ManagmentCart {
    var db: map<string, seq<Item>>
    var listenerCalls: nat

    constructor (db0: map<string, seq<Item>>)
      ensures db == db0 && listenerCalls == 0
    {
      db := db0;
      listenerCalls := 0;
    }

    /** `getListCart`. */
    function GetListCart(): seq<Item>
      reads this
    {
      StoredList(db)
    }

    /** `insertItem`: upsert by title and persist; no listener is involved. */
    method InsertItem(item: Item, now: int)
      modifies this
      ensures db == old(db)[CartKey := Inserted(old(GetListCart()), item, now)]
      ensures GetListCart() == Inserted(old(GetListCart()), item, now)
      ensures listenerCalls == old(listenerCalls)
    {
      var listFood := GetListCart();
      var index := IndexOfTitle(listFood, item.title);
      if index >= 0 {
        listFood := listFood[index := listFood[index].(numberInCart := item.numberInCart, timestamp := now)];
      } else {
        listFood := listFood + [item.(timestamp := now)];
      }
      db := db[CartKey := listFood];
    }

    /**
     * `minusItem`: updates the caller's list in place, persists that list,
     * then calls the listener once. An out-of-range position throws in the
     * source, so callers must pass a valid one.
     */
    method MinusItem(listFood: ItemList, position: int, now: int)
      requires 0 <= position < |listFood.elems|
      modifies this, listFood
      ensures listFood.elems == Decremented(old(listFood.elems), position, now)
      ensures db == old(db)[CartKey := listFood.elems]
      ensures listenerCalls == old(listenerCalls) + 1
    {
      var s := listFood.elems;
      if s[position].numberInCart == 1 {
        listFood.elems := s[..position] + s[position + 1..];
      } else {
        listFood.elems := s[position := s[position].(numberInCart := s[position].numberInCart - 1, timestamp := now)];
      }
      db := db[CartKey := listFood.elems];
      listenerCalls := listenerCalls + 1;
    }

    /** `plusItem`: increments in place, persists the list, then calls the listener once. */
    method PlusItem(listFood: ItemList, position: int, now: int)
      requires 0 <= position < |listFood.elems|
      modifies this, listFood
      ensures listFood.elems == Incremented(old(listFood.elems), position, now)
      ensures db == old(db)[CartKey := listFood.elems]
      ensures listenerCalls == old(listenerCalls) + 1
    {
      var s := listFood.elems;
      listFood.elems := s[position := s[position].(numberInCart := s[position].numberInCart + 1, timestamp := now)];
      db := db[CartKey := listFood.elems];
      listenerCalls := listenerCalls + 1;
    }

    /** `getTotalFee`: accumulates price times quantity over the stored list. */
    method GetTotalFee() returns (fee: int)
      ensures fee == TotalFee(GetListCart())
      ensures GetListCart() == [] ==> fee == 0
    {
      var listFood := GetListCart();
      fee := 0;
      for i := 0 to |listFood|
        invariant fee == TotalFee(listFood[..i])
      {
        assert listFood[..i + 1][..i] == listFood[..i];
        fee := fee + listFood[i].price * listFood[i].numberInCart;
      }
      assert listFood[..|listFood|] == listFood;
    }

    /** `clearCart`: removes the stored entry, so the cart reads back empty. */
    method ClearCart()
      modifies this
      ensures db == old(db) - {CartKey}
      ensures GetListCart() == []
      ensures listenerCalls == old(listenerCalls)
    {
      db := db - {CartKey};
    }
  }
}
