/**
 * The checkout walk of `purchaseCart` (src/dao/models/cartDAO.js:90-104) as a
 * function of the product table and the cart's lines: each line, in order,
 * re-reads its product, and is purchased (stock lowered, price * quantity
 * added to the total) exactly when the stock it sees covers its quantity.
 * A line whose product is not stored stops the walk with an error; the stock
 * updates of the lines before it have already been written.
 */
module Purchase {
  import opened Wrappers
  import opened Products
  import opened CartLines
  import Seqs

  type Table = map<ProductId, Product>

  /**
   * The state after some lines: the table (with the stock written so far), the lines
   * purchased and not purchased, the decision taken for each line evaluated, the
   * running total, and the product whose absence stopped the walk, if any.
   */
  datatype CheckoutState = CheckoutState(
    table: Table,
    purchased: seq<LineItem>,
    notPurchased: seq<LineItem>,
    fulfilled: seq<bool>,
    total: int,
    missing: Option<ProductId>)

  function Start(t: Table): (state: CheckoutState) {
    CheckoutState(t, [], [], [], 0, None)
  }

  /** One iteration of the loop body. */
  function Step(s: CheckoutState, item: LineItem): (next: CheckoutState) {
    if s.missing.Some? then s
    else if item.product !in s.table then s.(missing := Some(item.product))
    else
      var p := s.table[item.product];
      if p.stock >= item.quantity then
        s.(table := s.table[item.product := p.(stock := p.stock - item.quantity)],
           purchased := s.purchased + [item],
           fulfilled := s.fulfilled + [true],
           total := s.total + p.price * item.quantity)
      else
        s.(notPurchased := s.notPurchased + [item],
           fulfilled := s.fulfilled + [false])
  }

  /** The loop after its first n iterations, that is, over lines[..n]. */
  function Run(t: Table, lines: seq<LineItem>, n: nat): (state: CheckoutState)
    requires n <= |lines|
    decreases n
  {
    if n == 0 then Start(t) else Step(Run(t, lines, n - 1), lines[n - 1])
  }

  /** The walk never adds or removes a product, and takes at most one decision per line. */
  lemma {:induction false} RunShape(t: Table, lines: seq<LineItem>, n: nat)
    requires n <= |lines|
    ensures Run(t, lines, n).table.Keys == t.Keys
    ensures |Run(t, lines, n).fulfilled| <= n
    decreases n
  {
    if n > 0 {
      RunShape(t, lines, n - 1);
    }
  }

  /** The whole loop, over every line of the cart. */
  function Checkout(t: Table, lines: seq<LineItem>): (state: CheckoutState) {
    Run(t, lines, |lines|)
  }

  /** The sum of price * quantity over items, at the prices of t. */
  function Amount(t: Table, items: seq<LineItem>): (sum: int)
    requires forall i :: 0 <= i < |items| ==> items[i].product in t
    decreases |items|
  {
    if items == [] then 0
    else
      var n := |items| - 1;
      Amount(t, items[..n]) + t[items[n].product].price * items[n].quantity
  }

  /**
   * The boundary of the stock test: a line asking for exactly the stock it sees is
   * purchased and leaves that product at zero; one unit more and it is not purchased
   * and nothing is written.
   */
  lemma StockBoundary(s: CheckoutState, item: LineItem)
    requires s.missing.None? && item.product in s.table
    ensures item.quantity == s.table[item.product].stock ==>
              && Step(s, item).fulfilled == s.fulfilled + [true]
              && Step(s, item).table[item.product].stock == 0
    ensures item.quantity == s.table[item.product].stock + 1 ==>
              && Step(s, item).fulfilled == s.fulfilled + [false]
              && Step(s, item).table == s.table
              && Step(s, item).total == s.total
  {
  }

  /** Once a product is found missing the walk stops: later lines change nothing. */
  lemma {:induction false} MissingStopsCheckout(t: Table, lines: seq<LineItem>, k: nat, n: nat)
    requires k <= n <= |lines| && Run(t, lines, k).missing.Some?
    ensures Run(t, lines, n) == Run(t, lines, k)
    decreases n
  {
    if n > k {
      MissingStopsCheckout(t, lines, k, n - 1);
    }
  }

  /**
   * The decisions split the evaluated lines: the purchased and the not-purchased lines are
   * the lines decided true and false, each in cart order. The walk reaches every line unless
   * a product is missing, and then it stopped at the first line after the decided ones.
   */
  lemma {:induction false} CheckoutSplitsLines(t: Table, lines: seq<LineItem>, n: nat)
    requires n <= |lines|
    ensures var s := Run(t, lines, n);
            var k := |s.fulfilled|;
            && (s.missing.None? ==> k == n)
            && (s.missing.Some? ==> k < n && lines[k].product == s.missing.value)
            && s.purchased == Seqs.Select(lines[..k], s.fulfilled, true)
            && s.notPurchased == Seqs.Select(lines[..k], s.fulfilled, false)
    decreases n
  {
    if n > 0 {
      CheckoutSplitsLines(t, lines, n - 1);
      var s0 := Run(t, lines, n - 1);
      var k0 := |s0.fulfilled|;
      var x := lines[n - 1];
      var s1 := Step(s0, x);
      assert Run(t, lines, n) == s1;
      if s0.missing.Some? {
        assert s1 == s0;
      } else if x.product !in s0.table {
        assert k0 == n - 1 && s1 == s0.(missing := Some(x.product));
      } else {
        var f := s0.table[x.product].stock >= x.quantity;
        assert k0 == n - 1;
        assert s1.fulfilled == s0.fulfilled + [f];
        assert s1.purchased == s0.purchased + (if f then [x] else []);
        assert s1.notPurchased == s0.notPurchased + (if f then [] else [x]);
        assert lines[..k0 + 1] == lines[..k0] + [x];
        Seqs.SelectSnoc(lines[..k0], s0.fulfilled, x, f, true);
        Seqs.SelectSnoc(lines[..k0], s0.fulfilled, x, f, false);
      }
    }
  }

  /** Purchased lines and not-purchased lines together are the evaluated lines, rearranged. */
  lemma CheckoutIsPermutation(t: Table, lines: seq<LineItem>, n: nat)
    requires n <= |lines|
    ensures |Run(t, lines, n).fulfilled| <= n
    ensures multiset(Run(t, lines, n).purchased + Run(t, lines, n).notPurchased)
            == multiset(lines[..|Run(t, lines, n).fulfilled|])
    ensures Run(t, lines, n).missing.None? ==>
            multiset(Run(t, lines, n).purchased + Run(t, lines, n).notPurchased) == multiset(lines[..n])
  {
    var s := Run(t, lines, n);
    CheckoutSplitsLines(t, lines, n);
    Seqs.SelectPartition(lines[..|s.fulfilled|], s.fulfilled);
  }

  /**
   * Only stock changes, and each product's stock goes down by exactly the quantity of its
   * purchased lines (so a product with no purchased line keeps its stock).
   */
  lemma {:induction false} CheckoutStock(t: Table, lines: seq<LineItem>, n: nat)
    requires n <= |lines|
    ensures forall id :: id in t ==>
              && id in Run(t, lines, n).table
              && Run(t, lines, n).table[id] == t[id].(stock := t[id].stock - QtyOf(Run(t, lines, n).purchased, id))
    decreases n
  {
    if n > 0 {
      CheckoutStock(t, lines, n - 1);
      var s0 := Run(t, lines, n - 1);
      var x := lines[n - 1];
      if s0.missing.None? && x.product in s0.table && s0.table[x.product].stock >= x.quantity {
        assert (s0.purchased + [x])[..|s0.purchased|] == s0.purchased;
      }
    }
  }

  /** Stock that starts non-negative stays non-negative. */
  lemma {:induction false} CheckoutKeepsStockNonNegative(t: Table, lines: seq<LineItem>, n: nat)
    requires n <= |lines|
    requires forall id :: id in t ==> t[id].stock >= 0
    ensures forall id :: id in Run(t, lines, n).table ==> Run(t, lines, n).table[id].stock >= 0
    decreases n
  {
    if n > 0 {
      CheckoutKeepsStockNonNegative(t, lines, n - 1);
      var s0 := Run(t, lines, n - 1);
      var x := lines[n - 1];
      if s0.missing.None? && x.product in s0.table && s0.table[x.product].stock >= x.quantity {
        var p := s0.table[x.product];
        var after := s0.table[x.product := p.(stock := p.stock - x.quantity)];
        assert Run(t, lines, n).table == after;
        forall id | id in after
          ensures after[id].stock >= 0
        {
          if id != x.product {
            assert after[id] == s0.table[id];
          }
        }
      }
    }
  }

  /** The walk writes stock only: every product it holds is stored at the start, at the same price. */
  lemma {:induction false} CheckoutKeepsPrice(t: Table, lines: seq<LineItem>, n: nat, id: ProductId)
    requires n <= |lines| && id in Run(t, lines, n).table
    ensures id in t && Run(t, lines, n).table[id].price == t[id].price
    decreases n
  {
    if n > 0 {
      CheckoutKeepsPrice(t, lines, n - 1, id);
    }
  }

  /** Amount over one more item adds that item's price * quantity. */
  lemma AmountSnoc(t: Table, items: seq<LineItem>, x: LineItem)
    requires forall i :: 0 <= i < |items| ==> items[i].product in t
    requires x.product in t
    ensures forall i :: 0 <= i < |items + [x]| ==> (items + [x])[i].product in t
    ensures Amount(t, items + [x]) == Amount(t, items) + t[x.product].price * x.quantity
  {
    assert (items + [x])[..|items|] == items;
  }

  /** The total is the sum of price * quantity over exactly the purchased lines. */
  lemma {:induction false} CheckoutTotal(t: Table, lines: seq<LineItem>, n: nat)
    requires n <= |lines|
    ensures forall i :: 0 <= i < |Run(t, lines, n).purchased| ==> Run(t, lines, n).purchased[i].product in t
    ensures Run(t, lines, n).total == Amount(t, Run(t, lines, n).purchased)
    decreases n
  {
    if n > 0 {
      CheckoutTotal(t, lines, n - 1);
      var s0 := Run(t, lines, n - 1);
      var x := lines[n - 1];
      var s1 := Step(s0, x);
      assert Run(t, lines, n) == s1;
      if s0.missing.None? && x.product in s0.table && s0.table[x.product].stock >= x.quantity {
        CheckoutKeepsPrice(t, lines, n - 1, x.product);
        AmountSnoc(t, s0.purchased, x);
        assert s1.purchased == s0.purchased + [x];
        assert s1.total == s0.total + t[x.product].price * x.quantity;
      } else {
        assert s1.purchased == s0.purchased && s1.total == s0.total;
      }
    }
  }

  /** The walk completes exactly when every line's product is stored. */
  lemma {:induction false} CheckoutCompletes(t: Table, lines: seq<LineItem>, n: nat)
    requires n <= |lines|
    ensures Run(t, lines, n).missing.None? <==> forall i :: 0 <= i < n ==> lines[i].product in t
    decreases n
  {
    if n > 0 {
      CheckoutCompletes(t, lines, n - 1);
      RunShape(t, lines, n - 1);
    }
  }

  /** The decisions taken on a prefix of the cart are a prefix of the decisions on the whole cart. */
  lemma {:induction false} DecisionsOfPrefix(t: Table, lines: seq<LineItem>, k: nat, n: nat)
    requires k <= n <= |lines|
    ensures Run(t, lines, k).fulfilled <= Run(t, lines, n).fulfilled
    decreases n
  {
    if k < n {
      DecisionsOfPrefix(t, lines, k, n - 1);
    }
  }

  /** A line that received a decision was reached with no product missing, and its product is stored. */
  lemma ReachedLine(t: Table, lines: seq<LineItem>, n: nat, i: nat)
    requires i < n <= |lines| && i < |Run(t, lines, n).fulfilled|
    ensures Run(t, lines, i).missing.None?
    ensures |Run(t, lines, i).fulfilled| == i
    ensures lines[i].product in t
  {
    if Run(t, lines, i).missing.Some? {
      MissingStopsCheckout(t, lines, i, n);
    }
    CheckoutSplitsLines(t, lines, i);
    if lines[i].product !in t {
      RunShape(t, lines, i);
      MissingStopsCheckout(t, lines, i + 1, n);
    }
  }

  /**
   * Line i is purchased exactly when the stock its product has at that moment, after the
   * purchased lines before it, covers its quantity: stock is re-read for every line, so a
   * product listed twice sees the first line's decrement.
   */
  lemma CheckoutDecision(t: Table, lines: seq<LineItem>, n: nat, i: nat)
    requires i < n <= |lines| && i < |Run(t, lines, n).fulfilled|
    ensures Run(t, lines, i).missing.None?
    ensures Run(t, lines, i).fulfilled == Run(t, lines, n).fulfilled[..i]
    ensures lines[i].product in t && lines[i].product in Run(t, lines, i).table
    ensures Run(t, lines, n).fulfilled[i]
            <==> Run(t, lines, i).table[lines[i].product].stock >= lines[i].quantity
    ensures Run(t, lines, i).table[lines[i].product].stock
            == t[lines[i].product].stock - QtyOf(Run(t, lines, i).purchased, lines[i].product)
  {
    ReachedLine(t, lines, n, i);
    DecisionsOfPrefix(t, lines, i + 1, n);
    CheckoutStock(t, lines, i);
  }

  /**
   * When no line can be fulfilled, nothing is bought, no stock is written, the total is 0
   * and every line stays behind (the ticket is still issued, for 0).
   */
  lemma {:induction false} NothingFulfillable(t: Table, lines: seq<LineItem>, n: nat)
    requires n <= |lines|
    requires forall i :: 0 <= i < n ==> lines[i].product in t && t[lines[i].product].stock < lines[i].quantity
    ensures Run(t, lines, n).missing.None?
    ensures Run(t, lines, n).purchased == [] && Run(t, lines, n).total == 0
    ensures Run(t, lines, n).table == t
    ensures Run(t, lines, n).notPurchased == lines[..n]
    decreases n
  {
    if n > 0 {
      NothingFulfillable(t, lines, n - 1);
      assert lines[..n] == lines[..n - 1] + [lines[n - 1]];
    }
  }

  /**
   * Two lines: X (stock 5, price 10) asks for 3 and is bought, Y (stock 1, price 20) asks
   * for 2 and is not; the total is 30, X is left with 2 and Y keeps 1.
   */
  lemma TwoLineExample()
    ensures var x := Product(1, "X", "c", 10, 5);
            var y := Product(2, "Y", "c", 20, 1);
            var s := Checkout(map[1 := x, 2 := y], [LineItem(1, 3), LineItem(2, 2)]);
            && s.missing.None?
            && s.purchased == [LineItem(1, 3)]
            && s.notPurchased == [LineItem(2, 2)]
            && s.total == 30
            && s.table == map[1 := x.(stock := 2), 2 := y]
  {
    var x := Product(1, "X", "c", 10, 5);
    var y := Product(2, "Y", "c", 20, 1);
    var t := map[1 := x, 2 := y];
    var lines := [LineItem(1, 3), LineItem(2, 2)];
    assert Run(t, lines, 1).table == map[1 := x.(stock := 2), 2 := y];
  }
}
