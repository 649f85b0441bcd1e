/**
 * The line items of a cart and the edits `CartDAO` makes to them
 * (src/dao/models/cartDAO.js:36-84): merge-or-append, remove-all-for-a-product,
 * set-quantity-of-the-first-line. The carts themselves are in module Carts.
 */
module CartLines {
  import opened Wrappers
  import opened Products
  import Seqs

  /** `{ product, quantity }`; the source does not check the quantity, so it is any integer. */
  datatype LineItem = LineItem(product: ProductId, quantity: int)

  function For(pid: ProductId): LineItem -> bool {
    (l: LineItem) => l.product == pid
  }

  function NotFor(pid: ProductId): LineItem -> bool {
    (l: LineItem) => l.product != pid
  }

  /** `products.findIndex(item => item.product._id.toString() === productId)`. */
  function FindLine(lines: seq<LineItem>, pid: ProductId): (index: Option<nat>) {
    Seqs.IndexOf(lines, For(pid))
  }

  /** The total quantity the lines request of product pid. */
  function QtyOf(lines: seq<LineItem>, pid: ProductId): (qty: int)
    decreases |lines|
  {
    if lines == [] then 0
    else
      var n := |lines| - 1;
      QtyOf(lines[..n], pid) + (if lines[n].product == pid then lines[n].quantity else 0)
  }

  /** At most one line per product, as the data model intends. */
  ghost predicate OneLinePerProduct(lines: seq<LineItem>) {
    forall i, j :: 0 <= i < j < |lines| ==> lines[i].product != lines[j].product
  }

  lemma {:induction false} QtyOfConcat(a: seq<LineItem>, b: seq<LineItem>, pid: ProductId)
    ensures QtyOf(a + b, pid) == QtyOf(a, pid) + QtyOf(b, pid)
    decreases |b|
  {
    if b == [] {
      assert a + b == a;
    } else {
      var n := |b| - 1;
      assert (a + b)[..|a + b| - 1] == a + b[..n];
      QtyOfConcat(a, b[..n], pid);
    }
  }

  lemma QtyOfOne(x: LineItem, pid: ProductId)
    ensures QtyOf([x], pid) == if x.product == pid then x.quantity else 0
  {
    assert [x][..0] == [];
  }

  /** Replacing line k changes the requested quantities by exactly that line's difference. */
  lemma QtyOfUpdate(lines: seq<LineItem>, k: nat, x: LineItem, pid: ProductId)
    requires k < |lines|
    ensures QtyOf(lines[k := x], pid)
            == QtyOf(lines, pid)
               - (if lines[k].product == pid then lines[k].quantity else 0)
               + (if x.product == pid then x.quantity else 0)
  {
    var pre, post := lines[..k], lines[k + 1..];
    assert lines == pre + [lines[k]] + post;
    assert lines[k := x] == pre + [x] + post;
    QtyOfConcat(pre + [lines[k]], post, pid);
    QtyOfConcat(pre, [lines[k]], pid);
    QtyOfConcat(pre + [x], post, pid);
    QtyOfConcat(pre, [x], pid);
    QtyOfOne(lines[k], pid);
    QtyOfOne(x, pid);
  }

  /** Lines that do not mention pid request none of it. */
  lemma {:induction false} QtyOfAbsent(lines: seq<LineItem>, pid: ProductId)
    requires forall i :: 0 <= i < |lines| ==> lines[i].product != pid
    ensures QtyOf(lines, pid) == 0
    decreases |lines|
  {
    if lines != [] {
      QtyOfAbsent(lines[..|lines| - 1], pid);
    }
  }

  /** The quantity requested splits around line k. */
  lemma QtyOfAround(lines: seq<LineItem>, k: nat, pid: ProductId)
    requires k < |lines|
    ensures QtyOf(lines, pid)
            == QtyOf(lines[..k], pid) + (if lines[k].product == pid then lines[k].quantity else 0) + QtyOf(lines[k + 1..], pid)
  {
    var pre, post := lines[..k], lines[k + 1..];
    assert lines == pre + [lines[k]] + post;
    QtyOfConcat(pre + [lines[k]], post, pid);
    QtyOfConcat(pre, [lines[k]], pid);
    QtyOfOne(lines[k], pid);
  }

  /** With one line per product, the quantity requested of a product is that of its line. */
  lemma QtyOfTheLine(lines: seq<LineItem>, k: nat)
    requires OneLinePerProduct(lines) && k < |lines|
    ensures QtyOf(lines, lines[k].product) == lines[k].quantity
  {
    var pid := lines[k].product;
    var pre, post := lines[..k], lines[k + 1..];
    QtyOfAround(lines, k, pid);
    forall i | 0 <= i < |pre|
      ensures pre[i].product != pid
    {
      assert pre[i] == lines[i];
    }
    QtyOfAbsent(pre, pid);
    forall i | 0 <= i < |post|
      ensures post[i].product != pid
    {
      assert post[i] == lines[k + 1 + i];
    }
    QtyOfAbsent(post, pid);
  }

  /** `addProductToCart`'s edit: add q to the first line for pid, or append a new line. */
  function AddLine(lines: seq<LineItem>, pid: ProductId, q: int): (r: seq<LineItem>)
    ensures match FindLine(lines, pid)
      case Some(k) =>
        && |r| == |lines|
        && r[k] == LineItem(pid, lines[k].quantity + q)
        && forall j :: 0 <= j < |r| && j != k ==> r[j] == lines[j]
      case None => r == lines + [LineItem(pid, q)]
  {
    match FindLine(lines, pid)
    case Some(k) => lines[k := lines[k].(quantity := lines[k].quantity + q)]
    case None => lines + [LineItem(pid, q)]
  }

  /** Adding q of pid raises the quantity requested of pid by q and leaves every other product's alone. */
  lemma AddLineQuantities(lines: seq<LineItem>, pid: ProductId, q: int, other: ProductId)
    ensures QtyOf(AddLine(lines, pid, q), pid) == QtyOf(lines, pid) + q
    ensures other != pid ==> QtyOf(AddLine(lines, pid, q), other) == QtyOf(lines, other)
  {
    match FindLine(lines, pid)
    case Some(k) =>
      QtyOfUpdate(lines, k, lines[k].(quantity := lines[k].quantity + q), pid);
      QtyOfUpdate(lines, k, lines[k].(quantity := lines[k].quantity + q), other);
    case None =>
      QtyOfConcat(lines, [LineItem(pid, q)], pid);
      QtyOfConcat(lines, [LineItem(pid, q)], other);
      QtyOfOne(LineItem(pid, q), pid);
      QtyOfOne(LineItem(pid, q), other);
  }

  /** Merging into an existing line, rather than appending, keeps one line per product. */
  lemma AddLineKeepsOneLinePerProduct(lines: seq<LineItem>, pid: ProductId, q: int)
    requires OneLinePerProduct(lines)
    ensures OneLinePerProduct(AddLine(lines, pid, q))
  {
  }

  /** `deleteProductFromCart`'s edit: drop every line for pid, keeping the rest in order. */
  function RemoveLines(lines: seq<LineItem>, pid: ProductId): (r: seq<LineItem>)
    ensures forall i :: 0 <= i < |r| ==> r[i].product != pid
    ensures forall x: LineItem :: x.product != pid ==> multiset(r)[x] == multiset(lines)[x]
  {
    var r := Seqs.Filter(lines, NotFor(pid));
    assert forall x: LineItem :: x.product != pid ==> multiset(r)[x] == multiset(lines)[x] by {
      forall x: LineItem {
        Seqs.FilterCounts(lines, NotFor(pid), x);
      }
    }
    r
  }

  /** Removing is idempotent, and a cart with no line for pid is left as it is. */
  lemma RemoveLinesIdempotent(lines: seq<LineItem>, pid: ProductId)
    ensures RemoveLines(RemoveLines(lines, pid), pid) == RemoveLines(lines, pid)
    ensures FindLine(lines, pid).None? ==> RemoveLines(lines, pid) == lines
  {
    Seqs.FilterIdempotent(lines, NotFor(pid));
    if FindLine(lines, pid).None? {
      Seqs.FilterKeepsAll(lines, NotFor(pid));
    }
  }

  /** The quantity requested by a line in front of the others. */
  lemma QtyOfCons(x: LineItem, lines: seq<LineItem>, pid: ProductId)
    ensures QtyOf([x] + lines, pid) == (if x.product == pid then x.quantity else 0) + QtyOf(lines, pid)
  {
    QtyOfConcat([x], lines, pid);
    QtyOfOne(x, pid);
  }

  /** Dropping the lines for pid leaves the quantity of every other product. */
  lemma {:induction false} QtyOfKept(lines: seq<LineItem>, pid: ProductId, other: ProductId)
    requires other != pid
    ensures QtyOf(Seqs.Filter(lines, NotFor(pid)), other) == QtyOf(lines, other)
    decreases |lines|
  {
    if lines != [] {
      var rest := Seqs.Filter(lines[1..], NotFor(pid));
      assert lines == [lines[0]] + lines[1..];
      QtyOfCons(lines[0], lines[1..], other);
      QtyOfKept(lines[1..], pid, other);
      if lines[0].product != pid {
        assert Seqs.Filter(lines, NotFor(pid)) == [lines[0]] + rest;
        QtyOfCons(lines[0], rest, other);
      } else {
        assert Seqs.Filter(lines, NotFor(pid)) == rest;
      }
    }
  }

  /** After removal nothing of pid is requested and every other product's quantity is unchanged. */
  lemma RemoveLinesQuantities(lines: seq<LineItem>, pid: ProductId, other: ProductId)
    ensures QtyOf(RemoveLines(lines, pid), pid) == 0
    ensures other != pid ==> QtyOf(RemoveLines(lines, pid), other) == QtyOf(lines, other)
  {
    QtyOfAbsent(RemoveLines(lines, pid), pid);
    if other != pid {
      QtyOfKept(lines, pid, other);
    }
  }

  /** `updateQuantity`'s edit: set the quantity of the first line for pid; nothing when there is none. */
  function SetQuantity(lines: seq<LineItem>, pid: ProductId, q: int): (r: Option<seq<LineItem>>)
    ensures r.None? <==> forall i :: 0 <= i < |lines| ==> lines[i].product != pid
    ensures r.Some? ==>
      var k := FindLine(lines, pid).value;
      && |r.value| == |lines|
      && r.value[k] == LineItem(pid, q)
      && forall j :: 0 <= j < |lines| && j != k ==> r.value[j] == lines[j]
  {
    match FindLine(lines, pid)
    case Some(k) => Some(lines[k := lines[k].(quantity := q)])
    case None => None
  }

  /** With one line per product, after a successful update exactly q of pid is requested. */
  lemma SetQuantityQuantities(lines: seq<LineItem>, pid: ProductId, q: int)
    requires OneLinePerProduct(lines)
    requires SetQuantity(lines, pid, q).Some?
    ensures OneLinePerProduct(SetQuantity(lines, pid, q).value)
    ensures QtyOf(SetQuantity(lines, pid, q).value, pid) == q
  {
    var k := FindLine(lines, pid).value;
    var r := SetQuantity(lines, pid, q).value;
    assert r[k].product == pid;
    QtyOfTheLine(r, k);
  }
}
