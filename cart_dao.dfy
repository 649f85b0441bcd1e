/**
 * The cart data-access object (src/dao/models/cartDAO.js): a table of carts,
 * each a sequence of line items, the small edits on one cart, and
 * `purchaseCart`, which walks a cart against the product table, writes the
 * lowered stock, issues one ticket and leaves the unfulfilled lines in the cart.
 */
module Carts {
  import opened Wrappers
  import opened Products
  import opened CartLines
  import opened Purchase
  import opened Tickets

  type CartId = nat

  /** A cart document as the methods return it. */
  datatype Cart = Cart(id: CartId, products: seq<LineItem>)

  /**
   * Why a cart method failed: the cart id is not stored (every method but
   * `getCartById` then dereferences a missing document, and `purchaseCart`
   * throws 'Cart not found'), or a line refers to a product that is not stored.
   */
  datatype CartError = CartNotFound | ProductNotFound(product: ProductId)

  /** What `purchaseCart` returns. */
  datatype PurchaseResult = PurchaseResult(ticket: Ticket, notPurchasedProducts: seq<LineItem>)

  class CartDAO {
    /** The stored carts' lines, by cart id. */
    var carts: map<CartId, seq<LineItem>>
    /** The product collection the checkout reads and writes. */
    const productDAO: ProductDAO
    /** The ticket collection the checkout writes. */
    const ticketStore: TicketStore

    ghost predicate Valid()
      reads this, productDAO, ticketStore
    {
      productDAO.Valid() && ticketStore.Valid()
    }

    constructor (productDAO: ProductDAO, ticketStore: TicketStore)
      requires productDAO.Valid() && ticketStore.Valid()
      ensures Valid()
      ensures carts == map[] && this.productDAO == productDAO && this.ticketStore == ticketStore
    {
      carts := map[];
      this.productDAO := productDAO;
      this.ticketStore := ticketStore;
    }

    /** `createCart`: stores a new cart holding the given lines under a fresh id. */
    method CreateCart(id: CartId, products: seq<LineItem>) returns (c: Cart)
      requires id !in carts
      modifies this
      ensures c == Cart(id, products)
      ensures carts == old(carts)[id := products]
    {
      c := Cart(id, products);
      carts := carts[id := products];
    }

    /** `getCartById`: the cart stored under id, or nothing. */
    function GetCartById(id: CartId): (r: Option<Cart>)
      reads this
      ensures r.Some? <==> id in carts
      ensures r.Some? ==> r.value.id == id && r.value.products == carts[id]
    {
      if id in carts then Some(Cart(id, carts[id])) else None
    }

    /**
     * `addProductToCart`: merges `quantity` into the line for the product, or appends a
     * new line; what that does to each product's quantity is AddLineQuantities.
     */
    method AddProductToCart(cartId: CartId, pid: ProductId, quantity: int) returns (r: Result<Cart, CartError>)
      modifies this
      ensures cartId !in old(carts) ==> r == Failure(CartNotFound) && carts == old(carts)
      ensures cartId in old(carts) ==>
                && carts == old(carts)[cartId := AddLine(old(carts)[cartId], pid, quantity)]
                && r == Success(Cart(cartId, carts[cartId]))
    {
      if cartId !in carts {
        return Failure(CartNotFound);
      }
      var lines := carts[cartId];
      var index := FindLine(lines, pid);
      if index.Some? {
        var k := index.value;
        lines := lines[k := LineItem(pid, lines[k].quantity + quantity)];
      } else {
        lines := lines + [LineItem(pid, quantity)];
      }
      carts := carts[cartId := lines];
      r := Success(Cart(cartId, lines));
    }

    /** `deleteProductFromCart`: drops every line for the product, keeping the others in order. */
    method DeleteProductFromCart(cartId: CartId, pid: ProductId) returns (r: Result<Cart, CartError>)
      modifies this
      ensures cartId !in old(carts) ==> r == Failure(CartNotFound) && carts == old(carts)
      ensures cartId in old(carts) ==>
                && carts == old(carts)[cartId := RemoveLines(old(carts)[cartId], pid)]
                && r == Success(Cart(cartId, carts[cartId]))
    {
      if cartId !in carts {
        return Failure(CartNotFound);
      }
      var lines := RemoveLines(carts[cartId], pid);
      carts := carts[cartId := lines];
      r := Success(Cart(cartId, lines));
    }

    /** `updateCart`: replaces the cart's lines wholesale. */
    method UpdateCart(cartId: CartId, updated: seq<LineItem>) returns (r: Result<Cart, CartError>)
      modifies this
      ensures cartId !in old(carts) ==> r == Failure(CartNotFound) && carts == old(carts)
      ensures cartId in old(carts) ==>
                carts == old(carts)[cartId := updated] && r == Success(Cart(cartId, updated))
    {
      if cartId !in carts {
        return Failure(CartNotFound);
      }
      carts := carts[cartId := updated];
      r := Success(Cart(cartId, updated));
    }

    /**
     * `updateQuantity`: sets the quantity of the product's first line; with no such line
     * nothing is saved and nothing is returned.
     */
    method UpdateQuantity(cartId: CartId, pid: ProductId, q: int) returns (r: Result<Option<Cart>, CartError>)
      modifies this
      ensures cartId !in old(carts) ==> r == Failure(CartNotFound) && carts == old(carts)
      ensures cartId in old(carts) && SetQuantity(old(carts)[cartId], pid, q).None? ==>
                r == Success(None) && carts == old(carts)
      ensures cartId in old(carts) && SetQuantity(old(carts)[cartId], pid, q).Some? ==>
                && carts == old(carts)[cartId := SetQuantity(old(carts)[cartId], pid, q).value]
                && r == Success(Some(Cart(cartId, carts[cartId])))
    {
      if cartId !in carts {
        return Failure(CartNotFound);
      }
      var lines := carts[cartId];
      var index := FindLine(lines, pid);
      if index.None? {
        return Success(None);
      }
      var k := index.value;
      lines := lines[k := LineItem(lines[k].product, q)];
      carts := carts[cartId := lines];
      r := Success(Some(Cart(cartId, lines)));
    }

    /** `emptyCart`: leaves the cart with no lines. */
    method EmptyCart(cartId: CartId) returns (r: Result<Cart, CartError>)
      modifies this
      ensures cartId !in old(carts) ==> r == Failure(CartNotFound) && carts == old(carts)
      ensures cartId in old(carts) ==> carts == old(carts)[cartId := []] && r == Success(Cart(cartId, []))
    {
      if cartId !in carts {
        return Failure(CartNotFound);
      }
      carts := carts[cartId := []];
      r := Success(Cart(cartId, []));
    }

    /**
     * `purchaseCart`: the checkout loop. `code` stands for the ticket's `uuidv4()` code.
     * The outcome is the checkout walk Checkout of the cart's lines over the product table
     * as it was: the table it leaves is written, and unless a product was missing one ticket
     * for the walk's total is issued (also when the total is 0) and the cart keeps only the
     * lines not purchased. A missing cart fails before anything is written.
     */
    method PurchaseCart(cartId: CartId, userId: string, code: string) returns (r: Result<PurchaseResult, CartError>)
      requires Valid() && ticketStore.Fresh(code)
      modifies this, productDAO, ticketStore
      ensures Valid()
      ensures productDAO.order == old(productDAO.order)
      ensures cartId !in old(carts) ==>
                && r == Failure(CartNotFound)
                && carts == old(carts)
                && productDAO.products == old(productDAO.products)
                && ticketStore.tickets == old(ticketStore.tickets)
      ensures cartId in old(carts) ==>
                productDAO.products == Checkout(old(productDAO.products), old(carts)[cartId]).table
      ensures cartId in old(carts) && Checkout(old(productDAO.products), old(carts)[cartId]).missing.Some? ==>
                && r == Failure(ProductNotFound(Checkout(old(productDAO.products), old(carts)[cartId]).missing.value))
                && carts == old(carts)
                && ticketStore.tickets == old(ticketStore.tickets)
      ensures cartId in old(carts) && Checkout(old(productDAO.products), old(carts)[cartId]).missing.None? ==>
                var s := Checkout(old(productDAO.products), old(carts)[cartId]);
                && r == Success(PurchaseResult(Ticket(code, s.total, userId), s.notPurchased))
                && ticketStore.tickets == old(ticketStore.tickets) + [Ticket(code, s.total, userId)]
                && carts == old(carts)[cartId := s.notPurchased]
    {
      if cartId !in carts {
        return Failure(CartNotFound);
      }
      var purchased, notPurchased, total, missing := WalkLines(carts[cartId]);
      if missing.Some? {
        return Failure(ProductNotFound(missing.value));
      }
      var ticket := ticketStore.Issue(code, total, userId);
      carts := carts[cartId := notPurchased];
      r := Success(PurchaseResult(ticket, notPurchased));
    }

    /**
     * The loop of `purchaseCart` over the cart's lines: each line is checked against the
     * product table (CheckLine) and recorded as purchased, with price * quantity added to
     * the total, or as not purchased. A line whose product is not stored stops the loop,
     * reported in `missing`.
     */
    method WalkLines(lines: seq<LineItem>) returns (purchased: seq<LineItem>, notPurchased: seq<LineItem>, total: int, missing: Option<ProductId>)
      requires productDAO.Valid()
      modifies productDAO
      ensures productDAO.Valid() && productDAO.order == old(productDAO.order)
      ensures var s := Checkout(old(productDAO.products), lines);
              && productDAO.products == s.table
              && purchased == s.purchased
              && notPurchased == s.notPurchased
              && total == s.total
              && missing == s.missing
    {
      ghost var t0 := productDAO.products;
      purchased, notPurchased, total, missing := [], [], 0, None;
      ghost var fulfilled: seq<bool> := [];
      var i := 0;
      while i < |lines|
        invariant 0 <= i <= |lines|
        invariant productDAO.Valid() && productDAO.order == old(productDAO.order)
        invariant Run(t0, lines, i) == CheckoutState(productDAO.products, purchased, notPurchased, fulfilled, total, None)
      {
        var item := lines[i];
        ghost var before := Run(t0, lines, i);
        var found, bought, amount := CheckLine(before, item);
        assert Run(t0, lines, i + 1) == Step(before, item);
        if !found {
          missing := Some(item.product);
          MissingStopsCheckout(t0, lines, i + 1, |lines|);
          return;
        }
        if bought {
          purchased := purchased + [item];
          total := total + amount;
        } else {
          notPurchased := notPurchased + [item];
        }
        fulfilled := fulfilled + [bought];
        i := i + 1;
      }
    }

    /**
     * One iteration of that loop for one line, from the walk state `s` whose table is the
     * stored products: re-reads the product and, when its stock covers the quantity, writes
     * the lowered stock (`updateProduct(id, { stock })`) and reports the line's
     * price * quantity. What it reports and writes is one Step of the walk.
     */
    method CheckLine(ghost s: CheckoutState, item: LineItem) returns (found: bool, bought: bool, amount: int)
      requires productDAO.Valid() && s.missing.None? && s.table == productDAO.products
      modifies productDAO
      ensures productDAO.Valid() && productDAO.order == old(productDAO.order)
      ensures var next := Step(s, item);
              && (found <==> next.missing.None?)
              && (!found ==> next.missing == Some(item.product) && productDAO.products == old(productDAO.products))
              && (found ==> next == CheckoutState(
                                      productDAO.products,
                                      s.purchased + (if bought then [item] else []),
                                      s.notPurchased + (if bought then [] else [item]),
                                      s.fulfilled + [bought],
                                      s.total + amount,
                                      None))
    {
      var product := productDAO.GetProductById(item.product);
      if product.None? {
        return false, false, 0;
      }
      var p := product.value;
      assert p == productDAO.products[item.product];
      if p.stock >= item.quantity {
        var stock := p.stock - item.quantity;
        var updated := productDAO.UpdateProduct(p.id, StockPatch(stock));
        StockPatchOnlyStock(p, stock);
        return true, true, p.price * item.quantity;
      }
      return true, false, 0;
    }
  }
}
