/**
 A model of the shopping-cart state kept by the storefront's cart hook.

 The cart is a list of entries keyed by product id, each with an amount.
 Three operations change it: adding one unit of a product, removing a
 product, and setting a product's amount. Every change that succeeds is
 written to the browser's storage under one key and published as the new
 state. The stock endpoint and the product endpoint are not called here:
 what they answered is passed in as a `Fetch` value, and a request that
 failed (the source's `catch` path) is `Rejected`.

 The product's own fields (name, price, image) are the type parameter `D`:
 the cart never looks at them.
 */
module UseCart {

  datatype Option<T> = None | Some(value: T)

  /** What an awaited HTTP request produced: its body, or a rejection. */
  datatype Fetch<T> = Received(data: T) | Rejected

  /** A record of the stock endpoint. Its `id` may be missing from the body. */
  datatype StockRecord = StockRecord(id: Option<int>, amount: int)

  /** A record of the product endpoint: its id and its remaining fields. */
  datatype Product<D> = Product(id: int, details: D)

  /** One line of the cart: the product's fields plus the chosen amount. */
  datatype Entry<D> = Entry(id: int, details: D, amount: int)

  /** The notices the hook raises instead of throwing. */
  datatype Notice = OutOfStock | AddFailed | RemoveFailed | UpdateFailed

  /**
   What an operation did: wrote a new cart, returned early without a
   notice, or raised a notice and left the state alone.
   */
  datatype Outcome = Saved | Skipped | Failed(notice: Notice)

  /** The text shown for each notice. */
  function Message(n: Notice): string
  {
    match n
    case OutOfStock => "Quantidade solicitada fora de estoque"
    case AddFailed => "Erro na adição do produto"
    case RemoveFailed => "Erro na remoção do produto"
    case UpdateFailed => "Erro na alteração de quantidade do produto"
  }

  /**
   The hook's `!stock.id` test read positively: a missing id and the id 0
   are both falsy, so both count as "no stock record".
   */
  predicate HasId(stock: StockRecord)
  {
    stock.id.Some? && stock.id.value != 0
  }

  // ---------------------------------------------------------------------
  // Cart values
  // ---------------------------------------------------------------------

  /** No two entries share a product id. */
  predicate Unique<D>(cart: seq<Entry<D>>)
  {
    forall i, j :: 0 <= i < j < |cart| ==> cart[i].id != cart[j].id
  }

  /** Every entry holds at least one unit. */
  predicate Positive<D>(cart: seq<Entry<D>>)
  {
    forall k :: 0 <= k < |cart| ==> cart[k].amount >= 1
  }

  predicate WellFormed<D>(cart: seq<Entry<D>>)
  {
    Unique(cart) && Positive(cart)
  }

  /** The two carts list the same products in the same order. */
  predicate SameIds<D>(a: seq<Entry<D>>, b: seq<Entry<D>>)
  {
    |a| == |b| && forall k :: 0 <= k < |a| ==> a[k].id == b[k].id
  }

  /**
   `cart.findIndex(item => item.id === id)`: the first position holding
   `id`, or -1 when no entry holds it.
   */
  function FindIndex<D>(cart: seq<Entry<D>>, id: int): (i: int)
    ensures -1 <= i < |cart|
    ensures i == -1 <==> forall k :: 0 <= k < |cart| ==> cart[k].id != id
    ensures 0 <= i ==> cart[i].id == id && forall k :: 0 <= k < i ==> cart[k].id != id
  {
    if cart == [] then -1
    else if cart[0].id == id then 0
    else
      var j := FindIndex(cart[1..], id);
      if j == -1 then -1 else j + 1
  }

  /**
   `cart.splice(i, 1)`: the cart without position `i`, the other entries
   in their old order.
   */
  function RemoveAt<D>(cart: seq<Entry<D>>, i: nat): (r: seq<Entry<D>>)
    requires i < |cart|
    ensures |r| == |cart| - 1
    ensures forall k :: 0 <= k < i ==> r[k] == cart[k]
    ensures forall k :: i <= k < |r| ==> r[k] == cart[k + 1]
  {
    cart[..i] + cart[i + 1..]
  }

  /**
   `cart.map(p => p.id === id ? {...p, amount} : p)`: every entry holding
   `id` gets the new amount, every other entry is kept as it was.
   */
  function SetAmount<D>(cart: seq<Entry<D>>, id: int, amount: int): (r: seq<Entry<D>>)
    ensures SameIds(cart, r)
    ensures forall k :: 0 <= k < |cart| ==> r[k].details == cart[k].details
    ensures forall k :: 0 <= k < |cart| && cart[k].id == id ==> r[k].amount == amount
    ensures forall k :: 0 <= k < |cart| && cart[k].id != id ==> r[k] == cart[k]
  {
    if cart == [] then []
    else
      var head := if cart[0].id == id then cart[0].(amount := amount) else cart[0];
      [head] + SetAmount(cart[1..], id, amount)
  }

  /** What the hook starts with: the stored cart, or an empty one. */
  function Load<D>(stored: Option<seq<Entry<D>>>): seq<Entry<D>>
  {
    match stored
    case None => []
    case Some(c) => c
  }

  // ---------------------------------------------------------------------
  // Properties of the cart values
  // ---------------------------------------------------------------------

  /** The search looks only at ids, so changing amounts does not move it. */
  lemma FindIndexSameIds<D>(a: seq<Entry<D>>, b: seq<Entry<D>>, id: int)
    requires SameIds(a, b)
    ensures FindIndex(a, id) == FindIndex(b, id)
  {
  }

  /** An entry appended for an absent id is found at the new last position. */
  lemma AppendAbsentFound<D>(cart: seq<Entry<D>>, e: Entry<D>)
    requires FindIndex(cart, e.id) == -1
    ensures FindIndex(cart + [e], e.id) == |cart|
  {
    var c := cart + [e];
    assert c[|cart|].id == e.id;
    assert forall k :: 0 <= k < |cart| ==> c[k].id != e.id by {
      forall k | 0 <= k < |cart| ensures c[k].id != e.id {
        assert c[k] == cart[k];
      }
    }
  }

  /** Appending an entry whose id is absent keeps the cart well formed. */
  lemma AppendAbsentKeepsWellFormed<D>(cart: seq<Entry<D>>, e: Entry<D>)
    requires WellFormed(cart)
    requires FindIndex(cart, e.id) == -1
    requires e.amount >= 1
    ensures WellFormed(cart + [e])
  {
  }

  /** Raising one entry's amount keeps the cart well formed. */
  lemma IncrementKeepsWellFormed<D>(cart: seq<Entry<D>>, i: nat)
    requires WellFormed(cart)
    requires i < |cart|
    ensures WellFormed(cart[i := cart[i].(amount := cart[i].amount + 1)])
  {
  }

  /** Deleting one position keeps the cart well formed. */
  lemma RemoveAtKeepsWellFormed<D>(cart: seq<Entry<D>>, i: nat)
    requires WellFormed(cart)
    requires i < |cart|
    ensures WellFormed(RemoveAt(cart, i))
  {
  }

  /**
   In a cart with unique ids, deleting the first entry holding `id` leaves
   no entry holding it.
   */
  lemma RemoveFoundLeavesAbsent<D>(cart: seq<Entry<D>>, id: int)
    requires Unique(cart)
    requires FindIndex(cart, id) >= 0
    ensures FindIndex(RemoveAt(cart, FindIndex(cart, id)), id) == -1
  {
  }

  /**
   Adding a product that was absent and then removing it gives back the
   cart as it was.
   */
  lemma AppendThenRemove<D>(cart: seq<Entry<D>>, e: Entry<D>)
    requires FindIndex(cart, e.id) == -1
    ensures FindIndex(cart + [e], e.id) == |cart|
    ensures RemoveAt(cart + [e], |cart|) == cart
  {
  }

  /** Setting a positive amount keeps the cart well formed. */
  lemma SetAmountKeepsWellFormed<D>(cart: seq<Entry<D>>, id: int, amount: int)
    requires WellFormed(cart)
    requires amount >= 1
    ensures WellFormed(SetAmount(cart, id, amount))
  {
  }

  /** Setting the amount of an id the cart does not hold changes nothing. */
  lemma SetAmountAbsent<D>(cart: seq<Entry<D>>, id: int, amount: int)
    requires FindIndex(cart, id) == -1
    ensures SetAmount(cart, id, amount) == cart
  {
  }

  /**
   In a cart with unique ids, mapping over the whole cart changes exactly
   the one entry that `FindIndex` reports.
   */
  lemma SetAmountAtFound<D>(cart: seq<Entry<D>>, id: int, amount: int)
    requires Unique(cart)
    requires FindIndex(cart, id) >= 0
    ensures var i := FindIndex(cart, id);
      SetAmount(cart, id, amount) == cart[i := cart[i].(amount := amount)]
  {
  }

  /** Setting the same amount twice is the same as setting it once. */
  lemma SetAmountIdempotent<D>(cart: seq<Entry<D>>, id: int, amount: int)
    ensures SetAmount(SetAmount(cart, id, amount), id, amount) == SetAmount(cart, id, amount)
  {
  }

  // ---------------------------------------------------------------------
  // The state the hook keeps
  // ---------------------------------------------------------------------

  /**
   The cart state of the provider: the in-memory cart and what the
   storage key '@RocketShoes:cart' holds (`None` while nothing was ever
   written there).
   */
  class CartProvider<D> {
    var cart: seq<Entry<D>>
    var storage: Option<seq<Entry<D>>>

    /** Reloading from storage would give back the cart held in memory. */
    ghost predicate Valid()
      reads this
    {
      cart == Load(storage)
    }

    /** The initial state: the stored cart, or an empty one. */
    constructor (stored: Option<seq<Entry<D>>>)
      ensures Valid()
      ensures storage == stored
      ensures stored.None? ==> cart == []
      ensures stored.Some? ==> cart == stored.value
    {
      cart := Load(stored);
      storage := stored;
    }

    /** The `findIndex` scan over the current cart. */
    method FindProduct(productId: int) returns (index: int)
      ensures index == FindIndex(cart, productId)
    {
      index := 0;
      while index < |cart|
        invariant 0 <= index <= |cart|
        invariant forall k :: 0 <= k < index ==> cart[k].id != productId
      {
        if cart[index].id == productId {
          return;
        }
        index := index + 1;
      }
      index := -1;
    }

    /**
     `addProduct`: given the stock endpoint's answer and, for a product not
     yet in the cart, the product endpoint's answer, add one unit.
     */
    method AddProduct(productId: int, stock: Fetch<StockRecord>, product: Fetch<Product<D>>)
      returns (outcome: Outcome)
      requires Valid()
      modifies this
      ensures Valid()
      ensures outcome.Saved? ==> storage == Some(cart)
      ensures !outcome.Saved? ==> cart == old(cart) && storage == old(storage)
      ensures stock.Rejected? ==> outcome == Failed(AddFailed)
      ensures stock.Received? && !HasId(stock.data) ==> outcome == Failed(OutOfStock)
      // a product not yet in the cart
      ensures stock.Received? && HasId(stock.data) && FindIndex(old(cart), productId) == -1 ==>
        if stock.data.amount == 0 then outcome == Failed(OutOfStock)
        else if product.Rejected? then outcome == Failed(AddFailed)
        else outcome == Saved &&
             cart == old(cart) + [Entry(product.data.id, product.data.details, 1)]
      // a product already in the cart
      ensures stock.Received? && HasId(stock.data) && FindIndex(old(cart), productId) >= 0 ==>
        var i := FindIndex(old(cart), productId);
        if stock.data.amount < old(cart)[i].amount + 1 then outcome == Failed(OutOfStock)
        else outcome == Saved &&
             cart == old(cart)[i := old(cart)[i].(amount := old(cart)[i].amount + 1)]
      // the cart stays well formed when the product endpoint echoes the id asked for
      ensures WellFormed(old(cart)) && (product.Received? ==> product.data.id == productId) ==>
        WellFormed(cart)
      // after a successful add the product's amount is within the stock checked
      ensures outcome.Saved? && stock.data.amount >= 0 &&
              (product.Received? ==> product.data.id == productId) ==>
        var j := FindIndex(cart, productId);
        0 <= j && cart[j].amount <= stock.data.amount
    {
      if stock.Rejected? {
        outcome := Failed(AddFailed);
        return;
      }
      var s := stock.data;
      if !HasId(s) {
        outcome := Failed(OutOfStock);
        return;
      }
      var i := FindProduct(productId);
      if i == -1 {
        if s.amount == 0 {
          outcome := Failed(OutOfStock);
          return;
        }
        if product.Rejected? {
          outcome := Failed(AddFailed);
          return;
        }
        var e := Entry(product.data.id, product.data.details, 1);
        if WellFormed(cart) && e.id == productId {
          AppendAbsentKeepsWellFormed(cart, e);
        }
        if e.id == productId {
          AppendAbsentFound(cart, e);
        }
        cart := cart + [e];
      } else {
        if s.amount < cart[i].amount + 1 {
          outcome := Failed(OutOfStock);
          return;
        }
        var bumped := cart[i := cart[i].(amount := cart[i].amount + 1)];
        if WellFormed(cart) {
          IncrementKeepsWellFormed(cart, i);
        }
        FindIndexSameIds(cart, bumped, productId);
        cart := bumped;
      }
      storage := Some(cart);
      outcome := Saved;
    }

    /** `removeProduct`: delete the first entry holding `productId`. */
    method RemoveProduct(productId: int) returns (outcome: Outcome)
      requires Valid()
      modifies this
      ensures Valid()
      ensures FindIndex(old(cart), productId) == -1 ==>
        outcome == Failed(RemoveFailed) && cart == old(cart) && storage == old(storage)
      ensures FindIndex(old(cart), productId) >= 0 ==>
        outcome == Saved && cart == RemoveAt(old(cart), FindIndex(old(cart), productId)) &&
        storage == Some(cart)
      ensures WellFormed(old(cart)) ==> WellFormed(cart) && FindIndex(cart, productId) == -1
    {
      var i := FindProduct(productId);
      if i == -1 {
        outcome := Failed(RemoveFailed);
        return;
      }
      if WellFormed(cart) {
        RemoveAtKeepsWellFormed(cart, i);
        RemoveFoundLeavesAbsent(cart, productId);
      }
      cart := RemoveAt(cart, i);
      storage := Some(cart);
      outcome := Saved;
    }

    /**
     `updateProductAmount`: set the amount of `productId` to `amount`,
     checked against the stock endpoint's answer.
     */
    method UpdateProductAmount(productId: int, amount: int, stock: Fetch<StockRecord>)
      returns (outcome: Outcome)
      requires Valid()
      modifies this
      ensures Valid()
      ensures !outcome.Saved? ==> cart == old(cart) && storage == old(storage)
      ensures amount <= 0 ==> outcome == Skipped
      ensures amount > 0 && stock.Rejected? ==> outcome == Failed(UpdateFailed)
      ensures amount > 0 && stock.Received? && stock.data.amount < amount ==>
        outcome == Failed(OutOfStock)
      ensures amount > 0 && stock.Received? && stock.data.amount >= amount ==>
        outcome == Saved && cart == SetAmount(old(cart), productId, amount) &&
        storage == Some(cart)
      // with unique ids the map changes the one entry found, or nothing
      ensures outcome.Saved? && Unique(old(cart)) && FindIndex(old(cart), productId) >= 0 ==>
        var i := FindIndex(old(cart), productId);
        cart == old(cart)[i := old(cart)[i].(amount := amount)]
      ensures outcome.Saved? && FindIndex(old(cart), productId) == -1 ==> cart == old(cart)
      ensures WellFormed(old(cart)) ==> WellFormed(cart)
      // after a successful update every entry of the product is within the stock checked
      ensures outcome.Saved? ==>
        forall k :: 0 <= k < |cart| && cart[k].id == productId ==> cart[k].amount <= stock.data.amount
    {
      if amount <= 0 {
        outcome := Skipped;
        return;
      }
      if stock.Rejected? {
        outcome := Failed(UpdateFailed);
        return;
      }
      if stock.data.amount < amount {
        outcome := Failed(OutOfStock);
        return;
      }
      var newCart := SetAmount(cart, productId, amount);
      if WellFormed(cart) {
        SetAmountKeepsWellFormed(cart, productId, amount);
      }
      if FindIndex(cart, productId) == -1 {
        SetAmountAbsent(cart, productId, amount);
      } else if Unique(cart) {
        SetAmountAtFound(cart, productId, amount);
      }
      cart := newCart;
      storage := Some(cart);
      outcome := Saved;
    }
  }
}
