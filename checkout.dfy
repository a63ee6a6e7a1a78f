/**
 * The checkout page: it pre-selects a shipping address, validates it, turns the cart
 * into an order, appends the order to the ledger in local storage with status
 * `processing`, opens the payment widget, and reacts to the widget's callbacks.
 */
module Checkout {
  import opened Wrappers
  import opened Collection
  import Cart
  import AddressBook

  /** The page's address form: the six fields checkout needs. */
  datatype ShippingAddress = ShippingAddress(
    fullName: string, street: string, city: string, state: string, zipCode: string, phone: string)

  const BlankForm := ShippingAddress("", "", "", "", "", "")

  /** handlePayment's check: every field is filled in. */
  predicate Complete(a: ShippingAddress)
  {
    a.fullName != "" && a.street != "" && a.city != "" && a.state != "" && a.zipCode != "" && a.phone != ""
  }

  /** The form filled from a saved address. */
  function FormOf(a: AddressBook.Address): ShippingAddress
  {
    ShippingAddress(a.fullName, a.street, a.city, a.state, a.zipCode, a.phone)
  }

  // ----- default-address pre-selection -----

  /** `addresses.find(addr => addr.isDefault)`. */
  function FirstDefault(a: seq<AddressBook.Address>): (r: Option<AddressBook.Address>)
    ensures r.None? <==> forall i :: 0 <= i < |a| ==> !a[i].isDefault
    ensures r.Some? ==> exists i :: 0 <= i < |a| && a[i] == r.value && a[i].isDefault
                                  && forall j :: 0 <= j < i ==> !a[j].isDefault
  {
    if a == [] then None
    else if a[0].isDefault then Some(a[0])
    else
      var r := FirstDefault(a[1..]);
      assert r.Some? ==> exists i :: 0 <= i < |a[1..]| && a[1..][i] == r.value && a[1..][i].isDefault
                                  && forall j :: 0 <= j < i ==> !a[1..][j].isDefault;
      assert r.Some? ==> exists i :: 0 <= i < |a| && a[i] == r.value && a[i].isDefault
                                  && forall j :: 0 <= j < i ==> !a[j].isDefault by {
        if r.Some? {
          var i :| 0 <= i < |a[1..]| && a[1..][i] == r.value && a[1..][i].isDefault
                   && forall j :: 0 <= j < i ==> !a[1..][j].isDefault;
          assert a[i + 1] == r.value;
          forall j | 0 <= j < i + 1 ensures !a[j].isDefault {
            if j > 0 { assert a[j] == a[1..][j - 1]; }
          }
        }
      }
      r
  }

  /** The address checkout starts from: the first default, else the first address. */
  function DefaultOrFirst(a: seq<AddressBook.Address>): Option<AddressBook.Address>
  {
    match FirstDefault(a)
    case Some(d) => Some(d)
    case None => if |a| > 0 then Some(a[0]) else None
  }

  /** The selected address id and the form. */
  datatype Selection = Selection(selectedId: string, form: ShippingAddress)

  /**
   * fetchUserProfile: with a stored address list, select its default (or first) address;
   * with no list stored at all, fill the form from the legacy single address.
   */
  function Preselect(stored: Option<seq<AddressBook.Address>>, legacy: Option<ShippingAddress>, s: Selection): Selection
  {
    match stored
    case Some(a) =>
      (match DefaultOrFirst(a)
       case Some(d) => Selection(d.id, FormOf(d))
       case None => s)
    case None => if legacy.Some? then s.(form := legacy.value) else s
  }

  /** Pre-selection picks the first address flagged default. */
  lemma PreselectFirstDefault(a: seq<AddressBook.Address>, k: int, legacy: Option<ShippingAddress>, s: Selection)
    requires 0 <= k < |a| && a[k].isDefault
    requires forall j :: 0 <= j < k ==> !a[j].isDefault
    ensures Preselect(Some(a), legacy, s) == Selection(a[k].id, FormOf(a[k]))
  {
    var r := FirstDefault(a);
    var i :| 0 <= i < |a| && a[i] == r.value && a[i].isDefault && forall j :: 0 <= j < i ==> !a[j].isDefault;
    assert i == k;
  }

  /** With no address flagged default, pre-selection picks the first address. */
  lemma PreselectNoDefault(a: seq<AddressBook.Address>, legacy: Option<ShippingAddress>, s: Selection)
    requires a != [] && forall j :: 0 <= j < |a| ==> !a[j].isDefault
    ensures Preselect(Some(a), legacy, s) == Selection(a[0].id, FormOf(a[0]))
  {
  }

  /** On a book that keeps its invariant, checkout starts from the one default address. */
  lemma PreselectSingleDefault(a: seq<AddressBook.Address>, legacy: Option<ShippingAddress>, s: Selection)
    requires AddressBook.SingleDefault(a) && a != []
    ensures exists k :: 0 <= k < |a| && a[k].isDefault
                        && Preselect(Some(a), legacy, s) == Selection(a[k].id, FormOf(a[k]))
  {
    var k := AddressBook.SingleDefaultIndex(a);
    PreselectFirstDefault(a, k, legacy, s);
  }

  /** The legacy address is used only when no list is stored; a stored empty list leaves the selection as it was. */
  lemma PreselectLegacyOnlyWithoutList(a: seq<AddressBook.Address>, l1: Option<ShippingAddress>, l2: Option<ShippingAddress>, s: Selection)
    ensures Preselect(Some(a), l1, s) == Preselect(Some(a), l2, s)
    ensures Preselect(Some([]), l1, s) == s
    ensures l1.Some? ==> Preselect(None, l1, s) == s.(form := l1.value)
    ensures Preselect(None, None, s) == s
  {
  }

  // ----- money -----

  /** A whole number of paise, as the rupee amount the source computes with. */
  function Rupees(paise: int): real
  {
    paise as real / 100.0
  }

  /** `Math.round(rupees * 100)`: the amount in paise the widget is given. */
  function MinorUnits(rupees: real): int
  {
    (rupees * 100.0 + 0.5).Floor
  }

  /** For a whole number of paise, the conversion to the widget's amount is exact. */
  lemma MinorUnitsExact(paise: int)
    ensures MinorUnits(Rupees(paise)) == paise
  {
    assert Rupees(paise) * 100.0 == paise as real;
  }

  // ----- createOrder -----

  const Currency := "INR"

  datatype CheckoutError = EmptyCart | InvalidAmount

  /** One line of an order: a copy of the cart line's fields and its total. */
  datatype OrderItem = OrderItem(id: string, name: string, price: int, quantity: int, total: int)

  function ItemOf(line: Doc<Cart.CartLine>): OrderItem
  {
    OrderItem(line.id, line.data.product.name, line.data.product.price, line.data.quantity,
              line.data.product.price * line.data.quantity)
  }

  /** The order's items: one per cart line, in cart order. */
  function Items(cart: seq<Doc<Cart.CartLine>>): (r: seq<OrderItem>)
    ensures |r| == |cart|
    ensures forall i :: 0 <= i < |cart| ==>
      r[i] == OrderItem(cart[i].id, cart[i].data.product.name, cart[i].data.product.price,
                        cart[i].data.quantity, cart[i].data.product.price * cart[i].data.quantity)
  {
    seq(|cart|, i requires 0 <= i < |cart| => ItemOf(cart[i]))
  }

  /** The sum of the items' totals. */
  function ItemsTotal(items: seq<OrderItem>): int
  {
    if items == [] then 0 else items[0].total + ItemsTotal(items[1..])
  }

  /** The items of an order add up to the cart's total price. */
  lemma {:induction false} ItemsTotalIsCartTotal(cart: seq<Doc<Cart.CartLine>>)
    ensures ItemsTotal(Items(cart)) == Cart.TotalPrice(cart)
  {
    if cart != [] {
      assert Items(cart)[1..] == Items(cart[1..]);
      ItemsTotalIsCartTotal(cart[1..]);
    }
  }

  /**
   * The order createOrder returns, before the page adds the address and the status.
   * `totalAmount` is the source's rupee `total_amount` held in paise, so that it and the
   * gateway `amount` (which the source computes as 100 times `total_amount`) are one number.
   */
  datatype PendingOrder = PendingOrder(
    id: string, amount: int, currency: string, receipt: string, createdAt: string,
    items: seq<OrderItem>, totalAmount: int)

  /** createOrder: refuse an empty cart and a non-positive total; otherwise snapshot the cart. */
  function CreateOrder(cart: seq<Doc<Cart.CartLine>>, orderId: string, createdAt: string): (r: Result<PendingOrder, CheckoutError>)
    ensures |cart| == 0 ==> r == Err(EmptyCart)
    ensures |cart| > 0 && Cart.TotalPrice(cart) <= 0 ==> r == Err(InvalidAmount)
    ensures r.Ok? <==> |cart| > 0 && Cart.TotalPrice(cart) > 0
    ensures r.Ok? ==>
      && r.value.id == orderId
      && r.value.totalAmount == Cart.TotalPrice(cart) > 0
      && ItemsTotal(r.value.items) == r.value.totalAmount
      && r.value.amount == r.value.totalAmount
      && r.value.currency == Currency
      && r.value.receipt == "receipt_" + orderId
      && r.value.createdAt == createdAt
      && r.value.items == Items(cart)
      && |r.value.items| == |cart|
      && (forall i :: 0 <= i < |cart| ==>
            && r.value.items[i].id == cart[i].id
            && r.value.items[i].name == cart[i].data.product.name
            && r.value.items[i].price == cart[i].data.product.price
            && r.value.items[i].quantity == cart[i].data.quantity
            && r.value.items[i].total == r.value.items[i].price * r.value.items[i].quantity)
  {
    if |cart| == 0 then Err(EmptyCart)
    else
      var total := Cart.TotalPrice(cart);
      if total <= 0 then Err(InvalidAmount)
      else
        ItemsTotalIsCartTotal(cart);
        MinorUnitsExact(total);
        Ok(PendingOrder(orderId, MinorUnits(Rupees(total)), Currency, "receipt_" + orderId, createdAt,
                        Items(cart), total))
  }

  /** The worked example: one line of two units at 100 rupees makes an order of 200 rupees with one item. */
  lemma ExampleOrder()
    ensures var cart := [Doc("1", Cart.CartLine(Cart.Product("1", "Item", 10000, "", "", ""), 2, 0))];
      var r := CreateOrder(cart, "order_1", "now");
      && r.Ok? && r.value.totalAmount == 20000 && r.value.amount == 20000 && |r.value.items| == 1
  {
    var cart := [Doc("1", Cart.CartLine(Cart.Product("1", "Item", 10000, "", "", ""), 2, 0))];
    assert cart[1..] == [];
    assert Cart.TotalPrice(cart) == 20000;
  }

  // ----- the ledger -----

  datatype Status = Processing | Shipped | Delivered | Cancelled

  datatype Payment = Payment(paymentId: string, paymentStatus: string)

  /** A ledger entry: the created order, the shipping address copied into it, its status and payment. */
  datatype Order = Order(details: PendingOrder, shippingAddress: ShippingAddress, status: Status, payment: Option<Payment>)

  /** `findIndex(o => o.id === id)`: the first order with that id, or -1. */
  function FindOrder(orders: seq<Order>, id: string): (i: int)
    ensures -1 <= i < |orders|
    ensures i == -1 <==> forall j :: 0 <= j < |orders| ==> orders[j].details.id != id
    ensures i >= 0 ==> orders[i].details.id == id && forall j :: 0 <= j < i ==> orders[j].details.id != id
  {
    if orders == [] then -1
    else if orders[0].details.id == id then 0
    else
      var k := FindOrder(orders[1..], id);
      assert forall j :: 0 < j < |orders| ==> orders[j] == orders[1..][j - 1];
      if k == -1 then -1 else k + 1
  }

  /** The success handler's write: payment id and status on the matching order. */
  function RecordPayment(orders: seq<Order>, id: string, paymentId: string): seq<Order>
  {
    var i := FindOrder(orders, id);
    if i < 0 then orders else orders[i := orders[i].(payment := Some(Payment(paymentId, "completed")))]
  }

  /**
   * The success handler marks the first order with the id as paid and changes nothing else:
   * no status changes, and an unknown id leaves the ledger as it was.
   */
  lemma RecordPaymentEffect(orders: seq<Order>, id: string, paymentId: string)
    ensures |RecordPayment(orders, id, paymentId)| == |orders|
    ensures forall j :: 0 <= j < |orders| ==>
      RecordPayment(orders, id, paymentId)[j].(payment := orders[j].payment) == orders[j]
    ensures forall j :: 0 <= j < |orders| && j != FindOrder(orders, id) ==>
      RecordPayment(orders, id, paymentId)[j] == orders[j]
    ensures FindOrder(orders, id) >= 0 ==>
      RecordPayment(orders, id, paymentId)[FindOrder(orders, id)].payment == Some(Payment(paymentId, "completed"))
    ensures (forall j :: 0 <= j < |orders| ==> orders[j].details.id != id) ==> RecordPayment(orders, id, paymentId) == orders
  {
  }

  /** With distinct order ids, exactly the order carrying the id is marked paid. */
  lemma RecordPaymentUniqueIds(orders: seq<Order>, id: string, paymentId: string)
    requires forall i, j :: 0 <= i < j < |orders| ==> orders[i].details.id != orders[j].details.id
    ensures forall j :: 0 <= j < |orders| && orders[j].details.id != id ==>
      RecordPayment(orders, id, paymentId)[j] == orders[j]
    ensures forall j :: 0 <= j < |orders| && orders[j].details.id == id ==>
      RecordPayment(orders, id, paymentId)[j] == orders[j].(payment := Some(Payment(paymentId, "completed")))
  {
    var k := FindOrder(orders, id);
    assert forall j :: 0 <= j < |orders| && orders[j].details.id == id ==> j == k;
  }

  // ----- the payment widget -----

  /** The widget's options, with the id of the order its callbacks refer to. */
  datatype PaymentWidget = PaymentWidget(
    orderId: string, amount: int, currency: string, merchant: string, description: string,
    prefillName: string, prefillEmail: string, prefillContact: string)

  /** The options of the widget for `order`; of the two `prefill` entries the later one is the one in effect. */
  function WidgetFor(order: PendingOrder, address: ShippingAddress, email: string, displayName: string): (w: PaymentWidget)
    ensures w.orderId == order.id && w.amount == order.amount && w.currency == order.currency
    ensures Complete(address) ==> w.prefillName == address.fullName && w.prefillContact == address.phone
  {
    PaymentWidget(order.id, order.amount, order.currency, "XCart", "Payment for your order",
      if address.fullName != "" then address.fullName else if displayName != "" then displayName else "Customer",
      email, address.phone)
  }

  /** How one press of the pay button ends. */
  datatype Attempt =
    | IncompleteAddress
    | GatewayUnavailable
    | OrderRefused(error: CheckoutError)
    | KeyNotConfigured
    | WidgetOpened(widget: PaymentWidget)

  /** The checkout page's state. */
  class CheckoutPage {
    /** The cart context the page reads and clears; its user is the signed-in user. */
    const cart: Cart.CartProvider
    const userEmail: string
    const userDisplayName: string
    /** Local storage's `userOrders`. */
    var orders: seq<Order>
    /** Local storage's legacy `userAddress`. */
    var legacyAddress: Option<ShippingAddress>
    var savedAddresses: seq<AddressBook.Address>
    var selection: Selection
    var loading: bool
    /** The open payment widget, if any. */
    var widget: Option<PaymentWidget>

    constructor (cart: Cart.CartProvider, userEmail: string, userDisplayName: string,
                 orders0: seq<Order>, legacy0: Option<ShippingAddress>)
      ensures this.cart == cart && this.userEmail == userEmail && this.userDisplayName == userDisplayName
      ensures orders == orders0 && legacyAddress == legacy0 && savedAddresses == []
      ensures selection == Selection("", BlankForm) && !loading && widget == None
    {
      this.cart := cart;
      this.userEmail := userEmail;
      this.userDisplayName := userDisplayName;
      orders := orders0;
      legacyAddress := legacy0;
      savedAddresses := [];
      selection := Selection("", BlankForm);
      loading := false;
      widget := None;
    }

    /** fetchUserProfile, run when a user is signed in: read the stored list and pre-select. */
    method LoadProfile(stored: Option<seq<AddressBook.Address>>)
      modifies this`savedAddresses, this`selection
      ensures cart.user.None? ==> savedAddresses == old(savedAddresses) && selection == old(selection)
      ensures cart.user.Some? ==>
        && savedAddresses == (if stored.Some? then stored.value else old(savedAddresses))
        && selection == Preselect(stored, legacyAddress, old(selection))
    {
      if cart.user.None? {
        return;
      }
      if stored.Some? {
        savedAddresses := stored.value;
      }
      selection := Preselect(stored, legacyAddress, selection);
    }

    /** Picking an address from the selector. */
    method SelectAddress(a: AddressBook.Address)
      requires a in savedAddresses
      modifies this`selection
      ensures selection == Selection(a.id, FormOf(a))
    {
      selection := Selection(a.id, FormOf(a));
    }

    /** handleAddressChange: the user's edits to the form. */
    method EditForm(form: ShippingAddress)
      modifies this`selection
      ensures selection == old(selection).(form := form)
    {
      selection := selection.(form := form);
    }

    /**
     * handlePayment and initiateRazorpayPayment. `scriptLoaded` is the gateway script's
     * load result, `keyConfigured` whether the public key is set; `orderId` and
     * `createdAt` are the generated id and the clock reading.
     */
    method HandlePayment(scriptLoaded: bool, keyConfigured: bool, orderId: string, createdAt: string)
      returns (attempt: Attempt)
      modifies this`orders, this`legacyAddress, this`loading, this`widget
      ensures !Complete(selection.form) <==> attempt == IncompleteAddress
      ensures !Complete(selection.form) ==>
        orders == old(orders) && legacyAddress == old(legacyAddress) && loading == old(loading) && widget == old(widget)
      ensures Complete(selection.form) ==> legacyAddress == Some(selection.form)
      ensures Complete(selection.form) && !scriptLoaded ==>
        attempt == GatewayUnavailable && orders == old(orders) && loading == old(loading) && widget == old(widget)
      ensures Complete(selection.form) && scriptLoaded && CreateOrder(cart.cart, orderId, createdAt).Err? ==>
        && attempt == OrderRefused(CreateOrder(cart.cart, orderId, createdAt).error)
        && orders == old(orders) && !loading && widget == old(widget)
      ensures attempt.KeyNotConfigured? || attempt.WidgetOpened? ==>
        && CreateOrder(cart.cart, orderId, createdAt).Ok?
        && orders == old(orders) + [Order(CreateOrder(cart.cart, orderId, createdAt).value, selection.form, Processing, None)]
      ensures Complete(selection.form) && scriptLoaded && CreateOrder(cart.cart, orderId, createdAt).Ok? ==>
        attempt == (if keyConfigured
                    then WidgetOpened(WidgetFor(CreateOrder(cart.cart, orderId, createdAt).value, selection.form, userEmail, userDisplayName))
                    else KeyNotConfigured)
      ensures attempt.KeyNotConfigured? ==> !loading && widget == old(widget)
      ensures attempt.WidgetOpened? ==> loading && widget == Some(attempt.widget)
    {
      var address := selection.form;
      if !Complete(address) {
        return IncompleteAddress;
      }
      legacyAddress := Some(address);
      if !scriptLoaded {
        return GatewayUnavailable;
      }
      loading := true;
      var created := CreateOrder(cart.cart, orderId, createdAt);
      if created.Err? {
        loading := false;
        return OrderRefused(created.error);
      }
      orders := orders + [Order(created.value, address, Processing, None)];
      if !keyConfigured {
        loading := false;
        return KeyNotConfigured;
      }
      var w := WidgetFor(created.value, address, userEmail, userDisplayName);
      widget := Some(w);
      attempt := WidgetOpened(w);
    }

    /** The widget's success handler: record the payment on the order, then clear the cart. */
    method OnPaymentSuccess(paymentId: string)
      requires widget.Some? && cart.Valid()
      modifies this`orders, cart`remote
      ensures orders == RecordPayment(old(orders), widget.value.orderId, paymentId)
      ensures cart.Valid()
      ensures cart.user.None? ==> cart.remote == old(cart.remote)
      ensures cart.user.Some? ==> cart.remote == old(cart.remote)[cart.user.value := map[]]
    {
      orders := RecordPayment(orders, widget.value.orderId, paymentId);
      cart.ClearCart();
    }

    /** The widget's failure callback: the ledger is left alone. */
    method OnPaymentFailed()
      requires widget.Some?
      modifies this`loading
      ensures !loading
    {
      loading := false;
    }

    /** The widget's dismiss callback: the ledger is left alone. */
    method OnDismiss()
      requires widget.Some?
      modifies this`loading
      ensures !loading
    {
      loading := false;
    }
  }
}
