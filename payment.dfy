/**
 * The checkout screen (PaymentActivity): recipient field validation, the
 * choice between paying on delivery and a QR payment, and `processPayment`,
 * which writes an order under a freshly pushed key and empties the cart once
 * the write succeeds.
 *
 * The signed-in user, the pushed key and the clock are parameters of the
 * events that need them; the order write is split into its request and its
 * completion callback.
 */
module Payment {
  import opened Wrappers
  import opened ItemsModel
  import opened Text
  import opened Cart

  const CashOnDelivery: string := "Thanh toán khi nhận hàng"
  const BankTransfer: string := "Chuyển khoản ngân hàng"
  const Momo: string := "Momo"

  /** The dropdown's entries, in order. */
  const Methods: seq<string> := [CashOnDelivery, BankTransfer, Momo]

  const Pending: string := "Pending"

  /** The messages under the recipient fields. */
  datatype FieldError = NameEmpty | AddressEmpty | PhoneEmpty | PhoneInvalid

  /** The snackbar messages. */
  datatype Message = SignInRequired | OrderPlaced | OrderFailed(reason: string)

  /** `Regex("^[0-9]{10,11}$")`: ten or eleven ASCII digits and nothing else. */
  predicate PhonePattern(s: string) {
    10 <= |s| <= 11 && AllDigits(s)
  }

  function NameError(name: string): (r: Option<FieldError>)
    ensures r.None? <==> !IsBlank(name)
  {
    if IsBlank(name) then Some(NameEmpty) else None
  }

  function AddressError(address: string): (r: Option<FieldError>)
    ensures r.None? <==> !IsBlank(address)
  {
    if IsBlank(address) then Some(AddressEmpty) else None
  }

  /** Blank is reported first; anything else not matching the pattern is invalid. */
  function PhoneError(phone: string): (r: Option<FieldError>)
    ensures r == Some(PhoneEmpty) <==> IsBlank(phone)
  {
    if IsBlank(phone) then Some(PhoneEmpty)
    else if !PhonePattern(phone) then Some(PhoneInvalid)
    else None
  }

  /** A phone number is accepted exactly when it is ten or eleven digits. */
  lemma PhoneAccepted(phone: string)
    ensures PhoneError(phone).None? <==> 10 <= |phone| <= 11 && AllDigits(phone)
    ensures PhoneError(phone) == Some(PhoneInvalid) <==> !IsBlank(phone) && !PhonePattern(phone)
  {
    if PhonePattern(phone) {
      assert !IsWhitespace(phone[0]);
    }
  }

  /** The QR dialog is shown for these two methods; anything else pays on delivery. */
  predicate NeedsQR(method_: string) {
    method_ == BankTransfer || method_ == Momo
  }

  datatype OrderItem = OrderItem(title: string, price: int, numberInCart: int)

  /** An order as written under `orders/<orderId>`; the total is in hundredths of a dong. */
  datatype Order = Order(
    orderId: string,
    userId: string,
    name: string,
    address: string,
    phone: string,
    paymentMethod: string,
    totalCents: int,
    items: seq<OrderItem>,
    timestamp: int,
    status: string)

  /** `cartItems.map { OrderItemModel(title, price, numberInCart) }`. */
  function OrderItems(cartItems: seq<Item>): (r: seq<OrderItem>)
    ensures |r| == |cartItems|
  {
    if cartItems == [] then []
    else
      var last := cartItems[|cartItems| - 1];
      OrderItems(cartItems[..|cartItems| - 1]) + [OrderItem(last.title, last.price, last.numberInCart)]
  }

  /** The value of an order's lines. */
  function OrderItemsTotal(items: seq<OrderItem>): int {
    if items == [] then 0
    else
      var last := items[|items| - 1];
      OrderItemsTotal(items[..|items| - 1]) + last.numberInCart * last.price
  }

  /** The order's lines copy the cart's lines one for one, in order. */
  lemma {:induction false} OrderItemsCopyCart(cartItems: seq<Item>, i: nat)
    requires i < |cartItems|
    ensures OrderItems(cartItems)[i] ==
      OrderItem(cartItems[i].title, cartItems[i].price, cartItems[i].numberInCart)
  {
    var n := |cartItems| - 1;
    if i < n {
      OrderItemsCopyCart(cartItems[..n], i);
    }
  }

  /** The order's lines are worth what the cart's lines are worth. */
  lemma {:induction false} OrderItemsKeepTotal(cartItems: seq<Item>)
    ensures OrderItemsTotal(OrderItems(cartItems)) == TotalFee(cartItems)
  {
    if cartItems != [] {
      var n := |cartItems| - 1;
      OrderItemsKeepTotal(cartItems[..n]);
      var items := OrderItems(cartItems);
      assert items[..n] == OrderItems(cartItems[..n]);
    }
  }

  /** The order `processPayment` builds. */
  function NewOrder(orderId: string, userId: string, name: string, address: string, phone: string,
                    paymentMethod: string, totalCents: int, cartItems: seq<Item>, now: int): (r: Order)
    ensures r.status == Pending && r.orderId == orderId && r.userId == userId
    ensures r.totalCents == totalCents && r.timestamp == now && |r.items| == |cartItems|
    ensures r.name == name && r.address == address && r.phone == phone && r.paymentMethod == paymentMethod
    ensures r.items == OrderItems(cartItems) && OrderItemsTotal(r.items) == TotalFee(cartItems)
  {
    OrderItemsKeepTotal(cartItems);
    Order(orderId, userId, name, address, phone, paymentMethod, totalCents, OrderItems(cartItems), now, Pending)
  }

  /** The screen's state, the orders written so far and the writes still in flight. */
  class PaymentScreen {
    const cartItems: seq<Item>
    const totalCents: int
    const cart: ManagmentCart
    var name: string
    var address: string
    var phone: string
    var selectedMethod: string
    var expanded: bool
    var showQRDialog: bool
    var nameError: Option<FieldError>
    var addressError: Option<FieldError>
    var phoneError: Option<FieldError>
    /** Orders stored remotely, by key. */
    var orders: map<string, Order>
    /** Orders whose write has been requested and not yet answered, by key. */
    var inFlight: map<string, Order>
    var message: Option<Message>
    /** The screen has moved on to the orders list and closed. */
    var finished: bool

    /** A missing cart extra is an empty list and a missing total is zero. */
    constructor (items: Option<seq<Item>>, total: Option<int>, c: ManagmentCart, orders0: map<string, Order>)
      ensures cartItems == items.GetOr([]) && totalCents == total.GetOr(0) && cart == c
      ensures name == "" && address == "" && phone == "" && selectedMethod == CashOnDelivery
      ensures !expanded && !showQRDialog && nameError.None? && addressError.None? && phoneError.None?
      ensures orders == orders0 && inFlight == map[] && message.None? && !finished
    {
      cartItems := items.GetOr([]);
      totalCents := total.GetOr(0);
      cart := c;
      name := "";
      address := "";
      phone := "";
      selectedMethod := CashOnDelivery;
      expanded := false;
      showQRDialog := false;
      nameError := None;
      addressError := None;
      phoneError := None;
      orders := orders0;
      inFlight := map[];
      message := None;
      finished := false;
    }

    /** Typing in the name field re-validates it at once. */
    method EditName(s: string)
      modifies this
      ensures name == s && nameError == NameError(s)
      ensures address == old(address) && phone == old(phone) && selectedMethod == old(selectedMethod)
      ensures addressError == old(addressError) && phoneError == old(phoneError)
      ensures showQRDialog == old(showQRDialog) && orders == old(orders) && inFlight == old(inFlight)
      ensures message == old(message) && finished == old(finished) && expanded == old(expanded)
    {
      name := s;
      nameError := if IsBlank(s) then Some(NameEmpty) else None;
    }

    method EditAddress(s: string)
      modifies this
      ensures address == s && addressError == AddressError(s)
      ensures name == old(name) && phone == old(phone) && selectedMethod == old(selectedMethod)
      ensures nameError == old(nameError) && phoneError == old(phoneError)
      ensures showQRDialog == old(showQRDialog) && orders == old(orders) && inFlight == old(inFlight)
      ensures message == old(message) && finished == old(finished) && expanded == old(expanded)
    {
      address := s;
      addressError := if IsBlank(s) then Some(AddressEmpty) else None;
    }

    method EditPhone(s: string)
      modifies this
      ensures phone == s && phoneError == PhoneError(s)
      ensures name == old(name) && address == old(address) && selectedMethod == old(selectedMethod)
      ensures nameError == old(nameError) && addressError == old(addressError)
      ensures showQRDialog == old(showQRDialog) && orders == old(orders) && inFlight == old(inFlight)
      ensures message == old(message) && finished == old(finished) && expanded == old(expanded)
    {
      phone := s;
      phoneError := if IsBlank(phone) then Some(PhoneEmpty)
        else if !PhonePattern(s) then Some(PhoneInvalid)
        else None;
    }

    /** The dropdown icon opens the method list; tapping outside closes it. */
    method SetMethodsExpanded(open: bool)
      modifies this
      ensures expanded == open
      ensures selectedMethod == old(selectedMethod)
      ensures name == old(name) && address == old(address) && phone == old(phone)
      ensures nameError == old(nameError) && addressError == old(addressError) && phoneError == old(phoneError)
      ensures showQRDialog == old(showQRDialog) && orders == old(orders) && inFlight == old(inFlight)
      ensures message == old(message) && finished == old(finished)
    {
      expanded := open;
    }

    /** Picking the `i`-th entry of the dropdown. */
    method PickMethod(i: nat)
      requires i < |Methods|
      modifies this
      ensures selectedMethod == Methods[i] && !expanded
      ensures name == old(name) && address == old(address) && phone == old(phone)
      ensures nameError == old(nameError) && addressError == old(addressError) && phoneError == old(phoneError)
      ensures showQRDialog == old(showQRDialog) && orders == old(orders) && inFlight == old(inFlight)
      ensures message == old(message) && finished == old(finished)
    {
      selectedMethod := Methods[i];
      expanded := false;
    }

    /**
     * `processPayment`: nothing is ordered without a signed-in user, and
     * nothing happens when the pushed key is null; otherwise the order's
     * write is requested.
     */
    method ProcessPayment(user: Option<string>, pushedKey: Option<string>, now: int)
      modifies this
      ensures user.None? ==> message == Some(SignInRequired) && inFlight == old(inFlight)
      ensures user.Some? && pushedKey.None? ==> message == old(message) && inFlight == old(inFlight)
      ensures user.Some? && pushedKey.Some? ==>
        message == old(message) &&
        inFlight == old(inFlight)[pushedKey.value := NewOrder(pushedKey.value, user.value, name, address,
                                                             phone, selectedMethod, totalCents, cartItems, now)]
      ensures name == old(name) && address == old(address) && phone == old(phone)
      ensures selectedMethod == old(selectedMethod) && expanded == old(expanded)
      ensures nameError == old(nameError) && addressError == old(addressError) && phoneError == old(phoneError)
      ensures showQRDialog == old(showQRDialog) && orders == old(orders) && finished == old(finished)
    {
      if user.None? {
        message := Some(SignInRequired);
        return;
      }
      if pushedKey.None? {
        return;
      }
      var orderId := pushedKey.value;
      var order := Order(orderId, user.value, name, address, phone, selectedMethod, totalCents,
                         OrderItems(cartItems), now, Pending);
      inFlight := inFlight[orderId := order];
    }

    /** The three errors of the current fields are all absent. */
    predicate FieldsValid()
      reads this
    {
      nameError.None? && addressError.None? && phoneError.None?
    }

    /**
     * The order button: re-validate all three fields; with no error, a QR
     * method opens the dialog and any other method processes the payment.
     */
    method Submit(user: Option<string>, pushedKey: Option<string>, now: int)
      modifies this
      ensures nameError == NameError(name) && addressError == AddressError(address) && phoneError == PhoneError(phone)
      ensures !FieldsValid() ==> showQRDialog == old(showQRDialog) && inFlight == old(inFlight) && message == old(message)
      ensures FieldsValid() && NeedsQR(selectedMethod) ==>
        showQRDialog && inFlight == old(inFlight) && message == old(message)
      ensures FieldsValid() && !NeedsQR(selectedMethod) && user.None? ==>
        showQRDialog == old(showQRDialog) && inFlight == old(inFlight) && message == Some(SignInRequired)
      ensures FieldsValid() && !NeedsQR(selectedMethod) && user.Some? && pushedKey.Some? ==>
        showQRDialog == old(showQRDialog) && message == old(message) &&
        inFlight == old(inFlight)[pushedKey.value := NewOrder(pushedKey.value, user.value, name, address,
                                                             phone, selectedMethod, totalCents, cartItems, now)]
      ensures FieldsValid() && !NeedsQR(selectedMethod) && user.Some? && pushedKey.None? ==>
        showQRDialog == old(showQRDialog) && inFlight == old(inFlight) && message == old(message)
      ensures name == old(name) && address == old(address) && phone == old(phone)
      ensures selectedMethod == old(selectedMethod) && expanded == old(expanded)
      ensures orders == old(orders) && finished == old(finished)
    {
      Revalidate();
      if nameError == None && addressError == None && phoneError == None {
        if selectedMethod == BankTransfer || selectedMethod == Momo {
          showQRDialog := true;
        } else {
          ProcessPayment(user, pushedKey, now);
        }
      }
    }

    /** The first half of the order button: every field's error is recomputed. */
    method Revalidate()
      modifies this
      ensures nameError == NameError(name) && addressError == AddressError(address) && phoneError == PhoneError(phone)
      ensures name == old(name) && address == old(address) && phone == old(phone)
      ensures selectedMethod == old(selectedMethod) && expanded == old(expanded) && showQRDialog == old(showQRDialog)
      ensures orders == old(orders) && inFlight == old(inFlight) && message == old(message) && finished == old(finished)
    {
      nameError := if IsBlank(name) then Some(NameEmpty) else None;
      addressError := if IsBlank(address) then Some(AddressEmpty) else None;
      phoneError := if IsBlank(phone) then Some(PhoneEmpty)
        else if !PhonePattern(phone) then Some(PhoneInvalid)
        else None;
    }

    /** "Paid" in the QR dialog, which is only on screen while `showQRDialog` holds: close it and process the payment. */
    method ConfirmQR(user: Option<string>, pushedKey: Option<string>, now: int)
      requires showQRDialog
      modifies this
      ensures !showQRDialog
      ensures user.None? ==> message == Some(SignInRequired) && inFlight == old(inFlight)
      ensures user.Some? && pushedKey.None? ==> message == old(message) && inFlight == old(inFlight)
      ensures user.Some? && pushedKey.Some? ==>
        message == old(message) &&
        inFlight == old(inFlight)[pushedKey.value := NewOrder(pushedKey.value, user.value, name, address,
                                                             phone, selectedMethod, totalCents, cartItems, now)]
      ensures name == old(name) && address == old(address) && phone == old(phone)
      ensures selectedMethod == old(selectedMethod) && expanded == old(expanded)
      ensures nameError == old(nameError) && addressError == old(addressError) && phoneError == old(phoneError)
      ensures orders == old(orders) && finished == old(finished)
    {
      showQRDialog := false;
      ProcessPayment(user, pushedKey, now);
    }

    /** Dismissing the QR dialog, which is only on screen while `showQRDialog` holds. */
    method DismissQR()
      requires showQRDialog
      modifies this
      ensures !showQRDialog
      ensures name == old(name) && address == old(address) && phone == old(phone)
      ensures selectedMethod == old(selectedMethod) && expanded == old(expanded)
      ensures nameError == old(nameError) && addressError == old(addressError) && phoneError == old(phoneError)
      ensures orders == old(orders) && inFlight == old(inFlight) && message == old(message) && finished == old(finished)
    {
      showQRDialog := false;
    }

    /** The write of order `key` succeeded: it is stored, the cart is emptied and the screen closes. */
    method OnWriteSucceeded(key: string)
      requires key in inFlight
      modifies this, cart
      ensures orders == old(orders)[key := old(inFlight)[key]] && inFlight == old(inFlight) - {key}
      ensures cart.db == old(cart.db) - {CartKey} && cart.GetListCart() == []
      ensures cart.listenerCalls == old(cart.listenerCalls)
      ensures message == Some(OrderPlaced) && finished
      ensures name == old(name) && address == old(address) && phone == old(phone)
      ensures selectedMethod == old(selectedMethod) && showQRDialog == old(showQRDialog)
      ensures expanded == old(expanded)
      ensures nameError == old(nameError) && addressError == old(addressError) && phoneError == old(phoneError)
    {
      orders := orders[key := inFlight[key]];
      inFlight := inFlight - {key};
      cart.ClearCart();
      message := Some(OrderPlaced);
      finished := true;
    }

    /** The write failed: nothing is stored and the cart is left as it was. */
    method OnWriteFailed(key: string, reason: string)
      requires key in inFlight
      modifies this
      ensures orders == old(orders) && inFlight == old(inFlight) - {key}
      ensures message == Some(OrderFailed(reason)) && finished == old(finished)
      ensures name == old(name) && address == old(address) && phone == old(phone)
      ensures selectedMethod == old(selectedMethod) && showQRDialog == old(showQRDialog)
      ensures expanded == old(expanded)
      ensures nameError == old(nameError) && addressError == old(addressError) && phoneError == old(phoneError)
    {
      inFlight := inFlight - {key};
      message := Some(OrderFailed(reason));
    }
  }
}
