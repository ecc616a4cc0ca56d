/** The "buy" dialog: the buyer enters a delivery address and picks a payment
    method; placing the order writes a pending purchase transaction and then,
    only if that write succeeded, a notification to the seller. The two
    writes are independent: the notification's outcome is never looked at. */
module BuyDialog {
  import opened Common

  const Cash := "cash"
  const Online := "online"
  const Purchase := "purchase"
  const Pending := "pending"
  const NotificationTitle := "New Order Received! \U{1F389}"

  /** The book being bought, as the dialog receives it. `price` is the text
      the price renders as inside the seller's message. */
  datatype OrderBook = OrderBook(id: string, title: string, author: string, price: string, sellerId: string)

  // -------------------------------------------------------------- address

  datatype Address = Address(addressLine: string, city: string, state: string, pincode: string, phone: string)

  const EmptyAddress := Address("", "", "", "", "")

  /** The names `handleChange` is called with. */
  datatype AddressField = AddressLine | City | State | Pincode | Phone

  function Get(a: Address, field: AddressField): string {
    match field
    case AddressLine => a.addressLine
    case City => a.city
    case State => a.state
    case Pincode => a.pincode
    case Phone => a.phone
  }

  /** `handleChange(field, value)`: the named field takes the value and the
      other four keep theirs. */
  function Set(a: Address, field: AddressField, value: string): (r: Address)
    ensures Get(r, field) == value
    ensures forall g :: g != field ==> Get(r, g) == Get(a, g)
  {
    match field
    case AddressLine => a.(addressLine := value)
    case City => a.(city := value)
    case State => a.(state := value)
    case Pincode => a.(pincode := value)
    case Phone => a.(phone := value)
  }

  /** The submit-time check: none of the five fields is empty. */
  predicate Complete(a: Address) {
    a.addressLine != "" && a.city != "" && a.state != "" && a.pincode != "" && a.phone != ""
  }

  /** The check is exactly "every field is filled in", whichever field the
      form calls it. */
  lemma CompleteMeansEveryField(a: Address)
    ensures Complete(a) <==> forall f :: Get(a, f) != ""
  {
    if !Complete(a) {
      var f :=
        if a.addressLine == "" then AddressLine
        else if a.city == "" then City
        else if a.state == "" then State
        else if a.pincode == "" then Pincode
        else Phone;
      assert Get(a, f) == "";
    }
  }

  // --------------------------------------------------------------- records

  /** The text naming the payment method in the seller's notification. */
  function PaymentLabel(paymentMethod: string): (text: string)
    ensures text == "Cash on Delivery" || text == "Online Payment"
    ensures text == "Cash on Delivery" <==> paymentMethod == Cash
  {
    if paymentMethod == Cash then "Cash on Delivery" else "Online Payment"
  }

  datatype TransactionRecord = TransactionRecord(
    bookId: string,
    sellerId: string,
    buyerId: string,
    kind: string,
    status: string,
    paymentMethod: string,
    address: Address)

  datatype NotificationRecord = NotificationRecord(
    recipient: string,
    title: string,
    message: string,
    relatedTransaction: string)

  /** A newly placed order: a pending purchase of this book, from its seller
      to this buyer, delivered to a complete address. */
  predicate IsNewOrder(tx: TransactionRecord, book: OrderBook, buyer: string) {
    && tx.kind == Purchase && tx.status == Pending
    && tx.bookId == book.id && tx.sellerId == book.sellerId && tx.buyerId == buyer
    && Complete(tx.address)
  }

  /** The notification tied to a transaction: addressed to the book's
      seller and naming the transaction. */
  predicate NotifiesSeller(n: NotificationRecord, book: OrderBook, txId: string) {
    n.recipient == book.sellerId && n.relatedTransaction == txId && n.title == NotificationTitle
  }

  function OrderMessage(book: OrderBook, paymentMethod: string): string {
    "Someone wants to buy \"" + book.title + "\" for \U{20B9}" + book.price
      + ". Payment: " + PaymentLabel(paymentMethod) + "."
  }

  /** The message ends by naming the payment method. */
  lemma OrderMessageNamesPayment(book: OrderBook, paymentMethod: string)
    ensures var m := OrderMessage(book, paymentMethod);
      var tail := ". Payment: " + PaymentLabel(paymentMethod) + ".";
      |tail| <= |m| && m[|m| - |tail|..] == tail
  {
  }

  // ---------------------------------------------------------------- dialog

  datatype Write = InsertTransaction(tx: TransactionRecord) | InsertNotification(note: NotificationRecord)

  /** What the buyer sees: sent to sign in, told to fill the address, shown
      the insert error, or told the order is placed (the dialog closes). */
  datatype OrderOutcome = RedirectToAuth | MissingFields | OrderFailed(message: string) | OrderPlaced

  class OrderDialog {
    var submitting: bool
    var paymentMethod: string
    var form: Address

    constructor ()
      ensures !submitting && paymentMethod == Cash && form == EmptyAddress
    {
      submitting := false;
      paymentMethod := Cash;
      form := EmptyAddress;
    }

    method HandleChange(field: AddressField, value: string)
      modifies this`form
      ensures form == Set(old(form), field, value)
      ensures forall g :: g != field ==> Get(form, g) == Get(old(form), g)
    {
      form := Set(form, field, value);
    }

    /** The radio group. */
    method ChoosePayment(m: string)
      modifies this`paymentMethod
      ensures paymentMethod == m
    {
      paymentMethod := m;
    }

    /** `handleSubmit`. `txReply` is the backend's answer to the transaction
        insert (the new row's id, or an error); `notifyReply` the answer to
        the notification insert, which the page ignores. */
    method HandleSubmit(book: OrderBook, user: Option<string>, txReply: Reply<string>, notifyReply: Reply<()>)
      returns (writes: seq<Write>, outcome: OrderOutcome)
      modifies this`submitting, this`form
      // no user: sent to sign in, nothing written
      ensures user.None? ==>
        writes == [] && outcome == RedirectToAuth && submitting == old(submitting) && form == old(form)
      // incomplete address: nothing written, nothing changes
      ensures user.Some? && !Complete(old(form)) ==>
        writes == [] && outcome == MissingFields && submitting == old(submitting) && form == old(form)
      // otherwise the transaction is written first, and is a new order
      ensures user.Some? && Complete(old(form)) ==>
        && |writes| >= 1
        && writes[0] == InsertTransaction(TransactionRecord(book.id, book.sellerId, user.value,
             Purchase, Pending, paymentMethod, old(form)))
        && IsNewOrder(writes[0].tx, book, user.value)
        && !submitting
      // a failed transaction write: no notification, form kept
      ensures user.Some? && Complete(old(form)) && txReply.Err? ==>
        |writes| == 1 && outcome == OrderFailed(txReply.message) && form == old(form)
      // a successful one: one notification to the seller about it, then the
      // form is cleared, whatever became of the notification
      ensures user.Some? && Complete(old(form)) && txReply.Ok? ==>
        && |writes| == 2
        && writes[1] == InsertNotification(NotificationRecord(book.sellerId, NotificationTitle,
             OrderMessage(book, paymentMethod), txReply.value))
        && NotifiesSeller(writes[1].note, book, txReply.value)
        && outcome == OrderPlaced && form == EmptyAddress
    {
      writes := [];
      if user.None? {
        outcome := RedirectToAuth;
        return;
      }
      if !Complete(form) {
        outcome := MissingFields;
        return;
      }
      submitting := true;
      var tx := TransactionRecord(book.id, book.sellerId, user.value, Purchase, Pending, paymentMethod, form);
      writes := [InsertTransaction(tx)];
      if txReply.Err? {
        outcome := OrderFailed(txReply.message);
        submitting := false;
        return;
      }
      var note := NotificationRecord(book.sellerId, NotificationTitle, OrderMessage(book, paymentMethod), txReply.value);
      writes := writes + [InsertNotification(note)];
      // the reply to the notification insert is not inspected
      outcome := OrderPlaced;
      submitting := false;
      form := EmptyAddress;
    }
  }
}
