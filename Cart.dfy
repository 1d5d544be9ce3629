/** The shopping cart of src/Cart.ts. The browser storage slots the cart
    keeps ("te-order", "te-customer-id", "te-sales-channel-id",
    "te-register-id", "te-preferred-language-code") are fields of the class,
    the backend is a `Server`, and the shared `retryPolicy` array is a field
    that reconciliation consumes. The waits the cart sleeps are recorded in
    the ghost trace `waited`. Every operation returns `Err` where the source
    throws. */
module Cart {
  import opened Wrappers
  import opened Model
  import opened OrderValidator
  import opened Backend
  import opened Reconciliation
  import opened PaymentSort

  /** The retry schedule every cart starts with, in milliseconds. */
  const DefaultRetryPolicy: seq<nat> := [0, 500, 500, 500, 500, 500, 1000, 1000, 1000, 1000, 1000, 3000, 3000, 3000, 5000, 5000]

  /** The options of the constructor that concern the cart's state. */
  datatype CartOptions = CartOptions(
    salesChannelId: string,
    registerId: string,
    customerId: Option<string>,
    preferredLanguageCode: Option<string>)

  /** The contents of the storage slots. */
  datatype Storage = Storage(
    order: Option<Order>,
    customerId: Option<string>,
    salesChannelId: Option<string>,
    registerId: Option<string>,
    preferredLanguageCode: Option<string>)

  /** The order state a command is expected to lead to; the reads after the
      command wait for it. */
  datatype Expectation =
    | Expect(v: Validator)
    | LinesReserved                       // the lines the reply names are reserved
    | LinesChanged(removedIds: seq<string>)  // and the removed ones are removed

  function Expected(e: Expectation, reply: Reply): Validator {
    match e
    case Expect(v) => v
    case LinesReserved => ItemsHaveStatus(reply.orderLineItemIds, LineReserved)
    case LinesChanged(removedIds) => ValidateItemsStatus(reply.orderLineItemIds, removedIds, [])
  }

  // ---------------------------------------------------------------------------
  // Items and operations

  /** An item with an event id is an access item. */
  predicate IsAccessCartItem(item: AddItem) {
    item.eventId.Some?
  }

  /** An item with a product definition id is a product item. */
  predicate IsProductCartItem(item: AddItem) {
    item.productDefinitionId.Some?
  }

  predicate AllKnown(adds: seq<AddItem>) {
    forall i | 0 <= i < |adds| :: IsAccessCartItem(adds[i]) || IsProductCartItem(adds[i])
  }

  function RemovalOperations(removes: seq<RemoveItem>): seq<CartOperation> {
    if removes == [] then []
    else RemovalOperations(removes[..|removes| - 1]) + [RemoveItemOp(removes[|removes| - 1])]
  }

  function AdditionOperations(adds: seq<AddItem>): seq<CartOperation>
    requires AllKnown(adds)
  {
    if adds == [] then []
    else
      var item := adds[|adds| - 1];
      AdditionOperations(adds[..|adds| - 1]) +
      [if IsAccessCartItem(item) then AddAccessItemOp(item) else AddProductItemOp(item)]
  }

  /** The batch a cart sends: every removal, then every addition. */
  function Operations(adds: seq<AddItem>, removes: seq<RemoveItem>): seq<CartOperation>
    requires AllKnown(adds)
  {
    RemovalOperations(removes) + AdditionOperations(adds)
  }

  function RemovedIds(removes: seq<RemoveItem>): (ids: seq<string>)
    ensures |ids| == |removes|
    ensures forall i | 0 <= i < |removes| :: ids[i] == removes[i].orderLineItemId
  {
    seq(|removes|, i requires 0 <= i < |removes| => removes[i].orderLineItemId)
  }

  lemma {:induction false} RemovalOperationsShape(removes: seq<RemoveItem>)
    ensures |RemovalOperations(removes)| == |removes|
    ensures forall i | 0 <= i < |removes| :: RemovalOperations(removes)[i] == RemoveItemOp(removes[i])
  {
    if removes != [] {
      RemovalOperationsShape(removes[..|removes| - 1]);
    }
  }

  lemma {:induction false} AdditionOperationsShape(adds: seq<AddItem>)
    requires AllKnown(adds)
    ensures |AdditionOperations(adds)| == |adds|
    ensures forall i | 0 <= i < |adds| ::
      AdditionOperations(adds)[i] == if IsAccessCartItem(adds[i]) then AddAccessItemOp(adds[i]) else AddProductItemOp(adds[i])
  {
    if adds != [] {
      var p := adds[..|adds| - 1];
      assert AllKnown(p) by {
        forall i | 0 <= i < |p|
          ensures IsAccessCartItem(p[i]) || IsProductCartItem(p[i])
        {
          assert p[i] == adds[i];
        }
      }
      AdditionOperationsShape(p);
    }
  }

  /** The batch holds every removal in input order, then every addition in
      input order: an item with an event id as an access item, any other as a
      product item. */
  lemma OperationsShape(adds: seq<AddItem>, removes: seq<RemoveItem>)
    requires AllKnown(adds)
    ensures var ops := Operations(adds, removes);
      |ops| == |removes| + |adds| &&
      (forall i | 0 <= i < |removes| :: ops[i] == RemoveItemOp(removes[i])) &&
      (forall i | 0 <= i < |adds| ::
         ops[|removes| + i] == if IsAccessCartItem(adds[i]) then AddAccessItemOp(adds[i]) else AddProductItemOp(adds[i]))
  {
    RemovalOperationsShape(removes);
    AdditionOperationsShape(adds);
  }

  /** Cart.mapToCartOperations: push every removal, then every addition; an
      addition that is neither an access nor a product item fails. */
  method MapToCartOperations(adds: seq<AddItem>, removes: seq<RemoveItem>) returns (r: Result<seq<CartOperation>, Error>)
    ensures r.Ok? <==> AllKnown(adds)
    ensures r.Err? ==> r.error == UnknownItemType
    ensures r.Ok? ==> AllKnown(adds) && r.value == Operations(adds, removes)
  {
    var operations: seq<CartOperation> := [];
    for i := 0 to |removes|
      invariant operations == RemovalOperations(removes[..i])
    {
      assert removes[..i + 1][..i] == removes[..i];
      operations := operations + [RemoveItemOp(removes[i])];
    }
    assert removes[..|removes|] == removes;
    for i := 0 to |adds|
      invariant AllKnown(adds[..i])
      invariant operations == RemovalOperations(removes) + AdditionOperations(adds[..i])
    {
      var item := adds[i];
      assert adds[..i + 1][..i] == adds[..i];
      if IsAccessCartItem(item) {
        operations := operations + [AddAccessItemOp(item)];
      } else if IsProductCartItem(item) {
        operations := operations + [AddProductItemOp(item)];
      } else {
        return Err(UnknownItemType);
      }
    }
    assert adds[..|adds|] == adds;
    return Ok(operations);
  }

  // ---------------------------------------------------------------------------
  // Payments

  predicate IsCash(p: PaymentRequest) {
    p.paymentMethod == Some("cash")
  }

  predicate IsPin(p: PaymentRequest) {
    p.paymentMethod == Some("pin")
  }

  /** The command createPayment sends: a cash or pin payment for those
      methods, an online payment for any other. */
  function PaymentCommand(p: PaymentRequest, orderId: string, customerId: Option<string>): (c: Command)
    ensures c.CreateCashPayment? <==> IsCash(p)
    ensures c.CreatePinPayment? <==> IsPin(p)
    ensures c.CreatePayment? <==> !IsCash(p) && !IsPin(p)
    ensures c.orderId == orderId && c.currency == p.currencyCode && c.amount == p.amount && c.customerId == customerId
    ensures c.CreatePayment? ==>
      c.paymentToken == p.token && c.paymentMethod == p.paymentMethod &&
      c.loyaltyCardType == p.loyaltyCardType && c.loyaltyCardId == p.loyaltyCardId && c.loyaltyCardPin == p.loyaltyCardPin
  {
    if IsCash(p) then CreateCashPayment(orderId, p.currencyCode, p.amount, customerId)
    else if IsPin(p) then CreatePinPayment(orderId, p.currencyCode, p.amount, customerId)
    else CreatePayment(orderId, p.currencyCode, p.amount, customerId,
                       p.token, p.paymentMethod, p.loyaltyCardType, p.loyaltyCardId, p.loyaltyCardPin)
  }

  /** What createPayment makes of the reply: a result when a non-empty
      payment id came back, 'Create payment failed.' otherwise. Only an
      online payment carries an action, the payment page of the reply. */
  function PaymentOutcome(p: PaymentRequest, reply: Reply): (r: Result<PaymentResult, Error>)
    ensures r.Ok? <==> reply.paymentId.Some? && reply.paymentId.value != ""
    ensures r.Err? ==> r.error == CreatePaymentFailed
    ensures r.Ok? ==> Some(r.value.paymentId) == reply.paymentId
    ensures r.Ok? ==> (r.value.action.Some? <==> !IsCash(p) && !IsPin(p))
    ensures r.Ok? && r.value.action.Some? ==> r.value.action.value.paymentUrl == reply.paymentUrl
  {
    var action := if !IsCash(p) && !IsPin(p) then Some(RedirectToPaymentPage(reply.paymentUrl)) else None;
    match reply.paymentId
    case Some(id) => if id != "" then Ok(PaymentResult(id, action)) else Err(CreatePaymentFailed)
    case None => Err(CreatePaymentFailed)
  }

  /** The requests that create the payments `ps`, one after the other. */
  function PaymentRequests(ps: seq<PaymentRequest>, orderId: string, customerId: Option<string>): (rs: seq<Request>)
    ensures |rs| == |ps|
    ensures forall i | 0 <= i < |ps| :: rs[i] == Dispatch(PaymentCommand(ps[i], orderId, customerId))
  {
    if ps == [] then []
    else PaymentRequests(ps[..|ps| - 1], orderId, customerId) + [Dispatch(PaymentCommand(ps[|ps| - 1], orderId, customerId))]
  }

  // ---------------------------------------------------------------------------
  // Slots

  /** A slot's value, when it is set and not empty; the source tests the
      stored string for truthiness. */
  function ReadSlot(slot: Option<string>, missing: Error): (r: Result<string, Error>)
    ensures r.Ok? <==> slot.Some? && slot.value != ""
    ensures r.Ok? ==> slot == Some(r.value)
    ensures r.Err? ==> r.error == missing
  {
    if slot.Some? && slot.value != "" then Ok(slot.value) else Err(missing)
  }

  /** `has() ? get() : undefined`: nothing for an unset slot, the slot's
      value when it is set, and the getter's error when it holds "". */
  function OptionalSlot(slot: Option<string>, missing: Error): (r: Result<Option<string>, Error>)
    ensures r.Ok? <==> slot.None? || slot.value != ""
    ensures r.Ok? ==> r.value == slot
    ensures r.Err? ==> r.error == missing
  {
    if slot.None? then Ok(None) else if slot.value != "" then Ok(slot) else Err(missing)
  }

  class Cart {
    const server: Server
    var order: Option<Order>
    var customerId: Option<string>
    var salesChannelId: Option<string>
    var registerId: Option<string>
    var preferredLanguageCode: Option<string>
    var retryPolicy: seq<nat>
    ghost var waited: seq<nat>

    function Slots(): Storage
      reads this
    {
      Storage(order, customerId, salesChannelId, registerId, preferredLanguageCode)
    }

    /** Nothing the cart or the backend keeps has changed. */
    twostate predicate Unchanged()
      reads this, server
    {
      Slots() == old(Slots()) && retryPolicy == old(retryPolicy) && waited == old(waited) &&
      server.answers == old(server.answers) && server.replies == old(server.replies) && server.log == old(server.log)
    }

    /** What sending `c` and reconciling does to the cart: when the reply
        to `c` failed, that failure is the result and nothing else changed;
        otherwise the order `orderId` was reconciled against the expectation
        on the shared retry schedule, and the result is that
        reconciliation's. */
    twostate predicate Reconciled(c: Command, orderId: string, e: Expectation, new r: Result<(), Error>)
      reads this, server`answers
    {
      var reply := Head(old(server.replies));
      customerId == old(customerId) && salesChannelId == old(salesChannelId) &&
      registerId == old(registerId) && preferredLanguageCode == old(preferredLanguageCode) &&
      (reply.Err? ==>
        r == Err(reply.error) && order == old(order) && retryPolicy == old(retryPolicy) && waited == old(waited) &&
        server.answers == old(server.answers)) &&
      (reply.Ok? ==>
        var out := Reconcile(old(server.answers), Verdict(Some(Expected(e, reply.value))), old(retryPolicy), old(order));
        r == (if out.result.Ok? then Ok(()) else Err(out.result.error)) &&
        order == out.stored && retryPolicy == Remaining(old(retryPolicy), out) && waited == old(waited) + Waits(old(retryPolicy), out) &&
        server.answers == Skip(old(server.answers), out.readCount))
    }

    /** The requests sending `c` and reconciling makes: the command, then
        one read of `orderId` per step of the reconciliation. */
    twostate function SentRequests(c: Command, orderId: string, e: Expectation): seq<Request>
    {
      var reply := Head(old(server.replies));
      [Dispatch(c)] +
      if reply.Err? then []
      else Reads(orderId, Reconcile(old(server.answers), Verdict(Some(Expected(e, reply.value))), old(retryPolicy), old(order)).readCount)
    }

    /** A command sent and reconciled: one reply consumed, the requests
        logged, and the cart reconciled. */
    twostate predicate Sent(c: Command, orderId: string, e: Expectation, new r: Result<(), Error>)
      reads this, server
    {
      server.replies == Skip(old(server.replies), 1) &&
      server.log == old(server.log) + SentRequests(c, orderId, e) &&
      Reconciled(c, orderId, e, r)
    }

    /** The constructor: the options fill the slots they give a non-empty
        value for; the other slots keep what storage held. */
    constructor(options: CartOptions, storage: Storage, server: Server)
      ensures this.server == server
      ensures order == storage.order
      ensures salesChannelId == if options.salesChannelId != "" then Some(options.salesChannelId) else storage.salesChannelId
      ensures registerId == if options.registerId != "" then Some(options.registerId) else storage.registerId
      ensures customerId ==
        if options.customerId.Some? && options.customerId.value != "" then options.customerId else storage.customerId
      ensures preferredLanguageCode ==
        if options.preferredLanguageCode.Some? && options.preferredLanguageCode.value != "" then options.preferredLanguageCode
        else storage.preferredLanguageCode
      ensures retryPolicy == DefaultRetryPolicy && waited == []
    {
      this.server := server;
      order := storage.order;
      salesChannelId := if options.salesChannelId != "" then Some(options.salesChannelId) else storage.salesChannelId;
      registerId := if options.registerId != "" then Some(options.registerId) else storage.registerId;
      customerId := if options.customerId.Some? && options.customerId.value != "" then options.customerId else storage.customerId;
      preferredLanguageCode :=
        if options.preferredLanguageCode.Some? && options.preferredLanguageCode.value != "" then options.preferredLanguageCode
        else storage.preferredLanguageCode;
      retryPolicy := DefaultRetryPolicy;
      waited := [];
    }

    // --- The order slot

    predicate HasOrder()
      reads this
    {
      order.Some?
    }

    /** getOrderId fails with 'No order found.' exactly when no order is stored. */
    function GetOrderId(): (r: Result<string, Error>)
      reads this
      ensures r.Ok? <==> order.Some?
      ensures r.Ok? ==> r.value == order.value.id
      ensures r.Err? ==> r.error == NoOrderFound
    {
      if order.Some? then Ok(order.value.id) else Err(NoOrderFound)
    }

    /** The stored order, as getOrder returns it without a reload. */
    function StoredOrder(): (r: Result<Order, Error>)
      reads this
      ensures r.Ok? <==> order.Some?
      ensures r.Ok? ==> order == Some(r.value)
      ensures r.Err? ==> r.error == NoOrderFound
    {
      if order.Some? then Ok(order.value) else Err(NoOrderFound)
    }

    method ClearOrder()
      modifies this
      ensures Slots() == old(Slots()).(order := None)
      ensures retryPolicy == old(retryPolicy) && waited == old(waited)
    {
      order := None;
    }

    // --- The customer slot

    predicate HasCustomerId()
      reads this
    {
      customerId.Some?
    }

    function GetCustomerId(): (r: Result<string, Error>)
      reads this
      ensures r.Ok? <==> customerId.Some? && customerId.value != ""
      ensures r.Ok? ==> customerId == Some(r.value)
      ensures r.Err? ==> r.error == NoCustomerId
    {
      ReadSlot(customerId, NoCustomerId)
    }

    /** The static setCustomerId: stores the id as given. */
    method StoreCustomerId(id: string)
      modifies this
      ensures Slots() == old(Slots()).(customerId := Some(id))
      ensures retryPolicy == old(retryPolicy) && waited == old(waited)
    {
      customerId := Some(id);
    }

    // --- The sales-channel slot

    predicate HasSalesChannelId()
      reads this
    {
      salesChannelId.Some?
    }

    function GetSalesChannelId(): (r: Result<string, Error>)
      reads this
      ensures r.Ok? <==> salesChannelId.Some? && salesChannelId.value != ""
      ensures r.Ok? ==> salesChannelId == Some(r.value)
      ensures r.Err? ==> r.error == NoSalesChannelId
    {
      ReadSlot(salesChannelId, NoSalesChannelId)
    }

    method SetSalesChannelId(id: string)
      modifies this
      ensures Slots() == old(Slots()).(salesChannelId := Some(id))
      ensures retryPolicy == old(retryPolicy) && waited == old(waited)
    {
      salesChannelId := Some(id);
    }

    /** Clearing the sales channel clears the register too. */
    method ClearSalesChannelId()
      modifies this
      ensures Slots() == old(Slots()).(salesChannelId := None, registerId := None)
      ensures retryPolicy == old(retryPolicy) && waited == old(waited)
    {
      salesChannelId := None;
      ClearRegisterId();
    }

    // --- The register slot

    predicate HasRegisterId()
      reads this
    {
      registerId.Some?
    }

    function GetRegisterId(): (r: Result<string, Error>)
      reads this
      ensures r.Ok? <==> registerId.Some? && registerId.value != ""
      ensures r.Ok? ==> registerId == Some(r.value)
      ensures r.Err? ==> r.error == NoRegisterId
    {
      ReadSlot(registerId, NoRegisterId)
    }

    method SetRegisterId(id: string)
      modifies this
      ensures Slots() == old(Slots()).(registerId := Some(id))
      ensures retryPolicy == old(retryPolicy) && waited == old(waited)
    {
      registerId := Some(id);
    }

    method ClearRegisterId()
      modifies this
      ensures Slots() == old(Slots()).(registerId := None)
      ensures retryPolicy == old(retryPolicy) && waited == old(waited)
    {
      registerId := None;
    }

    // --- The preferred-language slot

    predicate HasPreferredLanguageCode()
      reads this
    {
      preferredLanguageCode.Some?
    }

    function GetPreferredLanguageCode(): (r: Result<string, Error>)
      reads this
      ensures r.Ok? <==> preferredLanguageCode.Some? && preferredLanguageCode.value != ""
      ensures r.Ok? ==> preferredLanguageCode == Some(r.value)
      ensures r.Err? ==> r.error == NoPreferredLanguageCode
    {
      ReadSlot(preferredLanguageCode, NoPreferredLanguageCode)
    }

    method SetPreferredLanguageCode(code: string)
      modifies this
      ensures Slots() == old(Slots()).(preferredLanguageCode := Some(code))
      ensures retryPolicy == old(retryPolicy) && waited == old(waited)
    {
      preferredLanguageCode := Some(code);
    }

    method ClearPreferredLanguageCode()
      modifies this
      ensures Slots() == old(Slots()).(preferredLanguageCode := None)
      ensures retryPolicy == old(retryPolicy) && waited == old(waited)
    {
      preferredLanguageCode := None;
    }

    // -------------------------------------------------------------------------
    // Reading the order

    /** fetchOrder: read, store, and retry on the schedule until the read
        is accepted; `accept` is the validator's Verdict, and `rest` is what
        remains of the schedule. */
    method FetchOrder(orderId: string, accept: Order -> bool, schedule: seq<nat>) returns (r: Result<Order, Error>, rest: seq<nat>)
      modifies this, server
      ensures var out := Reconcile(old(server.answers), accept, schedule, old(order));
        r == out.result && rest == Remaining(schedule, out) && order == out.stored &&
        waited == old(waited) + Waits(schedule, out) &&
        server.answers == Skip(old(server.answers), out.readCount) &&
        server.log == old(server.log) + Reads(orderId, out.readCount)
      ensures server.replies == old(server.replies)
      ensures Slots() == old(Slots()).(order := order) && retryPolicy == old(retryPolicy)
    {
      ghost var out := Reconcile(server.answers, accept, schedule, order);
      ghost var answers0 := server.answers;
      ghost var log0 := server.log;
      ghost var waited0 := waited;
      ghost var count: nat := 0;
      rest := schedule;
      while true
        invariant count <= |schedule| && rest == schedule[count..]
        invariant var cur := Reconcile(server.answers, accept, rest, order);
          out.result == cur.result && out.stored == cur.stored && out.readCount == count + cur.readCount
        invariant server.answers == Skip(answers0, count)
        invariant server.log == log0 + Reads(orderId, count)
        invariant waited == waited0 + schedule[..count]
        invariant server.replies == old(server.replies)
        invariant Slots() == old(Slots()).(order := order) && retryPolicy == old(retryPolicy)
        decreases |rest|
      {
        var a := server.Query(orderId);
        SkipSkip(answers0, count, 1);
        if a.Ok? {
          order := Some(a.value);
        }
        if Accepts(accept, a) {
          return a, rest;
        }
        if rest == [] {
          return Err(if a.Ok? then RetryAttemptsExceeded else a.error), rest;
        }
        assert schedule[..count + 1] == schedule[..count] + [rest[0]];
        waited := waited + [rest[0]];
        rest := rest[1..];
        count := count + 1;
      }
    }

    /** getOrder: the stored order, after a reconciliation when a reload is
        asked for. Without a reload the id is not consulted. */
    method GetOrder(orderId: string, v: Option<Validator>, schedule: seq<nat>, forceReload: bool)
      returns (r: Result<Order, Error>, rest: seq<nat>)
      modifies this, server
      ensures !forceReload ==> r == old(StoredOrder()) && rest == schedule && Unchanged()
      ensures forceReload ==>
        var out := Reconcile(old(server.answers), Verdict(v), schedule, old(order));
        r == out.result && rest == Remaining(schedule, out) && order == out.stored &&
        waited == old(waited) + Waits(schedule, out) &&
        server.answers == Skip(old(server.answers), out.readCount) &&
        server.log == old(server.log) + Reads(orderId, out.readCount) &&
        server.replies == old(server.replies) &&
        Slots() == old(Slots()).(order := order) && retryPolicy == old(retryPolicy)
    {
      rest := schedule;
      if forceReload {
        var fetched;
        ReconcileOk(server.answers, Verdict(v), schedule, order);
        fetched, rest := FetchOrder(orderId, Verdict(v), schedule);
        if fetched.Err? {
          return fetched, rest;
        }
      }
      r := StoredOrder();
    }

    /** The cached order is missing or in a final state: addItems and
        addToken then create a new order first. */
    predicate NeedsNewOrder()
      reads this
    {
      order.None? || Validate(IsInFinalState, order)
    }

    /** getItemCount: no order counts 0; otherwise the lines that are
        neither removed nor returned. An order without a line list fails. */
    function GetItemCount(): (r: Result<nat, Error>)
      reads this
      ensures order.None? ==> r == Ok(0)
      ensures r.Err? <==> order.Some? && order.value.lineItems.None?
      ensures r.Ok? && order.Some? ==> r.value <= |order.value.lineItems.value|
      ensures r.Ok? ==> (r.value == 0 <==> Validate(IsEmpty, order))
    {
      if order.None? then Ok(0)
      else if order.value.lineItems.None? then Err(MissingLineItems)
      else Ok(LiveCount(order.value.lineItems.value))
    }

    // -------------------------------------------------------------------------
    // Commands

    /** Sends `c`, then reconciles `orderId` against the expectation on the
        shared retry schedule. */
    method SendThenFetch(c: Command, orderId: string, e: Expectation) returns (r: Result<(), Error>)
      modifies this, server
      ensures Sent(c, orderId, e, r)
      ensures |server.log| > |old(server.log)| && server.log[..|old(server.log)|] == old(server.log)
      ensures server.log[|old(server.log)|] == Dispatch(c)
      ensures r.Ok? ==>
        Head(old(server.replies)).Ok? && order.Some? && Validate(Expected(e, Head(old(server.replies)).value), order)
    {
      var reply := server.Send(c);
      if reply.Err? {
        assert SentRequests(c, orderId, e) == [Dispatch(c)];
        return Err(reply.error);
      }
      ghost var out := Reconcile(server.answers, Verdict(Some(Expected(e, reply.value))), retryPolicy, order);
      r := FetchUntil(orderId, Expected(e, reply.value));
      assert SentRequests(c, orderId, e) == [Dispatch(c)] + Reads(orderId, out.readCount);
    }

    /** The reconciliation after a command: fetch `orderId` until `v`
        accepts it, on the shared retry schedule, and keep what remains of
        the schedule. */
    method FetchUntil(orderId: string, v: Validator) returns (r: Result<(), Error>)
      modifies this, server
      ensures var out := Reconcile(old(server.answers), Verdict(Some(v)), old(retryPolicy), old(order));
        r == (if out.result.Ok? then Ok(()) else Err(out.result.error)) &&
        order == out.stored && retryPolicy == Remaining(old(retryPolicy), out) &&
        waited == old(waited) + Waits(old(retryPolicy), out) &&
        server.answers == Skip(old(server.answers), out.readCount) &&
        server.log == old(server.log) + Reads(orderId, out.readCount)
      ensures server.replies == old(server.replies) && Slots() == old(Slots()).(order := order)
      ensures r.Ok? ==> order.Some? && Validate(v, order)
    {
      ghost var out := Reconcile(server.answers, Verdict(Some(v)), retryPolicy, order);
      ghost var schedule := retryPolicy;
      ReconcileOk(server.answers, Verdict(Some(v)), retryPolicy, order);
      var fetched, rest := FetchOrder(orderId, Verdict(Some(v)), retryPolicy);
      assert fetched == out.result && rest == Remaining(schedule, out) && order == out.stored;
      retryPolicy := rest;
      if fetched.Ok? {
        VerdictAccepts(v, fetched);
        r := Ok(());
      } else {
        r := Err(fetched.error);
      }
    }

    /** The CreateOrder command the slots make, or the error of the first
        slot that cannot be read: customer, language, sales channel, then
        register. */
    function NewOrderCommand(): (r: Result<Command, Error>)
      reads this
      ensures r.Ok? ==> (r.value.CreateOrder? &&
        Some(r.value.salesChannelId) == salesChannelId && Some(r.value.registerId) == registerId &&
        r.value.customerId == customerId && r.value.preferredLanguageCode == preferredLanguageCode)
      ensures r.Ok? <==>
        OptionalSlot(customerId, NoCustomerId).Ok? && OptionalSlot(preferredLanguageCode, NoPreferredLanguageCode).Ok? &&
        GetSalesChannelId().Ok? && GetRegisterId().Ok?
    {
      var customer := OptionalSlot(customerId, NoCustomerId);
      var language := OptionalSlot(preferredLanguageCode, NoPreferredLanguageCode);
      var channel := GetSalesChannelId();
      var register := GetRegisterId();
      if customer.Err? then Err(customer.error)
      else if language.Err? then Err(language.error)
      else if channel.Err? then Err(channel.error)
      else if register.Err? then Err(register.error)
      else Ok(Command.CreateOrder(channel.value, register.value, customer.value, language.value))
    }

    /** The customer and language slots are read before the order slot is
        cleared; the sales channel and register after. */
    predicate OptionalSlotsReadable()
      reads this
    {
      OptionalSlot(customerId, NoCustomerId).Ok? && OptionalSlot(preferredLanguageCode, NoPreferredLanguageCode).Ok?
    }

    /** What createOrder leaves: an unreadable customer or language slot
        fails with nothing changed; any other unreadable slot fails after
        the order slot was cleared; otherwise the command is sent and, on a
        good reply, the new order is reconciled until it reads as pending. */
    twostate predicate OrderCreated(new r: Result<(), Error>)
      reads this, server
    {
      (!old(OptionalSlotsReadable()) ==> r == Err(old(NewOrderCommand()).error) && Unchanged()) &&
      (old(OptionalSlotsReadable()) && old(NewOrderCommand()).Err? ==>
        r == Err(old(NewOrderCommand()).error) && Slots() == old(Slots()).(order := None) &&
        retryPolicy == old(retryPolicy) && waited == old(waited) &&
        server.answers == old(server.answers) && server.replies == old(server.replies) && server.log == old(server.log)) &&
      (old(NewOrderCommand()).Ok? ==>
        var reply := Head(old(server.replies));
        server.replies == Skip(old(server.replies), 1) &&
        Slots().(order := None) == old(Slots()).(order := None) &&
        (reply.Err? ==>
          r == Err(reply.error) && order == None && retryPolicy == old(retryPolicy) && waited == old(waited) &&
          server.answers == old(server.answers) && server.log == old(server.log) + [Dispatch(old(NewOrderCommand()).value)]) &&
        (reply.Ok? ==>
          var out := Reconcile(old(server.answers), Verdict(Some(IsPending)), old(retryPolicy), None);
          r == (if out.result.Ok? then Ok(()) else Err(out.result.error)) &&
          order == out.stored && retryPolicy == Remaining(old(retryPolicy), out) && waited == old(waited) + Waits(old(retryPolicy), out) &&
          server.answers == Skip(old(server.answers), out.readCount) &&
          server.log == old(server.log) + [Dispatch(old(NewOrderCommand()).value)] + Reads(reply.value.orderId, out.readCount)))
    }

    /** createOrder: clear the order slot, send CreateOrder, and wait until
        the new order reads as pending. */
    method CreateOrder() returns (r: Result<(), Error>)
      modifies this, server
      ensures OrderCreated(r)
      ensures r.Ok? ==> order.Some? && Validate(IsPending, order)
    {
      var customer := OptionalSlot(customerId, NoCustomerId);
      if customer.Err? {
        return Err(customer.error);
      }
      var language := OptionalSlot(preferredLanguageCode, NoPreferredLanguageCode);
      if language.Err? {
        return Err(language.error);
      }
      ClearOrder();
      var channel := GetSalesChannelId();
      if channel.Err? {
        return Err(channel.error);
      }
      var register := GetRegisterId();
      if register.Err? {
        return Err(register.error);
      }
      var reply := server.Send(Command.CreateOrder(channel.value, register.value, customer.value, language.value));
      if reply.Err? {
        return Err(reply.error);
      }
      ReconcileOk(server.answers, Verdict(Some(IsPending)), retryPolicy, order);
      var fetched, rest := FetchOrder(reply.value.orderId, Verdict(Some(IsPending)), retryPolicy);
      retryPolicy := rest;
      r := if fetched.Ok? then Ok(()) else Err(fetched.error);
    }

    /** The guard of addItems and addToken: create an order when none is
        cached or the cached one is in a final state. */
    method OpenOrder() returns (r: Result<(), Error>)
      modifies this, server
      ensures !old(NeedsNewOrder()) ==> r == Ok(()) && Unchanged()
      ensures old(NeedsNewOrder()) ==> OrderCreated(r)
      ensures old(NeedsNewOrder()) && r.Ok? ==> old(NewOrderCommand()).Ok? && server.replies == Skip(old(server.replies), 1)
      ensures r.Ok? ==> order.Some? && !Validate(IsInFinalState, order)
    {
      if NeedsNewOrder() {
        r := CreateOrder();
        if r.Ok? {
          assert order.value.status == Pending;
        }
      } else {
        r := Ok(());
      }
    }

    /** addItems: create an order if needed, then send the additions as one
        batch and wait until every line the reply names is reserved. */
    method AddItems(items: seq<AddItem>) returns (r: Result<(), Error>, ghost created: bool, ghost batch: Result<Reply, Error>)
      modifies this, server
      ensures created == old(NeedsNewOrder())
      ensures !created && AllKnown(items) ==> batch == Head(old(server.replies))
      ensures created && r.Ok? ==> batch == Head(Skip(old(server.replies), 1))
      ensures r.Ok? ==>
        AllKnown(items) && batch.Ok? && order.Some? && Validate(ItemsHaveStatus(batch.value.orderLineItemIds, LineReserved), order)
      ensures !created && AllKnown(items) ==>
        var id := old(order).value.id;
        Sent(CartBatchOperation(id, Operations(items, [])), id, LinesReserved, r)
      ensures !created && !AllKnown(items) ==> r == Err(UnknownItemType) && Unchanged()
      ensures created && old(NewOrderCommand()).Ok? ==>
        |server.log| > |old(server.log)| && server.log[|old(server.log)|] == Dispatch(old(NewOrderCommand()).value)
      ensures created && old(NewOrderCommand()).Err? ==> r == Err(old(NewOrderCommand()).error) && server.log == old(server.log)
      ensures server.log[..|old(server.log)|] == old(server.log)
    {
      created := NeedsNewOrder();
      batch := Err(Unavailable);
      var openResult := OpenOrder();
      if openResult.Err? {
        return openResult, created, batch;
      }
      var id := order.value.id;
      var operations := MapToCartOperations(items, []);
      if operations.Err? {
        return Err(operations.error), created, batch;
      }
      batch := Head(server.replies);
      r := SendThenFetch(CartBatchOperation(id, operations.value), id, LinesReserved);
    }

    /** removeItems: send the removals as one batch and wait until every
        removed line reads as removed. */
    method RemoveItems(items: seq<RemoveItem>) returns (r: Result<(), Error>)
      modifies this, server
      ensures old(order).None? ==> r == Err(NoOrderFound) && Unchanged()
      ensures old(order).Some? ==>
        var id := old(order).value.id;
        Sent(CartBatchOperation(id, Operations([], items)), id, Expect(ItemsHaveStatus(RemovedIds(items), Removed)), r)
    {
      var id := GetOrderId();
      if id.Err? {
        return Err(id.error);
      }
      var operations := MapToCartOperations([], items);
      assert operations.Ok?;
      r := SendThenFetch(CartBatchOperation(id.value, operations.value), id.value,
                         Expect(ItemsHaveStatus(RemovedIds(items), Removed)));
    }

    /** changeItems: send removals and additions as one batch and wait until
        the added lines are reserved and the removed ones removed. */
    method ChangeItems(adds: seq<AddItem>, removes: seq<RemoveItem>) returns (r: Result<(), Error>)
      modifies this, server
      ensures old(order).None? ==> r == Err(NoOrderFound) && Unchanged()
      ensures old(order).Some? && !AllKnown(adds) ==> r == Err(UnknownItemType) && Unchanged()
      ensures old(order).Some? && AllKnown(adds) ==>
        var id := old(order).value.id;
        Sent(CartBatchOperation(id, Operations(adds, removes)), id, LinesChanged(RemovedIds(removes)), r)
    {
      var id := GetOrderId();
      if id.Err? {
        return Err(id.error);
      }
      var operations := MapToCartOperations(adds, removes);
      if operations.Err? {
        return Err(operations.error);
      }
      r := SendThenFetch(CartBatchOperation(id.value, operations.value), id.value, LinesChanged(RemovedIds(removes)));
    }

    /** addToken: create an order if needed, add the token and wait until
        the order carries it. */
    method AddToken(token: string) returns (r: Result<(), Error>, ghost created: bool)
      modifies this, server
      ensures created == old(NeedsNewOrder())
      ensures !created ==>
        var id := old(order).value.id;
        Sent(AddOrderToken(id, token), id, Expect(HasToken(token)), r)
      ensures created && old(NewOrderCommand()).Ok? ==>
        |server.log| > |old(server.log)| && server.log[|old(server.log)|] == Dispatch(old(NewOrderCommand()).value)
      ensures created && old(NewOrderCommand()).Err? ==> r == Err(old(NewOrderCommand()).error) && server.log == old(server.log)
      ensures r.Ok? ==> order.Some? && Validate(HasToken(token), order)
      ensures server.log[..|old(server.log)|] == old(server.log)
    {
      created := NeedsNewOrder();
      var openResult := OpenOrder();
      if openResult.Err? {
        return openResult, created;
      }
      var id := order.value.id;
      r := SendThenFetch(AddOrderToken(id, token), id, Expect(HasToken(token)));
    }

    /** reserve: only an order that CanReserve is reserved; otherwise
        nothing happens and nothing fails. */
    method Reserve(email: Option<string>, timeoutOn: Option<string>) returns (r: Result<(), Error>)
      modifies this, server
      ensures old(order).None? ==> r == Err(NoOrderFound) && Unchanged()
      ensures old(order).Some? && !Validate(CanReserve, old(order)) ==> r == Ok(()) && Unchanged()
      ensures Validate(CanReserve, old(order)) ==>
        var id := old(order).value.id;
        Sent(ReserveOrder(id, timeoutOn, email), id, Expect(IsReserved), r)
      ensures r.Ok? && Validate(CanReserve, old(order)) ==> order.Some? && Validate(IsReserved, order)
    {
      var id := GetOrderId();
      if id.Err? {
        return Err(id.error);
      }
      var current := StoredOrder();
      if Validate(CanReserve, Some(current.value)) {
        r := SendThenFetch(ReserveOrder(id.value, timeoutOn, email), id.value, Expect(IsReserved));
      } else {
        r := Ok(());
      }
    }

    /** createPayment: one command by payment method, then the reply's
        payment id or 'Create payment failed.'. */
    method CreatePaymentFor(p: PaymentRequest) returns (r: Result<PaymentResult, Error>)
      modifies server
      ensures OptionalSlot(customerId, NoCustomerId).Err? ==>
        r == Err(NoCustomerId) && server.log == old(server.log) && server.replies == old(server.replies)
      ensures OptionalSlot(customerId, NoCustomerId).Ok? && order.None? ==>
        r == Err(NoOrderFound) && server.log == old(server.log) && server.replies == old(server.replies)
      ensures OptionalSlot(customerId, NoCustomerId).Ok? && order.Some? ==>
        var reply := Head(old(server.replies));
        server.log == old(server.log) + [Dispatch(PaymentCommand(p, order.value.id, customerId))] &&
        server.replies == Skip(old(server.replies), 1) &&
        r == (if reply.Err? then Err(reply.error) else PaymentOutcome(p, reply.value))
      ensures server.answers == old(server.answers)
    {
      var customer := OptionalSlot(customerId, NoCustomerId);
      if customer.Err? {
        return Err(customer.error);
      }
      var id := GetOrderId();
      if id.Err? {
        return Err(id.error);
      }
      var reply := server.Send(PaymentCommand(p, id.value, customer.value));
      if reply.Err? {
        return Err(reply.error);
      }
      r := PaymentOutcome(p, reply.value);
    }

    /** Creates the payments `ps` one after the other, stopping at the first
        failure. The i-th payment is answered by the i-th reply. */
    method CreateEach(ps: seq<PaymentRequest>) returns (r: Result<seq<PaymentResult>, Error>)
      modifies server
      ensures r.Ok? ==>
        |r.value| == |ps| &&
        (ps != [] ==> order.Some? && server.log == old(server.log) + PaymentRequests(ps, order.value.id, customerId)) &&
        forall i | 0 <= i < |ps| ::
          Nth(old(server.replies), i).Ok? && PaymentOutcome(ps[i], Nth(old(server.replies), i).value) == Ok(r.value[i])
      ensures ps == [] ==> r == Ok([]) && server.log == old(server.log) && server.replies == old(server.replies)
      ensures |server.log| >= |old(server.log)| && server.log[..|old(server.log)|] == old(server.log)
      ensures server.answers == old(server.answers)
    {
      ghost var log0 := server.log;
      ghost var replies0 := server.replies;
      var results: seq<PaymentResult> := [];
      for index := 0 to |ps|
        invariant |results| == index
        invariant server.replies == Skip(replies0, index)
        invariant index > 0 ==> order.Some? && server.log == log0 + PaymentRequests(ps[..index], order.value.id, customerId)
        invariant index == 0 ==> server.log == log0
        invariant server.answers == old(server.answers)
        invariant forall i | 0 <= i < index ::
          Nth(replies0, i).Ok? && PaymentOutcome(ps[i], Nth(replies0, i).value) == Ok(results[i])
      {
        var result := CreatePaymentFor(ps[index]);
        if result.Err? {
          return Err(result.error);
        }
        SkipSkip(replies0, index, 1);
        assert ps[..index + 1][..index] == ps[..index];
        results := results + [result.value];
      }
      assert ps[..|ps|] == ps;
      return Ok(results);
    }

    /** The payment part of checkout: sort the payments, longest currency
        code first, then create them in that order. */
    method CreatePayments(payments: array<PaymentRequest>) returns (r: Result<seq<PaymentResult>, Error>)
      modifies server, payments
      ensures payments[..] == SortByCodeLength(old(payments[..]))
      ensures payments.Length == 0 ==>
        r == Ok([]) && server.log == old(server.log) && server.replies == old(server.replies)
      ensures r.Ok? ==>
        |r.value| == payments.Length &&
        (payments.Length > 0 ==>
          order.Some? && server.log == old(server.log) + PaymentRequests(payments[..], order.value.id, customerId)) &&
        forall i | 0 <= i < payments.Length ::
          Nth(old(server.replies), i).Ok? && PaymentOutcome(payments[i], Nth(old(server.replies), i).value) == Ok(r.value[i])
      ensures |server.log| >= |old(server.log)| && server.log[..|old(server.log)|] == old(server.log)
      ensures server.answers == old(server.answers)
    {
      if payments.Length == 0 {
        return Ok([]);
      }
      SortPayments(payments);
      var sorted := payments[..];
      r := CreateEach(sorted);
      assert payments[..] == sorted;
    }

    /** The first part of checkout: send the checkout command and wait
        until the order reads as checked out or completed, when CanCheckout
        holds on the stored order; otherwise nothing happens. */
    method CheckOutIfAllowed(email: Option<string>, remark: Option<string>, optInOn: Option<seq<string>>)
      returns (r: Result<(), Error>)
      modifies this, server
      ensures old(order).None? ==> r == Err(NoOrderFound) && Unchanged()
      ensures Validate(CanCheckout, old(order)) ==>
        |server.log| > |old(server.log)| &&
        server.log[|old(server.log)|] == Dispatch(CheckoutOrder(old(order).value.id, email, remark, optInOn))
      ensures Validate(CanCheckout, old(order)) ==>
        var id := old(order).value.id;
        var c := CheckoutOrder(id, email, remark, optInOn);
        var e := Expect(HasStatus([CheckOut, Completed]));
        Reconciled(c, id, e, r) && server.log == old(server.log) + SentRequests(c, id, e) &&
        server.replies == Skip(old(server.replies), 1)
      ensures old(order).Some? && !Validate(CanCheckout, old(order)) ==> r == Ok(()) && Unchanged()
      ensures r.Ok? ==> order.Some?
      ensures r.Ok? && Validate(CanCheckout, old(order)) ==> Validate(HasStatus([CheckOut, Completed]), order)
      ensures server.log[..|old(server.log)|] == old(server.log)
      ensures Slots().(order := None) == old(Slots()).(order := None)
    {
      var id := GetOrderId();
      if id.Err? {
        return Err(id.error);
      }
      var current := StoredOrder();
      r := Ok(());
      if Validate(CanCheckout, Some(current.value)) {
        r := SendThenFetch(CheckoutOrder(id.value, email, remark, optInOn), id.value,
                           Expect(HasStatus([CheckOut, Completed])));
      }
    }

    /** checkout: check out when CanCheckout holds, then create the
        payments. The payments are created whether or not the order was
        checked out, but not when checking out failed; `checkedOut` is the
        result of the first part. */
    method Checkout(email: Option<string>, payments: array<PaymentRequest>, remark: Option<string>, optInOn: Option<seq<string>>)
      returns (r: Result<seq<PaymentResult>, Error>, ghost checkedOut: Result<(), Error>,
               ghost checkoutRequests: seq<Request>, ghost paymentLog: seq<Request>)
      modifies this, server, payments
      ensures old(order).None? ==> r == Err(NoOrderFound) && Unchanged() && payments[..] == old(payments[..])
      ensures Validate(CanCheckout, old(order)) ==>
        |server.log| > |old(server.log)| &&
        server.log[|old(server.log)|] == Dispatch(CheckoutOrder(old(order).value.id, email, remark, optInOn))
      ensures Validate(CanCheckout, old(order)) ==>
        var id := old(order).value.id;
        var c := CheckoutOrder(id, email, remark, optInOn);
        var e := Expect(HasStatus([CheckOut, Completed]));
        Reconciled(c, id, e, checkedOut) && checkoutRequests == SentRequests(c, id, e)
      ensures !Validate(CanCheckout, old(order)) ==> checkoutRequests == []
      ensures server.log == old(server.log) + checkoutRequests + paymentLog
      ensures old(order).Some? && !Validate(CanCheckout, old(order)) ==>
        checkedOut == Ok(()) &&
        retryPolicy == old(retryPolicy) && waited == old(waited) && order == old(order) && server.answers == old(server.answers)
      ensures checkedOut.Err? ==> r == Err(checkedOut.error) && payments[..] == old(payments[..]) && paymentLog == []
      ensures checkedOut.Ok? ==> payments[..] == SortByCodeLength(old(payments[..]))
      ensures r.Ok? ==> checkedOut.Ok?
      ensures r.Ok? && Validate(CanCheckout, old(order)) ==> order.Some? && Validate(HasStatus([CheckOut, Completed]), order)
      ensures r.Ok? ==>
        |r.value| == payments.Length && order.Some? &&
        paymentLog == PaymentRequests(payments[..], order.value.id, customerId)
      ensures r.Ok? ==> forall i | 0 <= i < payments.Length ::
        r.value[i].paymentId != "" && (r.value[i].action.Some? <==> !IsCash(payments[i]) && !IsPin(payments[i]))
      ensures Slots().(order := None) == old(Slots()).(order := None)
    {
      var first := CheckOutIfAllowed(email, remark, optInOn);
      checkedOut := first;
      checkoutRequests := [];
      if Validate(CanCheckout, old(order)) {
        var id := old(order).value.id;
        checkoutRequests := SentRequests(CheckoutOrder(id, email, remark, optInOn), id, Expect(HasStatus([CheckOut, Completed])));
      }
      assert server.log == old(server.log) + checkoutRequests;
      if first.Err? {
        return Err(first.error), checkedOut, checkoutRequests, [];
      }
      ghost var checkedOutLog := server.log;
      r := CreatePayments(payments);
      paymentLog := server.log[|checkedOutLog|..];
      LogSplit(checkedOutLog, server.log);
    }

    /** cancelOrder and cancelReservation: without an id (or with an empty
        one) the stored order's id is used; after the command the cached
        order is dropped only when it is the one cancelled. */
    method Cancel(reservationOnly: bool, orderId: Option<string>, reason: Option<string>) returns (r: Result<(), Error>)
      modifies this, server
      ensures var target := if orderId.Some? && orderId.value != "" then orderId else (if old(order).Some? then Some(old(order).value.id) else None);
        (target.None? ==> r == Err(NoOrderFound) && Unchanged()) &&
        (target.Some? ==>
          var c := if reservationOnly then CancelOrderReservation(target.value, reason) else Command.CancelOrder(target.value, reason);
          var reply := Head(old(server.replies));
          server.log == old(server.log) + [Dispatch(c)] && server.replies == Skip(old(server.replies), 1) &&
          server.answers == old(server.answers) &&
          (reply.Err? ==> r == Err(reply.error) && Slots() == old(Slots())) &&
          (reply.Ok? ==>
            r == Ok(()) &&
            Slots() == old(Slots()).(order := if old(order).Some? && old(order).value.id == target.value then None else old(order))))
      ensures retryPolicy == old(retryPolicy) && waited == old(waited)
    {
      var id: string;
      if orderId.Some? && orderId.value != "" {
        id := orderId.value;
      } else {
        var stored := GetOrderId();
        if stored.Err? {
          return Err(stored.error);
        }
        id := stored.value;
      }
      var c := if reservationOnly then CancelOrderReservation(id, reason) else Command.CancelOrder(id, reason);
      var reply := server.Send(c);
      if reply.Err? {
        return Err(reply.error);
      }
      if HasOrder() && order.value.id == id {
        ClearOrder();
      }
      r := Ok(());
    }

    method CancelOrder(orderId: Option<string>, reason: Option<string>) returns (r: Result<(), Error>)
      modifies this, server
      ensures var target := if orderId.Some? && orderId.value != "" then orderId else (if old(order).Some? then Some(old(order).value.id) else None);
        (target.None? ==> r == Err(NoOrderFound) && Unchanged()) &&
        (target.Some? ==>
          var reply := Head(old(server.replies));
          server.log == old(server.log) + [Dispatch(Command.CancelOrder(target.value, reason))] &&
          server.replies == Skip(old(server.replies), 1) && server.answers == old(server.answers) &&
          (reply.Err? ==> r == Err(reply.error) && Slots() == old(Slots())) &&
          (reply.Ok? ==>
            r == Ok(()) &&
            Slots() == old(Slots()).(order := if old(order).Some? && old(order).value.id == target.value then None else old(order))))
      ensures retryPolicy == old(retryPolicy) && waited == old(waited)
    {
      r := Cancel(false, orderId, reason);
    }

    method CancelReservation(orderId: Option<string>, reason: Option<string>) returns (r: Result<(), Error>)
      modifies this, server
      ensures var target := if orderId.Some? && orderId.value != "" then orderId else (if old(order).Some? then Some(old(order).value.id) else None);
        (target.None? ==> r == Err(NoOrderFound) && Unchanged()) &&
        (target.Some? ==>
          var reply := Head(old(server.replies));
          server.log == old(server.log) + [Dispatch(CancelOrderReservation(target.value, reason))] &&
          server.replies == Skip(old(server.replies), 1) && server.answers == old(server.answers) &&
          (reply.Err? ==> r == Err(reply.error) && Slots() == old(Slots())) &&
          (reply.Ok? ==>
            r == Ok(()) &&
            Slots() == old(Slots()).(order := if old(order).Some? && old(order).value.id == target.value then None else old(order))))
      ensures retryPolicy == old(retryPolicy) && waited == old(waited)
    {
      r := Cancel(true, orderId, reason);
    }

    /** setCustomer: assign the order to the customer only when an order
        exists and no customer id is stored, then store the id. */
    method SetCustomer(id: string) returns (r: Result<(), Error>)
      modifies this, server
      ensures !(old(order).Some? && old(customerId).None?) ==>
        r == Ok(()) && Slots() == old(Slots()).(customerId := Some(id)) &&
        server.log == old(server.log) && server.replies == old(server.replies)
      ensures old(order).Some? && old(customerId).None? ==>
        var reply := Head(old(server.replies));
        server.log == old(server.log) + [Dispatch(AssignToCustomer(old(order).value.id, id))] &&
        server.replies == Skip(old(server.replies), 1) &&
        (reply.Err? ==> r == Err(reply.error) && Slots() == old(Slots())) &&
        (reply.Ok? ==> r == Ok(()) && Slots() == old(Slots()).(customerId := Some(id)))
      ensures server.answers == old(server.answers) && retryPolicy == old(retryPolicy) && waited == old(waited)
    {
      if HasOrder() && !HasCustomerId() {
        var reply := server.Send(AssignToCustomer(order.value.id, id));
        if reply.Err? {
          return Err(reply.error);
        }
      }
      StoreCustomerId(id);
      r := Ok(());
    }

    /** removeCustomer: send the unassignment under the same guard as
        setCustomer, then clear the customer slot. */
    method RemoveCustomer() returns (r: Result<(), Error>)
      modifies this, server
      ensures !(old(order).Some? && old(customerId).None?) ==>
        r == Ok(()) && Slots() == old(Slots()).(customerId := None) &&
        server.log == old(server.log) && server.replies == old(server.replies)
      ensures old(order).Some? && old(customerId).None? ==>
        var reply := Head(old(server.replies));
        server.log == old(server.log) + [Dispatch(UnassignFromCustomer(old(order).value.id))] &&
        server.replies == Skip(old(server.replies), 1) &&
        (reply.Err? ==> r == Err(reply.error) && Slots() == old(Slots())) &&
        (reply.Ok? ==> r == Ok(()) && Slots() == old(Slots()).(customerId := None))
      ensures server.answers == old(server.answers) && retryPolicy == old(retryPolicy) && waited == old(waited)
    {
      if HasOrder() && !HasCustomerId() {
        var reply := server.Send(UnassignFromCustomer(order.value.id));
        if reply.Err? {
          return Err(reply.error);
        }
      }
      customerId := None;
      r := Ok(());
    }
  }
}
