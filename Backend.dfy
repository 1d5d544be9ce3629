/** The ticket-engine backend as the cart sees it: the errors the cart raises
    or passes on, the payloads of the cart's commands, and a scripted server
    that answers order reads and commands from two queues and logs every
    request it receives. The GraphQL queries and the SDK transport of
    src/Cart.ts become the `Read` and `Dispatch` requests. */
module Backend {
  import opened Wrappers
  import opened Model

  /** The errors the cart raises itself (with the source's message in the
      doc comment) and the ones it passes on from the backend. */
  datatype Error =
    | NoOrderFound              // 'No order found.'
    | NoCustomerId              // 'No customer id found.'
    | NoSalesChannelId          // 'No sales channel id found.'
    | NoRegisterId              // 'No register id found.'
    | NoPreferredLanguageCode   // 'No preferred language code found.'
    | RetryAttemptsExceeded     // 'Retry attempts exceeded.'
    | UnknownItemType           // 'Cannot add item. Unknown item type.'
    | CreatePaymentFailed       // 'Create payment failed.'
    | MissingLineItems          // reading the lines of an order without a line list
    | Remote(message: string)   // raised by the backend or its transport

  /** The error of a request the server has no scripted answer for. */
  const Unavailable: Error := Remote("unavailable")

  // ---------------------------------------------------------------------------
  // Cart item payloads (the AddItem, RemoveItem and Payment interfaces)

  /** An item to add. An access item has an event id, a product item a
      product definition id; the fields a plain object leaves undefined are
      None. */
  datatype AddItem = AddItem(
    eventManagerId: Option<string>,
    eventId: Option<string>,
    accessDefinitionId: Option<string>,
    productDefinitionId: Option<string>,
    requestedConditionPath: seq<string>,
    capacityLocationPath: Option<string>)

  datatype RemoveItem = RemoveItem(orderLineItemId: string)

  datatype CartOperation =
    | RemoveItemOp(removal: RemoveItem)
    | AddAccessItemOp(access: AddItem)
    | AddProductItemOp(product: AddItem)

  /** A payment the caller asks checkout to create. */
  datatype PaymentRequest = PaymentRequest(
    currencyCode: string,
    amount: real,
    paymentMethod: Option<string>,
    token: Option<string>,
    loyaltyCardType: Option<string>,
    loyaltyCardId: Option<string>,
    loyaltyCardPin: Option<string>)

  /** What to do next for a payment: for an online payment, the payment page. */
  datatype PaymentAction = RedirectToPaymentPage(paymentUrl: Option<string>)

  datatype PaymentResult = PaymentResult(paymentId: string, action: Option<PaymentAction>)

  // ---------------------------------------------------------------------------
  // Commands and requests

  datatype Command =
    | CreateOrder(salesChannelId: string, registerId: string, customerId: Option<string>, preferredLanguageCode: Option<string>)
    | CancelOrder(aggregateId: string, reason: Option<string>)
    | CancelOrderReservation(aggregateId: string, reason: Option<string>)
    | CartBatchOperation(aggregateId: string, operations: seq<CartOperation>)
    | AddOrderToken(aggregateId: string, token: string)
    | ReserveOrder(aggregateId: string, timeoutOn: Option<string>, customerEmail: Option<string>)
    | CheckoutOrder(aggregateId: string, customerEmail: Option<string>, customerRemark: Option<string>, optInOn: Option<seq<string>>)
    | CreateCashPayment(orderId: string, currency: string, amount: real, customerId: Option<string>)
    | CreatePinPayment(orderId: string, currency: string, amount: real, customerId: Option<string>)
    | CreatePayment(orderId: string, currency: string, amount: real, customerId: Option<string>,
                    paymentToken: Option<string>, paymentMethod: Option<string>,
                    loyaltyCardType: Option<string>, loyaltyCardId: Option<string>, loyaltyCardPin: Option<string>)
    | AssignToCustomer(aggregateId: string, customer: string)
    | UnassignFromCustomer(aggregateId: string)

  /** The data of a command's response; each command fills the fields it has. */
  datatype Reply = Reply(
    orderId: string,
    orderLineItemIds: seq<string>,
    paymentId: Option<string>,
    paymentUrl: Option<string>)

  datatype Request = Read(orderId: string) | Dispatch(command: Command)

  /** `k` reads of the same order. */
  function Reads(orderId: string, k: nat): (r: seq<Request>)
    ensures |r| == k
    ensures forall i | 0 <= i < k :: r[i] == Read(orderId)
  {
    if k == 0 then [] else Reads(orderId, k - 1) + [Read(orderId)]
  }

  lemma {:induction false} ReadsAdd(orderId: string, j: nat, k: nat)
    ensures Reads(orderId, j) + Reads(orderId, k) == Reads(orderId, j + k)
  {
    if k > 0 {
      ReadsAdd(orderId, j, k - 1);
    }
  }

  // ---------------------------------------------------------------------------
  // Scripts

  /** The next scripted answer; an exhausted script fails. */
  function Head<T>(script: seq<Result<T, Error>>): (r: Result<T, Error>)
    ensures script == [] ==> r == Err(Unavailable)
    ensures script != [] ==> r == script[0]
  {
    if script == [] then Err(Unavailable) else script[0]
  }

  /** The script after `k` answers have been taken. */
  function Skip<T>(script: seq<T>, k: nat): (r: seq<T>)
    ensures |r| == if k <= |script| then |script| - k else 0
    ensures k <= |script| ==> r == script[k..]
  {
    if k <= |script| then script[k..] else []
  }

  lemma SkipSkip<T>(script: seq<T>, j: nat, k: nat)
    ensures Skip(Skip(script, j), k) == Skip(script, j + k)
  {
  }

  /** A log that kept `before` as its prefix is `before` followed by the
      rest. */
  lemma LogSplit(before: seq<Request>, after: seq<Request>)
    requires |before| <= |after| && after[..|before|] == before
    ensures after == before + after[|before|..]
  {
  }

  /** The answer at position `k` of a script; past its end, unavailable. */
  function Nth<T>(script: seq<Result<T, Error>>, k: nat): Result<T, Error> {
    if k < |script| then script[k] else Err(Unavailable)
  }

  /** The backend: order reads are answered from `answers`, commands from
      `replies`, each in order; `log` records every request received. */
  class Server {
    var answers: seq<Result<Order, Error>>
    var replies: seq<Result<Reply, Error>>
    var log: seq<Request>

    constructor(answers: seq<Result<Order, Error>>, replies: seq<Result<Reply, Error>>)
      ensures this.answers == answers && this.replies == replies && log == []
    {
      this.answers := answers;
      this.replies := replies;
      log := [];
    }

    /** Reads an order: takes the next answer. */
    method Query(orderId: string) returns (a: Result<Order, Error>)
      modifies this
      ensures a == Head(old(answers))
      ensures answers == Skip(old(answers), 1) && replies == old(replies)
      ensures log == old(log) + [Read(orderId)]
    {
      a := Head(answers);
      answers := Skip(answers, 1);
      log := log + [Read(orderId)];
    }

    /** Sends a command: takes the next reply. */
    method Send(c: Command) returns (reply: Result<Reply, Error>)
      modifies this
      ensures reply == Head(old(replies))
      ensures replies == Skip(old(replies), 1) && answers == old(answers)
      ensures log == old(log) + [Dispatch(c)]
    {
      reply := Head(replies);
      replies := Skip(replies, 1);
      log := log + [Dispatch(c)];
    }
  }
}
