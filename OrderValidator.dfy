/** The order predicates of src/OrderValidator.ts. Every validator class of
    the source is one constructor of `Validator`; its constructor arguments
    are the class's constructor parameters, and `Validate` is its `validate`
    method. A missing order (the source tolerates `null`) is `None`. */
module OrderValidator {
  import opened Wrappers
  import opened Model

  datatype Validator =
    | IsCompleted
    | IsTimeout
    | IsCanceled
    | IsPending
    | IsCheckedOut
    | IsReserved
    | IsPaid
    | IsEmpty
    | IsInFinalState
    | IsProcessingPayment
    | HasCustomer
    | HasToken(token: string)
    | HasStatus(statuses: seq<OrderStatus>)
    | HasPaymentWithCurrencyCode(currencyCodes: seq<string>)
    | HasItemsWithStatus(itemStatuses: seq<LineItemStatus>)
    | ItemsHaveStatus(orderLineIds: seq<string>, status: LineItemStatus)
    | ItemsHaveStatusOneOf(orderLineIds: seq<string>, allowed: seq<LineItemStatus>)
    | NeedsPaymentWithCurrency(currencyCode: string)
    | NeedsPaymentWithIsoCurrency
    | NeedsPaymentWithCustomCurrency
    | NeedsLoyaltyCardPayment
    | ValidateItemsStatus(reservedIds: seq<string>, removedIds: seq<string>, completedIds: seq<string>)
    | CanReserve
    | CanCheckout
    | CanPay
    | CanPayOnline
    | RequiredPaymentMatchLineItems
    | AndValidator(validators: seq<Validator>)
    | NullValidator

  const FinalStates: seq<OrderStatus> := [Completed, Canceled, Timeout, Failed]

  /** Line statuses that make an order not yet reservable or payable. */
  const PendingItemStatuses: seq<LineItemStatus> := [LinePending, AwaitingClaim]

  /** Payment statuses that do not count towards what has been paid. */
  const InactivePaymentStatuses: seq<string> := ["refused", "cancelled"]

  // ---------------------------------------------------------------------------
  // Line items

  predicate IsLive(l: LineItem) {
    l.status != Removed && l.status != Returned
  }

  /** The number of lines that are neither removed nor returned (the filter of
      IsEmpty, shared with Cart.getItemCount). */
  function LiveCount(lines: seq<LineItem>): (n: nat)
    ensures n <= |lines|
  {
    if lines == [] then 0 else (if IsLive(lines[0]) then 1 else 0) + LiveCount(lines[1..])
  }

  /** The ids of the lines at status `s`, in line order. */
  function IdsWithStatus(lines: seq<LineItem>, s: LineItemStatus): seq<string> {
    if lines == [] then []
    else (if lines[0].status == s then [lines[0].id] else []) + IdsWithStatus(lines[1..], s)
  }

  predicate NoPendingLines(lines: seq<LineItem>) {
    forall j | 0 <= j < |lines| :: lines[j].status !in PendingItemStatuses
  }

  predicate EmptyHolds(o: Option<Order>) {
    o.None? || o.value.lineItems.None? || LiveCount(o.value.lineItems.value) == 0
  }

  predicate HasItemsWithStatusHolds(ss: seq<LineItemStatus>, o: Option<Order>) {
    o.Some? && o.value.lineItems.Some? &&
    var lines := o.value.lineItems.value;
    exists j | 0 <= j < |lines| :: lines[j].status in ss
  }

  predicate ItemsHaveStatusHolds(ids: seq<string>, s: LineItemStatus, o: Option<Order>) {
    o.Some? && o.value.lineItems.Some? &&
    var lines := o.value.lineItems.value;
    !(|ids| > 0 && |lines| == 0) &&
    forall i | 0 <= i < |ids| :: ids[i] in IdsWithStatus(lines, s)
  }

  /** Neither a pending-like line nor an empty order stands in the way. */
  predicate OpenForSettlement(o: Option<Order>) {
    !EmptyHolds(o) && !HasItemsWithStatusHolds(PendingItemStatuses, o)
  }

  // ---------------------------------------------------------------------------
  // Payments

  function TokenValues(ts: seq<OrderToken>): seq<string> {
    seq(|ts|, i requires 0 <= i < |ts| => ts[i].token)
  }

  function PaymentCodes(ps: seq<Payment>): seq<string> {
    seq(|ps|, i requires 0 <= i < |ps| => ps[i].currency.code)
  }

  function RequiredCodes(rps: seq<RequiredPayment>): seq<string> {
    seq(|rps|, i requires 0 <= i < |rps| => rps[i].currency.code)
  }

  function SumAmounts(ps: seq<Payment>): real {
    if ps == [] then 0.0 else ps[0].amount + SumAmounts(ps[1..])
  }

  /** The payments that are neither refused nor cancelled; none when the
      order or its payment list is missing. */
  function ActivePayments(o: Option<Order>): seq<Payment> {
    if o.Some? && o.value.payments.Some? then ActiveOf(o.value.payments.value) else []
  }

  function ActiveOf(ps: seq<Payment>): seq<Payment> {
    if ps == [] then []
    else (if ps[0].status !in InactivePaymentStatuses then [ps[0]] else []) + ActiveOf(ps[1..])
  }

  function WithCode(ps: seq<Payment>, code: string): seq<Payment> {
    if ps == [] then []
    else (if ps[0].currency.code == code then [ps[0]] else []) + WithCode(ps[1..], code)
  }

  function LoyaltyPayments(ps: seq<Payment>, code: string, cardType: Option<string>): seq<Payment> {
    if ps == [] then []
    else
      var p := ps[0];
      (if p.currency.code == code && p.psp == Some("loyalty") && p.paymentMethod == cardType then [p] else [])
      + LoyaltyPayments(ps[1..], code, cardType)
  }

  /** A required payment whose currency has been paid less than required. */
  predicate Outstanding(o: Option<Order>, rp: RequiredPayment) {
    SumAmounts(WithCode(ActivePayments(o), rp.currency.code)) < rp.amount
  }

  predicate LoyaltyOutstanding(o: Option<Order>, lp: LoyaltyCardPayment) {
    var paid := LoyaltyPayments(ActivePayments(o), lp.currency.code, lp.cardType);
    |paid| == 0 || SumAmounts(paid) < lp.amount
  }

  // ---------------------------------------------------------------------------
  // Recomputing the required payments from the reserved lines

  /** The first index in `acc` whose currency code is `code`, or -1 (the
      `findIndex` of the source; a line without a currency never matches). */
  function FindCode(acc: seq<RequiredPayment>, code: Option<string>): (k: int)
    ensures -1 <= k < |acc|
    ensures 0 <= k ==> Some(acc[k].currency.code) == code
    ensures 0 <= k ==> forall j | 0 <= j < k :: Some(acc[j].currency.code) != code
    ensures k == -1 ==> forall j | 0 <= j < |acc| :: Some(acc[j].currency.code) != code
  {
    if acc == [] then -1
    else if Some(acc[0].currency.code) == code then 0
    else
      var k := FindCode(acc[1..], code);
      if k == -1 then -1 else k + 1
  }

  /** One step of the accumulation loop: a reserved line adds its price to
      the entry of its currency, or opens an entry when it has a currency and
      a positive price. */
  function AddReservedLine(acc: seq<RequiredPayment>, l: LineItem): seq<RequiredPayment> {
    if l.status != LineReserved then acc
    else
      var k := FindCode(acc, LineCode(l));
      if k != -1 then acc[k := acc[k].(amount := acc[k].amount + l.price)]
      else if l.currency.Some? && l.price > 0.0 then acc + [RequiredPayment(l.currency.value, l.price)]
      else acc
  }

  /** The per-currency amounts the accumulation loop builds, line by line. */
  function CalculatedRequiredPayments(lines: seq<LineItem>): seq<RequiredPayment> {
    if lines == [] then []
    else AddReservedLine(CalculatedRequiredPayments(lines[..|lines| - 1]), lines[|lines| - 1])
  }

  /** The first recorded required payment in currency `code` (the source's
      `requiredPayments?.find`); none when the list is missing. */
  function FindRequired(required: Option<seq<RequiredPayment>>, code: string): (r: Option<RequiredPayment>)
    ensures r.Some? ==> required.Some? && r.value in required.value && r.value.currency.code == code
    ensures r.Some? ==> exists k | 0 <= k < |required.value| ::
      required.value[k] == r.value && forall j | 0 <= j < k :: required.value[j].currency.code != code
    ensures r.None? ==> required.None? || forall i | 0 <= i < |required.value| :: required.value[i].currency.code != code
    decreases if required.Some? then |required.value| else 0
  {
    if required.None? || required.value == [] then None
    else if required.value[0].currency.code == code then Some(required.value[0])
    else FindRequired(Some(required.value[1..]), code)
  }

  predicate MatchesRecorded(calculated: seq<RequiredPayment>, required: Option<seq<RequiredPayment>>) {
    forall i | 0 <= i < |calculated| ::
      var recorded := FindRequired(required, calculated[i].currency.code);
      recorded.Some? && recorded.value.amount == calculated[i].amount
  }

  predicate RequiredPaymentsMatch(o: Option<Order>) {
    o.Some? && o.value.lineItems.Some? &&
    NoPendingLines(o.value.lineItems.value) &&
    MatchesRecorded(CalculatedRequiredPayments(o.value.lineItems.value), o.value.requiredPayments)
  }

  // ---------------------------------------------------------------------------
  // The rules

  /** Every code in `codes` is the currency of some recorded payment. */
  predicate HasPaymentsIn(codes: seq<string>, o: Option<Order>) {
    o.Some? && o.value.payments.Some? &&
    forall i | 0 <= i < |codes| :: codes[i] in PaymentCodes(o.value.payments.value)
  }

  /** Every line named in `ids` has one of the `allowed` statuses (and a
      non-empty `ids` needs at least one line). */
  predicate ItemsHaveStatusOneOfHolds(ids: seq<string>, allowed: seq<LineItemStatus>, o: Option<Order>) {
    o.Some? && o.value.lineItems.Some? &&
    var lines := o.value.lineItems.value;
    !(|ids| > 0 && |lines| == 0) &&
    forall j | 0 <= j < |lines| :: lines[j].id in ids ==> lines[j].status in allowed
  }

  /** Some required payment with a three-letter code (`iso`) or a longer
      code (`!iso`) is not yet paid in full. */
  predicate NeedsPaymentHolds(o: Option<Order>, iso: bool) {
    o.Some? && o.value.requiredPayments.Some? &&
    var rps := o.value.requiredPayments.value;
    exists i | 0 <= i < |rps| :: (if iso then |rps[i].currency.code| == 3 else |rps[i].currency.code| > 3) && Outstanding(o, rps[i])
  }

  /** Some required loyalty-card payment has no matching payment or is not
      yet paid in full. */
  predicate NeedsLoyaltyHolds(o: Option<Order>) {
    o.Some? && o.value.requiredLoyaltyCardPayments.Some? &&
    var lps := o.value.requiredLoyaltyCardPayments.value;
    exists i | 0 <= i < |lps| :: LoyaltyOutstanding(o, lps[i])
  }

  function Validate(v: Validator, o: Option<Order>): bool
    decreases v
  {
    match v
    case IsCompleted => o.Some? && o.value.status == Completed
    case IsTimeout => o.Some? && o.value.status == Timeout
    case IsCanceled => o.Some? && o.value.status == Canceled
    case IsPending => o.Some? && o.value.status == Pending
    case IsCheckedOut => o.Some? && o.value.status == CheckOut
    case IsReserved => o.Some? && o.value.status == Reserved
    case IsPaid => o.Some? && o.value.paymentStatus == Some(Paid)
    case IsEmpty => EmptyHolds(o)
    case IsInFinalState => o.Some? && o.value.status in FinalStates
    case IsProcessingPayment =>
      o.Some? && o.value.status == CheckOut && o.value.paymentStatus != Some(Paid) &&
      o.value.payments.Some? && |o.value.payments.value| > 0
    case HasCustomer => o.Some? && o.value.customer.Some?
    case HasToken(t) => o.Some? && o.value.tokens.Some? && t in TokenValues(o.value.tokens.value)
    case HasStatus(ss) => o.Some? && o.value.status in ss
    case HasPaymentWithCurrencyCode(codes) => HasPaymentsIn(codes, o)
    case HasItemsWithStatus(ss) => HasItemsWithStatusHolds(ss, o)
    case ItemsHaveStatus(ids, s) => ItemsHaveStatusHolds(ids, s, o)
    case ItemsHaveStatusOneOf(ids, allowed) => ItemsHaveStatusOneOfHolds(ids, allowed, o)
    case NeedsPaymentWithCurrency(code) =>
      o.Some? && o.value.requiredPayments.Some? && code in RequiredCodes(o.value.requiredPayments.value)
    case NeedsPaymentWithIsoCurrency => NeedsPaymentHolds(o, true)
    case NeedsPaymentWithCustomCurrency => NeedsPaymentHolds(o, false)
    case NeedsLoyaltyCardPayment => NeedsLoyaltyHolds(o)
    case ValidateItemsStatus(reservedIds, removedIds, completedIds) =>
      ItemsHaveStatusHolds(reservedIds, LineReserved, o) &&
      ItemsHaveStatusHolds(removedIds, Removed, o) &&
      ItemsHaveStatusHolds(completedIds, LineCompleted, o)
    case CanReserve =>
      o.Some? && o.value.status == Pending && OpenForSettlement(o)
    case CanCheckout =>
      o.Some? && (o.value.status == Pending || o.value.status == Reserved) && OpenForSettlement(o)
    case CanPay =>
      o.Some? && o.value.paymentStatus != Some(Paid) &&
      (o.value.status == Pending || o.value.status == Reserved || o.value.status == CheckOut) &&
      OpenForSettlement(o)
    case CanPayOnline =>
      !(o.Some? && o.value.requiredPayments.Some? && "CINEVILLE" in RequiredCodes(o.value.requiredPayments.value))
    case RequiredPaymentMatchLineItems => RequiredPaymentsMatch(o)
    case AndValidator(vs) => forall i | 0 <= i < |vs| :: Validate(vs[i], o)
    case NullValidator => true
  }

  // ---------------------------------------------------------------------------
  // The loops of the source, proved against the rules

  /** The two loops of RequiredPaymentMatchLineItems.validate: accumulate the
      reserved lines per currency (stopping at a pending-like line), then look
      each accumulated currency up among the recorded required payments. */
  method RequiredPaymentMatch(o: Option<Order>) returns (ok: bool)
    ensures ok == Validate(RequiredPaymentMatchLineItems, o)
  {
    if o.None? || o.value.lineItems.None? {
      return false;
    }
    var lines := o.value.lineItems.value;
    var calculated: seq<RequiredPayment> := [];
    var i := 0;
    while i < |lines|
      invariant 0 <= i <= |lines|
      invariant calculated == CalculatedRequiredPayments(lines[..i])
      invariant forall j | 0 <= j < i :: lines[j].status !in PendingItemStatuses
    {
      var line := lines[i];
      assert lines[..i + 1][..i] == lines[..i];
      if line.status == LineReserved {
        var index := FindCode(calculated, LineCode(line));
        if index != -1 {
          calculated := calculated[index := calculated[index].(amount := calculated[index].amount + line.price)];
        } else if line.currency.Some? && line.price > 0.0 {
          calculated := calculated + [RequiredPayment(line.currency.value, line.price)];
        }
      }
      if line.status in PendingItemStatuses {
        return false;
      }
      i := i + 1;
    }
    assert lines[..i] == lines;
    i := 0;
    while i < |calculated|
      invariant 0 <= i <= |calculated|
      invariant forall k | 0 <= k < i ::
        var recorded := FindRequired(o.value.requiredPayments, calculated[k].currency.code);
        recorded.Some? && recorded.value.amount == calculated[k].amount
    {
      var recorded := FindRequired(o.value.requiredPayments, calculated[i].currency.code);
      if recorded.None? || recorded.value.amount != calculated[i].amount {
        return false;
      }
      i := i + 1;
    }
    return true;
  }

  /** AndValidator.validate: the members are asked in order and the loop
      stops at the first one that fails; `asked` counts the members asked. */
  method ValidateAll(vs: seq<Validator>, o: Option<Order>) returns (ok: bool, ghost asked: nat)
    ensures ok == Validate(AndValidator(vs), o)
    ensures asked <= |vs|
    ensures ok ==> asked == |vs|
    ensures !ok ==> 0 < asked && !Validate(vs[asked - 1], o)
    ensures forall j | 0 <= j < asked - 1 :: Validate(vs[j], o)
  {
    var i := 0;
    while i < |vs|
      invariant 0 <= i <= |vs|
      invariant forall j | 0 <= j < i :: Validate(vs[j], o)
    {
      if !Validate(vs[i], o) {
        return false, i + 1;
      }
      i := i + 1;
    }
    return true, |vs|;
  }

  // ---------------------------------------------------------------------------
  // Properties of the rules

  /** With no order, IsEmpty, NullValidator and CanPayOnline hold ... */
  lemma NullOrderDefaults()
    ensures Validate(IsEmpty, None) && Validate(NullValidator, None) && Validate(CanPayOnline, None)
  {
  }

  /** ... and the state rules fail. */
  lemma NullOrderFailsStateRules(os: seq<OrderStatus>, t: string)
    ensures !Validate(IsPending, None) && !Validate(IsInFinalState, None)
    ensures !Validate(HasStatus(os), None) && !Validate(HasToken(t), None)
  {
  }

  /** With no order, the line-item rules and the settlement guards fail. */
  lemma NullOrderFailsLineRules(ids: seq<string>, s: LineItemStatus, ss: seq<LineItemStatus>)
    ensures !Validate(HasItemsWithStatus(ss), None)
    ensures !Validate(ItemsHaveStatus(ids, s), None) && !Validate(ItemsHaveStatusOneOf(ids, ss), None)
  {
  }

  /** With no order, no settlement guard holds, and the required payments
      cannot be matched. */
  lemma NullOrderFailsSettlement()
    ensures !Validate(CanReserve, None) && !Validate(CanCheckout, None) && !Validate(CanPay, None)
  {
  }

  lemma NullOrderFailsMatch()
    ensures !Validate(RequiredPaymentMatchLineItems, None)
  {
  }

  lemma {:induction false} LiveCountZeroIff(lines: seq<LineItem>)
    ensures LiveCount(lines) == 0 <==> forall j | 0 <= j < |lines| :: lines[j].status in {Removed, Returned}
  {
    if lines != [] {
      LiveCountZeroIff(lines[1..]);
      assert forall j | 1 <= j < |lines| :: lines[1..][j - 1] == lines[j];
    }
  }

  /** IsEmpty holds exactly when every line is removed or returned; an order
      without lines is empty. */
  lemma IsEmptyIff(o: Order)
    ensures Validate(IsEmpty, Some(o)) <==>
      o.lineItems.None? ||
      forall j | 0 <= j < |o.lineItems.value| :: o.lineItems.value[j].status in {Removed, Returned}
  {
    if o.lineItems.Some? {
      LiveCountZeroIff(o.lineItems.value);
    }
  }

  /** Some line has id `x` and status `s`. */
  predicate HasLineAt(lines: seq<LineItem>, x: string, s: LineItemStatus) {
    exists j | 0 <= j < |lines| :: lines[j].id == x && lines[j].status == s
  }

  lemma {:induction false} IdsWithStatusMember(lines: seq<LineItem>, s: LineItemStatus, x: string)
    ensures x in IdsWithStatus(lines, s) <==> HasLineAt(lines, x, s)
  {
    if lines != [] {
      IdsWithStatusMember(lines[1..], s, x);
      if x in IdsWithStatus(lines[1..], s) {
        var j :| 0 <= j < |lines[1..]| && lines[1..][j].id == x && lines[1..][j].status == s;
        assert lines[j + 1] == lines[1..][j];
      }
      if HasLineAt(lines, x, s) {
        var j :| 0 <= j < |lines| && lines[j].id == x && lines[j].status == s;
        if j > 0 {
          assert lines[1..][j - 1] == lines[j];
        }
      }
    }
  }

  /** ItemsHaveStatus(ids, s) holds exactly when the order has a line list and
      every id is the id of a line at status s; the zero-lines guard of the
      source is implied. */
  lemma ItemsHaveStatusIff(ids: seq<string>, s: LineItemStatus, o: Order)
    ensures Validate(ItemsHaveStatus(ids, s), Some(o)) <==>
      o.lineItems.Some? && AllIdsAtStatus(ids, s, o.lineItems.value)
  {
    if o.lineItems.Some? {
      AllIdsAtStatusIff(ids, s, o.lineItems.value);
    }
  }

  /** Every id is the id of some line at status `s`. */
  predicate AllIdsAtStatus(ids: seq<string>, s: LineItemStatus, lines: seq<LineItem>) {
    forall i | 0 <= i < |ids| :: HasLineAt(lines, ids[i], s)
  }

  lemma AllIdsAtStatusIff(ids: seq<string>, s: LineItemStatus, lines: seq<LineItem>)
    ensures (!(|ids| > 0 && |lines| == 0) && forall i | 0 <= i < |ids| :: ids[i] in IdsWithStatus(lines, s))
      <==> AllIdsAtStatus(ids, s, lines)
  {
    forall i | 0 <= i < |ids|
      ensures ids[i] in IdsWithStatus(lines, s) <==> HasLineAt(lines, ids[i], s)
    {
      IdsWithStatusMember(lines, s, ids[i]);
    }
    if |ids| > 0 && |lines| == 0 {
      assert !HasLineAt(lines, ids[0], s);
    }
  }

  /** The two edge cases of ItemsHaveStatus that guard against a stale read. */
  lemma ItemsHaveStatusEdgeCases(s: LineItemStatus, o: Order, x: string, rest: seq<string>)
    ensures o.lineItems.Some? ==> Validate(ItemsHaveStatus([], s), Some(o))
    ensures o.lineItems == Some([]) ==> !Validate(ItemsHaveStatus([x] + rest, s), Some(o))
  {
  }

  /** When line ids are unique, ItemsHaveStatus(ids, s) implies
      ItemsHaveStatusOneOf(ids, [s]). */
  lemma ItemsHaveStatusImpliesOneOf(ids: seq<string>, s: LineItemStatus, o: Order)
    requires o.lineItems.Some?
    requires forall j, k | 0 <= j < k < |o.lineItems.value| :: o.lineItems.value[j].id != o.lineItems.value[k].id
    requires Validate(ItemsHaveStatus(ids, s), Some(o))
    ensures Validate(ItemsHaveStatusOneOf(ids, [s]), Some(o))
  {
    ItemsHaveStatusIff(ids, s, o);
    var lines := o.lineItems.value;
    assert AllIdsAtStatus(ids, s, lines);
    NamedLinesAtStatus(ids, s, lines);
    assert !(|ids| > 0 && |lines| == 0);
    assert ItemsHaveStatusOneOfHolds(ids, [s], Some(o));
  }

  /** With unique line ids, when every id names a line at status `s`, every
      line whose id is named is at status `s`. */
  lemma NamedLinesAtStatus(ids: seq<string>, s: LineItemStatus, lines: seq<LineItem>)
    requires forall j, k | 0 <= j < k < |lines| :: lines[j].id != lines[k].id
    requires AllIdsAtStatus(ids, s, lines)
    ensures forall j | 0 <= j < |lines| && lines[j].id in ids :: lines[j].status in [s]
  {
    forall j | 0 <= j < |lines| && lines[j].id in ids
      ensures lines[j].status in [s]
    {
      var i :| 0 <= i < |ids| && ids[i] == lines[j].id;
      assert HasLineAt(lines, ids[i], s);
      var k :| 0 <= k < |lines| && lines[k].id == ids[i] && lines[k].status == s;
      assert k == j;
    }
  }

  /** The converse fails: ItemsHaveStatusOneOf accepts an id that no line has. */
  lemma OneOfDoesNotImplyItemsHaveStatus(l: LineItem)
    requires l.id != "absent"
    ensures var o := Order("o", Pending, None, None, None, None, None, None, Some([l]));
      Validate(ItemsHaveStatusOneOf(["absent"], [LineReserved]), Some(o)) &&
      !Validate(ItemsHaveStatus(["absent"], LineReserved), Some(o))
  {
    var o := Order("o", Pending, None, None, None, None, None, None, Some([l]));
    ItemsHaveStatusIff(["absent"], LineReserved, o);
    var ids := ["absent"];
    assert !HasLineAt([l], ids[0], LineReserved);
    assert ItemsHaveStatusOneOfHolds(ids, [LineReserved], Some(o)) by {
      assert [l][0].id !in ids;
    }
  }

  /** ValidateItemsStatus is the conjunction of three ItemsHaveStatus rules. */
  lemma ValidateItemsStatusIsConjunction(r: seq<string>, m: seq<string>, c: seq<string>, o: Option<Order>)
    ensures Validate(ValidateItemsStatus(r, m, c), o) ==
      (Validate(ItemsHaveStatus(r, LineReserved), o) &&
       Validate(ItemsHaveStatus(m, Removed), o) &&
       Validate(ItemsHaveStatus(c, LineCompleted), o))
  {
    assert Validate(ItemsHaveStatus(r, LineReserved), o) == ItemsHaveStatusHolds(r, LineReserved, o);
    assert Validate(ItemsHaveStatus(m, Removed), o) == ItemsHaveStatusHolds(m, Removed, o);
    assert Validate(ItemsHaveStatus(c, LineCompleted), o) == ItemsHaveStatusHolds(c, LineCompleted, o);
  }

  /** With three empty lists ValidateItemsStatus holds for every order with
      a line list, and only for those. */
  lemma ValidateItemsStatusEmpty(o: Option<Order>)
    ensures Validate(ValidateItemsStatus([], [], []), o) <==> o.Some? && o.value.lineItems.Some?
  {
  }

  /** The settlement guards are nested: CanReserve implies CanCheckout, and
      CanCheckout on an order not yet paid implies CanPay. */
  lemma ReserveImpliesCheckout(o: Option<Order>)
    requires Validate(CanReserve, o)
    ensures Validate(CanCheckout, o)
  {
  }

  lemma CheckoutImpliesPay(o: Option<Order>)
    requires Validate(CanCheckout, o) && !Validate(IsPaid, o)
    ensures Validate(CanPay, o)
  {
  }

  /** No settlement guard holds on an order in a final state. */
  lemma FinalStateBlocksSettlement(o: Option<Order>)
    requires Validate(IsInFinalState, o)
    ensures !Validate(CanReserve, o) && !Validate(CanCheckout, o) && !Validate(CanPay, o)
  {
    assert o.Some? && o.value.status in FinalStates;
  }

  // --- RequiredPaymentMatchLineItems, stated per currency

  /** The sum of the prices of the reserved lines in currency `c`. */
  function ReservedSum(lines: seq<LineItem>, c: string): real {
    if lines == [] then 0.0
    else
      var l := lines[|lines| - 1];
      ReservedSum(lines[..|lines| - 1], c) + (if l.status == LineReserved && LineCode(l) == Some(c) then l.price else 0.0)
  }

  predicate PricedReserved(l: LineItem, c: string) {
    l.status == LineReserved && LineCode(l) == Some(c) && l.price > 0.0
  }

  /** Some reserved line in currency `c` has a positive price. */
  predicate HasPricedReserved(lines: seq<LineItem>, c: string) {
    exists j | 0 <= j < |lines| :: PricedReserved(lines[j], c)
  }

  predicate NonNegativePrices(lines: seq<LineItem>) {
    forall j | 0 <= j < |lines| :: lines[j].price >= 0.0
  }

  /** Every entry holds the sum of its currency's reserved lines, and that
      currency has a priced reserved line. */
  ghost predicate EntriesAreSums(acc: seq<RequiredPayment>, lines: seq<LineItem>) {
    forall i | 0 <= i < |acc| ::
      acc[i].amount == ReservedSum(lines, acc[i].currency.code) && HasPricedReserved(lines, acc[i].currency.code)
  }

  /** Every currency with a priced reserved line has an entry. */
  ghost predicate CoversPriced(acc: seq<RequiredPayment>, lines: seq<LineItem>) {
    forall c :: HasPricedReserved(lines, c) ==> exists i | 0 <= i < |acc| :: acc[i].currency.code == c
  }

  predicate DistinctCodes(acc: seq<RequiredPayment>) {
    forall i, j | 0 <= i < j < |acc| :: acc[i].currency.code != acc[j].currency.code
  }

  /** What the accumulation loop keeps: one entry per currency that has a
      priced reserved line, holding the sum of that currency's reserved lines. */
  ghost predicate AccumulationInvariant(acc: seq<RequiredPayment>, lines: seq<LineItem>) {
    EntriesAreSums(acc, lines) && CoversPriced(acc, lines) && DistinctCodes(acc)
  }

  lemma {:induction false} UnpricedSumIsZero(lines: seq<LineItem>, c: string)
    requires NonNegativePrices(lines)
    requires !HasPricedReserved(lines, c)
    ensures ReservedSum(lines, c) == 0.0
  {
    if lines != [] {
      var p := lines[..|lines| - 1];
      assert forall j | 0 <= j < |p| :: p[j] == lines[j];
      UnpricedSumIsZero(p, c);
      assert !PricedReserved(lines[|lines| - 1], c);
    }
  }

  lemma ReservedSumSnoc(p: seq<LineItem>, l: LineItem, c: string)
    ensures ReservedSum(p + [l], c) ==
      ReservedSum(p, c) + (if l.status == LineReserved && LineCode(l) == Some(c) then l.price else 0.0)
  {
    assert (p + [l])[..|p|] == p;
  }

  lemma HasPricedReservedSnoc(p: seq<LineItem>, l: LineItem, c: string)
    ensures HasPricedReserved(p + [l], c) <==> HasPricedReserved(p, c) || PricedReserved(l, c)
  {
    var lines := p + [l];
    assert forall j | 0 <= j < |p| :: lines[j] == p[j];
    assert lines[|p|] == l;
    if HasPricedReserved(lines, c) && !PricedReserved(l, c) {
      var j :| 0 <= j < |lines| && PricedReserved(lines[j], c);
      assert j < |p|;
    }
    if HasPricedReserved(p, c) {
      var j :| 0 <= j < |p| && PricedReserved(p[j], c);
      assert PricedReserved(lines[j], c);
    }
  }

  /** A line that leaves the entries alone: not reserved, or reserved
      without an entry and without a positive price. */
  lemma StepKeepsEntries(acc: seq<RequiredPayment>, p: seq<LineItem>, l: LineItem)
    requires AccumulationInvariant(acc, p)
    requires l.price >= 0.0
    requires l.status != LineReserved || (FindCode(acc, LineCode(l)) == -1 && !(l.currency.Some? && l.price > 0.0))
    ensures AccumulationInvariant(acc, p + [l])
  {
    forall c
      ensures ReservedSum(p + [l], c) == ReservedSum(p, c)
      ensures HasPricedReserved(p + [l], c) == HasPricedReserved(p, c)
    {
      ReservedSumSnoc(p, l, c);
      HasPricedReservedSnoc(p, l, c);
    }
  }

  /** A reserved line whose currency has an entry adds its price there. */
  lemma StepAddsToEntry(acc: seq<RequiredPayment>, p: seq<LineItem>, l: LineItem, k: nat)
    requires AccumulationInvariant(acc, p)
    requires l.status == LineReserved && k < |acc| && LineCode(l) == Some(acc[k].currency.code)
    ensures AccumulationInvariant(acc[k := acc[k].(amount := acc[k].amount + l.price)], p + [l])
  {
    var acc' := acc[k := acc[k].(amount := acc[k].amount + l.price)];
    var lines := p + [l];
    forall c
      ensures ReservedSum(lines, c) == ReservedSum(p, c) + (if c == acc[k].currency.code then l.price else 0.0)
      ensures HasPricedReserved(lines, c) <==> HasPricedReserved(p, c) || PricedReserved(l, c)
    {
      ReservedSumSnoc(p, l, c);
      HasPricedReservedSnoc(p, l, c);
    }
    assert forall i | 0 <= i < |acc| :: acc'[i].currency == acc[i].currency;
    forall c | HasPricedReserved(lines, c)
      ensures exists i | 0 <= i < |acc'| :: acc'[i].currency.code == c
    {
      if PricedReserved(l, c) {
        assert acc'[k].currency.code == c;
      } else {
        var i :| 0 <= i < |acc| && acc[i].currency.code == c;
        assert acc'[i].currency.code == c;
      }
    }
  }

  /** A reserved, priced line in a currency without an entry opens one. */
  lemma StepOpensEntry(acc: seq<RequiredPayment>, p: seq<LineItem>, l: LineItem)
    requires AccumulationInvariant(acc, p) && NonNegativePrices(p)
    requires l.status == LineReserved && l.currency.Some? && l.price > 0.0
    requires FindCode(acc, LineCode(l)) == -1
    ensures AccumulationInvariant(acc + [RequiredPayment(l.currency.value, l.price)], p + [l])
  {
    var c0 := l.currency.value.code;
    var acc' := acc + [RequiredPayment(l.currency.value, l.price)];
    var lines := p + [l];
    forall c
      ensures ReservedSum(lines, c) == ReservedSum(p, c) + (if c == c0 then l.price else 0.0)
      ensures HasPricedReserved(lines, c) <==> HasPricedReserved(p, c) || c == c0
    {
      ReservedSumSnoc(p, l, c);
      HasPricedReservedSnoc(p, l, c);
    }
    assert forall i | 0 <= i < |acc| :: acc'[i] == acc[i];
    assert acc'[|acc|].currency.code == c0;
    assert EntriesAreSums(acc', lines) by {
      assert !HasPricedReserved(p, c0);
      UnpricedSumIsZero(p, c0);
    }
    assert CoversPriced(acc', lines) by {
      forall c | HasPricedReserved(lines, c)
        ensures exists i | 0 <= i < |acc'| :: acc'[i].currency.code == c
      {
        if c == c0 {
          assert acc'[|acc|].currency.code == c;
        } else {
          var i :| 0 <= i < |acc| && acc[i].currency.code == c;
          assert acc'[i].currency.code == c;
        }
      }
    }
    assert DistinctCodes(acc') by {
      assert forall i | 0 <= i < |acc| :: acc[i].currency.code != c0;
    }
  }

  /** One step of the accumulation keeps the invariant. */
  lemma AddReservedLineKeeps(acc: seq<RequiredPayment>, p: seq<LineItem>, l: LineItem)
    requires AccumulationInvariant(acc, p) && NonNegativePrices(p) && l.price >= 0.0
    ensures AccumulationInvariant(AddReservedLine(acc, l), p + [l])
  {
    var k := FindCode(acc, LineCode(l));
    if l.status == LineReserved && k != -1 {
      StepAddsToEntry(acc, p, l, k);
    } else if l.status == LineReserved && l.currency.Some? && l.price > 0.0 {
      StepOpensEntry(acc, p, l);
    } else {
      StepKeepsEntries(acc, p, l);
    }
  }

  lemma {:induction false} CalculatedMeetsInvariant(lines: seq<LineItem>)
    requires NonNegativePrices(lines)
    ensures AccumulationInvariant(CalculatedRequiredPayments(lines), lines)
  {
    if lines != [] {
      var p := lines[..|lines| - 1];
      var l := lines[|lines| - 1];
      assert lines == p + [l];
      assert NonNegativePrices(p) by {
        assert forall j | 0 <= j < |p| :: p[j] == lines[j];
      }
      CalculatedMeetsInvariant(p);
      AddReservedLineKeeps(CalculatedRequiredPayments(p), p, l);
    }
  }

  /** With non-negative prices, RequiredPaymentMatchLineItems holds exactly
      when no line is pending or awaiting a claim and, for every currency with
      a priced reserved line, the first recorded required payment in that
      currency equals the sum of that currency's reserved lines. Removed and
      returned lines do not count, and recorded currencies without a priced
      reserved line are not checked. */
  lemma RequiredPaymentMatchPerCurrency(o: Order)
    requires o.lineItems.Some? && NonNegativePrices(o.lineItems.value)
    ensures Validate(RequiredPaymentMatchLineItems, Some(o)) <==>
      NoPendingLines(o.lineItems.value) && RecordedMatchesSums(o.requiredPayments, o.lineItems.value)
  {
    var lines := o.lineItems.value;
    var acc := CalculatedRequiredPayments(lines);
    CalculatedMeetsInvariant(lines);
    MatchesRecordedIff(acc, o.requiredPayments, lines);
  }

  /** For every currency with a priced reserved line, the first recorded
      required payment in that currency holds the sum of its reserved lines. */
  ghost predicate RecordedMatchesSums(required: Option<seq<RequiredPayment>>, lines: seq<LineItem>) {
    forall c :: HasPricedReserved(lines, c) ==>
      FindRequired(required, c).Some? && FindRequired(required, c).value.amount == ReservedSum(lines, c)
  }

  lemma MatchesRecordedIff(acc: seq<RequiredPayment>, required: Option<seq<RequiredPayment>>, lines: seq<LineItem>)
    requires AccumulationInvariant(acc, lines)
    ensures MatchesRecorded(acc, required) <==> RecordedMatchesSums(required, lines)
  {
    if MatchesRecorded(acc, required) {
      forall c | HasPricedReserved(lines, c)
        ensures FindRequired(required, c).Some? && FindRequired(required, c).value.amount == ReservedSum(lines, c)
      {
        var i :| 0 <= i < |acc| && acc[i].currency.code == c;
        assert FindRequired(required, acc[i].currency.code).Some?;
      }
    }
  }

  /** Any pending or awaiting-claim line makes the recomputation provisional. */
  lemma PendingLineDefeatsMatch(o: Order, j: nat)
    requires o.lineItems.Some? && j < |o.lineItems.value|
    requires o.lineItems.value[j].status in PendingItemStatuses
    ensures !Validate(RequiredPaymentMatchLineItems, Some(o))
  {
  }

  /** IsInFinalState holds exactly for the four final statuses. */
  lemma FinalStateIff(o: Order)
    ensures Validate(IsInFinalState, Some(o)) <==>
      o.status == Completed || o.status == Canceled || o.status == Timeout || o.status == Failed
  {
  }

  // ---------------------------------------------------------------------------
  // Outstanding payments

  lemma {:induction false} ActiveOfAppendInactive(ps: seq<Payment>, p: Payment)
    requires p.status in InactivePaymentStatuses
    ensures ActiveOf(ps + [p]) == ActiveOf(ps)
  {
    if ps == [] {
      assert ActiveOf([p]) == [] + ActiveOf([]);
    } else {
      ActiveOfAppendInactive(ps[1..], p);
      assert (ps + [p])[1..] == ps[1..] + [p];
    }
  }

  /** A refused or cancelled payment never settles anything: recording one
      leaves the three payment-need rules unchanged. */
  lemma InactivePaymentChangesNothing(o: Order, p: Payment, v: Validator)
    requires o.payments.Some? && p.status in InactivePaymentStatuses
    requires v == NeedsPaymentWithIsoCurrency || v == NeedsPaymentWithCustomCurrency || v == NeedsLoyaltyCardPayment
    ensures Validate(v, Some(o.(payments := Some(o.payments.value + [p])))) == Validate(v, Some(o))
  {
    ActiveOfAppendInactive(o.payments.value, p);
    var o' := o.(payments := Some(o.payments.value + [p]));
    assert ActivePayments(Some(o')) == ActivePayments(Some(o));
  }

  /** A required payment that is not yet paid in full calls for an ISO
      payment when its code has three letters and for a custom-currency
      payment when it is longer. */
  lemma OutstandingNeedsPayment(o: Order, i: nat)
    requires o.requiredPayments.Some? && i < |o.requiredPayments.value|
    requires |o.requiredPayments.value[i].currency.code| >= 3
    requires Outstanding(Some(o), o.requiredPayments.value[i])
    ensures Validate(
      if |o.requiredPayments.value[i].currency.code| == 3 then NeedsPaymentWithIsoCurrency else NeedsPaymentWithCustomCurrency,
      Some(o))
  {
  }

  /** When every required payment is paid in full, neither payment-need rule
      holds. */
  lemma SettledNeedsNothing(o: Order)
    requires o.requiredPayments.Some?
    requires forall i | 0 <= i < |o.requiredPayments.value| :: !Outstanding(Some(o), o.requiredPayments.value[i])
    ensures !Validate(NeedsPaymentWithIsoCurrency, Some(o)) && !Validate(NeedsPaymentWithCustomCurrency, Some(o))
  {
  }

  // ---------------------------------------------------------------------------
  // AndValidator

  /** AndValidator distributes over concatenation of its members. */
  lemma AndValidatorConcat(a: seq<Validator>, b: seq<Validator>, o: Option<Order>)
    ensures Validate(AndValidator(a + b), o) == (Validate(AndValidator(a), o) && Validate(AndValidator(b), o))
  {
    var ab := a + b;
    assert forall i | 0 <= i < |a| :: ab[i] == a[i];
    assert forall i | 0 <= i < |b| :: ab[|a| + i] == b[i];
  }

  /** The empty AndValidator holds. */
  lemma AndValidatorEmpty(o: Option<Order>)
    ensures Validate(AndValidator([]), o)
  {
  }

  /** NullValidator is neutral in an AndValidator. */
  lemma AndValidatorUnit(b: seq<Validator>, o: Option<Order>)
    ensures Validate(AndValidator([NullValidator] + b), o) == Validate(AndValidator(b), o)
  {
    var nb := [NullValidator] + b;
    assert nb[0] == NullValidator && Validate(NullValidator, o);
    assert forall i | 0 <= i < |b| :: nb[i + 1] == b[i];
  }
}
