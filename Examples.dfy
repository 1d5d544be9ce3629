/** The cases of test/OrderValidator.test.ts, stated as lemmas about the
    model's `Validate`. */
module ValidatorExamples {
  import opened Wrappers
  import opened Model
  import opened OrderValidator

  const Euro := Currency("Euro", "EUR", 2, "€")
  const Custom := Currency("Custom", "CUSTOM", 2, "TE")

  function Line(id: string, status: LineItemStatus, currency: Currency, price: real, tax: real): LineItem {
    LineItem(id, Access, status, price, tax, Some(currency), "Regular")
  }

  function TestOrder(status: OrderStatus, required: seq<RequiredPayment>, lines: seq<LineItem>): Order {
    Order("1", status, None, None, None, None, Some(required), None, Some(lines))
  }

  /** Reserved EUR lines of 10.5, 10.5 and 2 against a required 23. */
  lemma SingleCurrencyMatches()
    ensures Validate(RequiredPaymentMatchLineItems, Some(TestOrder(Pending,
      [RequiredPayment(Euro, 23.0)],
      [Line("li1", LineReserved, Euro, 10.5, 0.5), Line("li2", LineReserved, Euro, 10.5, 0.5),
       Line("li3", LineReserved, Euro, 2.0, 0.0)])))
  {
    var lines := [Line("li1", LineReserved, Euro, 10.5, 0.5), Line("li2", LineReserved, Euro, 10.5, 0.5),
                  Line("li3", LineReserved, Euro, 2.0, 0.0)];
    assert lines[..2][..1] == lines[..1] && lines[..3][..2] == lines[..2] && lines[..3] == lines;
    assert CalculatedRequiredPayments(lines[..1]) == [RequiredPayment(Euro, 10.5)];
    assert CalculatedRequiredPayments(lines[..2]) == [RequiredPayment(Euro, 21.0)];
    assert CalculatedRequiredPayments(lines) == [RequiredPayment(Euro, 23.0)];
  }

  /** EUR lines of 10.5 and 2, CUSTOM lines of 9 and 5, against 12.5 EUR and
      14 CUSTOM. */
  lemma TwoCurrenciesMatch()
    ensures Validate(RequiredPaymentMatchLineItems, Some(TestOrder(Pending,
      [RequiredPayment(Euro, 12.5), RequiredPayment(Custom, 14.0)],
      [Line("li1", LineReserved, Euro, 10.5, 0.5), Line("li2", LineReserved, Custom, 9.0, 0.0),
       Line("li3", LineReserved, Custom, 5.0, 0.0), Line("li4", LineReserved, Euro, 2.0, 0.0)])))
  {
    TwoCurrencySums();
  }

  /** Free lines need no required payment. */
  lemma FreeLinesNeedNothing()
    ensures Validate(RequiredPaymentMatchLineItems, Some(TestOrder(Pending, [],
      [Line("li1", LineReserved, Euro, 0.0, 0.0), Line("li2", LineReserved, Euro, 0.0, 0.0)])))
  {
    var lines := [Line("li1", LineReserved, Euro, 0.0, 0.0), Line("li2", LineReserved, Euro, 0.0, 0.0)];
    assert lines[..2][..1] == lines[..1] && lines[..2] == lines;
    assert CalculatedRequiredPayments(lines[..1]) == [];
    assert CalculatedRequiredPayments(lines) == [];
  }

  /** Removed and returned lines do not count towards the sum. */
  lemma RemovedAndReturnedIgnored()
    ensures Validate(RequiredPaymentMatchLineItems, Some(TestOrder(Pending,
      [RequiredPayment(Euro, 23.0)],
      [Line("li1", LineReserved, Euro, 10.5, 0.5), Line("li2", LineReserved, Euro, 10.5, 0.5),
       Line("li4", Removed, Euro, 10.5, 0.5), Line("li5", Returned, Euro, 10.5, 0.5),
       Line("li3", LineReserved, Euro, 2.0, 0.0)])))
  {
    var lines := [Line("li1", LineReserved, Euro, 10.5, 0.5), Line("li2", LineReserved, Euro, 10.5, 0.5),
                  Line("li4", Removed, Euro, 10.5, 0.5), Line("li5", Returned, Euro, 10.5, 0.5),
                  Line("li3", LineReserved, Euro, 2.0, 0.0)];
    IgnoredLinesSum();
    assert lines[..4] == [Line("li1", LineReserved, Euro, 10.5, 0.5), Line("li2", LineReserved, Euro, 10.5, 0.5),
                          Line("li4", Removed, Euro, 10.5, 0.5), Line("li5", Returned, Euro, 10.5, 0.5)];
    assert lines[..5] == lines;
    assert CalculatedRequiredPayments(lines) == [RequiredPayment(Euro, 23.0)];
  }

  /** The sum of the first four lines of the previous case: the removed and
      returned lines add nothing to the 21 EUR before them. */
  lemma IgnoredLinesSum()
    ensures CalculatedRequiredPayments(
      [Line("li1", LineReserved, Euro, 10.5, 0.5), Line("li2", LineReserved, Euro, 10.5, 0.5),
       Line("li4", Removed, Euro, 10.5, 0.5), Line("li5", Returned, Euro, 10.5, 0.5)])
      == [RequiredPayment(Euro, 21.0)]
  {
    var lines := [Line("li1", LineReserved, Euro, 10.5, 0.5), Line("li2", LineReserved, Euro, 10.5, 0.5),
                  Line("li4", Removed, Euro, 10.5, 0.5), Line("li5", Returned, Euro, 10.5, 0.5)];
    assert lines[..2][..1] == lines[..1] && lines[..3][..2] == lines[..2] && lines[..4][..3] == lines[..3];
    assert lines[..4] == lines;
    assert CalculatedRequiredPayments(lines[..1]) == [RequiredPayment(Euro, 10.5)];
    assert CalculatedRequiredPayments(lines[..2]) == [RequiredPayment(Euro, 21.0)];
    assert CalculatedRequiredPayments(lines[..3]) == [RequiredPayment(Euro, 21.0)];
  }

  /** 22.5 required against lines summing to 23. */
  lemma MismatchFails()
    ensures !Validate(RequiredPaymentMatchLineItems, Some(TestOrder(Pending,
      [RequiredPayment(Euro, 22.5)],
      [Line("li1", LineReserved, Euro, 10.5, 0.5), Line("li2", LineReserved, Euro, 10.5, 0.5),
       Line("li3", LineReserved, Euro, 2.0, 0.0)])))
  {
    var lines := [Line("li1", LineReserved, Euro, 10.5, 0.5), Line("li2", LineReserved, Euro, 10.5, 0.5),
                  Line("li3", LineReserved, Euro, 2.0, 0.0)];
    assert lines[..2][..1] == lines[..1] && lines[..3][..2] == lines[..2] && lines[..3] == lines;
    assert CalculatedRequiredPayments(lines[..1]) == [RequiredPayment(Euro, 10.5)];
    assert CalculatedRequiredPayments(lines[..2]) == [RequiredPayment(Euro, 21.0)];
    assert CalculatedRequiredPayments(lines) == [RequiredPayment(Euro, 23.0)];
    var c := CalculatedRequiredPayments(lines);
    assert FindRequired(Some([RequiredPayment(Euro, 22.5)]), c[0].currency.code) == Some(RequiredPayment(Euro, 22.5));
  }

  /** 9 CUSTOM required against CUSTOM lines summing to 14. */
  lemma SecondCurrencyMismatchFails()
    ensures !Validate(RequiredPaymentMatchLineItems, Some(TestOrder(Pending,
      [RequiredPayment(Euro, 12.5), RequiredPayment(Custom, 9.0)],
      [Line("li1", LineReserved, Euro, 10.5, 0.5), Line("li2", LineReserved, Custom, 9.0, 0.0),
       Line("li3", LineReserved, Custom, 5.0, 0.0), Line("li4", LineReserved, Euro, 2.0, 0.0)])))
  {
    TwoCurrencySums();
    var required := [RequiredPayment(Euro, 12.5), RequiredPayment(Custom, 9.0)];
    assert FindRequired(Some(required[1..]), "CUSTOM") == Some(RequiredPayment(Custom, 9.0));
    var c := [RequiredPayment(Euro, 12.5), RequiredPayment(Custom, 14.0)];
    assert FindRequired(Some(required), c[1].currency.code) == Some(RequiredPayment(Custom, 9.0));
  }

  /** Priced reserved lines with no required payment at all. */
  lemma MissingRequiredPaymentFails()
    ensures !Validate(RequiredPaymentMatchLineItems, Some(TestOrder(Pending, [],
      [Line("li1", LineReserved, Euro, 10.5, 0.5), Line("li2", LineReserved, Euro, 10.5, 0.5)])))
  {
    var lines := [Line("li1", LineReserved, Euro, 10.5, 0.5), Line("li2", LineReserved, Euro, 10.5, 0.5)];
    assert lines[..2][..1] == lines[..1] && lines[..2] == lines;
    assert CalculatedRequiredPayments(lines[..1]) == [RequiredPayment(Euro, 10.5)];
    assert CalculatedRequiredPayments(lines) == [RequiredPayment(Euro, 21.0)];
    var c := CalculatedRequiredPayments(lines);
    assert FindRequired(Some([]), c[0].currency.code) == None;
  }

  /** A pending or awaiting-claim line defeats the match. */
  lemma UnsettledLineFails(s: LineItemStatus)
    requires s == LinePending || s == AwaitingClaim
    ensures !Validate(RequiredPaymentMatchLineItems, Some(TestOrder(Pending,
      [RequiredPayment(Euro, 21.0)],
      [Line("li1", LineReserved, Euro, 10.5, 0.5), Line("li2", LineReserved, Euro, 10.5, 0.5),
       Line("li3", s, Euro, 2.0, 0.0)])))
  {
    var lines := [Line("li1", LineReserved, Euro, 10.5, 0.5), Line("li2", LineReserved, Euro, 10.5, 0.5),
                  Line("li3", s, Euro, 2.0, 0.0)];
    assert lines[2].status in PendingItemStatuses;
  }

  /** A completed order without lines is completed and empty. */
  lemma AllMembersHold()
    ensures Validate(AndValidator([IsCompleted, IsEmpty]), Some(TestOrder(Completed, [], [])))
  {
  }

  /** A reserved order is not completed, so the conjunction fails. */
  lemma OneMemberFails()
    ensures !Validate(AndValidator([IsEmpty, IsCompleted, IsEmpty]), Some(TestOrder(Reserved, [], [])))
  {
    var vs := [IsEmpty, IsCompleted, IsEmpty];
    assert !Validate(vs[1], Some(TestOrder(Reserved, [], [])));
  }

  /** The sums of the two-currency cases: 12.5 EUR and 14 CUSTOM, in that
      order. */
  lemma TwoCurrencySums()
    ensures CalculatedRequiredPayments(
      [Line("li1", LineReserved, Euro, 10.5, 0.5), Line("li2", LineReserved, Custom, 9.0, 0.0),
       Line("li3", LineReserved, Custom, 5.0, 0.0), Line("li4", LineReserved, Euro, 2.0, 0.0)])
      == [RequiredPayment(Euro, 12.5), RequiredPayment(Custom, 14.0)]
  {
    var lines := [Line("li1", LineReserved, Euro, 10.5, 0.5), Line("li2", LineReserved, Custom, 9.0, 0.0),
                  Line("li3", LineReserved, Custom, 5.0, 0.0), Line("li4", LineReserved, Euro, 2.0, 0.0)];
    assert lines[..2][..1] == lines[..1] && lines[..3][..2] == lines[..2] && lines[..4][..3] == lines[..3];
    assert lines[..4] == lines;
    assert CalculatedRequiredPayments(lines[..1]) == [RequiredPayment(Euro, 10.5)];
    assert CalculatedRequiredPayments(lines[..2]) == [RequiredPayment(Euro, 10.5), RequiredPayment(Custom, 9.0)];
    var acc := [RequiredPayment(Euro, 10.5), RequiredPayment(Custom, 9.0)];
    assert FindCode(acc[1..], Some("CUSTOM")) == 0;
    assert FindCode(acc, Some("CUSTOM")) == 1;
    assert CalculatedRequiredPayments(lines[..3]) == [RequiredPayment(Euro, 10.5), RequiredPayment(Custom, 14.0)];
  }
}
