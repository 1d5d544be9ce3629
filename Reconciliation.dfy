/** What Cart.fetchOrder computes (src/Cart.ts:179-207): read the order, store
    it, and stop when the validator accepts it; otherwise take the next wait
    off the retry schedule and read again, and fail once the schedule is
    used up. The Cart class runs this as a loop (Cart.Cart.FetchOrder); this
    module states it as a recursive function and proves what it promises. */
module Reconciliation {
  import opened Wrappers
  import opened Model
  import opened OrderValidator
  import opened Backend

  /** The acceptance test of an optional validator: without one every order
      is accepted, otherwise the orders it holds on. */
  function Verdict(v: Option<Validator>): Order -> bool
  {
    o => v.None? || Validate(v.value, Some(o))
  }

  /** A read accepted by a validator's verdict is an order it holds on. */
  lemma VerdictAccepts(v: Validator, a: Result<Order, Error>)
    ensures Accepts(Verdict(Some(v)), a) <==> a.Ok? && Validate(v, Some(a.value))
  {
  }

  /** A read is accepted when it succeeded and the acceptance test holds on
      the order read. */
  predicate Accepts(accept: Order -> bool, a: Result<Order, Error>) {
    a.Ok? && accept(a.value)
  }

  /** The end of a reconciliation: its result, the order left in the store
      and the number of reads. Each read but the last took one wait off the
      front of the retry schedule, so the waits taken are the schedule's
      first `readCount - 1` entries and the rest of the schedule is what
      follows them. */
  datatype Outcome = Outcome(
    result: Result<Order, Error>,
    stored: Option<Order>,
    readCount: nat)

  /** Reconciliation against the scripted `answers`, starting from the
      stored order `stored`. A failed read leaves the store alone; after a
      miss with an empty schedule the result is 'Retry attempts exceeded.',
      after a failed read with an empty schedule it is that read's error.
      There is one read more than there were waits, so at most one more than
      the schedule's length. */
  function Reconcile(answers: seq<Result<Order, Error>>, accept: Order -> bool, schedule: seq<nat>, stored: Option<Order>): (out: Outcome)
    ensures 1 <= out.readCount <= |schedule| + 1
    decreases |schedule|
  {
    var a := Head(answers);
    var stored' := if a.Ok? then Some(a.value) else stored;
    if Accepts(accept, a) then Outcome(a, stored', 1)
    else if schedule == [] then Outcome(Err(if a.Ok? then RetryAttemptsExceeded else a.error), stored', 1)
    else
      var out := Reconcile(Skip(answers, 1), accept, schedule[1..], stored');
      out.(readCount := out.readCount + 1)
  }

  /** The waits a reconciliation took off `schedule`. */
  function Waits(schedule: seq<nat>, out: Outcome): seq<nat>
    requires 1 <= out.readCount <= |schedule| + 1
  {
    schedule[..out.readCount - 1]
  }

  /** What a reconciliation leaves of `schedule`. */
  function Remaining(schedule: seq<nat>, out: Outcome): seq<nat>
    requires 1 <= out.readCount <= |schedule| + 1
  {
    schedule[out.readCount - 1..]
  }

  /** The answer read at step `k` is the `k`-th answer of the script. */
  lemma NthSkip(answers: seq<Result<Order, Error>>, k: nat)
    ensures Nth(Skip(answers, 1), k) == Nth(answers, k + 1)
  {
  }

  /** Reconciliation stops at the first accepted read: every earlier read
      was rejected. */
  lemma {:induction false} ReconcileStopsAtFirst(answers: seq<Result<Order, Error>>, accept: Order -> bool, schedule: seq<nat>, stored: Option<Order>)
    ensures var out := Reconcile(answers, accept, schedule, stored);
      1 <= out.readCount &&
      forall j | 0 <= j < out.readCount - 1 :: !Accepts(accept, Nth(answers, j))
    decreases |schedule|
  {
    var a := Head(answers);
    var stored' := if a.Ok? then Some(a.value) else stored;
    if !Accepts(accept, a) && schedule != [] {
      var rest := Skip(answers, 1);
      ReconcileStopsAtFirst(rest, accept, schedule[1..], stored');
      var inner := Reconcile(rest, accept, schedule[1..], stored');
      var out := Reconcile(answers, accept, schedule, stored);
      assert out.readCount == inner.readCount + 1;
      assert Nth(answers, 0) == a;
      forall j | 1 <= j < inner.readCount
        ensures !Accepts(accept, Nth(answers, j))
      {
        NthSkip(answers, j - 1);
      }
    }
  }

  /** A success was accepted, and the store holds its order. */
  lemma {:induction false} ReconcileOkAccepted(answers: seq<Result<Order, Error>>, accept: Order -> bool, schedule: seq<nat>, stored: Option<Order>)
    ensures var out := Reconcile(answers, accept, schedule, stored);
      out.result.Ok? ==> Accepts(accept, out.result) && out.stored == Some(out.result.value)
    decreases |schedule|
  {
    var a := Head(answers);
    var stored' := if a.Ok? then Some(a.value) else stored;
    if !Accepts(accept, a) && schedule != [] {
      ReconcileOkAccepted(Skip(answers, 1), accept, schedule[1..], stored');
    }
  }

  /** A success is the order of the last read. */
  lemma {:induction false} ReconcileOkIsLastRead(answers: seq<Result<Order, Error>>, accept: Order -> bool, schedule: seq<nat>, stored: Option<Order>)
    ensures var out := Reconcile(answers, accept, schedule, stored);
      out.result.Ok? ==> out.result == Nth(answers, out.readCount - 1)
    decreases |schedule|
  {
    var a := Head(answers);
    var stored' := if a.Ok? then Some(a.value) else stored;
    assert Skip(answers, 0) == answers;
    if !Accepts(accept, a) && schedule != [] {
      var rest := Skip(answers, 1);
      var inner := Reconcile(rest, accept, schedule[1..], stored');
      ReconcileOkIsLastRead(rest, accept, schedule[1..], stored');
      var out := Reconcile(answers, accept, schedule, stored);
      assert out.result == inner.result && out.readCount == inner.readCount + 1;
      NthSkip(answers, inner.readCount - 1);
      assert Nth(answers, out.readCount - 1) == Nth(rest, inner.readCount - 1);
    }
  }

  /** A success is the last read's order, it was accepted, and the store
      holds it. */
  lemma ReconcileOk(answers: seq<Result<Order, Error>>, accept: Order -> bool, schedule: seq<nat>, stored: Option<Order>)
    ensures var out := Reconcile(answers, accept, schedule, stored);
      out.result.Ok? ==>
        Accepts(accept, out.result) && out.result == Nth(answers, out.readCount - 1) && out.stored == Some(out.result.value)
  {
    ReconcileOkAccepted(answers, accept, schedule, stored);
    ReconcileOkIsLastRead(answers, accept, schedule, stored);
  }

  /** A failure uses up the whole schedule. */
  lemma {:induction false} ReconcileErrExhausts(answers: seq<Result<Order, Error>>, accept: Order -> bool, schedule: seq<nat>, stored: Option<Order>)
    ensures var out := Reconcile(answers, accept, schedule, stored);
      out.result.Err? ==> out.readCount == |schedule| + 1
    decreases |schedule|
  {
    var a := Head(answers);
    var stored' := if a.Ok? then Some(a.value) else stored;
    if !Accepts(accept, a) && schedule != [] {
      ReconcileErrExhausts(Skip(answers, 1), accept, schedule[1..], stored');
    }
  }

  /** A failure is decided by the last read, which was rejected:
      'Retry attempts exceeded.' when it succeeded (and the store then holds
      it), that read's own error when it failed. */
  lemma {:induction false} ReconcileErrIsLastRead(answers: seq<Result<Order, Error>>, accept: Order -> bool, schedule: seq<nat>, stored: Option<Order>)
    ensures var out := Reconcile(answers, accept, schedule, stored);
      var last := Nth(answers, out.readCount - 1);
      out.result.Err? ==>
        !Accepts(accept, last) &&
        (last.Ok? ==> out.result == Err(RetryAttemptsExceeded) && out.stored == Some(last.value)) &&
        (last.Err? ==> out.result == last)
    decreases |schedule|
  {
    var a := Head(answers);
    var stored' := if a.Ok? then Some(a.value) else stored;
    var out := Reconcile(answers, accept, schedule, stored);
    if Accepts(accept, a) {
      assert out.result.Ok?;
    } else if schedule == [] {
      assert Skip(answers, 0) == answers;
      assert Nth(answers, out.readCount - 1) == a;
    } else {
      var rest := Skip(answers, 1);
      ReconcileErrIsLastRead(rest, accept, schedule[1..], stored');
      var inner := Reconcile(rest, accept, schedule[1..], stored');
      assert out.result == inner.result && out.stored == inner.stored && out.readCount == inner.readCount + 1;
      NthSkip(answers, inner.readCount - 1);
      assert Nth(answers, out.readCount - 1) == Nth(rest, inner.readCount - 1);
    }
  }

  /** A failure uses up the whole schedule and is decided by the last read. */
  lemma ReconcileErr(answers: seq<Result<Order, Error>>, accept: Order -> bool, schedule: seq<nat>, stored: Option<Order>)
    ensures var out := Reconcile(answers, accept, schedule, stored);
      out.result.Err? ==>
        out.readCount == |schedule| + 1 &&
        var last := Nth(answers, out.readCount - 1);
        !Accepts(accept, last) &&
        (last.Ok? ==> out.result == Err(RetryAttemptsExceeded) && out.stored == Some(last.value)) &&
        (last.Err? ==> out.result == last)
  {
    ReconcileErrExhausts(answers, accept, schedule, stored);
    ReconcileErrIsLastRead(answers, accept, schedule, stored);
  }

  /** Reconciliation succeeds whenever one of the first |schedule| + 1
      answers is accepted, and it stops no later than that read. */
  lemma {:induction false} ReconcileFindsAccepted(answers: seq<Result<Order, Error>>, accept: Order -> bool, schedule: seq<nat>, stored: Option<Order>, k: nat)
    requires k <= |schedule| && Accepts(accept, Nth(answers, k))
    ensures var out := Reconcile(answers, accept, schedule, stored);
      out.result.Ok? && out.readCount <= k + 1
    decreases |schedule|
  {
    var a := Head(answers);
    var stored' := if a.Ok? then Some(a.value) else stored;
    if !Accepts(accept, a) {
      assert k != 0;
      NthSkip(answers, k - 1);
      ReconcileFindsAccepted(Skip(answers, 1), accept, schedule[1..], stored', k - 1);
    }
  }

  /** Without a validator the result is the first successful read. */
  lemma NoValidatorFirstSuccess(answers: seq<Result<Order, Error>>, schedule: seq<nat>, stored: Option<Order>)
    ensures var out := Reconcile(answers, Verdict(None), schedule, stored);
      out.result.Ok? ==>
        out.result == Nth(answers, out.readCount - 1) &&
        forall j | 0 <= j < out.readCount - 1 :: Nth(answers, j).Err?
  {
    ReconcileOk(answers, Verdict(None), schedule, stored);
    ReconcileStopsAtFirst(answers, Verdict(None), schedule, stored);
  }

  /** When every read failed, the store is left as it was. */
  lemma {:induction false} FailedReadsKeepStore(answers: seq<Result<Order, Error>>, accept: Order -> bool, schedule: seq<nat>, stored: Option<Order>)
    ensures var out := Reconcile(answers, accept, schedule, stored);
      (forall j | 0 <= j < out.readCount :: Nth(answers, j).Err?) ==> out.stored == stored
    decreases |schedule|
  {
    var a := Head(answers);
    var out := Reconcile(answers, accept, schedule, stored);
    if (forall j | 0 <= j < out.readCount :: Nth(answers, j).Err?) {
      assert Nth(answers, 0).Err?;
      if schedule != [] {
        var rest := Skip(answers, 1);
        var inner := Reconcile(rest, accept, schedule[1..], stored);
        forall j | 0 <= j < inner.readCount
          ensures Nth(rest, j).Err?
        {
          NthSkip(answers, j);
        }
        FailedReadsKeepStore(rest, accept, schedule[1..], stored);
      }
    }
  }
}
