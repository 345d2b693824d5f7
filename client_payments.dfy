/**
 * The dashboard's payment helpers that hold logic: the client-side check of
 * a payment request, and the payment history kept in the browser's storage.
 */
module ClientPayments {
  import opened Records

  /** A payment request as the pricing page builds it; `amount` is absent when not given. */
  datatype PaymentRequest = PaymentRequest(serverId: string, tier: string, amount: Option<int>, currency: string)

  const ServerIdRequired: string := "Server ID is required"
  const TierRequired: string := "Valid tier is required"
  const AmountRequired: string := "Valid amount is required"
  const CurrencyRequired: string := "Valid currency is required"

  /** The four messages in the order the checks run. */
  const CheckOrder: seq<string> := [ServerIdRequired, TierRequired, AmountRequired, CurrencyRequired]

  predicate ValidAmount(amount: Option<int>) {
    amount.Some? && amount.value > 0
  }

  predicate ValidRequest(r: PaymentRequest) {
    r.serverId != "" && r.tier == "premium" && ValidAmount(r.amount) && r.currency == "USD"
  }

  /** Position of a message in CheckOrder. */
  function Rank(message: string): nat {
    if message == ServerIdRequired then 0
    else if message == TierRequired then 1
    else if message == AmountRequired then 2
    else 3
  }

  /** Each message appears once at most, only messages of CheckOrder appear, in that order. */
  predicate InCheckOrder(errors: seq<string>) {
    && (forall e :: e in errors ==> e in CheckOrder)
    && (forall i, j :: 0 <= i < j < |errors| ==> Rank(errors[i]) < Rank(errors[j]))
  }

  lemma MessagesDistinct()
    ensures Rank(ServerIdRequired) == 0 && Rank(TierRequired) == 1
    ensures Rank(AmountRequired) == 2 && Rank(CurrencyRequired) == 3
  {
    assert ServerIdRequired[0] == 'S' && TierRequired[0] == 'V';
    assert TierRequired[6] == 't' && AmountRequired[6] == 'a' && CurrencyRequired[6] == 'c';
  }

  /**
   * Runs the four checks in turn, pushing a message for each that fails:
   * a message is reported exactly when its field is bad, a valid request
   * yields no message, and the messages come in check order.
   */
  method ValidatePaymentRequest(request: PaymentRequest) returns (errors: seq<string>)
    ensures ServerIdRequired in errors <==> request.serverId == ""
    ensures TierRequired in errors <==> request.tier != "premium"
    ensures AmountRequired in errors <==> !ValidAmount(request.amount)
    ensures CurrencyRequired in errors <==> request.currency != "USD"
    ensures errors == [] <==> ValidRequest(request)
    ensures |errors| <= |CheckOrder|
    ensures InCheckOrder(errors)
  {
    MessagesDistinct();
    errors := [];
    if request.serverId == "" {
      errors := errors + [ServerIdRequired];
    }
    if request.tier == "" || request.tier != "premium" {
      errors := errors + [TierRequired];
    }
    if request.amount.None? || request.amount.value == 0 || request.amount.value <= 0 {
      errors := errors + [AmountRequired];
    }
    if request.currency == "" || request.currency != "USD" {
      errors := errors + [CurrencyRequired];
    }
  }

  // ---------------------------------------------------------------------
  // Payment history
  // ---------------------------------------------------------------------

  datatype PaymentOutcome = Succeeded | Failed

  datatype HistoryEntry = HistoryEntry(paymentId: string, status: PaymentOutcome, error: Option<string>, timestamp: int)

  /** Where the browser is sent after a provider callback. */
  datatype Redirect = ToDashboard | ToPricing(error: string)

  /** The history stored in the browser; a missing store reads as the empty list. */
  class PaymentHistory {
    var entries: seq<HistoryEntry>

    constructor ()
      ensures entries == []
    {
      entries := [];
    }

    /** Appends one success entry, keeping the earlier ones, and sends the user to the dashboard. */
    method HandlePaymentSuccess(paymentId: string, now: int) returns (next: Redirect)
      modifies this
      ensures entries == old(entries) + [HistoryEntry(paymentId, Succeeded, None, now)]
      ensures next == ToDashboard
    {
      entries := entries + [HistoryEntry(paymentId, Succeeded, None, now)];
      next := ToDashboard;
    }

    /**
     * Appends one failure entry, keeping the earlier ones, and sends the
     * user to the pricing page with the error, or a default text without one.
     */
    method HandlePaymentFailure(paymentId: string, error: Option<string>, now: int) returns (next: Redirect)
      modifies this
      ensures entries == old(entries) + [HistoryEntry(paymentId, Failed, error, now)]
      ensures next == ToPricing(if error.Some? && error.value != "" then error.value else "Payment failed")
    {
      entries := entries + [HistoryEntry(paymentId, Failed, error, now)];
      next := ToPricing(if error.Some? && error.value != "" then error.value else "Payment failed");
    }
  }
}
