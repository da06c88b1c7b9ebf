/**
 * The timeline of an active lease contract: term, monthly payment and
 * total with their fallbacks, the clamped progress figures, the list of
 * months, and the guard on the early-payoff and annual-report requests.
 */
module ContractTimeline {
  import opened Common

  /** The contract fields the timeline reads; a missing number is `None`. */
  datatype TimelineContract = TimelineContract(termMonths: Option<int>, monthlyPayment: Option<real>, totalAmount: Option<real>)

  datatype TimelineOffer = TimelineOffer(monthlyPayment: Option<real>, termMonths: Option<int>)

  /** A number is truthy when present and not zero. */
  predicate IntTruthy(x: Option<int>) { x.Some? && x.value != 0 }
  predicate RealTruthy(x: Option<real>) { x.Some? && x.value != 0.0 }

  const DefaultTerm: int := 36

  /** `contract.term_months || offer?.term_months || 36`. */
  function TermMonths(c: TimelineContract, offer: Option<TimelineOffer>): (t: int)
    ensures t != 0
    ensures IntTruthy(c.termMonths) ==> t == c.termMonths.value
    ensures !IntTruthy(c.termMonths) && offer.Some? && IntTruthy(offer.value.termMonths) ==> t == offer.value.termMonths.value
    ensures !IntTruthy(c.termMonths) && (offer.None? || !IntTruthy(offer.value.termMonths)) ==> t == DefaultTerm
  {
    if IntTruthy(c.termMonths) then c.termMonths.value
    else if offer.Some? && IntTruthy(offer.value.termMonths) then offer.value.termMonths.value
    else DefaultTerm
  }

  /** `contract.monthly_payment || offer?.monthly_payment || 0`. */
  function MonthlyPayment(c: TimelineContract, offer: Option<TimelineOffer>): (m: real)
    ensures RealTruthy(c.monthlyPayment) ==> m == c.monthlyPayment.value
    ensures !RealTruthy(c.monthlyPayment) && offer.Some? && RealTruthy(offer.value.monthlyPayment) ==> m == offer.value.monthlyPayment.value
    ensures !RealTruthy(c.monthlyPayment) && (offer.None? || !RealTruthy(offer.value.monthlyPayment)) ==> m == 0.0
  {
    if RealTruthy(c.monthlyPayment) then c.monthlyPayment.value
    else if offer.Some? && RealTruthy(offer.value.monthlyPayment) then offer.value.monthlyPayment.value
    else 0.0
  }

  /** `contract.total_amount || monthlyPayment * termMonths`. */
  function TotalAmount(c: TimelineContract, offer: Option<TimelineOffer>): (total: real)
    ensures RealTruthy(c.totalAmount) ==> total == c.totalAmount.value
    ensures !RealTruthy(c.totalAmount) ==> total == MonthlyPayment(c, offer) * TermMonths(c, offer) as real
  {
    if RealTruthy(c.totalAmount) then c.totalAmount.value else MonthlyPayment(c, offer) * TermMonths(c, offer) as real
  }

  function MaxInt(a: int, b: int): int { if a >= b then a else b }
  function MinReal(a: real, b: real): real { if a <= b then a else b }

  /**
   * The figures shown; `elapsedRaw` is the whole number of 30.44-day
   * periods since activation, which is negative before it.
   */
  datatype Progress = Progress(elapsedMonths: int, progressPercent: real, remainingMonths: int,
                               paidAmount: real, remainingAmount: real)

  function ProgressOf(c: TimelineContract, offer: Option<TimelineOffer>, elapsedRaw: int): (p: Progress)
    ensures p.elapsedMonths == MaxInt(0, elapsedRaw) && p.elapsedMonths >= 0
    ensures p.progressPercent == MinReal(100.0, p.elapsedMonths as real / TermMonths(c, offer) as real * 100.0)
    ensures p.progressPercent <= 100.0
    ensures TermMonths(c, offer) > 0 ==> 0.0 <= p.progressPercent
    ensures p.remainingMonths == MaxInt(0, TermMonths(c, offer) - p.elapsedMonths) && p.remainingMonths >= 0
    ensures p.elapsedMonths + p.remainingMonths >= TermMonths(c, offer)
    ensures p.paidAmount <= TotalAmount(c, offer)
    ensures p.paidAmount == MinReal(TotalAmount(c, offer), p.elapsedMonths as real * MonthlyPayment(c, offer))
    ensures p.remainingAmount == TotalAmount(c, offer) - p.paidAmount && p.remainingAmount >= 0.0
  {
    var term := TermMonths(c, offer);
    var monthly := MonthlyPayment(c, offer);
    var total := TotalAmount(c, offer);
    var elapsed := MaxInt(0, elapsedRaw);
    var percent := MinReal(100.0, elapsed as real / term as real * 100.0);
    assert term > 0 ==> elapsed as real / term as real >= 0.0;
    var paid := MinReal(total, elapsed as real * monthly);
    Progress(elapsed, percent, MaxInt(0, term - elapsed), paid, total - paid)
  }

  /** Once the term has run out nothing remains, and without a stored total everything is paid. */
  lemma CompletedContract(c: TimelineContract, offer: Option<TimelineOffer>, elapsedRaw: int)
    requires TermMonths(c, offer) > 0 && elapsedRaw >= TermMonths(c, offer)
    requires !RealTruthy(c.totalAmount) && MonthlyPayment(c, offer) >= 0.0
    ensures ProgressOf(c, offer, elapsedRaw).remainingMonths == 0
    ensures ProgressOf(c, offer, elapsedRaw).progressPercent == 100.0
    ensures ProgressOf(c, offer, elapsedRaw).remainingAmount == 0.0
  {
    var term := TermMonths(c, offer) as real;
    var elapsed := elapsedRaw as real;
    assert elapsed / term >= 1.0;
    assert elapsed * MonthlyPayment(c, offer) >= term * MonthlyPayment(c, offer);
  }

  lemma MinRealMonotone(t: real, x: real, y: real)
    requires x <= y
    ensures MinReal(t, x) <= MinReal(t, y)
  {
  }

  lemma ScaleMonotone(x: real, y: real, m: real)
    requires x <= y && m >= 0.0
    ensures x * m <= y * m
  {
  }

  lemma ShareMonotone(x: real, y: real, d: real)
    requires x <= y && d > 0.0
    ensures x / d * 100.0 <= y / d * 100.0
  {
    assert x / d <= y / d;
  }

  /** For a positive term, a later reading never shows less progress. */
  lemma ProgressMonotone(c: TimelineContract, offer: Option<TimelineOffer>, e1: int, e2: int)
    requires TermMonths(c, offer) > 0 && e1 <= e2
    ensures ProgressOf(c, offer, e1).progressPercent <= ProgressOf(c, offer, e2).progressPercent
  {
    var p1 := ProgressOf(c, offer, e1);
    var p2 := ProgressOf(c, offer, e2);
    var m1 := p1.elapsedMonths as real;
    var m2 := p2.elapsedMonths as real;
    var term := TermMonths(c, offer) as real;
    ShareMonotone(m1, m2, term);
    MinRealMonotone(100.0, m1 / term * 100.0, m2 / term * 100.0);
  }

  /** Capped pay grows with the months paid when the payment is not negative. */
  lemma CappedPayMonotone(total: real, m1: real, m2: real, monthly: real)
    requires m1 <= m2 && monthly >= 0.0
    ensures MinReal(total, m1 * monthly) <= MinReal(total, m2 * monthly)
  {
    ScaleMonotone(m1, m2, monthly);
    MinRealMonotone(total, m1 * monthly, m2 * monthly);
  }

  /** With a payment that is not negative, a later reading never shows less paid. */
  lemma PaidMonotone(c: TimelineContract, offer: Option<TimelineOffer>, e1: int, e2: int)
    requires MonthlyPayment(c, offer) >= 0.0 && e1 <= e2
    ensures ProgressOf(c, offer, e1).paidAmount <= ProgressOf(c, offer, e2).paidAmount
  {
    CappedPayMonotone(TotalAmount(c, offer), MaxInt(0, e1) as real, MaxInt(0, e2) as real, MonthlyPayment(c, offer));
  }

  /** One month of the timeline (its date flags are left to the clock). */
  datatype TimelineMonth = TimelineMonth(index: int, payment: real)

  /** `Array.from({ length: termMonths }, ...)`: months 1 to the term; none for a negative term. */
  function TimelineMonths(c: TimelineContract, offer: Option<TimelineOffer>): (months: seq<TimelineMonth>)
    ensures |months| == MaxInt(0, TermMonths(c, offer))
    ensures forall i :: 0 <= i < |months| ==> months[i] == TimelineMonth(i + 1, MonthlyPayment(c, offer))
  {
    var n := MaxInt(0, TermMonths(c, offer));
    seq(n, i requires 0 <= i < n => TimelineMonth(i + 1, MonthlyPayment(c, offer)))
  }

  /** The monthly payments of the timeline add up to the computed total when none is stored. */
  function SumPayments(months: seq<TimelineMonth>): real
  {
    if |months| == 0 then 0.0 else SumPayments(months[..|months| - 1]) + months[|months| - 1].payment
  }

  lemma {:induction false} SumOfEqual(months: seq<TimelineMonth>, m: real)
    requires forall i :: 0 <= i < |months| ==> months[i].payment == m
    ensures SumPayments(months) == |months| as real * m
  {
    if |months| > 0 {
      SumOfEqual(months[..|months| - 1], m);
    }
  }

  lemma TimelineAddsUpToTotal(c: TimelineContract, offer: Option<TimelineOffer>)
    requires !RealTruthy(c.totalAmount) && TermMonths(c, offer) > 0
    ensures SumPayments(TimelineMonths(c, offer)) == TotalAmount(c, offer)
  {
    SumOfEqual(TimelineMonths(c, offer), MonthlyPayment(c, offer));
  }

  // ---------------------------------------------------------------------
  // Requests
  // ---------------------------------------------------------------------

  datatype RequestKind = EarlyPayoff | AnnualReport

  /** The open request dialog and its message. */
  datatype RequestDialog = RequestDialog(kind: Option<RequestKind>, message: string)

  datatype RequestOutcome = Rejected(message: string) | Failed(message: string) | Sent(notice: string)

  /**
   * `handleSubmitRequest`: no dialog open or a blank message is refused
   * with 'Kirjoita viesti'; a failed insert (`insertFails`, only possible
   * with a configured back end) shows 'Virhe pyynnön lähetyksessä'; both
   * keep the dialog. Otherwise the kind's notice is shown and the dialog is
   * closed and cleared.
   */
  function SubmitRequest(d: RequestDialog, insertFails: bool): (r: (RequestOutcome, RequestDialog))
    ensures r.0.Rejected? <==> d.kind.None? || IsBlank(d.message)
    ensures r.0.Rejected? ==> r.0.message == "Kirjoita viesti"
    ensures r.0.Failed? <==> !r.0.Rejected? && insertFails
    ensures r.0.Failed? ==> r.0.message == "Virhe pyynnön lähetyksessä"
    ensures !r.0.Sent? ==> r.1 == d
    ensures r.0.Sent? ==> r.1 == RequestDialog(None, "")
    ensures r.0.Sent? && d.kind == Some(EarlyPayoff) ==> r.0.notice == "Lunastuspyyntö lähetetty rahoittajalle!"
    ensures r.0.Sent? && d.kind == Some(AnnualReport) ==> r.0.notice == "Vuosiraporttipyyntö lähetetty!"
  {
    if d.kind.None? || IsBlank(d.message) then (Rejected("Kirjoita viesti"), d)
    else if insertFails then (Failed("Virhe pyynnön lähetyksessä"), d)
    else
      (Sent(if d.kind == Some(EarlyPayoff) then "Lunastuspyyntö lähetetty rahoittajalle!" else "Vuosiraporttipyyntö lähetetty!"),
       RequestDialog(None, ""))
  }

  /** A sent request leaves nothing to send again: submitting twice is refused the second time. */
  lemma NoDoubleSubmit(d: RequestDialog, insertFails: bool, again: bool)
    requires SubmitRequest(d, insertFails).0.Sent?
    ensures SubmitRequest(SubmitRequest(d, insertFails).1, again).0 == Rejected("Kirjoita viesti")
  {
  }
}
