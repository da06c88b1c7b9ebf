/**
 * The public landing page: the two application forms, their validation
 * rules, and how a submitted form becomes a stored demo application.
 */
module Landing {
  import opened Common
  import opened Records
  import opened DemoStorage

  /** The leasing form's values after parsing. */
  datatype LeasingForm = LeasingForm(
    companyName: string,
    businessId: string,
    contactEmail: string,
    contactPhone: Option<string>,
    equipmentPrice: real,
    requestedTermMonths: Option<int>,
    additionalInfo: Option<string>,
    linkToItem: Option<string>,
    hasDownpayment: Option<bool>,
    downpaymentAmount: Option<real>,
    honeypot: string)

  /** The sale-leaseback form's values after parsing. */
  datatype SaleLeasebackForm = SaleLeasebackForm(
    companyName: string,
    businessId: string,
    contactEmail: string,
    contactPhone: Option<string>,
    equipmentDescription: string,
    registrationNumber: Option<string>,
    yearModel: int,
    hours: Option<real>,
    kilometers: Option<real>,
    currentValue: real,
    requestedTermMonths: Option<int>,
    additionalInfo: Option<string>,
    honeypot: string)

  datatype Form = Leasing(leasing: LeasingForm) | SaleLeaseback(slb: SaleLeasebackForm)

  const MinimumAmount: real := 1000.0
  const FirstModelYear: int := 1990
  const DefaultTerm: int := 36
  const LeasingDescription: string := "Leasing-kohde"
  const ReferencePrefix: string := "KNT-2024-"

  /** A Finnish business id (Y-tunnus): seven digits, a hyphen, one digit. */
  predicate IsBusinessId(s: string)
  {
    |s| == 9 && s[7] == '-' && IsDigit(s[8]) && forall i :: 0 <= i < 7 ==> IsDigit(s[i])
  }

  /** Every business id is seven digits followed by "-" and a check digit. */
  lemma BusinessIdShape(s: string)
    ensures IsBusinessId(s) <==>
              exists body: string, check: char ::
                |body| == 7 && (forall i :: 0 <= i < 7 ==> IsDigit(body[i])) && IsDigit(check)
                && s == body + "-" + [check]
  {
    if IsBusinessId(s) {
      assert s == s[..7] + "-" + [s[8]];
    }
  }

  /** The leasing form's rules; `isEmail` is the e-mail address check. */
  predicate LeasingValid(f: LeasingForm, isEmail: string -> bool)
  {
    |f.companyName| >= 2
    && IsBusinessId(f.businessId)
    && isEmail(f.contactEmail)
    && f.equipmentPrice >= MinimumAmount
    && |f.honeypot| == 0
  }

  /** The sale-leaseback form's rules, with the current calendar year as an input. */
  predicate SaleLeasebackValid(f: SaleLeasebackForm, isEmail: string -> bool, currentYear: int)
  {
    |f.companyName| >= 2
    && IsBusinessId(f.businessId)
    && isEmail(f.contactEmail)
    && |f.equipmentDescription| >= 10
    && FirstModelYear <= f.yearModel <= currentYear + 1
    && (f.hours.None? || f.hours.value >= 0.0)
    && (f.kilometers.None? || f.kilometers.value >= 0.0)
    && f.currentValue >= MinimumAmount
    && |f.honeypot| == 0
  }

  predicate FormValid(form: Form, isEmail: string -> bool, currentYear: int)
  {
    match form
    case Leasing(f) => LeasingValid(f, isEmail)
    case SaleLeaseback(f) => SaleLeasebackValid(f, isEmail, currentYear)
  }

  function Honeypot(form: Form): string
  {
    match form
    case Leasing(f) => f.honeypot
    case SaleLeaseback(f) => f.honeypot
  }

  /** A form that passes validation has an empty honeypot. */
  lemma ValidFormHasEmptyHoneypot(form: Form, isEmail: string -> bool, currentYear: int)
    requires FormValid(form, isEmail, currentYear)
    ensures Honeypot(form) == ""
  {
  }

  /** `n || d` for an optional number. */
  function IntOr(n: Option<int>, d: int): (r: int)
    ensures n.Some? && n.value != 0 ==> r == n.value
    ensures n.None? || n.value == 0 ==> r == d
  {
    if n.Some? && n.value != 0 then n.value else d
  }

  function RealOr(n: Option<real>, d: real): (r: real)
    ensures n.Some? && n.value != 0.0 ==> r == n.value
    ensures n.None? || n.value == 0.0 ==> r == d
  {
    if n.Some? && n.value != 0.0 then n.value else d
  }

  /** The reference of the application stored after `count` others. */
  function ReferenceNumber(count: nat): (r: string)
    ensures StartsWith(r, ReferencePrefix)
    ensures |r| >= |ReferencePrefix| + 3
  {
    ReferencePrefix + PadStart(NatToString(count + 4), 3, '0')
  }

  /** The digits after the prefix read back as `count + 4`. */
  lemma ReferenceNumberValue(count: nat)
    ensures var digits := ReferenceNumber(count)[|ReferencePrefix|..];
            (forall i :: 0 <= i < |digits| ==> IsDigit(digits[i]))
            && DigitsValue(digits) == count + 4
  {
    var n := NatToString(count + 4);
    var p := PadStart(n, 3, '0');
    assert ReferenceNumber(count)[|ReferencePrefix|..] == p;
    NatToStringValue(count + 4);
    if |n| < 3 {
      LeadingZeros(p, |p| - |n|);
      assert p[|p| - |n|..] == n;
    } else {
      assert p == n;
    }
  }

  /** Leading zeros do not change the value of a digit string. */
  lemma {:induction false} LeadingZeros(s: string, k: nat)
    requires k <= |s|
    requires forall i :: 0 <= i < k ==> s[i] == '0'
    requires forall i :: k <= i < |s| ==> IsDigit(s[i])
    ensures forall i :: 0 <= i < |s| ==> IsDigit(s[i])
    ensures DigitsValue(s) == DigitsValue(s[k..])
  {
    if k > 0 {
      LeadingZeros(s[1..], k - 1);
      assert s[1..][k - 1..] == s[k..];
      DigitsValueZeroHead(s);
    }
  }

  lemma DigitsValueZeroHead(s: string)
    requires |s| > 0 && s[0] == '0'
    requires forall i :: 0 <= i < |s| ==> IsDigit(s[i])
    ensures DigitsValue(s) == DigitsValue(s[1..])
  {
    DigitsValueZeroPrefix(s[1..]);
    assert "0" + s[1..] == s;
  }

  /** A leading "0" adds nothing to the value. */
  lemma {:induction false} DigitsValueZeroPrefix(b: string)
    requires forall i :: 0 <= i < |b| ==> IsDigit(b[i])
    ensures forall i :: 0 <= i < |"0" + b| ==> IsDigit(("0" + b)[i])
    ensures DigitsValue("0" + b) == DigitsValue(b)
  {
    if |b| > 0 {
      var init := b[..|b| - 1];
      DigitsValueZeroPrefix(init);
      assert ("0" + b)[..|"0" + b| - 1] == "0" + init;
    }
  }

  /** Different counts give different references. */
  lemma ReferenceNumberInjective(a: nat, b: nat)
    ensures ReferenceNumber(a) == ReferenceNumber(b) ==> a == b
  {
    if ReferenceNumber(a) == ReferenceNumber(b) {
      ReferenceNumberValue(a);
      ReferenceNumberValue(b);
    }
  }

  /**
   * The record `saveDemoApplication` stores for a form, when `count`
   * applications are already stored; `id` and `now` stand for `Date.now()`
   * and the ISO time.
   */
  function NewApplication(form: Form, count: nat, id: int, now: string): (app: Application)
    ensures app.id == id && app.status == "SUBMITTED"
    ensures app.referenceNumber == ReferenceNumber(count)
    ensures app.createdAt == now && app.updatedAt == now
    // the amount asked for: the price of new equipment, the value of owned equipment
    ensures form.Leasing? ==> app.equipmentPrice == form.leasing.equipmentPrice
                              && app.equipmentDescription == LeasingDescription
                              && app.applicationType == "LEASING"
                              && app.linkToItem == OrElse(form.leasing.linkToItem, "")
                              && app.downpaymentAmount == RealOr(form.leasing.downpaymentAmount, 0.0)
    ensures form.SaleLeaseback? ==> app.equipmentPrice == form.slb.currentValue
                                    && app.equipmentDescription == form.slb.equipmentDescription
                                    && app.applicationType == "SALE_LEASEBACK"
                                    && app.linkToItem == "" && app.downpaymentAmount == 0.0
    ensures app.requestedTermMonths != 0
  {
    match form
    case Leasing(f) =>
      Application(
        id, ReferenceNumber(count), f.companyName, f.businessId, f.contactEmail,
        OrElse(f.contactPhone, ""), f.equipmentPrice, LeasingDescription, "LEASING", "SUBMITTED",
        IntOr(f.requestedTermMonths, DefaultTerm), OrElse(f.additionalInfo, ""),
        OrElse(f.linkToItem, ""), RealOr(f.downpaymentAmount, 0.0), now, now)
    case SaleLeaseback(f) =>
      Application(
        id, ReferenceNumber(count), f.companyName, f.businessId, f.contactEmail,
        OrElse(f.contactPhone, ""), f.currentValue, f.equipmentDescription, "SALE_LEASEBACK", "SUBMITTED",
        IntOr(f.requestedTermMonths, DefaultTerm), OrElse(f.additionalInfo, ""),
        "", 0.0, now, now)
  }

  /** `saveDemoApplication`: one record appended to the stored applications. */
  method SaveDemoApplication(store: DemoStore, form: Form, id: int, now: string) returns (app: Application)
    modifies store
    ensures app == NewApplication(form, |old(store.apps)|, id, now)
    ensures store.apps == old(store.apps) + [app]
    ensures store.offers == old(store.offers) && store.contracts == old(store.contracts)
    ensures store.infoRequests == old(store.infoRequests)
    ensures store.customerRead == old(store.customerRead) && store.financierRead == old(store.financierRead)
  {
    app := NewApplication(form, |store.apps|, id, now);
    store.apps := store.apps + [app];
  }

  /** How a submission ends. */
  datatype Outcome = Rejected | Blocked | Saved(app: Application)

  /**
   * A submit: the form's rules are checked first (nothing is submitted when
   * they fail), then the honeypot guard, then the application is saved.
   */
  method Submit(store: DemoStore, form: Form, isEmail: string -> bool, currentYear: int, id: int, now: string)
    returns (outcome: Outcome)
    modifies store
    ensures !FormValid(form, isEmail, currentYear) ==> outcome == Rejected
    ensures FormValid(form, isEmail, currentYear) ==>
              outcome == Saved(NewApplication(form, |old(store.apps)|, id, now))
    ensures outcome.Saved? ==> store.apps == old(store.apps) + [outcome.app]
    ensures !outcome.Saved? ==> store.apps == old(store.apps)
    ensures store.offers == old(store.offers) && store.contracts == old(store.contracts)
    ensures store.infoRequests == old(store.infoRequests)
    ensures store.customerRead == old(store.customerRead) && store.financierRead == old(store.financierRead)
  {
    if !FormValid(form, isEmail, currentYear) {
      return Rejected;
    }
    if Honeypot(form) != "" {
      // no form that passed its rules reaches this point
      return Blocked;
    }
    var app := SaveDemoApplication(store, form, id, now);
    outcome := Saved(app);
  }
}
