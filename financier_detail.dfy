/**
 * The financier's view of one application in demo mode: how the page
 * assembles the application, its offers, contracts and information requests
 * from the demo tables, and what its handlers write back.
 *
 * Form inputs are parameters of the handlers; `Date.now()` (used for new ids)
 * and the ISO time are parameters too.
 */
module FinancierDetail {
  import opened Common
  import opened Records
  import opened DemoStorage

  // ---------------------------------------------------------------------
  // Offers without duplicates
  // ---------------------------------------------------------------------

  /** One step of the `reduce`: replace the entry with the same id, or append. */
  function DedupeStep<T>(acc: seq<T>, key: T -> int, x: T): (r: seq<T>)
  {
    if key(x) in Ids(acc, key) then seq(|acc|, k requires 0 <= k < |acc| => if key(acc[k]) == key(x) then x else acc[k])
    else acc + [x]
  }

  /** The offers' `reduce` that removes duplicate ids, preferring later entries. */
  function Dedupe<T>(s: seq<T>, key: T -> int): seq<T>
    decreases |s|
  {
    if |s| == 0 then [] else DedupeStep(Dedupe(s[..|s| - 1], key), key, s[|s| - 1])
  }

  /** All ids of a list are different. */
  ghost predicate DistinctIds<T>(s: seq<T>, key: T -> int)
  {
    forall i, j :: 0 <= i < j < |s| ==> key(s[i]) != key(s[j])
  }

  /** A step keeps the ids distinct and adds the new one. */
  lemma StepIds<T>(acc: seq<T>, key: T -> int, x: T)
    requires DistinctIds(acc, key)
    ensures DistinctIds(DedupeStep(acc, key, x), key)
    ensures Ids(DedupeStep(acc, key, x), key) == Ids(acc, key) + {key(x)}
  {
    var r := DedupeStep(acc, key, x);
    if key(x) in Ids(acc, key) {
      forall k | 0 <= k < |r|
        ensures key(r[k]) == key(acc[k])
      {
      }
      assert Ids(r, key) == Ids(acc, key);
    } else {
      assert forall k :: 0 <= k < |acc| ==> r[k] == acc[k];
      assert r[|acc|] == x;
      assert Ids(r, key) == Ids(acc, key) + {key(x)};
      forall i, j | 0 <= i < j < |r|
        ensures key(r[i]) != key(r[j])
      {
        if j == |acc| {
          assert key(acc[i]) in Ids(acc, key);
        }
      }
    }
  }

  /** The dedupe keeps each id of the input, once. */
  lemma {:induction false} DedupeIds<T>(s: seq<T>, key: T -> int)
    ensures DistinctIds(Dedupe(s, key), key)
    ensures Ids(Dedupe(s, key), key) == Ids(s, key)
    decreases |s|
  {
    if |s| > 0 {
      var init := s[..|s| - 1];
      DedupeIds(init, key);
      StepIds(Dedupe(init, key), key, s[|s| - 1]);
      assert Ids(s, key) == Ids(init, key) + {key(s[|s| - 1])};
    }
  }

  /** For each id the dedupe keeps the entry that occurs last in the input. */
  lemma {:induction false} DedupeKeepsLast<T>(s: seq<T>, key: T -> int)
    ensures forall k :: 0 <= k < |Dedupe(s, key)| ==>
              LastIndexOfId(s, key, key(Dedupe(s, key)[k])) >= 0
              && Dedupe(s, key)[k] == s[LastIndexOfId(s, key, key(Dedupe(s, key)[k]))]
    decreases |s|
  {
    if |s| > 0 {
      var init := s[..|s| - 1];
      var x := s[|s| - 1];
      var acc := Dedupe(init, key);
      DedupeKeepsLast(init, key);
      var r := Dedupe(s, key);
      forall k | 0 <= k < |r|
        ensures LastIndexOfId(s, key, key(r[k])) >= 0 && r[k] == s[LastIndexOfId(s, key, key(r[k]))]
      {
        if key(r[k]) != key(x) {
          assert k < |acc| && r[k] == acc[k];
          assert LastIndexOfId(s, key, key(r[k])) == LastIndexOfId(init, key, key(r[k]));
        }
      }
    }
  }

  /** Below the new last entry, the first positions of earlier ids do not move. */
  lemma IndexOfIdInit<T>(s: seq<T>, key: T -> int, id: int)
    requires |s| > 0 && id in Ids(s[..|s| - 1], key)
    ensures IndexOfId(s, key, id) == IndexOfId(s[..|s| - 1], key, id)
  {
    var init := s[..|s| - 1];
    var k :| 0 <= k < |init| && key(init[k]) == id;
    var i := IndexOfId(init, key, id);
    IndexOfIdAt(s, key, id, i);
  }

  lemma IndexOfIdNew<T>(s: seq<T>, key: T -> int)
    requires |s| > 0 && key(s[|s| - 1]) !in Ids(s[..|s| - 1], key)
    ensures IndexOfId(s, key, key(s[|s| - 1])) == |s| - 1
  {
    var init := s[..|s| - 1];
    forall k | 0 <= k < |s| - 1
      ensures key(s[k]) != key(s[|s| - 1])
    {
      assert s[k] == init[k];
    }
    IndexOfIdAt(s, key, key(s[|s| - 1]), |s| - 1);
  }

  /** The dedupe lists the ids in the order of their first occurrence. */
  lemma {:induction false} DedupeOrder<T>(s: seq<T>, key: T -> int)
    ensures forall i, j :: 0 <= i < j < |Dedupe(s, key)| ==>
              IndexOfId(s, key, key(Dedupe(s, key)[i])) < IndexOfId(s, key, key(Dedupe(s, key)[j]))
    decreases |s|
  {
    if |s| > 0 {
      var init := s[..|s| - 1];
      var x := s[|s| - 1];
      var acc := Dedupe(init, key);
      DedupeOrder(init, key);
      DedupeIds(init, key);
      var r := Dedupe(s, key);
      forall i, j | 0 <= i < j < |r|
        ensures IndexOfId(s, key, key(r[i])) < IndexOfId(s, key, key(r[j]))
      {
        assert i < |acc|;
        assert key(acc[i]) in Ids(acc, key);
        if key(x) in Ids(acc, key) {
          assert key(r[i]) == key(acc[i]) && key(r[j]) == key(acc[j]);
          assert key(acc[j]) in Ids(acc, key);
          IndexOfIdInit(s, key, key(acc[i]));
          IndexOfIdInit(s, key, key(acc[j]));
        } else if j == |acc| {
          assert r[i] == acc[i] && r[j] == x;
          IndexOfIdInit(s, key, key(acc[i]));
          IndexOfIdNew(s, key);
        } else {
          assert r[i] == acc[i] && r[j] == acc[j];
          assert key(acc[j]) in Ids(acc, key);
          IndexOfIdInit(s, key, key(acc[i]));
          IndexOfIdInit(s, key, key(acc[j]));
        }
      }
    }
  }

  // ---------------------------------------------------------------------
  // Requested items
  // ---------------------------------------------------------------------

  /** The lines that are not blank, as they were written. */
  function NonBlank(lines: seq<string>): (r: seq<string>)
    ensures forall k :: 0 <= k < |r| ==> !IsBlank(r[k])
    ensures forall x :: x in r <==> x in lines && !IsBlank(x)
    ensures |r| <= |lines|
    ensures |lines| == 1 ==> r == if IsBlank(lines[0]) then [] else lines
  {
    if |lines| == 0 then []
    else if IsBlank(lines[0]) then NonBlank(lines[1..])
    else [lines[0]] + NonBlank(lines[1..])
  }
  /** The non-blank lines of a concatenation: those of the first part, then those of the second. */
  lemma {:induction false} NonBlankAppend(a: seq<string>, b: seq<string>)
    ensures NonBlank(a + b) == NonBlank(a) + NonBlank(b)
  {
    if |a| == 0 {
      assert a + b == b;
    } else {
      assert (a + b)[0] == a[0];
      assert (a + b)[1..] == a[1..] + b;
      NonBlankAppend(a[1..], b);
    }
  }


  /** The items of an information request, one per non-blank line of the text box. */
  function RequestedItems(items: string): (r: seq<string>)
    ensures IsBlank(items) ==> r == []
    ensures forall k :: 0 <= k < |r| ==> !IsBlank(r[k]) && '\n' !in r[k]
  {
    SplitPiecesFree(items, '\n');
    if IsBlank(items) then [] else NonBlank(Split(items, '\n'))
  }

  /** A blank text has only blank lines. */
  lemma {:induction false} BlankLines(s: string, sep: char)
    requires AllWhite(s)
    ensures forall k :: 0 <= k < |Split(s, sep)| ==> AllWhite(Split(s, sep)[k])
    decreases |s|
  {
    if |s| > 0 {
      BlankLines(s[1..], sep);
    }
  }

  /** The `trim()` test before the split changes nothing: the lines of a blank text are all dropped. */
  lemma RequestedItemsAreNonBlankLines(items: string)
    ensures RequestedItems(items) == NonBlank(Split(items, '\n'))
  {
    if IsBlank(items) {
      BlankIff(items);
      BlankLines(items, '\n');
      AllBlankDropped(Split(items, '\n'));
    }
  }

  lemma {:induction false} AllBlankDropped(lines: seq<string>)
    requires forall k :: 0 <= k < |lines| ==> AllWhite(lines[k])
    ensures NonBlank(lines) == []
  {
    if |lines| > 0 {
      BlankIff(lines[0]);
      AllBlankDropped(lines[1..]);
    }
  }

  // ---------------------------------------------------------------------
  // Document requests
  // ---------------------------------------------------------------------

  /** One checkbox row of the document request form. */
  datatype DocChoice = DocChoice(key: string, selected: bool, required: bool)

  function DocumentLabel(key: string): string
  {
    if key == "tilinpaatos" then "Tilinpäätös"
    else if key == "tulosTase" then "Tulos ja tase ajot"
    else if key == "kuvaKohteesta" then "Kuva kohteesta"
    else if key == "urakkasopimus" then "Urakkasopimus"
    else "Liiketoimintasuunnitelma"
  }

  /** The rows that are ticked, in form order. */
  function Selected(choices: seq<DocChoice>): (r: seq<DocChoice>)
    ensures forall k :: 0 <= k < |r| ==> r[k].selected
    ensures forall c :: c in r <==> c in choices && c.selected
    ensures |r| <= |choices|
    ensures |choices| == 1 ==> r == if choices[0].selected then choices else []
  {
    if |choices| == 0 then []
    else if choices[0].selected then [choices[0]] + Selected(choices[1..])
    else Selected(choices[1..])
  }
  /** The ticked rows of a concatenation: those of the first part, then those of the second. */
  lemma {:induction false} SelectedAppend(a: seq<DocChoice>, b: seq<DocChoice>)
    ensures Selected(a + b) == Selected(a) + Selected(b)
  {
    if |a| == 0 {
      assert a + b == b;
    } else {
      assert (a + b)[0] == a[0];
      assert (a + b)[1..] == a[1..] + b;
      SelectedAppend(a[1..], b);
    }
  }


  function AsRequested(c: DocChoice): RequestedDocument
  {
    RequestedDocument(c.key, DocumentLabel(c.key), c.required)
  }

  /** The documents put into a demo request. */
  function RequestedDocuments(choices: seq<DocChoice>): (r: seq<RequestedDocument>)
    ensures |r| == |Selected(choices)|
    ensures forall k :: 0 <= k < |r| ==> r[k] == AsRequested(Selected(choices)[k])
  {
    var sel := Selected(choices);
    seq(|sel|, k requires 0 <= k < |sel| => AsRequested(sel[k]))
  }

  function ItemText(c: DocChoice): string
  {
    c.key + ":" + (if c.required then "required" else "optional")
  }

  /** The `items` text sent to the server: `key:required` or `key:optional` per ticked row. */
  function DocumentItemsText(choices: seq<DocChoice>): (text: string)
    ensures Selected(choices) == [] ==> text == ""
  {
    var sel := Selected(choices);
    Join(seq(|sel|, k requires 0 <= k < |sel| => ItemText(sel[k])), ",")
  }

  /** The text for one ticked row reads back its key and whether it is required. */
  lemma ItemTextParts(c: DocChoice)
    requires ':' !in c.key
    ensures Split(ItemText(c), ':') == [c.key, if c.required then "required" else "optional"]
  {
    var tail := if c.required then "required" else "optional";
    assert ':' !in tail;
    SplitNoSep(c.key, ':');
    SplitNoSep(tail, ':');
    SplitAround(c.key, tail, ':');
  }

  // ---------------------------------------------------------------------
  // The page
  // ---------------------------------------------------------------------

  /** The page's own sample records; both lists are empty. */
  const DemoApplications: seq<Application> := []
  const DemoOffers: seq<Offer> := []

  function OfferAppId(o: Offer): int { o.applicationId }
  function ContractAppId(c: Contract): int { c.applicationId }
  function RequestAppId(r: InfoRequest): int { r.applicationId }

  /** The stored version of an application is preferred over a sample with the same id. */
  function ChooseApplication(stored: seq<Application>, samples: seq<Application>, id: int): (app: Option<Application>)
    ensures FindById(stored, AppId, id).Some? ==> app == FindById(stored, AppId, id)
    ensures FindById(stored, AppId, id).None? ==> app == FindById(samples, AppId, id)
    ensures app.Some? ==> app.value.id == id
  {
    var s := FindById(stored, AppId, id);
    if s.Some? then s else FindById(samples, AppId, id)
  }

  /** The offers of an application: samples and stored ones, each id once. */
  function ApplicationOffers(samples: seq<Offer>, stored: seq<Offer>, id: int): seq<Offer>
  {
    Dedupe(ForApplication(samples, OfferAppId, id) + ForApplication(stored, OfferAppId, id), OfferId)
  }

  /** The tab opened for an application's status, when the status selects one. */
  function TabFor(status: string): (tab: Option<string>)
    ensures tab.Some? <==> status in {"SUBMITTED_TO_FINANCIER", "INFO_REQUESTED", "SUBMITTED",
                                      "OFFER_SENT", "OFFER_ACCEPTED", "CONTRACT_SENT"}
  {
    if status in {"SUBMITTED_TO_FINANCIER", "INFO_REQUESTED", "SUBMITTED"} then Some("details")
    else if status in {"OFFER_SENT", "OFFER_ACCEPTED"} then Some("offer")
    else if status == "CONTRACT_SENT" then Some("contract")
    else None
  }

  const DefaultDocumentMessage: string := "Pyydämme seuraavia liitteitä luottopäätöstä varten:"
  const FinancierName: string := "Rahoittaja Oy"

  /** The offer form, as the text fields hold it. */
  datatype OfferForm = OfferForm(
    monthlyPayment: string,
    termMonths: string,
    upfrontPayment: string,
    residualValue: string,
    openingFee: string,
    invoiceFee: string,
    notesToCustomer: string)

  /** The contract form's lessee address fields. */
  datatype ContractInput = ContractInput(lesseeAddress: Option<string>, lesseeCity: Option<string>, lesseePostalCode: Option<string>)

  /** An optional number field: parsed when filled in, 0 when empty. */
  function OptionalAmount(field: string, parseFloat: string -> real): (r: real)
    ensures field == "" ==> r == 0.0
    ensures field != "" ==> r == parseFloat(field)
  {
    if field != "" then parseFloat(field) else 0.0
  }

  function NewInfoRequest(appId: int, message: string, items: string, id: int, now: string): (r: InfoRequest)
    ensures r.id == id && r.applicationId == appId && r.status == "PENDING" && r.sender == "financier"
    ensures r.message == message && r.requestedItems == RequestedItems(items)
    ensures r.responses == [] && r.documents == [] && !r.isRead
  {
    InfoRequest(id, appId, Some(1), None, message, RequestedItems(items), [], "PENDING", now, "financier", [], false, None)
  }

  function NewDocumentRequest(appId: int, message: string, choices: seq<DocChoice>, id: int, now: string): (r: InfoRequest)
    ensures r.id == id && r.applicationId == appId && r.status == "PENDING" && r.sender == "financier"
    ensures r.requestType == Some("DOCUMENT_REQUEST")
    ensures message == "" ==> r.message == DefaultDocumentMessage
    ensures message != "" ==> r.message == message
    ensures r.documents == RequestedDocuments(choices) && r.requestedItems == []
  {
    InfoRequest(id, appId, None, Some("DOCUMENT_REQUEST"), StrOr(message, DefaultDocumentMessage), [],
                RequestedDocuments(choices), "PENDING", now, "financier", [], false, None)
  }

  function NewOffer(appId: int, form: OfferForm, parseFloat: string -> real, parseInt: string -> int,
                    application: Option<Application>, id: int, now: string): (o: Offer)
    ensures o.id == id && o.applicationId == appId && o.status == "PENDING_ADMIN"
    ensures o.financierName == FinancierName && o.application == application
    ensures o.monthlyPayment == parseFloat(form.monthlyPayment) && o.termMonths == parseInt(form.termMonths)
    ensures o.upfrontPayment == OptionalAmount(form.upfrontPayment, parseFloat)
    ensures o.residualValue == OptionalAmount(form.residualValue, parseFloat)
    ensures o.openingFee == OptionalAmount(form.openingFee, parseFloat)
    ensures o.invoiceFee == OptionalAmount(form.invoiceFee, parseFloat)
    ensures o.notesToCustomer == form.notesToCustomer && o.approvedAt.None?
  {
    Offer(id, appId, 1, FinancierName, parseFloat(form.monthlyPayment), parseInt(form.termMonths),
          OptionalAmount(form.upfrontPayment, parseFloat), OptionalAmount(form.residualValue, parseFloat),
          OptionalAmount(form.openingFee, parseFloat), OptionalAmount(form.invoiceFee, parseFloat),
          "PENDING_ADMIN", form.notesToCustomer, now, now, None, application)
  }

  /** The first offer in the list with status ACCEPTED. */
  function AcceptedOffer(offers: seq<Offer>): (o: Option<Offer>)
    ensures o.Some? ==> o.value in offers && o.value.status == "ACCEPTED"
    ensures o.None? ==> forall k :: 0 <= k < |offers| ==> offers[k].status != "ACCEPTED"
  {
    if |offers| == 0 then None
    else if offers[0].status == "ACCEPTED" then Some(offers[0])
    else AcceptedOffer(offers[1..])
  }

  /** The contract number: 'KNT-SOP-' and the last six digits of the creation time.
   *  The application reads the clock twice, once for the contract id and once for
   *  this number; the model takes one reading for both, so the two differ only when
   *  the clock ticks between the calls. */
  function ContractNumber(now: nat): (n: string)
    ensures StartsWith(n, "KNT-SOP-")
    ensures |n| == 8 + (if |NatToString(now)| < 6 then |NatToString(now)| else 6)
  {
    "KNT-SOP-" + LastChars(NatToString(now), 6)
  }

  function NumberOr(x: real, d: real): real { if x != 0.0 then x else d }
  function MonthsOr(x: int, d: int): int { if x != 0 then x else d }

  /**
   * The draft contract of `handleCreateContract`: the lessor is fixed, the
   * lessee comes from the application and the form, the terms from the first
   * accepted offer, 36 months and zero amounts when there is none.
   */
  function NewContract(appId: int, application: Option<Application>, offers: seq<Offer>,
                       data: ContractInput, id: nat, now: string): (c: Contract)
    ensures c.id == id && c.applicationId == appId && c.status == "DRAFT"
    ensures c.contractNumber == ContractNumber(id)
    ensures c.lessorCompanyName == FinancierName
    ensures application.None? ==> c.lesseeCompanyName == "" && c.equipmentValue == 0.0
    ensures AcceptedOffer(offers).None? ==>
              c.leasePeriodMonths == 36 && c.monthlyRent == 0.0 && c.advancePayment == 0.0 && c.residualValue == 0.0
    ensures AcceptedOffer(offers).Some? ==>
              c.monthlyRent == AcceptedOffer(offers).value.monthlyPayment
              && c.leasePeriodMonths == MonthsOr(AcceptedOffer(offers).value.termMonths, 36)
    ensures c.processingFee == 300.0 && c.arrangementFee == 9.0
    ensures c.sentAt.None? && c.signedAt.None?
  {
    var accepted := AcceptedOffer(offers);
    Contract(
      id, appId, ContractNumber(id), "DRAFT",
      FinancierName, "1234567-8", "Rahoittajankatu 1", "Helsinki", "00100",
      if application.Some? then application.value.companyName else "",
      if application.Some? then application.value.businessId else "",
      OrElse(data.lesseeAddress, ""), OrElse(data.lesseeCity, ""), OrElse(data.lesseePostalCode, ""),
      if application.Some? then application.value.equipmentDescription else "",
      if application.Some? then application.value.equipmentPrice else 0.0,
      if accepted.Some? then MonthsOr(accepted.value.termMonths, 36) else 36,
      if accepted.Some? then accepted.value.monthlyPayment else 0.0,
      if accepted.Some? then accepted.value.upfrontPayment else 0.0,
      if accepted.Some? then accepted.value.residualValue else 0.0,
      300.0, 9.0, now, now, None, None, None)
  }

  /** The page's local copy of the contracts after one is marked sent. */
  function MarkSent(contracts: seq<Contract>, contractId: int, now: string): (r: seq<Contract>)
    ensures |r| == |contracts|
    ensures forall k :: 0 <= k < |r| ==>
              if contracts[k].id == contractId then r[k] == contracts[k].(status := "SENT", sentAt := Some(now))
              else r[k] == contracts[k]
  {
    seq(|contracts|, k requires 0 <= k < |contracts| =>
      if contracts[k].id == contractId then contracts[k].(status := "SENT", sentAt := Some(now)) else contracts[k])
  }

  /** How a handler ends. */
  datatype Outcome = Ignored | Rejected(message: string) | Done

  class FinancierPage {
    /** The application id of the route. */
    const id: int
    var application: Option<Application>
    var offerList: seq<Offer>
    var contractList: seq<Contract>
    var infoRequestList: seq<InfoRequest>
    var activeTab: string

    /** The page shows the application of its route. */
    ghost predicate Valid()
      reads this
    {
      application.Some? ==> application.value.id == id
    }

    /** The demo branch of the page's loading effect. */
    constructor Load(store: DemoStore, id: int)
      ensures this.id == id && Valid()
      ensures application == ChooseApplication(store.apps, DemoApplications, id)
      ensures offerList == ApplicationOffers(DemoOffers, store.offers, id)
      ensures contractList == ForApplication(store.contracts, ContractAppId, id)
      ensures infoRequestList == ForApplication(store.infoRequests, RequestAppId, id)
      ensures activeTab == if application.Some? && TabFor(application.value.status).Some?
                           then TabFor(application.value.status).value else "details"
    {
      this.id := id;
      var app := ChooseApplication(store.apps, DemoApplications, id);
      application := app;
      offerList := ApplicationOffers(DemoOffers, store.offers, id);
      contractList := ForApplication(store.contracts, ContractAppId, id);
      infoRequestList := ForApplication(store.infoRequests, RequestAppId, id);
      activeTab := "details";
      if app.Some? {
        var tab := TabFor(app.value.status);
        if tab.Some? {
          activeTab := tab.value;
        }
      }
    }

    /**
     * `handleSendInfoRequest`: a blank message is refused; otherwise the
     * request is always stored, and the application is marked INFO_REQUESTED
     * on the page, and in storage only where it is stored.
     */
    method SendInfoRequest(store: DemoStore, message: string, items: string, newId: int, now: string)
      returns (outcome: Outcome)
      requires Valid()
      modifies this, store
      ensures Valid()
      ensures IsBlank(message) ==>
                outcome == Rejected("Kirjoita viesti")
                && store.infoRequests == old(store.infoRequests) && infoRequestList == old(infoRequestList)
      ensures !IsBlank(message) ==>
                outcome == Done
                && store.infoRequests == old(store.infoRequests) + [NewInfoRequest(id, message, items, newId, now)]
                && infoRequestList == old(infoRequestList) + [NewInfoRequest(id, message, items, newId, now)]
      ensures !IsBlank(message) && old(application).Some? ==>
                application == Some(old(application).value.(status := "INFO_REQUESTED"))
      ensures IsBlank(message) || old(application).None? ==> application == old(application)
      ensures var i := IndexOfId(old(store.apps), AppId, id);
              if !IsBlank(message) && old(application).Some? && i >= 0
              then store.apps == old(store.apps)[i := old(store.apps)[i].(status := "INFO_REQUESTED")]
              else store.apps == old(store.apps)
      ensures store.offers == old(store.offers) && store.contracts == old(store.contracts)
      ensures store.customerRead == old(store.customerRead) && store.financierRead == old(store.financierRead)
      ensures offerList == old(offerList) && contractList == old(contractList) && activeTab == old(activeTab)
    {
      if IsBlank(message) {
        return Rejected("Kirjoita viesti");
      }
      var request := NewInfoRequest(id, message, items, newId, now);
      store.infoRequests := store.infoRequests + [request];
      infoRequestList := infoRequestList + [request];
      if application.Some? {
        application := Some(application.value.(status := "INFO_REQUESTED"));
        var i := IndexOfId(store.apps, AppId, id);
        if i >= 0 {
          store.apps := store.apps[i := store.apps[i].(status := "INFO_REQUESTED")];
        }
      }
      outcome := Done;
    }

    /**
     * `handleCreateOffer`: an empty monthly payment is refused; otherwise the
     * offer is stored for the administrator to approve, and the page's copy of
     * the application, marked OFFER_RECEIVED, replaces the stored one.
     */
    method CreateOffer(store: DemoStore, form: OfferForm, parseFloat: string -> real, parseInt: string -> int,
                       newId: int, now: string)
      returns (outcome: Outcome)
      requires Valid()
      modifies this, store
      ensures Valid()
      ensures form.monthlyPayment == "" ==>
                outcome == Rejected("Täytä kuukausierä") && store.offers == old(store.offers) && offerList == old(offerList)
      ensures form.monthlyPayment != "" ==>
                outcome == Done
                && store.offers == old(store.offers) + [NewOffer(id, form, parseFloat, parseInt, old(application), newId, now)]
                && offerList == old(offerList) + [NewOffer(id, form, parseFloat, parseInt, old(application), newId, now)]
                && activeTab == "offer"
      ensures form.monthlyPayment != "" && old(application).Some? ==>
                application == Some(old(application).value.(status := "OFFER_RECEIVED"))
      ensures form.monthlyPayment == "" || old(application).None? ==> application == old(application)
      ensures var i := IndexOfId(old(store.apps), AppId, id);
              if form.monthlyPayment != "" && old(application).Some? && i >= 0
              then store.apps == old(store.apps)[i := old(application).value.(status := "OFFER_RECEIVED")]
              else store.apps == old(store.apps)
      ensures form.monthlyPayment == "" ==> activeTab == old(activeTab)
      ensures store.contracts == old(store.contracts) && store.infoRequests == old(store.infoRequests)
      ensures store.customerRead == old(store.customerRead) && store.financierRead == old(store.financierRead)
      ensures contractList == old(contractList) && infoRequestList == old(infoRequestList)
    {
      if form.monthlyPayment == "" {
        return Rejected("Täytä kuukausierä");
      }
      var offer := NewOffer(id, form, parseFloat, parseInt, application, newId, now);
      store.offers := store.offers + [offer];
      offerList := offerList + [offer];
      if application.Some? {
        var updated := application.value.(status := "OFFER_RECEIVED");
        application := Some(updated);
        var i := IndexOfId(store.apps, AppId, id);
        if i >= 0 {
          store.apps := store.apps[i := updated];
        }
      }
      activeTab := "offer";
      outcome := Done;
    }

    /**
     * `handleSendDocumentRequest`: nothing happens without an application;
     * with no type ticked the request is refused; otherwise it is stored,
     * and where the application is stored it becomes INFO_REQUESTED there
     * and on the page.
     */
    method SendDocumentRequest(store: DemoStore, choices: seq<DocChoice>, message: string, newId: int, now: string)
      returns (outcome: Outcome)
      requires Valid()
      modifies this, store
      ensures Valid()
      ensures old(application).None? ==> outcome == Ignored
      ensures old(application).Some? && Selected(choices) == [] ==> outcome == Rejected("Valitse vähintään yksi liitetyyppi")
      ensures outcome == Done <==> old(application).Some? && Selected(choices) != []
      ensures outcome == Done ==>
                store.infoRequests == old(store.infoRequests) + [NewDocumentRequest(id, message, choices, newId, now)]
                && infoRequestList == old(infoRequestList) + [NewDocumentRequest(id, message, choices, newId, now)]
      ensures outcome != Done ==> store.infoRequests == old(store.infoRequests) && infoRequestList == old(infoRequestList)
      ensures var i := IndexOfId(old(store.apps), AppId, id);
              if outcome == Done && i >= 0
              then store.apps == old(store.apps)[i := old(store.apps)[i].(status := "INFO_REQUESTED")]
                   && application == Some(old(application).value.(status := "INFO_REQUESTED"))
              else store.apps == old(store.apps) && application == old(application)
      ensures store.offers == old(store.offers) && store.contracts == old(store.contracts)
      ensures store.customerRead == old(store.customerRead) && store.financierRead == old(store.financierRead)
      ensures offerList == old(offerList) && contractList == old(contractList) && activeTab == old(activeTab)
    {
      if application.None? {
        return Ignored;
      }
      if Selected(choices) == [] {
        return Rejected("Valitse vähintään yksi liitetyyppi");
      }
      var request := NewDocumentRequest(id, message, choices, newId, now);
      store.infoRequests := store.infoRequests + [request];
      infoRequestList := infoRequestList + [request];
      var i := IndexOfId(store.apps, AppId, id);
      if i >= 0 {
        store.apps := store.apps[i := store.apps[i].(status := "INFO_REQUESTED")];
        application := Some(application.value.(status := "INFO_REQUESTED"));
      }
      outcome := Done;
    }

    /** `handleCreateContract`: a draft contract stored and listed on the page. */
    method CreateContract(store: DemoStore, data: ContractInput, newId: nat, now: string) returns (c: Contract)
      requires Valid()
      modifies this, store
      ensures Valid()
      ensures c == NewContract(id, old(application), old(offerList), data, newId, now)
      ensures store.contracts == old(store.contracts) + [c]
      ensures contractList == old(contractList) + [c]
      ensures store.apps == old(store.apps) && store.offers == old(store.offers)
      ensures store.infoRequests == old(store.infoRequests)
      ensures store.customerRead == old(store.customerRead) && store.financierRead == old(store.financierRead)
      ensures application == old(application) && offerList == old(offerList)
      ensures infoRequestList == old(infoRequestList) && activeTab == old(activeTab)
    {
      c := NewContract(id, application, offerList, data, newId, now);
      assert c == NewContract(id, old(application), old(offerList), data, newId, now);
      store.contracts := store.contracts + [c];
      contractList := contractList + [c];
    }

    /**
     * `handleSendContract`: the stored contract with the id becomes SENT;
     * the application, when the page has one, becomes CONTRACT_SENT and is
     * written into storage, replacing the stored one or appended.
     */
    method SendContract(store: DemoStore, contractId: int, now: string)
      requires Valid()
      modifies this, store
      ensures Valid()
      ensures var i := IndexOfId(old(store.contracts), ContractId, contractId);
              if i >= 0 then
                store.contracts == old(store.contracts)[i := old(store.contracts)[i].(status := "SENT", sentAt := Some(now))]
                && contractList == MarkSent(old(contractList), contractId, now)
              else store.contracts == old(store.contracts) && contractList == old(contractList)
      ensures old(application).Some? ==>
                application == Some(old(application).value.(status := "CONTRACT_SENT"))
                && store.apps == UpsertById(old(store.apps), AppId, application.value)
      ensures old(application).None? ==> application == None && store.apps == old(store.apps)
      ensures store.offers == old(store.offers) && store.infoRequests == old(store.infoRequests)
      ensures store.customerRead == old(store.customerRead) && store.financierRead == old(store.financierRead)
      ensures offerList == old(offerList) && infoRequestList == old(infoRequestList) && activeTab == old(activeTab)
    {
      var i := IndexOfId(store.contracts, ContractId, contractId);
      if i >= 0 {
        store.contracts := store.contracts[i := store.contracts[i].(status := "SENT", sentAt := Some(now))];
        contractList := MarkSent(contractList, contractId, now);
      }
      if application.Some? {
        var updated := application.value.(status := "CONTRACT_SENT");
        application := Some(updated);
        store.apps := UpsertById(store.apps, AppId, updated);
      }
    }
  }
}
