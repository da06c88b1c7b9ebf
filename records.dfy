/**
 * The records the demo mode of the front end keeps in `localStorage`:
 * applications, offers, contracts and information requests, as the pages
 * write them (the shapes of `types/index.ts` and `types/contract.ts`,
 * restricted to the fields the demo handlers set or read).
 *
 * Every id is a number. Pages compare ids as `String(a.id) === id`, where
 * `id` is the decimal text of a route parameter; with ids taken as integers
 * this is integer equality (`Common.NatToStringInjective`).
 */
module Records {
  import opened Common

  /** One leasing or sale-leaseback application ('demo-applications'). */
  datatype Application = Application(
    id: int,
    referenceNumber: string,
    companyName: string,
    businessId: string,
    contactEmail: string,
    contactPhone: string,
    equipmentPrice: real,
    equipmentDescription: string,
    applicationType: string,      // written both as `application_type` and as `type`
    status: string,
    requestedTermMonths: int,
    additionalInfo: string,
    linkToItem: string,
    downpaymentAmount: real,
    createdAt: string,
    updatedAt: string)

  /** A financier's offer ('demo-offers'), carrying a copy of its application. */
  datatype Offer = Offer(
    id: int,
    applicationId: int,
    financierId: int,
    financierName: string,
    monthlyPayment: real,
    termMonths: int,
    upfrontPayment: real,
    residualValue: real,
    openingFee: real,
    invoiceFee: real,
    status: string,
    notesToCustomer: string,
    createdAt: string,
    updatedAt: string,
    approvedAt: Option<string>,
    application: Option<Application>)

  /** A lease contract ('demo-contracts'). */
  datatype Contract = Contract(
    id: int,
    applicationId: int,
    contractNumber: string,
    status: string,
    lessorCompanyName: string,
    lessorBusinessId: string,
    lessorAddress: string,
    lessorCity: string,
    lessorPostalCode: string,
    lesseeCompanyName: string,
    lesseeBusinessId: string,
    lesseeAddress: string,
    lesseeCity: string,
    lesseePostalCode: string,
    equipmentDescription: string,
    equipmentValue: real,
    leasePeriodMonths: int,
    monthlyRent: real,
    advancePayment: real,
    residualValue: real,
    processingFee: real,
    arrangementFee: real,
    createdAt: string,
    updatedAt: string,
    sentAt: Option<string>,
    signedAt: Option<string>,
    lesseeSignerName: Option<string>)

  /** A document a financier asks for. */
  datatype RequestedDocument = RequestedDocument(docType: string, text: string, required: bool)

  /** A file a customer attaches to a response (its name only). */
  datatype Attachment = Attachment(docType: string, text: string, filename: string)

  /** A customer's answer to an information request. */
  datatype Response = Response(id: int, message: string, createdAt: string, attachments: seq<Attachment>)

  /** A request for more information or documents ('demo-info-requests'). */
  datatype InfoRequest = InfoRequest(
    id: int,
    applicationId: int,
    financierId: Option<int>,
    requestType: Option<string>,
    message: string,
    requestedItems: seq<string>,
    documents: seq<RequestedDocument>,
    status: string,
    createdAt: string,
    sender: string,
    responses: seq<Response>,
    isRead: bool,
    respondedAt: Option<string>)  // read by the financier's notifications; no modelled page sets it

  function AppId(a: Application): int { a.id }
  function OfferId(o: Offer): int { o.id }
  function ContractId(c: Contract): int { c.id }
  function RequestId(r: InfoRequest): int { r.id }

  /**
   * The demo handlers' in-place status update on the stored offers: every
   * offer with the id gets the status, the others stay as they are.
   */
  function OffersWithStatus(offers: seq<Offer>, offerId: int, status: string): (r: seq<Offer>)
    ensures |r| == |offers|
    ensures forall k :: 0 <= k < |r| ==>
              r[k] == if offers[k].id == offerId then offers[k].(status := status) else offers[k]
  {
    seq(|offers|, k requires 0 <= k < |offers| =>
      if offers[k].id == offerId then offers[k].(status := status) else offers[k])
  }

  /**
   * `findIndex` by id: the first position whose record has the id, or -1
   * when there is none.
   */
  function IndexOfId<T>(s: seq<T>, key: T -> int, id: int): (i: int)
    ensures -1 <= i < |s|
    ensures i == -1 <==> forall k :: 0 <= k < |s| ==> key(s[k]) != id
    ensures 0 <= i ==> key(s[i]) == id && forall k :: 0 <= k < i ==> key(s[k]) != id
  {
    if |s| == 0 then -1
    else if key(s[0]) == id then 0
    else
      var j := IndexOfId(s[1..], key, id);
      if j == -1 then -1 else j + 1
  }

  /** The first position with the id is the one where it first occurs. */
  lemma IndexOfIdAt<T>(s: seq<T>, key: T -> int, id: int, i: int)
    requires 0 <= i < |s| && key(s[i]) == id
    requires forall k :: 0 <= k < i ==> key(s[k]) != id
    ensures IndexOfId(s, key, id) == i
  {
    var j := IndexOfId(s, key, id);
    assert j != -1;
  }

  /** The set of ids in a list. */
  function Ids<T>(s: seq<T>, key: T -> int): set<int>
  {
    set k | 0 <= k < |s| :: key(s[k])
  }

  /** The last position holding the id, or -1. */
  function LastIndexOfId<T>(s: seq<T>, key: T -> int, id: int): (i: int)
    ensures -1 <= i < |s|
    ensures i == -1 <==> id !in Ids(s, key)
    ensures 0 <= i ==> key(s[i]) == id && forall k :: i < k < |s| ==> key(s[k]) != id
    decreases |s|
  {
    if |s| == 0 then -1
    else if key(s[|s| - 1]) == id then |s| - 1
    else
      var i := LastIndexOfId(s[..|s| - 1], key, id);
      assert Ids(s, key) == Ids(s[..|s| - 1], key) + {key(s[|s| - 1])};
      i
  }

  /** `find` by id. */
  function FindById<T>(s: seq<T>, key: T -> int, id: int): (r: Option<T>)
    ensures r.None? <==> forall k :: 0 <= k < |s| ==> key(s[k]) != id
    ensures r.Some? ==> r.value == s[IndexOfId(s, key, id)]
  {
    var i := IndexOfId(s, key, id);
    if i < 0 then None else Some(s[i])
  }

  /** The records of one application, in stored order. */
  function ForApplication<T>(s: seq<T>, appIdOf: T -> int, appId: int): (r: seq<T>)
    ensures |r| <= |s|
    ensures forall x :: x in r ==> x in s && appIdOf(x) == appId
    ensures forall k :: 0 <= k < |s| && appIdOf(s[k]) == appId ==> s[k] in r
    ensures |s| == 1 ==> r == if appIdOf(s[0]) == appId then s else []
  {
    if |s| == 0 then []
    else
      var rest := ForApplication(s[1..], appIdOf, appId);
      if appIdOf(s[0]) == appId then [s[0]] + rest else rest
  }

  /** The records of a concatenation are those of its first part followed by those of its second. */
  lemma {:induction false} ForApplicationAppend<T>(a: seq<T>, b: seq<T>, appIdOf: T -> int, appId: int)
    ensures ForApplication(a + b, appIdOf, appId) == ForApplication(a, appIdOf, appId) + ForApplication(b, appIdOf, appId)
  {
    if |a| == 0 {
      assert a + b == b;
    } else {
      assert (a + b)[0] == a[0];
      assert (a + b)[1..] == a[1..] + b;
      ForApplicationAppend(a[1..], b, appIdOf, appId);
    }
  }

  /** Replacing the first record with the id, or appending when none has it. */
  function UpsertById<T>(s: seq<T>, key: T -> int, x: T): (r: seq<T>)
    ensures IndexOfId(s, key, key(x)) >= 0 ==>
              r == s[IndexOfId(s, key, key(x)) := x]
    ensures IndexOfId(s, key, key(x)) < 0 ==> r == s + [x]
  {
    var i := IndexOfId(s, key, key(x));
    if i >= 0 then s[i := x] else s + [x]
  }

  /** After an upsert the id is found, at the record inserted. */
  lemma UpsertFinds<T>(s: seq<T>, key: T -> int, x: T)
    ensures FindById(UpsertById(s, key, x), key, key(x)) == Some(x)
    ensures |s| <= |UpsertById(s, key, x)| <= |s| + 1
  {
    var i := IndexOfId(s, key, key(x));
    var r := UpsertById(s, key, x);
    if i < 0 {
      assert forall k :: 0 <= k < |s| ==> r[k] == s[k];
      IndexOfIdAt(r, key, key(x), |s|);
    } else {
      assert forall k :: 0 <= k < i ==> r[k] == s[k];
      IndexOfIdAt(r, key, key(x), i);
    }
  }

  /** Upserting the same record twice is the same as upserting it once. */
  lemma UpsertIdempotent<T>(s: seq<T>, key: T -> int, x: T)
    ensures UpsertById(UpsertById(s, key, x), key, x) == UpsertById(s, key, x)
  {
    var r := UpsertById(s, key, x);
    var i := IndexOfId(s, key, key(x));
    if i < 0 {
      assert forall k :: 0 <= k < |s| ==> r[k] == s[k];
      IndexOfIdAt(r, key, key(x), |s|);
    } else {
      assert forall k :: 0 <= k < i ==> r[k] == s[k];
      IndexOfIdAt(r, key, key(x), i);
    }
  }
}
