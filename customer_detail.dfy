/**
 * The customer's view of one application: the progress timeline and the
 * demo branches of the handlers that accept or reject an offer, answer an
 * information request and sign a contract.
 */
module CustomerDetail {
  import opened Common
  import opened Records
  import opened DemoStorage
  import opened Session

  // ---------------------------------------------------------------------
  // Progress timeline
  // ---------------------------------------------------------------------

  /** The number of steps the timeline shows. */
  const StepCount: nat := 6

  /** The timeline step of an application status; an unknown status is the first step. */
  function StepForStatus(status: string): (step: nat)
    ensures step < StepCount
    ensures status == "SUBMITTED" ==> step == 0
    ensures status in {"SUBMITTED_TO_FINANCIER", "INFO_REQUESTED"} ==> step == 1
    ensures status == "OFFER_RECEIVED" ==> step == 2
    ensures status == "OFFER_SENT" ==> step == 3
    ensures status in {"OFFER_ACCEPTED", "CONTRACT_SENT"} ==> step == 4
    ensures status in {"SIGNED", "CLOSED"} ==> step == 5
    ensures status !in Workflow ==> step == 0
  {
    match status
    case "SUBMITTED" => 0
    case "SUBMITTED_TO_FINANCIER" => 1
    case "INFO_REQUESTED" => 1
    case "OFFER_RECEIVED" => 2
    case "OFFER_SENT" => 3
    case "OFFER_ACCEPTED" => 4
    case "CONTRACT_SENT" => 4
    case "SIGNED" => 5
    case "CLOSED" => 5
    case _ => 0
  }

  /** The statuses an application passes through, in order. */
  const Workflow: seq<string> := ["SUBMITTED", "SUBMITTED_TO_FINANCIER", "INFO_REQUESTED", "OFFER_RECEIVED",
                                  "OFFER_SENT", "OFFER_ACCEPTED", "CONTRACT_SENT", "SIGNED", "CLOSED"]

  /** Moving forward in the workflow never moves the timeline back, and it reaches the last step. */
  lemma StepsFollowWorkflow()
    ensures forall i, j :: 0 <= i <= j < |Workflow| ==> StepForStatus(Workflow[i]) <= StepForStatus(Workflow[j])
    ensures StepForStatus(Workflow[0]) == 0 && StepForStatus(Workflow[|Workflow| - 1]) == StepCount - 1
  {
    var steps := [0, 1, 1, 2, 3, 4, 4, 5, 5];
    forall k | 0 <= k < |Workflow| ensures StepForStatus(Workflow[k]) == steps[k] {
    }
  }

  /** How one step of the timeline is drawn. */
  datatype StepFlags = StepFlags(completed: bool, current: bool, active: bool)

  function Flags(index: nat, currentStep: nat): (f: StepFlags)
    ensures f.completed <==> index < currentStep
    ensures f.current <==> index == currentStep
    ensures f.active <==> index <= currentStep
  {
    StepFlags(index < currentStep, index == currentStep, index <= currentStep)
  }

  /**
   * Exactly one step is the current one, the active steps are the completed
   * ones and the current one, and the completed steps are a prefix.
   */
  lemma FlagsShape(status: string)
    ensures var c := StepForStatus(status);
            (forall i :: 0 <= i < StepCount ==> (Flags(i, c).current <==> i == c))
            && (exists i :: 0 <= i < StepCount && Flags(i, c).current)
            && (forall i :: 0 <= i < StepCount ==> (Flags(i, c).active <==> Flags(i, c).completed || Flags(i, c).current))
            && (forall i, j :: 0 <= i <= j < StepCount && Flags(j, c).completed ==> Flags(i, c).completed)
  {
    var c := StepForStatus(status);
    assert Flags(c, c).current;
  }

  // ---------------------------------------------------------------------
  // Record updates
  // ---------------------------------------------------------------------

  /** The contract as signed. */
  function Signed(c: Contract, now: string, signer: string): Contract
  {
    c.(status := "SIGNED", signedAt := Some(now), lesseeSignerName := Some(signer))
  }

  function ContractsSigned(contracts: seq<Contract>, contractId: int, now: string, signer: string): (r: seq<Contract>)
    ensures |r| == |contracts|
    ensures forall k :: 0 <= k < |r| ==>
              r[k] == if contracts[k].id == contractId then Signed(contracts[k], now, signer) else contracts[k]
  {
    seq(|contracts|, k requires 0 <= k < |contracts| =>
      if contracts[k].id == contractId then Signed(contracts[k], now, signer) else contracts[k])
  }

  /** The information request with a response added. */
  function Answered(r: InfoRequest, response: Response): InfoRequest
  {
    r.(responses := r.responses + [response], status := "RESPONDED", isRead := true)
  }

  function RequestsAnswered(requests: seq<InfoRequest>, requestId: int, response: Response): (r: seq<InfoRequest>)
    ensures |r| == |requests|
    ensures forall k :: 0 <= k < |r| ==>
              r[k] == if requests[k].id == requestId then Answered(requests[k], response) else requests[k]
  {
    seq(|requests|, k requires 0 <= k < |requests| =>
      if requests[k].id == requestId then Answered(requests[k], response) else requests[k])
  }

  // ---------------------------------------------------------------------
  // Responses to information requests
  // ---------------------------------------------------------------------

  /** One document row of the response form: its type and the name of the chosen file, if any. */
  datatype DocSelection = DocSelection(key: string, file: Option<string>)

  /** The label of a document type, when the type is known. */
  function DocumentLabel(key: string): (l: Option<string>)
    ensures l.Some? ==> l.value != ""
  {
    match key
    case "tilinpaatos" => Some("Tilinpäätös")
    case "tulosTase" => Some("Tulos ja tase ajot")
    case "henkilokortti" => Some("Kuvallinen henkilökortti")
    case "kuvaKohteesta" => Some("Kuva kohteesta")
    case "urakkasopimus" => Some("Urakkasopimus")
    case "liiketoimintasuunnitelma" => Some("Liiketoimintasuunnitelma")
    case _ => None
  }

  /** Whether any row has a file. */
  predicate HasFiles(docs: seq<DocSelection>)
  {
    exists k :: 0 <= k < |docs| && docs[k].file.Some?
  }

  /** The attachment of a row with a file: its type, the type's label (the type itself when unknown) and the file. */
  function AttachmentOf(d: DocSelection): Attachment
    requires d.file.Some?
  {
    Attachment(d.key, OrElse(DocumentLabel(d.key), d.key), d.file.value)
  }

  /** The rows with a file, as attachments labelled by type (the type itself when unknown). */
  function Attached(docs: seq<DocSelection>): (r: seq<Attachment>)
    ensures |r| <= |docs|
    ensures r == [] <==> !HasFiles(docs)
    ensures forall k :: 0 <= k < |r| ==>
              exists j :: 0 <= j < |docs| && docs[j].file.Some? && r[k] == Attachment(docs[j].key, OrElse(DocumentLabel(docs[j].key), docs[j].key), docs[j].file.value)
    ensures |docs| == 1 ==> r == if docs[0].file.Some? then [AttachmentOf(docs[0])] else []
  {
    if |docs| == 0 then []
    else
      var rest := Attached(docs[1..]);
      assert HasFiles(docs) <==> docs[0].file.Some? || HasFiles(docs[1..]) by {
        if HasFiles(docs[1..]) {
          var k :| 0 <= k < |docs[1..]| && docs[1..][k].file.Some?;
          assert docs[k + 1].file.Some?;
        }
        if HasFiles(docs) && docs[0].file.None? {
          var k :| 0 <= k < |docs| && docs[k].file.Some?;
          assert docs[1..][k - 1].file.Some?;
        }
      }
      assert forall k :: 0 <= k < |rest| ==>
               exists j :: 0 <= j < |docs| && docs[j].file.Some? && rest[k] == Attachment(docs[j].key, OrElse(DocumentLabel(docs[j].key), docs[j].key), docs[j].file.value) by {
        forall k | 0 <= k < |rest|
          ensures exists j :: 0 <= j < |docs| && docs[j].file.Some? && rest[k] == Attachment(docs[j].key, OrElse(DocumentLabel(docs[j].key), docs[j].key), docs[j].file.value)
        {
          var j :| 0 <= j < |docs[1..]| && docs[1..][j].file.Some? && rest[k] == Attachment(docs[1..][j].key, OrElse(DocumentLabel(docs[1..][j].key), docs[1..][j].key), docs[1..][j].file.value);
          assert docs[j + 1] == docs[1..][j];
        }
      }
      if docs[0].file.Some? then
        [Attachment(docs[0].key, OrElse(DocumentLabel(docs[0].key), docs[0].key), docs[0].file.value)] + rest
      else rest
  }
  /** The attachments of a concatenation: those of the first part of the form, then those of the second. */
  lemma {:induction false} AttachedAppend(a: seq<DocSelection>, b: seq<DocSelection>)
    ensures Attached(a + b) == Attached(a) + Attached(b)
  {
    if |a| == 0 {
      assert a + b == b;
    } else {
      assert (a + b)[0] == a[0];
      assert (a + b)[1..] == a[1..] + b;
      AttachedAppend(a[1..], b);
    }
  }


  /** One line of the attachment list: "• label: file name". */
  function Bullet(a: Attachment): string
  {
    "• " + a.text + ": " + a.filename
  }

  function FileList(atts: seq<Attachment>): string
  {
    Join(seq(|atts|, k requires 0 <= k < |atts| => Bullet(atts[k])), "\n")
  }

  const AttachmentHeader: string := "Liitetyt dokumentit:\n"

  /**
   * The message stored with a response: the trimmed text, followed by the
   * attachment list when files are attached.
   */
  function ResponseMessage(message: string, atts: seq<Attachment>): (m: string)
    ensures atts == [] ==> m == Trim(message)
    ensures atts != [] ==> m != "" && EndsWith(m, AttachmentHeader + FileList(atts))
    ensures atts != [] && Trim(message) != "" ==> StartsWith(m, Trim(message) + "\n\n")
    ensures atts != [] && Trim(message) == "" ==> m == AttachmentHeader + FileList(atts)
  {
    var text := Trim(message);
    if |atts| > 0 then
      if text != "" then text + "\n\n" + AttachmentHeader + FileList(atts)
      else AttachmentHeader + FileList(atts)
    else text
  }

  predicate EndsWith(s: string, suffix: string)
  {
    |suffix| <= |s| && s[|s| - |suffix|..] == suffix
  }

  /** Without line breaks in labels and file names, the list has one line per attachment. */
  lemma FileListLines(atts: seq<Attachment>)
    requires |atts| > 0
    requires forall k :: 0 <= k < |atts| ==> '\n' !in atts[k].text && '\n' !in atts[k].filename
    ensures Split(FileList(atts), '\n') == seq(|atts|, k requires 0 <= k < |atts| => Bullet(atts[k]))
  {
    var lines := seq(|atts|, k requires 0 <= k < |atts| => Bullet(atts[k]));
    forall k | 0 <= k < |lines| ensures '\n' !in lines[k] {
      assert lines[k] == "• " + atts[k].text + ": " + atts[k].filename;
    }
    SplitJoin(lines, '\n');
  }

  // ---------------------------------------------------------------------
  // The page
  // ---------------------------------------------------------------------

  /** The name recorded on a signed contract: the signed-in user's names, or 'Asiakas'. */
  function SignerName(user: Option<SessionUser>): (name: string)
    ensures user.None? ==> name == "Asiakas"
    ensures user.Some? ==> name == NamePart(user.value.firstName) + " " + NamePart(user.value.lastName)
  {
    if user.Some? then NamePart(user.value.firstName) + " " + NamePart(user.value.lastName) else "Asiakas"
  }

  /**
   * A name in a template string. `None` stands for an absent field, which
   * prints as "undefined"; a JSON `null` name, which would print as "null",
   * is not modelled.
   */
  function NamePart(n: Option<string>): string
  {
    if n.Some? then n.value else "undefined"
  }

  datatype Outcome = Rejected(message: string) | Done

  class CustomerPage {
    const id: int
    var application: Option<Application>
    var offerList: seq<Offer>
    var contractList: seq<Contract>
    var infoRequestList: seq<InfoRequest>

    ghost predicate Valid()
      reads this
    {
      application.Some? ==> application.value.id == id
    }

    /** The load without a database: the stored application only, no lists. */
    constructor LoadFromStorage(store: DemoStore, id: int)
      ensures this.id == id && Valid()
      ensures application == FindById(store.apps, AppId, id)
      ensures offerList == [] && contractList == [] && infoRequestList == []
    {
      this.id := id;
      application := FindById(store.apps, AppId, id);
      offerList := [];
      contractList := [];
      infoRequestList := [];
    }

    /**
     * `handleAcceptOffer`: the stored offer becomes ACCEPTED, or, when only
     * the page lists it, an ACCEPTED copy is stored; the application becomes
     * OFFER_ACCEPTED and is written into storage.
     */
    method AcceptOffer(store: DemoStore, offerId: int)
      requires Valid()
      modifies this, store
      ensures Valid()
      ensures var i := IndexOfId(old(store.offers), OfferId, offerId);
              var current := FindById(old(offerList), OfferId, offerId);
              if i >= 0 then store.offers == old(store.offers)[i := old(store.offers)[i].(status := "ACCEPTED")]
              else if current.Some? then store.offers == old(store.offers) + [current.value.(status := "ACCEPTED")]
              else store.offers == old(store.offers)
      ensures offerList == OffersWithStatus(old(offerList), offerId, "ACCEPTED")
      ensures old(application).Some? ==>
                application == Some(old(application).value.(status := "OFFER_ACCEPTED"))
                && store.apps == UpsertById(old(store.apps), AppId, application.value)
      ensures old(application).None? ==> application == None && store.apps == old(store.apps)
      ensures store.contracts == old(store.contracts) && store.infoRequests == old(store.infoRequests)
      ensures store.customerRead == old(store.customerRead) && store.financierRead == old(store.financierRead)
      ensures contractList == old(contractList) && infoRequestList == old(infoRequestList)
    {
      var i := IndexOfId(store.offers, OfferId, offerId);
      var current := FindById(offerList, OfferId, offerId);
      if i >= 0 {
        store.offers := store.offers[i := store.offers[i].(status := "ACCEPTED")];
      } else if current.Some? {
        store.offers := store.offers + [current.value.(status := "ACCEPTED")];
      }
      offerList := OffersWithStatus(offerList, offerId, "ACCEPTED");
      if application.Some? {
        var updated := application.value.(status := "OFFER_ACCEPTED");
        application := Some(updated);
        store.apps := UpsertById(store.apps, AppId, updated);
      }
    }

    /** `handleRejectOffer`: only an offer already stored is marked REJECTED. */
    method RejectOffer(store: DemoStore, offerId: int)
      modifies this, store
      ensures var i := IndexOfId(old(store.offers), OfferId, offerId);
              if i >= 0 then store.offers == old(store.offers)[i := old(store.offers)[i].(status := "REJECTED")]
              else store.offers == old(store.offers)
      ensures offerList == OffersWithStatus(old(offerList), offerId, "REJECTED")
      ensures store.apps == old(store.apps) && store.contracts == old(store.contracts)
      ensures store.infoRequests == old(store.infoRequests)
      ensures store.customerRead == old(store.customerRead) && store.financierRead == old(store.financierRead)
      ensures application == old(application) && contractList == old(contractList)
      ensures infoRequestList == old(infoRequestList)
    {
      var i := IndexOfId(store.offers, OfferId, offerId);
      if i >= 0 {
        store.offers := store.offers[i := store.offers[i].(status := "REJECTED")];
      }
      offerList := OffersWithStatus(offerList, offerId, "REJECTED");
    }

    /**
     * `handleRespondToInfoRequest`: refused when there is neither text nor a
     * file; otherwise the response is added to the stored request with the
     * id, which becomes RESPONDED and read. An unknown id changes nothing.
     */
    method RespondToInfoRequest(store: DemoStore, requestId: int, message: string, docs: seq<DocSelection>,
                                newId: int, now: string)
      returns (outcome: Outcome)
      modifies this, store
      ensures outcome == Rejected("Kirjoita viesti tai liitä tiedostoja") <==> IsBlank(message) && !HasFiles(docs)
      ensures var response := Response(newId, ResponseMessage(message, Attached(docs)), now, Attached(docs));
              var i := IndexOfId(old(store.infoRequests), RequestId, requestId);
              if outcome == Done && i >= 0 then
                store.infoRequests == old(store.infoRequests)[i := Answered(old(store.infoRequests)[i], response)]
                && infoRequestList == RequestsAnswered(old(infoRequestList), requestId, response)
              else store.infoRequests == old(store.infoRequests) && infoRequestList == old(infoRequestList)
      ensures store.apps == old(store.apps) && store.offers == old(store.offers) && store.contracts == old(store.contracts)
      ensures store.customerRead == old(store.customerRead) && store.financierRead == old(store.financierRead)
      ensures application == old(application) && offerList == old(offerList) && contractList == old(contractList)
    {
      if IsBlank(message) && !HasFiles(docs) {
        return Rejected("Kirjoita viesti tai liitä tiedostoja");
      }
      var atts := Attached(docs);
      var response := Response(newId, ResponseMessage(message, atts), now, atts);
      var i := IndexOfId(store.infoRequests, RequestId, requestId);
      if i >= 0 {
        store.infoRequests := store.infoRequests[i := Answered(store.infoRequests[i], response)];
        infoRequestList := RequestsAnswered(infoRequestList, requestId, response);
      }
      outcome := Done;
    }

    /**
     * `handleSignContract`: the stored contract with the id is signed in the
     * name of the signed-in user; the application becomes SIGNED and is
     * written into storage.
     */
    method SignContract(store: DemoStore, contractId: int, user: Option<SessionUser>, now: string)
      requires Valid()
      modifies this, store
      ensures Valid()
      ensures var i := IndexOfId(old(store.contracts), ContractId, contractId);
              if i >= 0 then
                store.contracts == old(store.contracts)[i := Signed(old(store.contracts)[i], now, SignerName(user))]
                && contractList == ContractsSigned(old(contractList), contractId, now, SignerName(user))
              else store.contracts == old(store.contracts) && contractList == old(contractList)
      ensures old(application).Some? ==>
                application == Some(old(application).value.(status := "SIGNED"))
                && store.apps == UpsertById(old(store.apps), AppId, application.value)
      ensures old(application).None? ==> application == None && store.apps == old(store.apps)
      ensures store.offers == old(store.offers) && store.infoRequests == old(store.infoRequests)
      ensures store.customerRead == old(store.customerRead) && store.financierRead == old(store.financierRead)
      ensures offerList == old(offerList) && infoRequestList == old(infoRequestList)
    {
      var signer := SignerName(user);
      var i := IndexOfId(store.contracts, ContractId, contractId);
      if i >= 0 {
        store.contracts := store.contracts[i := Signed(store.contracts[i], now, signer)];
        contractList := ContractsSigned(contractList, contractId, now, signer);
      }
      if application.Some? {
        var updated := application.value.(status := "SIGNED");
        application := Some(updated);
        store.apps := UpsertById(store.apps, AppId, updated);
      }
    }
  }

  /**
   * After accepting, the offer with the id is stored as ACCEPTED whenever it
   * was stored or shown, and the stored list grows by at most one.
   */
  lemma AcceptedOfferStored(stored: seq<Offer>, shown: seq<Offer>, offerId: int)
    ensures var i := IndexOfId(stored, OfferId, offerId);
            var current := FindById(shown, OfferId, offerId);
            var after := if i >= 0 then stored[i := stored[i].(status := "ACCEPTED")]
                         else if current.Some? then stored + [current.value.(status := "ACCEPTED")]
                         else stored;
            |stored| <= |after| <= |stored| + 1
            && (i >= 0 || current.Some? <==> FindById(after, OfferId, offerId).Some?)
            && (FindById(after, OfferId, offerId).Some? ==> FindById(after, OfferId, offerId).value.status == "ACCEPTED")
  {
    var i := IndexOfId(stored, OfferId, offerId);
    var current := FindById(shown, OfferId, offerId);
    if i >= 0 {
      var after := stored[i := stored[i].(status := "ACCEPTED")];
      assert forall k :: 0 <= k < i ==> after[k] == stored[k];
      IndexOfIdAt(after, OfferId, offerId, i);
    } else if current.Some? {
      var after := stored + [current.value.(status := "ACCEPTED")];
      assert forall k :: 0 <= k < |stored| ==> after[k] == stored[k];
      IndexOfIdAt(after, OfferId, offerId, |stored|);
    }
  }
}
