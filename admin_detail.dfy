/**
 * The administrator's view of one application in demo mode: assigning it to
 * a financier, the list of financiers still available, and approving an
 * offer for the customer.
 */
module AdminDetail {
  import opened Common
  import opened Records
  import opened DemoStorage

  /** A financier company. */
  datatype Financier = Financier(id: int, name: string, contactEmail: string, isActive: bool)

  /** An application handed to a financier; the assignments live on the page only. */
  datatype Assignment = Assignment(id: int, applicationId: int, financierId: int, status: string,
                                   notes: Option<string>, createdAt: string)

  /** The page's sample records. */
  const DemoApplications: seq<Application> := []
  const DemoFinanciers: seq<Financier> := [Financier(1, "Rahoittaja Oy", "info@rahoittaja.fi", true)]
  const DemoOffers: seq<Offer> := []

  function OfferAppId(o: Offer): int { o.applicationId }

  /** A financier's name, or 'Tuntematon' when no financier has the id or the name is empty. */
  function FinancierName(financiers: seq<Financier>, financierId: int): (name: string)
    ensures (forall k :: 0 <= k < |financiers| ==> financiers[k].id != financierId) ==> name == "Tuntematon"
    ensures name == "Tuntematon" || exists k :: 0 <= k < |financiers| && financiers[k].id == financierId
                                                && financiers[k].name != "" && name == financiers[k].name
  {
    if |financiers| == 0 then "Tuntematon"
    else if financiers[0].id == financierId then StrOr(financiers[0].name, "Tuntematon")
    else
      var rest := FinancierName(financiers[1..], financierId);
      assert rest != "Tuntematon" ==> exists k :: 0 <= k < |financiers| && financiers[k].id == financierId && financiers[k].name != "" && rest == financiers[k].name by {
        if rest != "Tuntematon" {
          var k :| 0 <= k < |financiers[1..]| && financiers[1..][k].id == financierId && financiers[1..][k].name != ""
                   && rest == financiers[1..][k].name;
          assert financiers[k + 1] == financiers[1..][k];
        }
      }
      rest
  }

  /** The name shown is the one of the first financier with the id. */
  lemma FinancierNameFirst(financiers: seq<Financier>, financierId: int, i: int)
    requires 0 <= i < |financiers| && financiers[i].id == financierId
    requires forall k :: 0 <= k < i ==> financiers[k].id != financierId
    ensures FinancierName(financiers, financierId) == StrOr(financiers[i].name, "Tuntematon")
    decreases i
  {
    if i > 0 {
      FinancierNameFirst(financiers[1..], financierId, i - 1);
    }
  }

  /** Whether some assignment names the financier. */
  predicate Assigned(assignments: seq<Assignment>, financierId: int)
  {
    exists k :: 0 <= k < |assignments| && assignments[k].financierId == financierId
  }

  /** The financiers the application has not been assigned to, in list order. */
  function AvailableFinanciers(financiers: seq<Financier>, assignments: seq<Assignment>): (r: seq<Financier>)
    ensures |r| <= |financiers|
    ensures forall f :: f in r <==> f in financiers && !Assigned(assignments, f.id)
    ensures |financiers| == 1 ==> r == if Assigned(assignments, financiers[0].id) then [] else financiers
  {
    if |financiers| == 0 then []
    else
      var rest := AvailableFinanciers(financiers[1..], assignments);
      if Assigned(assignments, financiers[0].id) then rest else [financiers[0]] + rest
  }
  /** The available financiers of a concatenated list: those of the first part, then those of the second. */
  lemma {:induction false} AvailableFinanciersAppend(a: seq<Financier>, b: seq<Financier>, assignments: seq<Assignment>)
    ensures AvailableFinanciers(a + b, assignments) == AvailableFinanciers(a, assignments) + AvailableFinanciers(b, assignments)
  {
    if |a| == 0 {
      assert a + b == b;
    } else {
      assert (a + b)[0] == a[0];
      assert (a + b)[1..] == a[1..] + b;
      AvailableFinanciersAppend(a[1..], b, assignments);
    }
  }


  /** A new assignment removes its financier from the available ones and adds none. */
  lemma AssignmentRemovesFinancier(financiers: seq<Financier>, assignments: seq<Assignment>, a: Assignment)
    ensures forall f :: f in AvailableFinanciers(financiers, assignments + [a]) ==> f.id != a.financierId
    ensures forall f :: f in AvailableFinanciers(financiers, assignments + [a]) ==> f in AvailableFinanciers(financiers, assignments)
  {
    var after := assignments + [a];
    assert after[|assignments|] == a;
    assert forall k :: 0 <= k < |assignments| ==> after[k] == assignments[k];
  }

  /** Every stored application with the id gets the status. */
  function AppsWithStatus(apps: seq<Application>, id: int, status: string): (r: seq<Application>)
    ensures |r| == |apps|
    ensures forall k :: 0 <= k < |r| ==> if apps[k].id == id then r[k] == apps[k].(status := status) else r[k] == apps[k]
  {
    seq(|apps|, k requires 0 <= k < |apps| => if apps[k].id == id then apps[k].(status := status) else apps[k])
  }

  datatype Outcome = Rejected(message: string) | Done

  class AdminPage {
    const id: int
    var application: Option<Application>
    var financierList: seq<Financier>
    var assignmentList: seq<Assignment>
    var offerList: seq<Offer>
    var contractList: seq<Contract>
    var infoRequestList: seq<InfoRequest>

    ghost predicate Valid()
      reads this
    {
      application.Some? ==> application.value.id == id
    }

    /** The demo branch of the loading effect. */
    constructor Load(store: DemoStore, id: int)
      ensures this.id == id && Valid()
      ensures application == FindById(DemoApplications + store.apps, AppId, id)
      ensures application == FindById(store.apps, AppId, id)
      ensures financierList == DemoFinanciers && assignmentList == []
      ensures offerList == ForApplication(DemoOffers, OfferAppId, id)
      ensures contractList == [] && infoRequestList == []
    {
      this.id := id;
      assert DemoApplications + store.apps == store.apps;
      application := FindById(DemoApplications + store.apps, AppId, id);
      financierList := DemoFinanciers;
      assignmentList := [];
      offerList := ForApplication(DemoOffers, OfferAppId, id);
      contractList := [];
      infoRequestList := [];
    }

    /**
     * `handleAssignToFinancier`: refused when no financier is chosen (an id
     * of 0 counts as none); otherwise every stored application with the id
     * becomes SUBMITTED_TO_FINANCIER and a PENDING assignment is listed.
     */
    method AssignToFinancier(store: DemoStore, selectedFinancierId: Option<int>, notes: string, newId: int, now: string)
      returns (outcome: Outcome)
      requires Valid()
      modifies this, store
      ensures Valid()
      ensures outcome.Rejected? <==> selectedFinancierId.None? || selectedFinancierId.value == 0
      ensures outcome.Rejected? ==> outcome.message == "Valitse rahoittaja"
                                    && store.apps == old(store.apps) && application == old(application)
                                    && assignmentList == old(assignmentList)
      ensures outcome == Done ==>
                store.apps == AppsWithStatus(old(store.apps), id, "SUBMITTED_TO_FINANCIER")
                && (old(application).Some? ==> application == Some(old(application).value.(status := "SUBMITTED_TO_FINANCIER")))
                && (old(application).None? ==> application == None)
                && assignmentList == old(assignmentList) +
                     [Assignment(newId, id, selectedFinancierId.value, "PENDING", if notes == "" then None else Some(notes), now)]
      ensures store.offers == old(store.offers) && store.contracts == old(store.contracts)
      ensures store.infoRequests == old(store.infoRequests)
      ensures store.customerRead == old(store.customerRead) && store.financierRead == old(store.financierRead)
      ensures financierList == old(financierList) && offerList == old(offerList)
      ensures contractList == old(contractList) && infoRequestList == old(infoRequestList)
    {
      if selectedFinancierId.None? || selectedFinancierId.value == 0 {
        return Rejected("Valitse rahoittaja");
      }
      store.apps := AppsWithStatus(store.apps, id, "SUBMITTED_TO_FINANCIER");
      if application.Some? {
        application := Some(application.value.(status := "SUBMITTED_TO_FINANCIER"));
      }
      var assignment := Assignment(newId, id, selectedFinancierId.value, "PENDING", if notes == "" then None else Some(notes), now);
      assignmentList := assignmentList + [assignment];
      outcome := Done;
    }

    /**
     * The approve button of an offer waiting for the administrator: the
     * stored offer becomes SENT with its approval time, and the stored
     * application OFFER_SENT, each where it is stored.
     */
    method ApproveOffer(store: DemoStore, offerId: int, now: string)
      requires Valid()
      modifies this, store
      ensures Valid()
      ensures var i := IndexOfId(old(store.offers), OfferId, offerId);
              if i >= 0 then store.offers == old(store.offers)[i := old(store.offers)[i].(status := "SENT", approvedAt := Some(now))]
              else store.offers == old(store.offers)
      ensures var j := IndexOfId(old(store.apps), AppId, id);
              if j >= 0 then store.apps == old(store.apps)[j := old(store.apps)[j].(status := "OFFER_SENT")]
              else store.apps == old(store.apps)
      ensures offerList == OffersWithStatus(old(offerList), offerId, "SENT")
      ensures old(application).Some? ==> application == Some(old(application).value.(status := "OFFER_SENT"))
      ensures old(application).None? ==> application == None
      ensures store.contracts == old(store.contracts) && store.infoRequests == old(store.infoRequests)
      ensures store.customerRead == old(store.customerRead) && store.financierRead == old(store.financierRead)
      ensures financierList == old(financierList) && assignmentList == old(assignmentList)
      ensures contractList == old(contractList) && infoRequestList == old(infoRequestList)
    {
      var i := IndexOfId(store.offers, OfferId, offerId);
      if i >= 0 {
        store.offers := store.offers[i := store.offers[i].(status := "SENT", approvedAt := Some(now))];
      }
      var j := IndexOfId(store.apps, AppId, id);
      if j >= 0 {
        store.apps := store.apps[j := store.apps[j].(status := "OFFER_SENT")];
      }
      offerList := OffersWithStatus(offerList, offerId, "SENT");
      if application.Some? {
        application := Some(application.value.(status := "OFFER_SENT"));
      }
    }
  }

  /** An assignment touches only the applications with the id, and only their status. */
  lemma AssignTouchesOnlyApplication(apps: seq<Application>, id: int)
    ensures forall k :: 0 <= k < |apps| && apps[k].id != id ==> AppsWithStatus(apps, id, "SUBMITTED_TO_FINANCIER")[k] == apps[k]
    ensures forall k :: 0 <= k < |apps| ==> AppsWithStatus(apps, id, "SUBMITTED_TO_FINANCIER")[k].(status := apps[k].status) == apps[k]
    ensures FindById(apps, AppId, id).Some? ==>
              FindById(AppsWithStatus(apps, id, "SUBMITTED_TO_FINANCIER"), AppId, id).value.status == "SUBMITTED_TO_FINANCIER"
  {
    var r := AppsWithStatus(apps, id, "SUBMITTED_TO_FINANCIER");
    if FindById(apps, AppId, id).Some? {
      var i := IndexOfId(apps, AppId, id);
      IndexOfIdAt(r, AppId, id, i);
    }
  }
}
