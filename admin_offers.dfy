/**
 * The administrator's list of all offers in demo mode: approving an offer,
 * the status and text filters, and the number waiting for approval.
 */
module AdminOffers {
  import opened Common
  import opened Records
  import opened DemoStorage

  const DemoOffers: seq<Offer> := []

  /** Whether the offer passes the status filter ('all' lets everything through). */
  predicate MatchesStatus(o: Offer, statusFilter: string)
  {
    statusFilter == "all" || o.status == statusFilter
  }

  /** A case-insensitive substring test, as `a.toLowerCase().includes(b.toLowerCase())`. */
  predicate ContainsIgnoringCase(text: string, term: string)
  {
    Contains(ToLower(text), ToLower(term))
  }

  /**
   * Whether the offer passes the search box: an empty search, or the term
   * in its application's reference or company name, or in the financier's
   * name. An offer without an application is matched on the financier only.
   */
  predicate MatchesSearch(o: Offer, term: string)
  {
    term == ""
    || (o.application.Some? && ContainsIgnoringCase(o.application.value.referenceNumber, term))
    || (o.application.Some? && ContainsIgnoringCase(o.application.value.companyName, term))
    || ContainsIgnoringCase(o.financierName, term)
  }

  /** `filteredOffers`: the offers passing both filters, in list order. */
  function FilteredOffers(offers: seq<Offer>, statusFilter: string, term: string): (r: seq<Offer>)
    ensures |r| <= |offers|
    ensures forall o :: o in r <==> o in offers && MatchesStatus(o, statusFilter) && MatchesSearch(o, term)
    ensures |offers| == 1 ==> r == if MatchesStatus(offers[0], statusFilter) && MatchesSearch(offers[0], term) then offers else []
  {
    if |offers| == 0 then []
    else
      var rest := FilteredOffers(offers[1..], statusFilter, term);
      if MatchesStatus(offers[0], statusFilter) && MatchesSearch(offers[0], term) then [offers[0]] + rest else rest
  }
  /** Filtering a concatenation gives the filtered first part followed by the filtered second part. */
  lemma {:induction false} FilteredOffersAppend(a: seq<Offer>, b: seq<Offer>, statusFilter: string, term: string)
    ensures FilteredOffers(a + b, statusFilter, term) == FilteredOffers(a, statusFilter, term) + FilteredOffers(b, statusFilter, term)
  {
    if |a| == 0 {
      assert a + b == b;
    } else {
      assert (a + b)[0] == a[0];
      assert (a + b)[1..] == a[1..] + b;
      FilteredOffersAppend(a[1..], b, statusFilter, term);
    }
  }


  /** With 'all' and an empty search every offer is listed. */
  lemma {:induction false} NoFilterListsAll(offers: seq<Offer>)
    ensures FilteredOffers(offers, "all", "") == offers
  {
    if |offers| > 0 {
      NoFilterListsAll(offers[1..]);
      assert [offers[0]] + offers[1..] == offers;
    }
  }

  /** The search does not depend on the case of the term. */
  lemma {:induction false} SearchIgnoresCase(offers: seq<Offer>, statusFilter: string, term: string)
    ensures FilteredOffers(offers, statusFilter, term) == FilteredOffers(offers, statusFilter, ToLower(term))
  {
    ToLowerIdempotent(term);
    assert term == "" <==> ToLower(term) == "";
    if |offers| > 0 {
      SearchIgnoresCase(offers[1..], statusFilter, term);
    }
  }

  /** `pendingCount`: the offers waiting for the administrator. */
  function PendingCount(offers: seq<Offer>): (n: nat)
    ensures n <= |offers|
    ensures |offers| == 1 ==> n == if offers[0].status == "PENDING_ADMIN" then 1 else 0
  {
    if |offers| == 0 then 0
    else (if offers[0].status == "PENDING_ADMIN" then 1 else 0) + PendingCount(offers[1..])
  }
  /** The pending count of a concatenation is the sum of the counts of its parts. */
  lemma {:induction false} PendingCountAppend(a: seq<Offer>, b: seq<Offer>)
    ensures PendingCount(a + b) == PendingCount(a) + PendingCount(b)
  {
    if |a| == 0 {
      assert a + b == b;
    } else {
      assert (a + b)[0] == a[0];
      assert (a + b)[1..] == a[1..] + b;
      PendingCountAppend(a[1..], b);
    }
  }


  /** The pending count is the length of the list filtered on PENDING_ADMIN. */
  lemma {:induction false} PendingCountIsFiltered(offers: seq<Offer>)
    ensures PendingCount(offers) == |FilteredOffers(offers, "PENDING_ADMIN", "")|
  {
    if |offers| > 0 {
      PendingCountIsFiltered(offers[1..]);
    }
  }

  class OffersPage {
    var offerList: seq<Offer>

    /** The demo branch of the loading effect: sample offers, then the stored ones. */
    constructor Load(store: DemoStore)
      ensures offerList == DemoOffers + store.offers
      ensures offerList == store.offers
    {
      offerList := DemoOffers + store.offers;
      assert DemoOffers + store.offers == store.offers;
    }

    /**
     * `handleApprove`: the stored offer with the id becomes SENT; its
     * application, when the offer names a non-zero one and it is stored,
     * becomes OFFER_SENT. Without a stored offer no application changes.
     */
    method Approve(store: DemoStore, offerId: int)
      modifies this, store
      ensures var i := IndexOfId(old(store.offers), OfferId, offerId);
              if i >= 0 then store.offers == old(store.offers)[i := old(store.offers)[i].(status := "SENT")]
              else store.offers == old(store.offers)
      ensures var i := IndexOfId(old(store.offers), OfferId, offerId);
              var appId := if i >= 0 then old(store.offers)[i].applicationId else 0;
              var j := IndexOfId(old(store.apps), AppId, appId);
              if appId != 0 && j >= 0 then store.apps == old(store.apps)[j := old(store.apps)[j].(status := "OFFER_SENT")]
              else store.apps == old(store.apps)
      ensures offerList == OffersWithStatus(old(offerList), offerId, "SENT")
      ensures store.contracts == old(store.contracts) && store.infoRequests == old(store.infoRequests)
      ensures store.customerRead == old(store.customerRead) && store.financierRead == old(store.financierRead)
    {
      var i := IndexOfId(store.offers, OfferId, offerId);
      var applicationId: Option<int> := None;
      if i >= 0 {
        store.offers := store.offers[i := store.offers[i].(status := "SENT")];
        applicationId := Some(store.offers[i].applicationId);
      }
      if applicationId.Some? && applicationId.value != 0 {
        var j := IndexOfId(store.apps, AppId, applicationId.value);
        if j >= 0 {
          store.apps := store.apps[j := store.apps[j].(status := "OFFER_SENT")];
        }
      }
      offerList := OffersWithStatus(offerList, offerId, "SENT");
    }
  }
}
