/**
 * The customer's dashboard in the demo release: which stored applications
 * belong to the signed-in user, the status each one is shown with (derived
 * from its latest contract and latest offer), the pending information
 * requests and the counters.
 */
module CustomerDashboard {
  import opened Common
  import opened Records

  /** The sample applications of the dashboard (none). */
  const DemoCustomerApplications: seq<Application> := []
  const DemoUserEmail: string := "rape@raksarape.fi"

  /** Whether the application was filed with the user's e-mail address, ignoring case. */
  predicate OwnedBy(app: Application, userEmail: Option<string>)
  {
    userEmail.Some? && ToLower(app.contactEmail) == userEmail.value
  }

  /** The stored applications of the user; `userEmail` is already lower-cased. */
  function UserApps(apps: seq<Application>, userEmail: Option<string>): (r: seq<Application>)
    ensures |r| <= |apps|
    ensures forall a :: a in r <==> a in apps && OwnedBy(a, userEmail)
    ensures |apps| == 1 ==> r == if OwnedBy(apps[0], userEmail) then apps else []
  {
    if |apps| == 0 then []
    else
      var rest := UserApps(apps[1..], userEmail);
      if OwnedBy(apps[0], userEmail) then [apps[0]] + rest else rest
  }

  /** The user's applications among a concatenation: those of the first part, then those of the second. */
  lemma {:induction false} UserAppsAppend(a: seq<Application>, b: seq<Application>, userEmail: Option<string>)
    ensures UserApps(a + b, userEmail) == UserApps(a, userEmail) + UserApps(b, userEmail)
  {
    if |a| == 0 {
      assert a + b == b;
    } else {
      assert (a + b)[0] == a[0];
      assert (a + b)[1..] == a[1..] + b;
      UserAppsAppend(a[1..], b, userEmail);
    }
  }

  /** The user's e-mail as the dashboard compares it. */
  function UserEmail(email: Option<string>): (e: Option<string>)
    ensures e.Some? <==> email.Some?
    ensures e.Some? ==> e.value == ToLower(email.value)
  {
    if email.Some? then Some(ToLower(email.value)) else None
  }

  /** The same stored applications are listed whatever the case of the address the user signed in with. */
  lemma UserAppsIgnoreCase(apps: seq<Application>, email: string)
    ensures UserApps(apps, UserEmail(Some(email))) == UserApps(apps, UserEmail(Some(ToLower(email))))
  {
    ToLowerIdempotent(email);
  }

  /** The applications listed for the user: the samples for the demo user, then the stored ones. */
  function ListedApps(apps: seq<Application>, userEmail: Option<string>): (r: seq<Application>)
    ensures r == UserApps(apps, userEmail)
  {
    var own := UserApps(apps, userEmail);
    if userEmail == Some(DemoUserEmail) then DemoCustomerApplications + own else own
  }

  function ContractAppId(c: Contract): int { c.applicationId }

  /** The latest stored contract of the application. */
  function LatestContract(contracts: seq<Contract>, appId: int): (c: Option<Contract>)
    ensures c.None? <==> forall k :: 0 <= k < |contracts| ==> contracts[k].applicationId != appId
    ensures c.Some? ==> exists i :: 0 <= i < |contracts| && contracts[i] == c.value && c.value.applicationId == appId
                                    && forall k :: i < k < |contracts| ==> contracts[k].applicationId != appId
  {
    var i := LastIndexOfId(contracts, ContractAppId, appId);
    if i < 0 then
      assert forall k :: 0 <= k < |contracts| ==> contracts[k].applicationId != appId by {
        forall k | 0 <= k < |contracts| ensures contracts[k].applicationId != appId {
          assert ContractAppId(contracts[k]) in Ids(contracts, ContractAppId);
        }
      }
      None
    else Some(contracts[i])
  }

  /** Whether an offer belongs to an application: by its application id or by the copy it carries. */
  predicate OfferFor(o: Offer, appId: int)
  {
    o.applicationId == appId || (o.application.Some? && o.application.value.id == appId)
  }

  /** The latest stored offer of the application. */
  function LatestOffer(offers: seq<Offer>, appId: int): (o: Option<Offer>)
    ensures o.None? <==> forall k :: 0 <= k < |offers| ==> !OfferFor(offers[k], appId)
    ensures o.Some? ==> exists i :: 0 <= i < |offers| && offers[i] == o.value && OfferFor(o.value, appId)
                                    && forall k :: i < k < |offers| ==> !OfferFor(offers[k], appId)
    decreases |offers|
  {
    if |offers| == 0 then None
    else if OfferFor(offers[|offers| - 1], appId) then Some(offers[|offers| - 1])
    else
      var o := LatestOffer(offers[..|offers| - 1], appId);
      assert forall k :: 0 <= k < |offers| - 1 ==> offers[..|offers| - 1][k] == offers[k];
      o
  }

  /**
   * The status shown: a sent or signed latest contract decides; otherwise an
   * approved, sent or accepted latest offer; otherwise the stored status.
   */
  function ShownStatus(app: Application, contracts: seq<Contract>, offers: seq<Offer>): string
  {
    var c := LatestContract(contracts, app.id);
    var o := LatestOffer(offers, app.id);
    if c.Some? && c.value.status == "SENT" then "CONTRACT_SENT"
    else if c.Some? && c.value.status == "SIGNED" then "SIGNED"
    else if o.Some? && (o.value.status == "APPROVED" || o.value.status == "SENT") then "OFFER_SENT"
    else if o.Some? && o.value.status == "ACCEPTED" then "OFFER_ACCEPTED"
    else app.status
  }

  /** The listed applications with their shown status; nothing but the status changes. */
  function WithShownStatus(apps: seq<Application>, contracts: seq<Contract>, offers: seq<Offer>): (r: seq<Application>)
    ensures |r| == |apps|
    ensures forall k :: 0 <= k < |r| ==> r[k] == apps[k].(status := ShownStatus(apps[k], contracts, offers))
  {
    seq(|apps|, k requires 0 <= k < |apps| => apps[k].(status := ShownStatus(apps[k], contracts, offers)))
  }

  /** Records of other applications do not change an application's shown status. */
  lemma OtherRecordsIrrelevant(app: Application, contracts: seq<Contract>, offers: seq<Offer>, c: Contract, o: Offer)
    requires c.applicationId != app.id && !OfferFor(o, app.id)
    ensures ShownStatus(app, contracts + [c], offers + [o]) == ShownStatus(app, contracts, offers)
  {
    var cs := contracts + [c];
    var os := offers + [o];
    assert cs[..|cs| - 1] == contracts;
    assert os[..|os| - 1] == offers;
    assert LastIndexOfId(cs, ContractAppId, app.id) == LastIndexOfId(contracts, ContractAppId, app.id);
  }

  /** Once the latest contract is signed, any further offer leaves the application SIGNED. */
  lemma SignedContractWins(app: Application, contracts: seq<Contract>, offers: seq<Offer>, o: Offer)
    requires LatestContract(contracts, app.id).Some? && LatestContract(contracts, app.id).value.status == "SIGNED"
    ensures ShownStatus(app, contracts, offers + [o]) == "SIGNED"
  {
  }

  /** The shown status is the stored one or one of the four the records can give. */
  lemma ShownStatusRange(app: Application, contracts: seq<Contract>, offers: seq<Offer>)
    ensures ShownStatus(app, contracts, offers) in {"CONTRACT_SENT", "SIGNED", "OFFER_SENT", "OFFER_ACCEPTED", app.status}
  {
  }

  /** An offer the admin has not approved (such as PENDING_ADMIN) leaves the stored status, when no contract decides. */
  lemma UnapprovedOfferHidden(app: Application, contracts: seq<Contract>, offers: seq<Offer>)
    requires LatestContract(contracts, app.id).None? || LatestContract(contracts, app.id).value.status !in {"SENT", "SIGNED"}
    requires LatestOffer(offers, app.id).Some? && LatestOffer(offers, app.id).value.status !in {"APPROVED", "SENT", "ACCEPTED"}
    ensures ShownStatus(app, contracts, offers) == app.status
  {
  }

  /** A sent latest contract shows as CONTRACT_SENT whatever the offers say. */
  lemma SentContractWins(app: Application, contracts: seq<Contract>, offers: seq<Offer>)
    requires LatestContract(contracts, app.id).Some? && LatestContract(contracts, app.id).value.status == "SENT"
    ensures ShownStatus(app, contracts, offers) == "CONTRACT_SENT"
  {
  }

  /** A new latest offer approved for the customer shows, unless a contract was sent or signed. */
  lemma NewOfferShows(app: Application, contracts: seq<Contract>, offers: seq<Offer>, o: Offer)
    requires OfferFor(o, app.id) && o.status == "SENT"
    requires LatestContract(contracts, app.id).None?
    ensures ShownStatus(app, contracts, offers + [o]) == "OFFER_SENT"
  {
    var os := offers + [o];
    assert os[|os| - 1] == o;
  }

  /** Whether an application id is among the listed applications. */
  predicate ListedId(apps: seq<Application>, appId: int)
  {
    exists k :: 0 <= k < |apps| && apps[k].id == appId
  }

  /** A request from the financier on a listed application that still waits for the user's answer. */
  predicate PendingFor(x: InfoRequest, apps: seq<Application>)
  {
    ListedId(apps, x.applicationId) && x.status == "PENDING" && x.sender == "financier"
  }

  /** The requests from the financier still waiting for the user's answer, in stored order. */
  function PendingInfoRequests(requests: seq<InfoRequest>, apps: seq<Application>): (r: seq<InfoRequest>)
    ensures |r| <= |requests|
    ensures forall x :: x in r <==> x in requests && PendingFor(x, apps)
    ensures |requests| == 1 ==> r == if PendingFor(requests[0], apps) then requests else []
  {
    if |requests| == 0 then []
    else
      var rest := PendingInfoRequests(requests[1..], apps);
      var x := requests[0];
      if PendingFor(x, apps) then [x] + rest else rest
  }

  /** The pending requests among a concatenation: those of the first part, then those of the second. */
  lemma {:induction false} PendingInfoRequestsAppend(a: seq<InfoRequest>, b: seq<InfoRequest>, apps: seq<Application>)
    ensures PendingInfoRequests(a + b, apps) == PendingInfoRequests(a, apps) + PendingInfoRequests(b, apps)
  {
    if |a| == 0 {
      assert a + b == b;
    } else {
      assert (a + b)[0] == a[0];
      assert (a + b)[1..] == a[1..] + b;
      PendingInfoRequestsAppend(a[1..], b, apps);
    }
  }

  /** The number of applications whose status is one of `statuses`. */
  function CountStatus(apps: seq<Application>, statuses: set<string>): (n: nat)
    ensures n <= |apps|
    ensures |apps| == 1 ==> n == if apps[0].status in statuses then 1 else 0
  {
    if |apps| == 0 then 0
    else (if apps[0].status in statuses then 1 else 0) + CountStatus(apps[1..], statuses)
  }

  /** The count over a concatenation is the sum of the counts over its parts. */
  lemma {:induction false} CountStatusAppend(a: seq<Application>, b: seq<Application>, statuses: set<string>)
    ensures CountStatus(a + b, statuses) == CountStatus(a, statuses) + CountStatus(b, statuses)
  {
    if |a| == 0 {
      assert a + b == b;
    } else {
      assert (a + b)[0] == a[0];
      assert (a + b)[1..] == a[1..] + b;
      CountStatusAppend(a[1..], b, statuses);
    }
  }

  /** Counting with two disjoint sets of statuses counts with their union. */
  lemma {:induction false} CountDisjoint(apps: seq<Application>, a: set<string>, b: set<string>)
    requires a !! b
    ensures CountStatus(apps, a) + CountStatus(apps, b) == CountStatus(apps, a + b)
  {
    if |apps| > 0 {
      CountDisjoint(apps[1..], a, b);
    }
  }

  const PendingStatuses: set<string> := {"SUBMITTED", "SUBMITTED_TO_FINANCIER", "INFO_REQUESTED"}
  const CompletedStatuses: set<string> := {"SIGNED", "CLOSED"}

  /** The dashboard's counters. */
  datatype Stats = Stats(total: nat, pending: nat, offersAvailable: nat, contractsAvailable: nat, completed: nat)

  function DashboardStats(apps: seq<Application>): (s: Stats)
    ensures s.total == |apps|
    ensures s.pending <= s.total && s.offersAvailable <= s.total
    ensures s.contractsAvailable <= s.total && s.completed <= s.total
    ensures s.pending == CountStatus(apps, {"SUBMITTED", "SUBMITTED_TO_FINANCIER", "INFO_REQUESTED"})
    ensures s.offersAvailable == CountStatus(apps, {"OFFER_SENT"})
    ensures s.contractsAvailable == CountStatus(apps, {"CONTRACT_SENT"})
    ensures s.completed == CountStatus(apps, {"SIGNED", "CLOSED"})
  {
    Stats(|apps|, CountStatus(apps, PendingStatuses), CountStatus(apps, {"OFFER_SENT"}),
          CountStatus(apps, {"CONTRACT_SENT"}), CountStatus(apps, CompletedStatuses))
  }

  /** No application is counted twice: the four counters add up to at most the total. */
  lemma StatsAddUp(apps: seq<Application>)
    ensures var s := DashboardStats(apps);
            s.pending + s.offersAvailable + s.contractsAvailable + s.completed <= s.total
  {
    CountDisjoint(apps, PendingStatuses, {"OFFER_SENT"});
    CountDisjoint(apps, PendingStatuses + {"OFFER_SENT"}, {"CONTRACT_SENT"});
    CountDisjoint(apps, PendingStatuses + {"OFFER_SENT"} + {"CONTRACT_SENT"}, CompletedStatuses);
  }

  /** The three most recent applications shown first: the head of the list. */
  function RecentApplications(apps: seq<Application>): (r: seq<Application>)
    ensures |r| == if |apps| < 3 then |apps| else 3
    ensures r == apps[..|r|]
  {
    if |apps| < 3 then apps else apps[..3]
  }

  /** The whole dashboard state for a user. */
  datatype Dashboard = Dashboard(apps: seq<Application>, pendingInfoRequests: seq<InfoRequest>, stats: Stats)

  function Build(storedApps: seq<Application>, offers: seq<Offer>, contracts: seq<Contract>,
                 requests: seq<InfoRequest>, email: Option<string>): (d: Dashboard)
    ensures |d.apps| == |UserApps(storedApps, UserEmail(email))|
    ensures forall k :: 0 <= k < |d.apps| ==>
              d.apps[k].(status := UserApps(storedApps, UserEmail(email))[k].status) == UserApps(storedApps, UserEmail(email))[k]
    ensures d.apps == WithShownStatus(UserApps(storedApps, UserEmail(email)), contracts, offers)
    ensures d.stats == DashboardStats(d.apps)
    ensures d.pendingInfoRequests == PendingInfoRequests(requests, d.apps)
  {
    var listed := WithShownStatus(ListedApps(storedApps, UserEmail(email)), contracts, offers);
    Dashboard(listed, PendingInfoRequests(requests, listed), DashboardStats(listed))
  }
}
