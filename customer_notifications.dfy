/**
 * The customer's bell in the demo release (`DashboardLayout`): notifications
 * derived from the stored records of the user's applications, with their
 * read-keys kept under 'demo-customer-notifications-read'.
 *
 * Three kinds are built: an offer sent or approved (id = the offer's id,
 * key 'offer-<id>'), a contract sent for signing (id = 1000 + the
 * contract's id, key 'contract-<id>') and a pending request from the
 * financier (id = 2000 + the request's id, key 'ir-<id>'). Marking a
 * notification decodes its id back to the key by subtracting the offset.
 */
module CustomerNotifications {
  import opened Common
  import opened Records
  import opened DemoStorage
  import opened Sorting
  import opened Notifications
  import Dashboard = CustomerDashboard

  const OfferNewKind: string := "OFFER_NEW"
  const ContractSentKind: string := "CONTRACT_SENT"
  const InfoRequestKind: string := "INFO_REQUEST"

  predicate CustomerKind(kind: string)
  {
    kind == OfferNewKind || kind == ContractSentKind || kind == InfoRequestKind
  }

  function OfferKey(offerId: int): string { "offer-" + IntToString(offerId) }
  function ContractKey(contractId: int): string { "contract-" + IntToString(contractId) }
  function RequestKey(requestId: int): string { "ir-" + IntToString(requestId) }

  /**
   * The key `handleMarkAsRead` derives from a notification's kind and id;
   * an unknown kind gives the empty key.
   */
  function ReadKey(kind: string, id: int): (key: string)
    ensures CustomerKind(kind) <==> key != ""
  {
    if kind == OfferNewKind then OfferKey(id)
    else if kind == ContractSentKind then ContractKey(id - 1000)
    else if kind == InfoRequestKind then RequestKey(id - 2000)
    else ""
  }

  function KeyOf(n: Notification): string { ReadKey(n.kind, n.id) }

  /** The first character of a key tells the kind. */
  lemma KeyRevealsKind(n: Notification)
    requires CustomerKind(n.kind)
    ensures KeyOf(n)[0] == (if n.kind == OfferNewKind then 'o' else if n.kind == ContractSentKind then 'c' else 'i')
  {
  }

  /** Two notifications of the built kinds with the same key are of the same kind. */
  lemma SameKeySameKind(a: Notification, b: Notification)
    requires CustomerKind(a.kind) && CustomerKind(b.kind) && KeyOf(a) == KeyOf(b)
    ensures a.kind == b.kind
  {
    KeyRevealsKind(a);
    KeyRevealsKind(b);
  }

  /** Two notifications of the built kinds share a key only when they share kind and id. */
  lemma ReadKeyInjective(a: Notification, b: Notification)
    requires CustomerKind(a.kind) && CustomerKind(b.kind)
    ensures KeyOf(a) == KeyOf(b) ==> !Distinct(a, b)
  {
    if KeyOf(a) == KeyOf(b) {
      SameKeySameKind(a, b);
      if a.kind == OfferNewKind {
        PrefixedIntInjective("offer-", a.id, b.id);
      } else if a.kind == ContractSentKind {
        PrefixedIntInjective("contract-", a.id - 1000, b.id - 1000);
      } else {
        PrefixedIntInjective("ir-", a.id - 2000, b.id - 2000);
      }
    }
  }

  /** The key of each notification in `handleMarkAllAsRead`, with 'notif-<id>' for an unknown kind. */
  function MarkAllKey(n: Notification): (key: string)
    ensures CustomerKind(n.kind) ==> key == KeyOf(n)
    ensures !CustomerKind(n.kind) ==> key == "notif-" + IntToString(n.id)
  {
    if n.kind == OfferNewKind then OfferKey(n.id)
    else if n.kind == ContractSentKind then ContractKey(n.id - 1000)
    else if n.kind == InfoRequestKind then RequestKey(n.id - 2000)
    else "notif-" + IntToString(n.id)
  }

  function MarkAllKeys(s: seq<Notification>): (keys: seq<string>)
    ensures |keys| == |s|
    ensures forall k :: 0 <= k < |s| ==> keys[k] == MarkAllKey(s[k])
  {
    seq(|s|, k requires 0 <= k < |s| => MarkAllKey(s[k]))
  }

  /** The key `handleMarkAsRead` stores for an id: that of the first listed notification with it, else "". */
  function MarkAsReadKey(list: seq<Notification>, id: int): (key: string)
    ensures (forall k :: 0 <= k < |list| ==> list[k].id != id) ==> key == ""
    ensures forall k :: 0 <= k < |list| && list[k].id == id && (forall l :: 0 <= l < k ==> list[l].id != id) ==>
              key == KeyOf(list[k])
  {
    var i := IndexOfId(list, NotificationId, id);
    if i < 0 then ""
    else
      assert forall k :: 0 <= k < |list| && list[k].id == id && (forall l :: 0 <= l < k ==> list[l].id != id) ==> k == i;
      KeyOf(list[i])
  }

  function AppUrl(appId: int): string { "/dashboard/applications/" + IntToString(appId) }

  predicate OfferShown(o: Offer, userApps: seq<Application>)
  {
    Dashboard.ListedId(userApps, o.applicationId) && (o.status == "SENT" || o.status == "APPROVED")
  }

  predicate ContractShown(c: Contract, userApps: seq<Application>)
  {
    Dashboard.ListedId(userApps, c.applicationId) && c.status == "SENT"
  }

  predicate RequestShown(r: InfoRequest, userApps: seq<Application>)
  {
    Dashboard.ListedId(userApps, r.applicationId) && r.sender == "financier" && r.status == "PENDING"
  }

  /** The notification of an offer: read exactly when its decoded key was stored. */
  function OfferNotification(o: Offer, read: seq<string>): (n: Notification)
    ensures n.id == o.id && n.kind == OfferNewKind && n.createdAt == o.createdAt
    ensures n.isRead <==> KeyOf(n) in read
  {
    Notification(o.id, "Uusi tarjous!", "Rahoittaja on lähettänyt sinulle tarjouksen", OfferKey(o.id) in read,
                 AppUrl(o.applicationId), o.createdAt, OfferNewKind)
  }

  /** The notification of a contract, dated when it was sent (or created). */
  function ContractNotification(c: Contract, read: seq<string>): (n: Notification)
    ensures n.id == 1000 + c.id && n.kind == ContractSentKind && n.createdAt == OrElse(c.sentAt, c.createdAt)
    ensures n.isRead <==> KeyOf(n) in read
  {
    Notification(1000 + c.id, "Sopimus allekirjoitettavana!", "Rahoittaja on lähettänyt sopimuksen allekirjoitettavaksi",
                 ContractKey(c.id) in read, AppUrl(c.applicationId), OrElse(c.sentAt, c.createdAt), ContractSentKind)
  }

  /** The notification of a pending request from the financier. */
  function RequestNotification(r: InfoRequest, read: seq<string>): (n: Notification)
    ensures n.id == 2000 + r.id && n.kind == InfoRequestKind && n.createdAt == r.createdAt
    ensures n.isRead <==> KeyOf(n) in read
  {
    Notification(2000 + r.id, "Lisätietopyyntö", "Rahoittaja pyytää lisätietoja hakemukseesi", RequestKey(r.id) in read,
                 AppUrl(r.applicationId), r.createdAt, InfoRequestKind)
  }

  /** The offer notifications, in stored order. */
  function OfferNotes(offers: seq<Offer>, userApps: seq<Application>, read: seq<string>): (r: seq<Notification>)
    ensures |r| <= |offers|
    ensures |offers| == 1 ==> r == if OfferShown(offers[0], userApps) then [OfferNotification(offers[0], read)] else []
    ensures forall n :: n in r ==> n.kind == OfferNewKind && (n.isRead <==> KeyOf(n) in read)
  {
    if |offers| == 0 then []
    else
      var o := offers[|offers| - 1];
      OfferNotes(offers[..|offers| - 1], userApps, read) + if OfferShown(o, userApps) then [OfferNotification(o, read)] else []
  }
  /** The offer notifications of a concatenation: those of the first part, then those of the second. */
  lemma {:induction false} OfferNotesAppend(a: seq<Offer>, b: seq<Offer>, userApps: seq<Application>, read: seq<string>)
    ensures OfferNotes(a + b, userApps, read) == OfferNotes(a, userApps, read) + OfferNotes(b, userApps, read)
    decreases |b|
  {
    if |b| == 0 {
      assert a + b == a;
    } else {
      assert (a + b)[..|a + b| - 1] == a + b[..|b| - 1];
      assert (a + b)[|a + b| - 1] == b[|b| - 1];
      OfferNotesAppend(a, b[..|b| - 1], userApps, read);
    }
  }

  /** The offer notifications are exactly the notifications of the records that are shown. */
  lemma OfferNotesMembers(offers: seq<Offer>, userApps: seq<Application>, read: seq<string>)
    ensures forall n :: n in OfferNotes(offers, userApps, read) <==>
              exists k :: 0 <= k < |offers| && OfferShown(offers[k], userApps) && n == OfferNotification(offers[k], read)
  {
    OfferNotesSound(offers, userApps, read);
    OfferNotesComplete(offers, userApps, read);
  }

  /** Each offer notification comes from a shown record. */
  lemma {:induction false} OfferNotesSound(offers: seq<Offer>, userApps: seq<Application>, read: seq<string>)
    ensures forall n :: n in OfferNotes(offers, userApps, read) ==>
              exists k :: 0 <= k < |offers| && OfferShown(offers[k], userApps) && n == OfferNotification(offers[k], read)
    decreases |offers|
  {
    if |offers| > 0 {
      var init := offers[..|offers| - 1];
      var last := offers[|offers| - 1];
      OfferNotesSound(init, userApps, read);
      var tail: seq<Notification> := if OfferShown(last, userApps) then [OfferNotification(last, read)] else [];
      assert OfferNotes(offers, userApps, read) == OfferNotes(init, userApps, read) + tail;
      forall n | n in OfferNotes(offers, userApps, read)
        ensures exists k :: 0 <= k < |offers| && OfferShown(offers[k], userApps) && n == OfferNotification(offers[k], read)
      {
        if n in OfferNotes(init, userApps, read) {
          var k :| 0 <= k < |init| && OfferShown(init[k], userApps) && n == OfferNotification(init[k], read);
          assert offers[k] == init[k];
        } else {
          assert n in tail;
        }
      }
    }
  }

  /** Each shown record gives its offer notification. */
  lemma OfferNotesComplete(offers: seq<Offer>, userApps: seq<Application>, read: seq<string>)
    ensures forall k :: 0 <= k < |offers| && OfferShown(offers[k], userApps) ==>
              OfferNotification(offers[k], read) in OfferNotes(offers, userApps, read)
  {
    forall k | 0 <= k < |offers| && OfferShown(offers[k], userApps)
      ensures OfferNotification(offers[k], read) in OfferNotes(offers, userApps, read)
    {
      OfferNotesHas(offers, k, userApps, read);
    }
  }

  /** The record at `k`, when shown, gives its offer notification: cut the list around it. */
  lemma OfferNotesHas(offers: seq<Offer>, k: nat, userApps: seq<Application>, read: seq<string>)
    requires k < |offers| && OfferShown(offers[k], userApps)
    ensures OfferNotification(offers[k], read) in OfferNotes(offers, userApps, read)
  {
    var pre, post := offers[..k], offers[k + 1..];
    assert offers == pre + [offers[k]] + post;
    OfferNotesAppend(pre + [offers[k]], post, userApps, read);
    OfferNotesAppend(pre, [offers[k]], userApps, read);
    assert OfferNotes([offers[k]], userApps, read) == [OfferNotification(offers[k], read)];
  }



  function ContractNotes(contracts: seq<Contract>, userApps: seq<Application>, read: seq<string>): (r: seq<Notification>)
    ensures |r| <= |contracts|
    ensures |contracts| == 1 ==> r == if ContractShown(contracts[0], userApps) then [ContractNotification(contracts[0], read)] else []
    ensures forall n :: n in r ==> n.kind == ContractSentKind && (n.isRead <==> KeyOf(n) in read)
  {
    if |contracts| == 0 then []
    else
      var c := contracts[|contracts| - 1];
      ContractNotes(contracts[..|contracts| - 1], userApps, read) + if ContractShown(c, userApps) then [ContractNotification(c, read)] else []
  }
  /** The contract notifications of a concatenation: those of the first part, then those of the second. */
  lemma {:induction false} ContractNotesAppend(a: seq<Contract>, b: seq<Contract>, userApps: seq<Application>, read: seq<string>)
    ensures ContractNotes(a + b, userApps, read) == ContractNotes(a, userApps, read) + ContractNotes(b, userApps, read)
    decreases |b|
  {
    if |b| == 0 {
      assert a + b == a;
    } else {
      assert (a + b)[..|a + b| - 1] == a + b[..|b| - 1];
      assert (a + b)[|a + b| - 1] == b[|b| - 1];
      ContractNotesAppend(a, b[..|b| - 1], userApps, read);
    }
  }

  /** The contract notifications are exactly the notifications of the records that are shown. */
  lemma ContractNotesMembers(contracts: seq<Contract>, userApps: seq<Application>, read: seq<string>)
    ensures forall n :: n in ContractNotes(contracts, userApps, read) <==>
              exists k :: 0 <= k < |contracts| && ContractShown(contracts[k], userApps) && n == ContractNotification(contracts[k], read)
  {
    ContractNotesSound(contracts, userApps, read);
    ContractNotesComplete(contracts, userApps, read);
  }

  /** Each contract notification comes from a shown record. */
  lemma {:induction false} ContractNotesSound(contracts: seq<Contract>, userApps: seq<Application>, read: seq<string>)
    ensures forall n :: n in ContractNotes(contracts, userApps, read) ==>
              exists k :: 0 <= k < |contracts| && ContractShown(contracts[k], userApps) && n == ContractNotification(contracts[k], read)
    decreases |contracts|
  {
    if |contracts| > 0 {
      var init := contracts[..|contracts| - 1];
      var last := contracts[|contracts| - 1];
      ContractNotesSound(init, userApps, read);
      var tail: seq<Notification> := if ContractShown(last, userApps) then [ContractNotification(last, read)] else [];
      assert ContractNotes(contracts, userApps, read) == ContractNotes(init, userApps, read) + tail;
      forall n | n in ContractNotes(contracts, userApps, read)
        ensures exists k :: 0 <= k < |contracts| && ContractShown(contracts[k], userApps) && n == ContractNotification(contracts[k], read)
      {
        if n in ContractNotes(init, userApps, read) {
          var k :| 0 <= k < |init| && ContractShown(init[k], userApps) && n == ContractNotification(init[k], read);
          assert contracts[k] == init[k];
        } else {
          assert n in tail;
        }
      }
    }
  }

  /** Each shown record gives its contract notification. */
  lemma ContractNotesComplete(contracts: seq<Contract>, userApps: seq<Application>, read: seq<string>)
    ensures forall k :: 0 <= k < |contracts| && ContractShown(contracts[k], userApps) ==>
              ContractNotification(contracts[k], read) in ContractNotes(contracts, userApps, read)
  {
    forall k | 0 <= k < |contracts| && ContractShown(contracts[k], userApps)
      ensures ContractNotification(contracts[k], read) in ContractNotes(contracts, userApps, read)
    {
      ContractNotesHas(contracts, k, userApps, read);
    }
  }

  /** The record at `k`, when shown, gives its contract notification: cut the list around it. */
  lemma ContractNotesHas(contracts: seq<Contract>, k: nat, userApps: seq<Application>, read: seq<string>)
    requires k < |contracts| && ContractShown(contracts[k], userApps)
    ensures ContractNotification(contracts[k], read) in ContractNotes(contracts, userApps, read)
  {
    var pre, post := contracts[..k], contracts[k + 1..];
    assert contracts == pre + [contracts[k]] + post;
    ContractNotesAppend(pre + [contracts[k]], post, userApps, read);
    ContractNotesAppend(pre, [contracts[k]], userApps, read);
    assert ContractNotes([contracts[k]], userApps, read) == [ContractNotification(contracts[k], read)];
  }



  function RequestNotes(requests: seq<InfoRequest>, userApps: seq<Application>, read: seq<string>): (r: seq<Notification>)
    ensures |r| <= |requests|
    ensures |requests| == 1 ==> r == if RequestShown(requests[0], userApps) then [RequestNotification(requests[0], read)] else []
    ensures forall n :: n in r ==> n.kind == InfoRequestKind && (n.isRead <==> KeyOf(n) in read)
  {
    if |requests| == 0 then []
    else
      var x := requests[|requests| - 1];
      RequestNotes(requests[..|requests| - 1], userApps, read) + if RequestShown(x, userApps) then [RequestNotification(x, read)] else []
  }
  /** The request notifications of a concatenation: those of the first part, then those of the second. */
  lemma {:induction false} RequestNotesAppend(a: seq<InfoRequest>, b: seq<InfoRequest>, userApps: seq<Application>, read: seq<string>)
    ensures RequestNotes(a + b, userApps, read) == RequestNotes(a, userApps, read) + RequestNotes(b, userApps, read)
    decreases |b|
  {
    if |b| == 0 {
      assert a + b == a;
    } else {
      assert (a + b)[..|a + b| - 1] == a + b[..|b| - 1];
      assert (a + b)[|a + b| - 1] == b[|b| - 1];
      RequestNotesAppend(a, b[..|b| - 1], userApps, read);
    }
  }

  /** The request notifications are exactly the notifications of the records that are shown. */
  lemma RequestNotesMembers(requests: seq<InfoRequest>, userApps: seq<Application>, read: seq<string>)
    ensures forall n :: n in RequestNotes(requests, userApps, read) <==>
              exists k :: 0 <= k < |requests| && RequestShown(requests[k], userApps) && n == RequestNotification(requests[k], read)
  {
    RequestNotesSound(requests, userApps, read);
    RequestNotesComplete(requests, userApps, read);
  }

  /** Each request notification comes from a shown request. */
  lemma {:induction false} RequestNotesSound(requests: seq<InfoRequest>, userApps: seq<Application>, read: seq<string>)
    ensures forall n :: n in RequestNotes(requests, userApps, read) ==>
              exists k :: 0 <= k < |requests| && RequestShown(requests[k], userApps) && n == RequestNotification(requests[k], read)
    decreases |requests|
  {
    if |requests| > 0 {
      var init := requests[..|requests| - 1];
      var last := requests[|requests| - 1];
      RequestNotesSound(init, userApps, read);
      var tail: seq<Notification> := if RequestShown(last, userApps) then [RequestNotification(last, read)] else [];
      assert RequestNotes(requests, userApps, read) == RequestNotes(init, userApps, read) + tail;
      forall n | n in RequestNotes(requests, userApps, read)
        ensures exists k :: 0 <= k < |requests| && RequestShown(requests[k], userApps) && n == RequestNotification(requests[k], read)
      {
        if n in RequestNotes(init, userApps, read) {
          var k :| 0 <= k < |init| && RequestShown(init[k], userApps) && n == RequestNotification(init[k], read);
          assert requests[k] == init[k];
        } else {
          assert n in tail;
        }
      }
    }
  }

  /** Each shown record gives its request notification. */
  lemma RequestNotesComplete(requests: seq<InfoRequest>, userApps: seq<Application>, read: seq<string>)
    ensures forall k :: 0 <= k < |requests| && RequestShown(requests[k], userApps) ==>
              RequestNotification(requests[k], read) in RequestNotes(requests, userApps, read)
  {
    forall k | 0 <= k < |requests| && RequestShown(requests[k], userApps)
      ensures RequestNotification(requests[k], read) in RequestNotes(requests, userApps, read)
    {
      RequestNotesHas(requests, k, userApps, read);
    }
  }

  /** The record at `k`, when shown, gives its request notification: cut the list around it. */
  lemma RequestNotesHas(requests: seq<InfoRequest>, k: nat, userApps: seq<Application>, read: seq<string>)
    requires k < |requests| && RequestShown(requests[k], userApps)
    ensures RequestNotification(requests[k], read) in RequestNotes(requests, userApps, read)
  {
    var pre, post := requests[..k], requests[k + 1..];
    assert requests == pre + [requests[k]] + post;
    RequestNotesAppend(pre + [requests[k]], post, userApps, read);
    RequestNotesAppend(pre, [requests[k]], userApps, read);
    assert RequestNotes([requests[k]], userApps, read) == [RequestNotification(requests[k], read)];
  }




  /** The user's applications, matched on the lower-cased contact e-mail. */
  function UserApps(apps: seq<Application>, email: Option<string>): seq<Application>
  {
    Dashboard.UserApps(apps, Dashboard.UserEmail(email))
  }

  /**
   * Every notification of the stored records, before sorting: the offers,
   * then the contracts, then the requests. Each is of a built kind and is
   * read exactly when the key its id decodes to is in `read`.
   */
  function AllNotes(apps: seq<Application>, offers: seq<Offer>, contracts: seq<Contract>, requests: seq<InfoRequest>,
                    read: seq<string>, email: Option<string>): (r: seq<Notification>)
    ensures |r| <= |offers| + |contracts| + |requests|
    ensures forall n :: n in r ==> CustomerKind(n.kind) && (n.isRead <==> KeyOf(n) in read)
  {
    var userApps := UserApps(apps, email);
    OfferNotes(offers, userApps, read) + ContractNotes(contracts, userApps, read) + RequestNotes(requests, userApps, read)
  }
  /**
   * The bell's list before sorting holds exactly the notifications of the
   * offers sent or approved, the contracts sent and the financier's pending
   * requests on the user's applications.
   */
  lemma AllNotesMembers(apps: seq<Application>, offers: seq<Offer>, contracts: seq<Contract>, requests: seq<InfoRequest>,
                        read: seq<string>, email: Option<string>)
    ensures forall n :: n in AllNotes(apps, offers, contracts, requests, read, email) <==>
              (exists k :: 0 <= k < |offers| && OfferShown(offers[k], UserApps(apps, email)) && n == OfferNotification(offers[k], read))
              || (exists k :: 0 <= k < |contracts| && ContractShown(contracts[k], UserApps(apps, email)) && n == ContractNotification(contracts[k], read))
              || (exists k :: 0 <= k < |requests| && RequestShown(requests[k], UserApps(apps, email)) && n == RequestNotification(requests[k], read))
  {
    var u := UserApps(apps, email);
    OfferNotesMembers(offers, u, read);
    ContractNotesMembers(contracts, u, read);
    RequestNotesMembers(requests, u, read);
  }


  lemma {:induction false} OfferNotesRekeyed(offers: seq<Offer>, userApps: seq<Application>, r1: seq<string>, r2: seq<string>)
    ensures Rekeyed(OfferNotes(offers, userApps, r1), OfferNotes(offers, userApps, r2), KeyOf, r2)
  {
    if |offers| > 0 {
      var o := offers[|offers| - 1];
      OfferNotesRekeyed(offers[..|offers| - 1], userApps, r1, r2);
      var t1: seq<Notification> := if OfferShown(o, userApps) then [OfferNotification(o, r1)] else [];
      var t2: seq<Notification> := if OfferShown(o, userApps) then [OfferNotification(o, r2)] else [];
      RekeyedConcat(OfferNotes(offers[..|offers| - 1], userApps, r1), OfferNotes(offers[..|offers| - 1], userApps, r2), t1, t2, KeyOf, r2);
    }
  }

  lemma {:induction false} ContractNotesRekeyed(contracts: seq<Contract>, userApps: seq<Application>, r1: seq<string>, r2: seq<string>)
    ensures Rekeyed(ContractNotes(contracts, userApps, r1), ContractNotes(contracts, userApps, r2), KeyOf, r2)
  {
    if |contracts| > 0 {
      var c := contracts[|contracts| - 1];
      ContractNotesRekeyed(contracts[..|contracts| - 1], userApps, r1, r2);
      var t1: seq<Notification> := if ContractShown(c, userApps) then [ContractNotification(c, r1)] else [];
      var t2: seq<Notification> := if ContractShown(c, userApps) then [ContractNotification(c, r2)] else [];
      RekeyedConcat(ContractNotes(contracts[..|contracts| - 1], userApps, r1), ContractNotes(contracts[..|contracts| - 1], userApps, r2), t1, t2, KeyOf, r2);
    }
  }

  lemma {:induction false} RequestNotesRekeyed(requests: seq<InfoRequest>, userApps: seq<Application>, r1: seq<string>, r2: seq<string>)
    ensures Rekeyed(RequestNotes(requests, userApps, r1), RequestNotes(requests, userApps, r2), KeyOf, r2)
  {
    if |requests| > 0 {
      var x := requests[|requests| - 1];
      RequestNotesRekeyed(requests[..|requests| - 1], userApps, r1, r2);
      var t1: seq<Notification> := if RequestShown(x, userApps) then [RequestNotification(x, r1)] else [];
      var t2: seq<Notification> := if RequestShown(x, userApps) then [RequestNotification(x, r2)] else [];
      RekeyedConcat(RequestNotes(requests[..|requests| - 1], userApps, r1), RequestNotes(requests[..|requests| - 1], userApps, r2), t1, t2, KeyOf, r2);
    }
  }

  /**
   * The read-keys decide nothing but which notifications are read: built
   * again with other keys, the list has the same notifications in the same
   * order, each read exactly when its key is in the new list.
   */
  lemma ReadKeysDecideOnlyIsRead(apps: seq<Application>, offers: seq<Offer>, contracts: seq<Contract>, requests: seq<InfoRequest>,
                                 r1: seq<string>, r2: seq<string>, email: Option<string>)
    ensures Rekeyed(AllNotes(apps, offers, contracts, requests, r1, email), AllNotes(apps, offers, contracts, requests, r2, email), KeyOf, r2)
  {
    var u := UserApps(apps, email);
    OfferNotesRekeyed(offers, u, r1, r2);
    ContractNotesRekeyed(contracts, u, r1, r2);
    RequestNotesRekeyed(requests, u, r1, r2);
    RekeyedConcat(OfferNotes(offers, u, r1), OfferNotes(offers, u, r2), ContractNotes(contracts, u, r1), ContractNotes(contracts, u, r2), KeyOf, r2);
    RekeyedConcat(OfferNotes(offers, u, r1) + ContractNotes(contracts, u, r1), OfferNotes(offers, u, r2) + ContractNotes(contracts, u, r2),
                  RequestNotes(requests, u, r1), RequestNotes(requests, u, r2), KeyOf, r2);
  }

  /**
   * Marking a built notification read, then building again, shows exactly
   * that notification (its kind and id) read in addition to those read
   * before.
   */
  lemma MarkThenRebuild(apps: seq<Application>, offers: seq<Offer>, contracts: seq<Contract>, requests: seq<InfoRequest>,
                        read: seq<string>, email: Option<string>, n: Notification)
    requires CustomerKind(n.kind)
    ensures var before := AllNotes(apps, offers, contracts, requests, read, email);
            var after := AllNotes(apps, offers, contracts, requests, WithKey(read, KeyOf(n)), email);
            |after| == |before| &&
            forall k :: 0 <= k < |before| ==> (after[k].isRead <==> before[k].isRead || !Distinct(before[k], n))
  {
    var before := AllNotes(apps, offers, contracts, requests, read, email);
    var read2 := WithKey(read, KeyOf(n));
    ReadKeysDecideOnlyIsRead(apps, offers, contracts, requests, read, read2, email);
    forall k | 0 <= k < |before|
      ensures KeyOf(before[k]) in read2 <==> before[k].isRead || !Distinct(before[k], n)
    {
      assert before[k] in before;
      ReadKeyInjective(before[k], n);
    }
  }

  /** Building over one more element adds that element's notification, when it is shown. */
  lemma OfferNotesStep(offers: seq<Offer>, i: nat, userApps: seq<Application>, read: seq<string>)
    requires i < |offers|
    ensures OfferNotes(offers[..i + 1], userApps, read)
            == OfferNotes(offers[..i], userApps, read) + if OfferShown(offers[i], userApps) then [OfferNotification(offers[i], read)] else []
  {
    assert offers[..i + 1][..i] == offers[..i];
    assert offers[..i + 1][i] == offers[i];
  }

  /** The `forEach` over the offers: pushes the notification of each offer shown. */
  method PushOfferNotes(acc: seq<Notification>, offers: seq<Offer>, userApps: seq<Application>, read: seq<string>)
    returns (all: seq<Notification>)
    ensures all == acc + OfferNotes(offers, userApps, read)
  {
    all := acc;
    var i := 0;
    while i < |offers|
      invariant 0 <= i <= |offers|
      invariant all == acc + OfferNotes(offers[..i], userApps, read)
    {
      OfferNotesStep(offers, i, userApps, read);
      if OfferShown(offers[i], userApps) {
        all := all + [OfferNotification(offers[i], read)];
      }
      i := i + 1;
    }
    assert offers[..|offers|] == offers;
  }


  /** Building over one more element adds that element's notification, when it is shown. */
  lemma ContractNotesStep(contracts: seq<Contract>, i: nat, userApps: seq<Application>, read: seq<string>)
    requires i < |contracts|
    ensures ContractNotes(contracts[..i + 1], userApps, read)
            == ContractNotes(contracts[..i], userApps, read) + if ContractShown(contracts[i], userApps) then [ContractNotification(contracts[i], read)] else []
  {
    assert contracts[..i + 1][..i] == contracts[..i];
    assert contracts[..i + 1][i] == contracts[i];
  }

  /** The `forEach` over the contracts. */
  method PushContractNotes(acc: seq<Notification>, contracts: seq<Contract>, userApps: seq<Application>, read: seq<string>)
    returns (all: seq<Notification>)
    ensures all == acc + ContractNotes(contracts, userApps, read)
  {
    all := acc;
    var i := 0;
    while i < |contracts|
      invariant 0 <= i <= |contracts|
      invariant all == acc + ContractNotes(contracts[..i], userApps, read)
    {
      ContractNotesStep(contracts, i, userApps, read);
      if ContractShown(contracts[i], userApps) {
        all := all + [ContractNotification(contracts[i], read)];
      }
      i := i + 1;
    }
    assert contracts[..|contracts|] == contracts;
  }


  /** Building over one more element adds that element's notification, when it is shown. */
  lemma RequestNotesStep(requests: seq<InfoRequest>, i: nat, userApps: seq<Application>, read: seq<string>)
    requires i < |requests|
    ensures RequestNotes(requests[..i + 1], userApps, read)
            == RequestNotes(requests[..i], userApps, read) + if RequestShown(requests[i], userApps) then [RequestNotification(requests[i], read)] else []
  {
    assert requests[..i + 1][..i] == requests[..i];
    assert requests[..i + 1][i] == requests[i];
  }

  /** The `forEach` over the information requests. */
  method PushRequestNotes(acc: seq<Notification>, requests: seq<InfoRequest>, userApps: seq<Application>, read: seq<string>)
    returns (all: seq<Notification>)
    ensures all == acc + RequestNotes(requests, userApps, read)
  {
    all := acc;
    var i := 0;
    while i < |requests|
      invariant 0 <= i <= |requests|
      invariant all == acc + RequestNotes(requests[..i], userApps, read)
    {
      RequestNotesStep(requests, i, userApps, read);
      if RequestShown(requests[i], userApps) {
        all := all + [RequestNotification(requests[i], read)];
      }
      i := i + 1;
    }
    assert requests[..|requests|] == requests;
  }


  /** `demoNotifications` before sorting. */
  method Collect(store: DemoStore, email: Option<string>) returns (all: seq<Notification>)
    ensures all == AllNotes(store.apps, store.offers, store.contracts, store.infoRequests, store.customerRead, email)
  {
    var userApps := UserApps(store.apps, email);
    all := PushOfferNotes([], store.offers, userApps, store.customerRead);
    all := PushContractNotes(all, store.contracts, userApps, store.customerRead);
    all := PushRequestNotes(all, store.infoRequests, userApps, store.customerRead);
  }

  /**
   * The read-keys a "mark all" should leave: the earlier ones, then the keys
   * of every notification of the full set.
   */
  function ReadAfterMarkAll(read: seq<string>, all: seq<Notification>): (r: seq<string>)
    ensures read <= r
    ensures forall k :: 0 <= k < |all| ==> MarkAllKey(all[k]) in r
  {
    var keys := MarkAllKeys(all);
    assert forall k :: 0 <= k < |all| ==> (read + keys)[|read| + k] == keys[k];
    read + keys
  }

  /**
   * As written, "mark all" stores the keys of the listed (at most ten)
   * notifications only: a notification read before that sorted eleventh or
   * later is unread when the bell is built again.
   */
  lemma MarkAllForgetsUnlisted(apps: seq<Application>, offers: seq<Offer>, contracts: seq<Contract>, requests: seq<InfoRequest>,
                               read: seq<string>, email: Option<string>, sorted: seq<Notification>)
    requires multiset(sorted) == multiset(AllNotes(apps, offers, contracts, requests, read, email))
    requires |sorted| > ListCap && sorted[ListCap].isRead
    requires forall i, j :: 0 <= i < j < |sorted| ==> Distinct(sorted[i], sorted[j])
    ensures var before := AllNotes(apps, offers, contracts, requests, read, email);
            var after := AllNotes(apps, offers, contracts, requests, MarkAllKeys(Capped(sorted)), email);
            |after| == |before| && exists k :: 0 <= k < |before| && before[k].isRead && !after[k].isRead
  {
    var before := AllNotes(apps, offers, contracts, requests, read, email);
    var read2 := MarkAllKeys(Capped(sorted));
    var after := AllNotes(apps, offers, contracts, requests, read2, email);
    ReadKeysDecideOnlyIsRead(apps, offers, contracts, requests, read, read2, email);
    var x := sorted[ListCap];
    assert x in multiset(before);
    var k :| 0 <= k < |before| && before[k] == x;
    assert before[k] in before;
    if KeyOf(x) in read2 {
      var i :| 0 <= i < |read2| && read2[i] == KeyOf(x);
      var c := Capped(sorted)[i];
      assert c == sorted[i];
      assert c in multiset(before);
      assert c in before;
      ReadKeyInjective(c, x);
      assert false;
    }
  }

  /**
   * With the full set's keys added to the earlier ones, building again shows
   * every notification read, and none read before is lost.
   */
  lemma MarkAllKeepingEarlierReadsAll(apps: seq<Application>, offers: seq<Offer>, contracts: seq<Contract>,
                                      requests: seq<InfoRequest>, read: seq<string>, email: Option<string>)
    ensures var before := AllNotes(apps, offers, contracts, requests, read, email);
            var read2 := ReadAfterMarkAll(read, before);
            var after := AllNotes(apps, offers, contracts, requests, read2, email);
            UnreadCount(after) == 0 && forall key :: key in read ==> key in read2
  {
    var before := AllNotes(apps, offers, contracts, requests, read, email);
    var read2 := ReadAfterMarkAll(read, before);
    var after := AllNotes(apps, offers, contracts, requests, read2, email);
    ReadKeysDecideOnlyIsRead(apps, offers, contracts, requests, read, read2, email);
    forall k | 0 <= k < |after|
      ensures after[k].isRead
    {
      assert before[k] in before;
      assert MarkAllKey(before[k]) in read2;
    }
    NoneUnread(after);
  }

  /** The bell of the customer's layout. */
  class CustomerBell {
    var notificationsList: seq<Notification>
    var unreadCount: int
    /** The full, sorted set the list was last cut from. */
    ghost var sortedAll: seq<Notification>

    constructor ()
      ensures notificationsList == [] && unreadCount == 0 && sortedAll == []
    {
      notificationsList := [];
      unreadCount := 0;
      sortedAll := [];
    }

    /**
     * The demo branch of `fetchNotifications`: every notification, sorted
     * newest first, the first ten listed, and the unread ones of the whole
     * set counted.
     */
    method Refresh(store: DemoStore, email: Option<string>, time: string -> int)
      modifies this
      ensures Sorted(sortedAll, NewestFirst(time))
      ensures multiset(sortedAll) == multiset(AllNotes(store.apps, store.offers, store.contracts, store.infoRequests, store.customerRead, email))
      ensures notificationsList == Capped(sortedAll)
      ensures unreadCount == UnreadCount(AllNotes(store.apps, store.offers, store.contracts, store.infoRequests, store.customerRead, email))
    {
      var all := Collect(store, email);
      var sorted := SortSeq(all, NewestFirst(time));
      sortedAll := sorted;
      notificationsList := Capped(sorted);
      unreadCount := UnreadCount(sorted);
      UnreadCountPermutation(sorted, all);
    }

    /**
     * The demo branch of `handleMarkAsRead`: the decoded key is stored once,
     * every listed notification with the id is read, and the count drops by
     * one, never below zero.
     */
    method MarkAsRead(store: DemoStore, id: int)
      modifies this, store
      ensures store.customerRead == WithKey(old(store.customerRead), MarkAsReadKey(old(notificationsList), id))
      ensures notificationsList == MarkedRead(old(notificationsList), id)
      ensures unreadCount == Decrement(old(unreadCount))
      ensures sortedAll == old(sortedAll)
      ensures store.apps == old(store.apps) && store.offers == old(store.offers)
      ensures store.contracts == old(store.contracts) && store.infoRequests == old(store.infoRequests)
      ensures store.financierRead == old(store.financierRead)
    {
      var key := MarkAsReadKey(notificationsList, id);
      if key !in store.customerRead {
        store.customerRead := store.customerRead + [key];
      }
      notificationsList := MarkedRead(notificationsList, id);
      unreadCount := Decrement(unreadCount);
    }

    /** The demo branch of `handleMarkAllAsRead`, as written: the read-keys become those of the listed notifications. */
    method MarkAllAsRead(store: DemoStore)
      modifies this, store
      ensures store.customerRead == MarkAllKeys(old(notificationsList))
      ensures notificationsList == AllMarkedRead(old(notificationsList)) && unreadCount == 0
      ensures sortedAll == old(sortedAll)
      ensures store.apps == old(store.apps) && store.offers == old(store.offers)
      ensures store.contracts == old(store.contracts) && store.infoRequests == old(store.infoRequests)
      ensures store.financierRead == old(store.financierRead)
    {
      store.customerRead := MarkAllKeys(notificationsList);
      notificationsList := AllMarkedRead(notificationsList);
      unreadCount := 0;
    }

    /** "Mark all" as intended: the keys of the whole set are added to the earlier ones. */
    method MarkAllAsReadKeepingEarlier(store: DemoStore, email: Option<string>)
      modifies this, store
      ensures store.customerRead ==
                ReadAfterMarkAll(old(store.customerRead),
                                 AllNotes(store.apps, store.offers, store.contracts, store.infoRequests, old(store.customerRead), email))
      ensures notificationsList == AllMarkedRead(old(notificationsList)) && unreadCount == 0
      ensures sortedAll == old(sortedAll)
      ensures store.apps == old(store.apps) && store.offers == old(store.offers)
      ensures store.contracts == old(store.contracts) && store.infoRequests == old(store.infoRequests)
      ensures store.financierRead == old(store.financierRead)
    {
      var all := Collect(store, email);
      store.customerRead := ReadAfterMarkAll(store.customerRead, all);
      notificationsList := AllMarkedRead(notificationsList);
      unreadCount := 0;
    }
  }
}
