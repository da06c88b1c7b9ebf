/**
 * The financier's bell in the demo release (`FinancierLayout`), with its
 * read-keys kept under 'demo-notifications-read'.
 *
 * Two kinds are built: an application handed to the financiers (id = the
 * application's id, key 'app-<id>') and a request the customer answered
 * (id = 1000 + the request's id, key 'ir-response-<id>').
 */
module FinancierNotifications {
  import opened Common
  import opened Records
  import opened DemoStorage
  import opened Sorting
  import opened Notifications
  import FinancierDetail
  import CustomerDetail

  const ApplicationNewKind: string := "APPLICATION_NEW"
  const InfoResponseKind: string := "INFO_RESPONSE"

  predicate FinancierKind(kind: string)
  {
    kind == ApplicationNewKind || kind == InfoResponseKind
  }

  function ApplicationKey(appId: int): string { "app-" + IntToString(appId) }
  function ResponseKey(requestId: int): string { "ir-response-" + IntToString(requestId) }

  /** The key `handleMarkAsRead` derives from a notification's kind and id; "" for an unknown kind. */
  function ReadKey(kind: string, id: int): (key: string)
    ensures FinancierKind(kind) <==> key != ""
  {
    if kind == ApplicationNewKind then ApplicationKey(id)
    else if kind == InfoResponseKind then ResponseKey(id - 1000)
    else ""
  }

  function KeyOf(n: Notification): string { ReadKey(n.kind, n.id) }

  /** The first character of a key tells the kind. */
  lemma KeyRevealsKind(n: Notification)
    requires FinancierKind(n.kind)
    ensures KeyOf(n)[0] == (if n.kind == ApplicationNewKind then 'a' else 'i')
  {
  }

  /** Two notifications of the built kinds share a key only when they share kind and id. */
  lemma ReadKeyInjective(a: Notification, b: Notification)
    requires FinancierKind(a.kind) && FinancierKind(b.kind)
    ensures KeyOf(a) == KeyOf(b) ==> !Distinct(a, b)
  {
    if KeyOf(a) == KeyOf(b) {
      KeyRevealsKind(a);
      KeyRevealsKind(b);
      if a.kind == ApplicationNewKind {
        assert b.kind == ApplicationNewKind;
        assert ApplicationKey(a.id) == ApplicationKey(b.id);
        PrefixedIntInjective("app-", a.id, b.id);
      } else {
        assert b.kind == InfoResponseKind;
        assert ResponseKey(a.id - 1000) == ResponseKey(b.id - 1000);
        PrefixedIntInjective("ir-response-", a.id - 1000, b.id - 1000);
      }
    }
  }

  /** The key of each notification in `handleMarkAllAsRead`, with 'notif-<id>' for an unknown kind. */
  function MarkAllKey(n: Notification): (key: string)
    ensures FinancierKind(n.kind) ==> key == KeyOf(n)
    ensures !FinancierKind(n.kind) ==> key == "notif-" + IntToString(n.id)
  {
    if n.kind == ApplicationNewKind then ApplicationKey(n.id)
    else if n.kind == InfoResponseKind then ResponseKey(n.id - 1000)
    else "notif-" + IntToString(n.id)
  }

  /** The keys "mark all" stores (FinancierLayout.tsx:137-141); this mirrors the customer bell's code, as the two layouts duplicate it. */
  function MarkAllKeys(s: seq<Notification>): (keys: seq<string>)
    ensures |keys| == |s|
    ensures forall k :: 0 <= k < |s| ==> keys[k] == MarkAllKey(s[k])
  {
    seq(|s|, k requires 0 <= k < |s| => MarkAllKey(s[k]))
  }

  /** The key `handleMarkAsRead` stores for an id: that of the first listed notification with it, else "" (FinancierLayout.tsx:102-108, mirroring the customer bell). */
  function MarkAsReadKey(list: seq<Notification>, id: int): (key: string)
    ensures (forall k :: 0 <= k < |list| ==> list[k].id != id) ==> key == ""
    ensures forall k :: 0 <= k < |list| && list[k].id == id && (forall l :: 0 <= l < k ==> list[l].id != id) ==>
              key == KeyOf(list[k])
  {
    var i := IndexOfId(list, NotificationId, id);
    if i < 0 then ""
    else
      assert forall k :: 0 <= k < |list| && list[k].id == id && (forall l :: 0 <= l < k ==> list[l].id != id) ==> k == i;
      KeyOf(list[i])
  }

  function AppUrl(appId: int): string { "/financier/applications/" + IntToString(appId) }

  predicate ApplicationShown(a: Application)
  {
    a.status == "SUBMITTED_TO_FINANCIER"
  }

  predicate ResponseShown(r: InfoRequest)
  {
    r.sender == "customer" && r.status == "RESPONDED"
  }

  /** The notification of an application: read exactly when its decoded key was stored. */
  function ApplicationNotification(a: Application, read: seq<string>): (n: Notification)
    ensures n.id == a.id && n.kind == ApplicationNewKind && n.createdAt == a.createdAt
    ensures n.message == a.companyName + " - " + StrOr(a.equipmentDescription, "Rahoitushakemus")
    ensures n.isRead <==> KeyOf(n) in read
  {
    Notification(a.id, "Uusi hakemus", a.companyName + " - " + StrOr(a.equipmentDescription, "Rahoitushakemus"),
                 ApplicationKey(a.id) in read, AppUrl(a.id), a.createdAt, ApplicationNewKind)
  }

  /** The notification of an answered request, dated when it was answered (or created). */
  function ResponseNotification(r: InfoRequest, read: seq<string>): (n: Notification)
    ensures n.id == 1000 + r.id && n.kind == InfoResponseKind && n.createdAt == OrElse(r.respondedAt, r.createdAt)
    ensures n.isRead <==> KeyOf(n) in read
  {
    Notification(1000 + r.id, "Lisätietoihin vastattu", "Asiakas on vastannut lisätietopyyntöön", ResponseKey(r.id) in read,
                 AppUrl(r.applicationId), OrElse(r.respondedAt, r.createdAt), InfoResponseKind)
  }

  function ApplicationNotes(apps: seq<Application>, read: seq<string>): (r: seq<Notification>)
    ensures |r| <= |apps|
    ensures |apps| == 1 ==> r == if ApplicationShown(apps[0]) then [ApplicationNotification(apps[0], read)] else []
    ensures forall n :: n in r ==> n.kind == ApplicationNewKind && (n.isRead <==> KeyOf(n) in read)
  {
    if |apps| == 0 then []
    else
      var a := apps[|apps| - 1];
      ApplicationNotes(apps[..|apps| - 1], read) + if ApplicationShown(a) then [ApplicationNotification(a, read)] else []
  }
  /** The application notifications of a concatenation: those of the first part, then those of the second. */
  lemma {:induction false} ApplicationNotesAppend(a: seq<Application>, b: seq<Application>, read: seq<string>)
    ensures ApplicationNotes(a + b, read) == ApplicationNotes(a, read) + ApplicationNotes(b, read)
    decreases |b|
  {
    if |b| == 0 {
      assert a + b == a;
    } else {
      assert (a + b)[..|a + b| - 1] == a + b[..|b| - 1];
      assert (a + b)[|a + b| - 1] == b[|b| - 1];
      ApplicationNotesAppend(a, b[..|b| - 1], read);
    }
  }

  /** The application notifications are exactly the notifications of the records that are shown. */
  lemma ApplicationNotesMembers(apps: seq<Application>, read: seq<string>)
    ensures forall n :: n in ApplicationNotes(apps, read) <==>
              exists k :: 0 <= k < |apps| && ApplicationShown(apps[k]) && n == ApplicationNotification(apps[k], read)
  {
    ApplicationNotesSound(apps, read);
    ApplicationNotesComplete(apps, read);
  }

  /** Each application notification comes from a shown record. */
  lemma {:induction false} ApplicationNotesSound(apps: seq<Application>, read: seq<string>)
    ensures forall n :: n in ApplicationNotes(apps, read) ==>
              exists k :: 0 <= k < |apps| && ApplicationShown(apps[k]) && n == ApplicationNotification(apps[k], read)
    decreases |apps|
  {
    if |apps| > 0 {
      var init := apps[..|apps| - 1];
      var last := apps[|apps| - 1];
      ApplicationNotesSound(init, read);
      var tail: seq<Notification> := if ApplicationShown(last) then [ApplicationNotification(last, read)] else [];
      assert ApplicationNotes(apps, read) == ApplicationNotes(init, read) + tail;
      forall n | n in ApplicationNotes(apps, read)
        ensures exists k :: 0 <= k < |apps| && ApplicationShown(apps[k]) && n == ApplicationNotification(apps[k], read)
      {
        if n in ApplicationNotes(init, read) {
          var k :| 0 <= k < |init| && ApplicationShown(init[k]) && n == ApplicationNotification(init[k], read);
          assert apps[k] == init[k];
        } else {
          assert n in tail;
        }
      }
    }
  }

  /** Each shown record gives its application notification. */
  lemma ApplicationNotesComplete(apps: seq<Application>, read: seq<string>)
    ensures forall k :: 0 <= k < |apps| && ApplicationShown(apps[k]) ==>
              ApplicationNotification(apps[k], read) in ApplicationNotes(apps, read)
  {
    forall k | 0 <= k < |apps| && ApplicationShown(apps[k])
      ensures ApplicationNotification(apps[k], read) in ApplicationNotes(apps, read)
    {
      ApplicationNotesHas(apps, k, read);
    }
  }

  /** The record at `k`, when shown, gives its application notification: cut the list around it. */
  lemma ApplicationNotesHas(apps: seq<Application>, k: nat, read: seq<string>)
    requires k < |apps| && ApplicationShown(apps[k])
    ensures ApplicationNotification(apps[k], read) in ApplicationNotes(apps, read)
  {
    var pre, post := apps[..k], apps[k + 1..];
    assert apps == pre + [apps[k]] + post;
    ApplicationNotesAppend(pre + [apps[k]], post, read);
    ApplicationNotesAppend(pre, [apps[k]], read);
    assert ApplicationNotes([apps[k]], read) == [ApplicationNotification(apps[k], read)];
  }



  function ResponseNotes(requests: seq<InfoRequest>, read: seq<string>): (r: seq<Notification>)
    ensures |r| <= |requests|
    ensures |requests| == 1 ==> r == if ResponseShown(requests[0]) then [ResponseNotification(requests[0], read)] else []
    ensures forall n :: n in r ==> n.kind == InfoResponseKind && (n.isRead <==> KeyOf(n) in read)
  {
    if |requests| == 0 then []
    else
      var x := requests[|requests| - 1];
      ResponseNotes(requests[..|requests| - 1], read) + if ResponseShown(x) then [ResponseNotification(x, read)] else []
  }
  /** The response notifications of a concatenation: those of the first part, then those of the second. */
  lemma {:induction false} ResponseNotesAppend(a: seq<InfoRequest>, b: seq<InfoRequest>, read: seq<string>)
    ensures ResponseNotes(a + b, read) == ResponseNotes(a, read) + ResponseNotes(b, read)
    decreases |b|
  {
    if |b| == 0 {
      assert a + b == a;
    } else {
      assert (a + b)[..|a + b| - 1] == a + b[..|b| - 1];
      assert (a + b)[|a + b| - 1] == b[|b| - 1];
      ResponseNotesAppend(a, b[..|b| - 1], read);
    }
  }

  /** The response notifications are exactly the notifications of the records that are shown. */
  lemma ResponseNotesMembers(requests: seq<InfoRequest>, read: seq<string>)
    ensures forall n :: n in ResponseNotes(requests, read) <==>
              exists k :: 0 <= k < |requests| && ResponseShown(requests[k]) && n == ResponseNotification(requests[k], read)
  {
    ResponseNotesSound(requests, read);
    ResponseNotesComplete(requests, read);
  }

  /** Each response notification comes from a shown record. */
  lemma {:induction false} ResponseNotesSound(requests: seq<InfoRequest>, read: seq<string>)
    ensures forall n :: n in ResponseNotes(requests, read) ==>
              exists k :: 0 <= k < |requests| && ResponseShown(requests[k]) && n == ResponseNotification(requests[k], read)
    decreases |requests|
  {
    if |requests| > 0 {
      var init := requests[..|requests| - 1];
      var last := requests[|requests| - 1];
      ResponseNotesSound(init, read);
      var tail: seq<Notification> := if ResponseShown(last) then [ResponseNotification(last, read)] else [];
      assert ResponseNotes(requests, read) == ResponseNotes(init, read) + tail;
      forall n | n in ResponseNotes(requests, read)
        ensures exists k :: 0 <= k < |requests| && ResponseShown(requests[k]) && n == ResponseNotification(requests[k], read)
      {
        if n in ResponseNotes(init, read) {
          var k :| 0 <= k < |init| && ResponseShown(init[k]) && n == ResponseNotification(init[k], read);
          assert requests[k] == init[k];
        } else {
          assert n in tail;
        }
      }
    }
  }

  /** Each shown record gives its response notification. */
  lemma ResponseNotesComplete(requests: seq<InfoRequest>, read: seq<string>)
    ensures forall k :: 0 <= k < |requests| && ResponseShown(requests[k]) ==>
              ResponseNotification(requests[k], read) in ResponseNotes(requests, read)
  {
    forall k | 0 <= k < |requests| && ResponseShown(requests[k])
      ensures ResponseNotification(requests[k], read) in ResponseNotes(requests, read)
    {
      ResponseNotesHas(requests, k, read);
    }
  }

  /** The record at `k`, when shown, gives its response notification: cut the list around it. */
  lemma ResponseNotesHas(requests: seq<InfoRequest>, k: nat, read: seq<string>)
    requires k < |requests| && ResponseShown(requests[k])
    ensures ResponseNotification(requests[k], read) in ResponseNotes(requests, read)
  {
    var pre, post := requests[..k], requests[k + 1..];
    assert requests == pre + [requests[k]] + post;
    ResponseNotesAppend(pre + [requests[k]], post, read);
    ResponseNotesAppend(pre, [requests[k]], read);
    assert ResponseNotes([requests[k]], read) == [ResponseNotification(requests[k], read)];
  }



  /**
   * Every notification of the stored records, before sorting: the
   * applications, then the answered requests. Each is of a built kind and
   * is read exactly when the key its id decodes to is in `read`.
   */
  function AllNotes(apps: seq<Application>, requests: seq<InfoRequest>, read: seq<string>): (r: seq<Notification>)
    ensures |r| <= |apps| + |requests|
    ensures forall n :: n in r ==> FinancierKind(n.kind) && (n.isRead <==> KeyOf(n) in read)
  {
    ApplicationNotes(apps, read) + ResponseNotes(requests, read)
  }
  /**
   * The bell's list before sorting holds exactly the notifications of the
   * applications handed to the financiers and of the requests the customer
   * answered.
   */
  lemma AllNotesMembers(apps: seq<Application>, requests: seq<InfoRequest>, read: seq<string>)
    ensures forall n :: n in AllNotes(apps, requests, read) <==>
              (exists k :: 0 <= k < |apps| && ApplicationShown(apps[k]) && n == ApplicationNotification(apps[k], read))
              || (exists k :: 0 <= k < |requests| && ResponseShown(requests[k]) && n == ResponseNotification(requests[k], read))
  {
    ApplicationNotesMembers(apps, read);
    ResponseNotesMembers(requests, read);
  }


  /**
   * A request sent from the financier's page keeps its sender when the
   * customer answers it, so the answer never makes a notification here:
   * only requests written with sender 'customer' do.
   */
  lemma AnsweredFinancierRequestNotShown(appId: int, message: string, items: string, id: int, now: string, response: Response)
    ensures !ResponseShown(CustomerDetail.Answered(FinancierDetail.NewInfoRequest(appId, message, items, id, now), response))
  {
  }

  lemma {:induction false} ApplicationNotesRekeyed(apps: seq<Application>, r1: seq<string>, r2: seq<string>)
    ensures Rekeyed(ApplicationNotes(apps, r1), ApplicationNotes(apps, r2), KeyOf, r2)
  {
    if |apps| > 0 {
      var a := apps[|apps| - 1];
      ApplicationNotesRekeyed(apps[..|apps| - 1], r1, r2);
      var t1: seq<Notification> := if ApplicationShown(a) then [ApplicationNotification(a, r1)] else [];
      var t2: seq<Notification> := if ApplicationShown(a) then [ApplicationNotification(a, r2)] else [];
      RekeyedConcat(ApplicationNotes(apps[..|apps| - 1], r1), ApplicationNotes(apps[..|apps| - 1], r2), t1, t2, KeyOf, r2);
    }
  }

  lemma {:induction false} ResponseNotesRekeyed(requests: seq<InfoRequest>, r1: seq<string>, r2: seq<string>)
    ensures Rekeyed(ResponseNotes(requests, r1), ResponseNotes(requests, r2), KeyOf, r2)
  {
    if |requests| > 0 {
      var x := requests[|requests| - 1];
      ResponseNotesRekeyed(requests[..|requests| - 1], r1, r2);
      var t1: seq<Notification> := if ResponseShown(x) then [ResponseNotification(x, r1)] else [];
      var t2: seq<Notification> := if ResponseShown(x) then [ResponseNotification(x, r2)] else [];
      RekeyedConcat(ResponseNotes(requests[..|requests| - 1], r1), ResponseNotes(requests[..|requests| - 1], r2), t1, t2, KeyOf, r2);
    }
  }

  /** The read-keys decide nothing but which notifications are read. */
  lemma ReadKeysDecideOnlyIsRead(apps: seq<Application>, requests: seq<InfoRequest>, r1: seq<string>, r2: seq<string>)
    ensures Rekeyed(AllNotes(apps, requests, r1), AllNotes(apps, requests, r2), KeyOf, r2)
  {
    ApplicationNotesRekeyed(apps, r1, r2);
    ResponseNotesRekeyed(requests, r1, r2);
    RekeyedConcat(ApplicationNotes(apps, r1), ApplicationNotes(apps, r2), ResponseNotes(requests, r1), ResponseNotes(requests, r2), KeyOf, r2);
  }

  /**
   * Marking a built notification read, then building again, shows exactly
   * that notification (its kind and id) read in addition to those read
   * before.
   */
  lemma MarkThenRebuild(apps: seq<Application>, requests: seq<InfoRequest>, read: seq<string>, n: Notification)
    requires FinancierKind(n.kind)
    ensures var before := AllNotes(apps, requests, read);
            var after := AllNotes(apps, requests, WithKey(read, KeyOf(n)));
            |after| == |before| &&
            forall k :: 0 <= k < |before| ==> (after[k].isRead <==> before[k].isRead || !Distinct(before[k], n))
  {
    var before := AllNotes(apps, requests, read);
    var read2 := WithKey(read, KeyOf(n));
    ReadKeysDecideOnlyIsRead(apps, requests, read, read2);
    forall k | 0 <= k < |before|
      ensures KeyOf(before[k]) in read2 <==> before[k].isRead || !Distinct(before[k], n)
    {
      assert before[k] in before;
      ReadKeyInjective(before[k], n);
    }
  }

  /** Building over one more element adds that element's notification, when it is shown. */
  lemma ApplicationNotesStep(apps: seq<Application>, i: nat, read: seq<string>)
    requires i < |apps|
    ensures ApplicationNotes(apps[..i + 1], read)
            == ApplicationNotes(apps[..i], read) + if ApplicationShown(apps[i]) then [ApplicationNotification(apps[i], read)] else []
  {
    assert apps[..i + 1][..i] == apps[..i];
    assert apps[..i + 1][i] == apps[i];
  }

  /** The `forEach` over the applications. */
  method PushApplicationNotes(acc: seq<Notification>, apps: seq<Application>, read: seq<string>)
    returns (all: seq<Notification>)
    ensures all == acc + ApplicationNotes(apps, read)
  {
    all := acc;
    var i := 0;
    while i < |apps|
      invariant 0 <= i <= |apps|
      invariant all == acc + ApplicationNotes(apps[..i], read)
    {
      ApplicationNotesStep(apps, i, read);
      if ApplicationShown(apps[i]) {
        all := all + [ApplicationNotification(apps[i], read)];
      }
      i := i + 1;
    }
    assert apps[..|apps|] == apps;
  }


  /** Building over one more element adds that element's notification, when it is shown. */
  lemma ResponseNotesStep(requests: seq<InfoRequest>, i: nat, read: seq<string>)
    requires i < |requests|
    ensures ResponseNotes(requests[..i + 1], read)
            == ResponseNotes(requests[..i], read) + if ResponseShown(requests[i]) then [ResponseNotification(requests[i], read)] else []
  {
    assert requests[..i + 1][..i] == requests[..i];
    assert requests[..i + 1][i] == requests[i];
  }

  /** The `forEach` over the information requests. */
  method PushResponseNotes(acc: seq<Notification>, requests: seq<InfoRequest>, read: seq<string>)
    returns (all: seq<Notification>)
    ensures all == acc + ResponseNotes(requests, read)
  {
    all := acc;
    var i := 0;
    while i < |requests|
      invariant 0 <= i <= |requests|
      invariant all == acc + ResponseNotes(requests[..i], read)
    {
      ResponseNotesStep(requests, i, read);
      if ResponseShown(requests[i]) {
        all := all + [ResponseNotification(requests[i], read)];
      }
      i := i + 1;
    }
    assert requests[..|requests|] == requests;
  }


  /** `demoNotifications` before sorting. */
  method Collect(store: DemoStore) returns (all: seq<Notification>)
    ensures all == AllNotes(store.apps, store.infoRequests, store.financierRead)
  {
    all := PushApplicationNotes([], store.apps, store.financierRead);
    all := PushResponseNotes(all, store.infoRequests, store.financierRead);
  }

  /** The read-keys a "mark all" should leave: the earlier ones, then the keys of the full set (the same correction as the customer bell's). */
  function ReadAfterMarkAll(read: seq<string>, all: seq<Notification>): (r: seq<string>)
    ensures read <= r
    ensures forall k :: 0 <= k < |all| ==> MarkAllKey(all[k]) in r
  {
    var keys := MarkAllKeys(all);
    assert forall k :: 0 <= k < |all| ==> (read + keys)[|read| + k] == keys[k];
    read + keys
  }

  /**
   * As written, "mark all" stores the keys of the listed (at most ten)
   * notifications only: a notification read before that sorted eleventh or
   * later is unread when the bell is built again.
   */
  lemma MarkAllForgetsUnlisted(apps: seq<Application>, requests: seq<InfoRequest>, read: seq<string>, sorted: seq<Notification>)
    requires multiset(sorted) == multiset(AllNotes(apps, requests, read))
    requires |sorted| > ListCap && sorted[ListCap].isRead
    requires forall i, j :: 0 <= i < j < |sorted| ==> Distinct(sorted[i], sorted[j])
    ensures var before := AllNotes(apps, requests, read);
            var after := AllNotes(apps, requests, MarkAllKeys(Capped(sorted)));
            |after| == |before| && exists k :: 0 <= k < |before| && before[k].isRead && !after[k].isRead
  {
    var before := AllNotes(apps, requests, read);
    var read2 := MarkAllKeys(Capped(sorted));
    ReadKeysDecideOnlyIsRead(apps, requests, read, read2);
    var x := sorted[ListCap];
    assert x in multiset(before);
    var k :| 0 <= k < |before| && before[k] == x;
    assert before[k] in before;
    if KeyOf(x) in read2 {
      var i :| 0 <= i < |read2| && read2[i] == KeyOf(x);
      var c := Capped(sorted)[i];
      assert c == sorted[i];
      assert c in multiset(before);
      assert c in before;
      ReadKeyInjective(c, x);
      assert false;
    }
  }

  /** With the full set's keys added to the earlier ones, building again shows every notification read. */
  lemma MarkAllKeepingEarlierReadsAll(apps: seq<Application>, requests: seq<InfoRequest>, read: seq<string>)
    ensures var read2 := ReadAfterMarkAll(read, AllNotes(apps, requests, read));
            UnreadCount(AllNotes(apps, requests, read2)) == 0 && forall key :: key in read ==> key in read2
  {
    var before := AllNotes(apps, requests, read);
    var read2 := ReadAfterMarkAll(read, before);
    var after := AllNotes(apps, requests, read2);
    ReadKeysDecideOnlyIsRead(apps, requests, read, read2);
    forall k | 0 <= k < |after|
      ensures after[k].isRead
    {
      assert before[k] in before;
      assert MarkAllKey(before[k]) in read2;
    }
    NoneUnread(after);
  }

  /** The bell of the financier's layout. */
  class FinancierBell {
    var notificationsList: seq<Notification>
    var unreadCount: int
    /** The full, sorted set the list was last cut from. */
    ghost var sortedAll: seq<Notification>

    constructor ()
      ensures notificationsList == [] && unreadCount == 0 && sortedAll == []
    {
      notificationsList := [];
      unreadCount := 0;
      sortedAll := [];
    }

    /** The demo branch of `fetchNotifications`: sorted newest first, ten listed, all counted. */
    method Refresh(store: DemoStore, time: string -> int)
      modifies this
      ensures Sorted(sortedAll, NewestFirst(time))
      ensures multiset(sortedAll) == multiset(AllNotes(store.apps, store.infoRequests, store.financierRead))
      ensures notificationsList == Capped(sortedAll)
      ensures unreadCount == UnreadCount(AllNotes(store.apps, store.infoRequests, store.financierRead))
    {
      var all := Collect(store);
      var sorted := SortSeq(all, NewestFirst(time));
      sortedAll := sorted;
      notificationsList := Capped(sorted);
      unreadCount := UnreadCount(sorted);
      UnreadCountPermutation(sorted, all);
    }

    /** The demo branch of `handleMarkAsRead`. */
    method MarkAsRead(store: DemoStore, id: int)
      modifies this, store
      ensures store.financierRead == WithKey(old(store.financierRead), MarkAsReadKey(old(notificationsList), id))
      ensures notificationsList == MarkedRead(old(notificationsList), id)
      ensures unreadCount == Decrement(old(unreadCount))
      ensures sortedAll == old(sortedAll)
      ensures store.apps == old(store.apps) && store.offers == old(store.offers)
      ensures store.contracts == old(store.contracts) && store.infoRequests == old(store.infoRequests)
      ensures store.customerRead == old(store.customerRead)
    {
      var key := MarkAsReadKey(notificationsList, id);
      if key !in store.financierRead {
        store.financierRead := store.financierRead + [key];
      }
      notificationsList := MarkedRead(notificationsList, id);
      unreadCount := Decrement(unreadCount);
    }

    /** The demo branch of `handleMarkAllAsRead`, as written. */
    method MarkAllAsRead(store: DemoStore)
      modifies this, store
      ensures store.financierRead == MarkAllKeys(old(notificationsList))
      ensures notificationsList == AllMarkedRead(old(notificationsList)) && unreadCount == 0
      ensures sortedAll == old(sortedAll)
      ensures store.apps == old(store.apps) && store.offers == old(store.offers)
      ensures store.contracts == old(store.contracts) && store.infoRequests == old(store.infoRequests)
      ensures store.customerRead == old(store.customerRead)
    {
      store.financierRead := MarkAllKeys(notificationsList);
      notificationsList := AllMarkedRead(notificationsList);
      unreadCount := 0;
    }

    /** "Mark all" as intended: the keys of the whole set are added to the earlier ones. */
    method MarkAllAsReadKeepingEarlier(store: DemoStore)
      modifies this, store
      ensures store.financierRead ==
                ReadAfterMarkAll(old(store.financierRead), AllNotes(store.apps, store.infoRequests, old(store.financierRead)))
      ensures notificationsList == AllMarkedRead(old(notificationsList)) && unreadCount == 0
      ensures sortedAll == old(sortedAll)
      ensures store.apps == old(store.apps) && store.offers == old(store.offers)
      ensures store.contracts == old(store.contracts) && store.infoRequests == old(store.infoRequests)
      ensures store.customerRead == old(store.customerRead)
    {
      var all := Collect(store);
      store.financierRead := ReadAfterMarkAll(store.financierRead, all);
      notificationsList := AllMarkedRead(notificationsList);
      unreadCount := 0;
    }
  }
}
