/**
 * What the two demo layouts of the release app share about their bell of
 * notifications: the notification record, the newest-first order, the cap
 * of ten listed entries, the unread counter and the list of read-keys kept
 * in storage.
 */
module Notifications {
  import opened Common
  import opened Sorting

  /** A notification as the layouts build it; `kind` is `notification_type`. */
  datatype Notification = Notification(
    id: int,
    title: string,
    message: string,
    isRead: bool,
    actionUrl: string,
    createdAt: string,
    kind: string)

  function NotificationId(n: Notification): int { n.id }

  /**
   * The comparator `new Date(b.created_at) - new Date(a.created_at)`:
   * `a` may come first when it is no older than `b`. `time` stands for the
   * date parsing and is any total order on the texts.
   */
  function NewestFirst(time: string -> int): (le: (Notification, Notification) -> bool)
    ensures TotalPreorder(le)
    ensures forall a, b :: le(a, b) <==> time(b.createdAt) <= time(a.createdAt)
  {
    (a: Notification, b: Notification) => time(b.createdAt) <= time(a.createdAt)
  }

  /** At most this many notifications are listed. */
  const ListCap: nat := 10

  /** `slice(0, 10)`. */
  function Capped(s: seq<Notification>): (r: seq<Notification>)
    ensures |r| == if |s| < ListCap then |s| else ListCap
    ensures r == s[..|r|]
  {
    if |s| < ListCap then s else s[..ListCap]
  }

  /** In a newest-first list, every listed notification is no older than any left out. */
  lemma CappedAreNewest(s: seq<Notification>, time: string -> int)
    requires Sorted(s, NewestFirst(time))
    ensures forall i, j :: 0 <= i < |Capped(s)| <= j < |s| ==> time(s[j].createdAt) <= time(Capped(s)[i].createdAt)
  {
    var le := NewestFirst(time);
    forall i, j | 0 <= i < |Capped(s)| <= j < |s|
      ensures time(s[j].createdAt) <= time(Capped(s)[i].createdAt)
    {
      assert Capped(s)[i] == s[i];
      assert le(s[i], s[j]);
    }
  }

  /** `filter(n => !n.is_read).length`. */
  function UnreadCount(s: seq<Notification>): (n: nat)
    ensures n <= |s|
  {
    if |s| == 0 then 0
    else (if s[0].isRead then 0 else 1) + UnreadCount(s[1..])
  }

  /** Nothing is unread exactly when every notification is read. */
  lemma {:induction false} NoneUnread(s: seq<Notification>)
    ensures UnreadCount(s) == 0 <==> forall k :: 0 <= k < |s| ==> s[k].isRead
  {
    if |s| > 0 {
      NoneUnread(s[1..]);
      assert forall k :: 1 <= k < |s| ==> s[k] == s[1..][k - 1];
    }
  }

  lemma {:induction false} UnreadCountAppend(a: seq<Notification>, b: seq<Notification>)
    ensures UnreadCount(a + b) == UnreadCount(a) + UnreadCount(b)
  {
    if |a| > 0 {
      assert (a + b)[1..] == a[1..] + b;
      UnreadCountAppend(a[1..], b);
    } else {
      assert a + b == b;
    }
  }

  lemma MultisetWithout(b: seq<Notification>, j: nat)
    requires j < |b|
    ensures multiset(b[..j] + b[j + 1..]) == multiset(b) - multiset{b[j]}
  {
    assert b == b[..j] + [b[j]] + b[j + 1..];
  }

  lemma UnreadCountSingle(x: Notification)
    ensures UnreadCount([x]) == if x.isRead then 0 else 1
  {
    assert [x][1..] == [];
  }

  /** Taking one notification out of a list lowers the unread count by its own. */
  lemma CountSplit(b: seq<Notification>, pre: seq<Notification>, x: Notification, post: seq<Notification>)
    requires b == pre + [x] + post
    ensures UnreadCount(b) == UnreadCount(pre + post) + (if x.isRead then 0 else 1)
  {
    UnreadCountAppend(pre + [x], post);
    UnreadCountAppend(pre, [x]);
    UnreadCountSingle(x);
    UnreadCountAppend(pre, post);
  }

  /** A list is the part before `j`, the element at `j` and the part after it. */
  lemma Around<T>(b: seq<T>, j: nat)
    requires j < |b|
    ensures b == b[..j] + [b[j]] + b[j + 1..]
  {
  }

  lemma CountWithout(b: seq<Notification>, j: nat)
    requires j < |b|
    ensures UnreadCount(b) == UnreadCount(b[..j] + b[j + 1..]) + (if b[j].isRead then 0 else 1)
  {
    Around(b, j);
    CountSplit(b, b[..j], b[j], b[j + 1..]);
  }

  /** The unread count does not depend on the order: sorting keeps it. */
  lemma {:induction false} UnreadCountPermutation(a: seq<Notification>, b: seq<Notification>)
    requires multiset(a) == multiset(b)
    ensures UnreadCount(a) == UnreadCount(b)
    decreases |a|
  {
    if |a| == 0 {
      assert |b| == |multiset(b)| == 0;
    } else {
      var x := a[0];
      assert x in multiset(b);
      var j :| 0 <= j < |b| && b[j] == x;
      var rest := b[..j] + b[j + 1..];
      MultisetWithout(b, j);
      CountWithout(b, j);
      assert a == [x] + a[1..];
      assert multiset(a[1..]) == multiset(a) - multiset{x};
      UnreadCountPermutation(a[1..], rest);
    }
  }

  /** `prev.map(n => n.id === id ? { ...n, is_read: true } : n)`. */
  function MarkedRead(s: seq<Notification>, id: int): (r: seq<Notification>)
    ensures |r| == |s|
    ensures forall k :: 0 <= k < |s| ==> r[k] == if s[k].id == id then s[k].(isRead := true) else s[k]
  {
    seq(|s|, k requires 0 <= k < |s| => if s[k].id == id then s[k].(isRead := true) else s[k])
  }

  /**
   * Marking the only notification with the id that is unread lowers the
   * unread count of the list by exactly one; marking a read one changes
   * nothing.
   */
  lemma {:induction false} MarkedReadCount(s: seq<Notification>, id: int)
    requires forall k, l :: 0 <= k < l < |s| && s[k].id == id ==> s[l].id != id
    ensures (exists k :: 0 <= k < |s| && s[k].id == id && !s[k].isRead) ==> UnreadCount(MarkedRead(s, id)) == UnreadCount(s) - 1
    ensures (forall k :: 0 <= k < |s| && s[k].id == id ==> s[k].isRead) ==> MarkedRead(s, id) == s
  {
    if |s| > 0 {
      var r := MarkedRead(s, id);
      assert r[1..] == MarkedRead(s[1..], id);
      MarkedReadCount(s[1..], id);
      if s[0].id == id {
        assert forall k :: 0 <= k < |s[1..]| ==> s[1..][k].id != id;
        assert MarkedRead(s[1..], id) == s[1..];
      } else {
        if exists k :: 0 <= k < |s| && s[k].id == id && !s[k].isRead {
          var k :| 0 <= k < |s| && s[k].id == id && !s[k].isRead;
          assert s[1..][k - 1] == s[k];
        }
        if forall k :: 0 <= k < |s| && s[k].id == id ==> s[k].isRead {
          assert forall k :: 0 <= k < |s[1..]| && s[1..][k].id == id ==> s[1..][k].isRead by {
            forall k | 0 <= k < |s[1..]| && s[1..][k].id == id ensures s[1..][k].isRead {
              assert s[1..][k] == s[k + 1];
            }
          }
          assert r == [s[0]] + s[1..];
        }
      }
    }
  }

  /** `prev.map(n => ({ ...n, is_read: true }))`. */
  function AllMarkedRead(s: seq<Notification>): (r: seq<Notification>)
    ensures |r| == |s| && UnreadCount(r) == 0
    ensures forall k :: 0 <= k < |s| ==> r[k] == s[k].(isRead := true)
  {
    var r := seq(|s|, k requires 0 <= k < |s| => s[k].(isRead := true));
    NoneUnread(r);
    r
  }

  /** `Math.max(0, prev - 1)`. */
  function Decrement(count: int): (r: nat)
    ensures count >= 1 ==> r == count - 1
    ensures count < 1 ==> r == 0
  {
    if count - 1 > 0 then count - 1 else 0
  }

  /**
   * `if (!read.includes(key)) read.push(key)`: the key is present afterwards
   * and occurs at most once more than before; nothing else changes.
   */
  function WithKey(read: seq<string>, key: string): (r: seq<string>)
    ensures key in r && read <= r
    ensures multiset(r)[key] == if key in read then multiset(read)[key] else 1
    ensures forall other :: other != key ==> multiset(r)[other] == multiset(read)[other]
  {
    if key in read then read else read + [key]
  }

  /** Marking the same notification twice stores its key once. */
  lemma WithKeyIdempotent(read: seq<string>, key: string)
    ensures WithKey(WithKey(read, key), key) == WithKey(read, key)
  {
  }

  /** Whether two notifications have different kinds or different ids. */
  predicate Distinct(a: Notification, b: Notification)
  {
    a.kind != b.kind || a.id != b.id
  }

  /**
   * `y` is `x` built again with the read-keys `read`: the same
   * notifications in the same order, each read exactly when its key is in
   * `read`.
   */
  ghost predicate Rekeyed(x: seq<Notification>, y: seq<Notification>, key: Notification -> string, read: seq<string>)
  {
    |y| == |x| && forall k :: 0 <= k < |x| ==> y[k] == x[k].(isRead := key(x[k]) in read)
  }

  lemma RekeyedConcat(x1: seq<Notification>, y1: seq<Notification>, x2: seq<Notification>, y2: seq<Notification>,
                      key: Notification -> string, read: seq<string>)
    requires Rekeyed(x1, y1, key, read) && Rekeyed(x2, y2, key, read)
    ensures Rekeyed(x1 + x2, y1 + y2, key, read)
  {
    assert forall k :: |x1| <= k < |x1| + |x2| ==> (x1 + x2)[k] == x2[k - |x1|] && (y1 + y2)[k] == y2[k - |x1|];
  }
}
