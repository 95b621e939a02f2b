/** Cursor pagination of the notification list: newest first, each page after the last one seen. */
module Pagination {
  import opened Common
  import opened Ordering

  /** What the order looks at: the notification itself is found by its id. */
  datatype Entry = Entry(createdAt: nat, id: string)

  datatype Page = Page(items: seq<Entry>, next: Option<Entry>)

  /** Newest first, and by id within an instant. */
  predicate Newer(a: Entry, b: Entry) {
    a.createdAt > b.createdAt || (a.createdAt == b.createdAt && StringLe(b.id, a.id))
  }

  /** `afterCursor`: strictly beyond the last entry of the page before. */
  predicate After(x: Entry, cursor: Option<Entry>) {
    cursor.Some? ==> x.createdAt < cursor.value.createdAt || (x.createdAt == cursor.value.createdAt && x.id != cursor.value.id && StringLe(x.id, cursor.value.id))
  }

  /** The requested page size, 50 unless said, within 1 and 100. */
  function Limit(requested: Option<int>): (limit: nat)
    ensures 1 <= limit <= 100
  {
    var wanted := if requested.Some? then requested.value else 50;
    if wanted < 1 then 1 else if wanted > 100 then 100 else wanted
  }

  function Beyond(keep: Entry -> bool, cursor: Option<Entry>): Entry -> bool {
    x => keep(x) && After(x, cursor)
  }

  function Matching(items: seq<Entry>, keep: Entry -> bool, cursor: Option<Entry>): seq<Entry> {
    Filter(items, Beyond(keep, cursor))
  }

  function Sorting(items: seq<Entry>): seq<Entry> {
    SortBy(items, Newer)
  }

  /** `list`: filter, sort, cut, and point at the last entry if there is more. */
  function PageAt(items: seq<Entry>, keep: Entry -> bool, cursor: Option<Entry>, limit: nat): Page
    requires limit >= 1
  {
    var filtered := Sorting(Matching(items, keep, cursor));
    if |filtered| > limit then Page(filtered[..limit], Some(filtered[limit - 1])) else Page(filtered, None)
  }

  lemma NewerIsTotalOrder()
    ensures TotalOrder(Newer)
  {
    StringLeIsTotalOrder();
    forall a, b ensures (Newer(a, b) || Newer(b, a)) && (Newer(a, b) && Newer(b, a) ==> a == b) {
      assert StringLe(a.id, b.id) || StringLe(b.id, a.id);
    }
    forall a, b, c | Newer(a, b) && Newer(b, c) ensures Newer(a, c) {
      if a.createdAt == b.createdAt == c.createdAt {
        assert StringLe(c.id, b.id) && StringLe(b.id, a.id);
      }
    }
  }

  lemma {:induction false} FilterDistinct(s: seq<Entry>, keep: Entry -> bool)
    requires Distinct(s)
    ensures Distinct(Filter(s, keep))
  {
    if s != [] {
      FilterDistinct(s[1..], keep);
      assert s[0] !in s[1..];
    }
  }

  /** Two lists without repeats that hold the same entries sort the same. */
  lemma SameMembersSortSame(a: seq<Entry>, b: seq<Entry>)
    requires Distinct(a) && Distinct(b) && forall x :: x in a <==> x in b
    ensures Sorting(a) == Sorting(b)
  {
    forall x ensures multiset(a)[x] == multiset(b)[x] {
      DistinctCounts(a, x);
      DistinctCounts(b, x);
      assert x in a <==> x in multiset(a);
      assert x in b <==> x in multiset(b);
    }
    NewerIsTotalOrder();
    SortByCanonical(a, b, Newer);
  }

  lemma SortedIsFixed(s: seq<Entry>)
    requires Sorted(s, Newer)
    ensures Sorting(s) == s
  {
    NewerIsTotalOrder();
    SortBySorted(s, Newer);
    SortedUnique(SortBy(s, Newer), s, Newer);
  }

  lemma SortingIsSorted(s: seq<Entry>)
    ensures Sorted(Sorting(s), Newer) && multiset(Sorting(s)) == multiset(s)
    ensures |Sorting(s)| == |s| && (Distinct(s) ==> Distinct(Sorting(s)))
    ensures forall x :: x in Sorting(s) <==> x in s
  {
    NewerIsTotalOrder();
    SortBySorted(s, Newer);
    SameElements(Sorting(s), s);
    if Distinct(s) {
      DistinctMultiset(s, Sorting(s));
    }
  }

  /** Beyond entry `k` of the sorted list lies exactly the rest of it. */
  lemma RestAfter(items: seq<Entry>, keep: Entry -> bool, cursor: Option<Entry>, k: nat)
    requires Distinct(items) && k < |Sorting(Matching(items, keep, cursor))|
    ensures var s := Sorting(Matching(items, keep, cursor));
            Sorting(Matching(items, keep, Some(s[k]))) == s[k + 1..]
  {
    var matching := Matching(items, keep, cursor);
    var s := Sorting(matching);
    var rest := Matching(items, keep, Some(s[k]));
    FilterDistinct(items, Beyond(keep, cursor));
    FilterDistinct(items, Beyond(keep, Some(s[k])));
    SortingIsSorted(matching);
    forall x ensures x in rest <==> x in s[k + 1..] {
      RestMember(items, keep, cursor, k, x);
    }
    SameMembersSortSame(rest, s[k + 1..]);
    SortedIsFixed(s[k + 1..]);
  }

  lemma RestMember(items: seq<Entry>, keep: Entry -> bool, cursor: Option<Entry>, k: nat, x: Entry)
    requires var s := Sorting(Matching(items, keep, cursor)); k < |s| && Distinct(s) && Sorted(s, Newer) && forall y :: y in s <==> y in Matching(items, keep, cursor)
    ensures var s := Sorting(Matching(items, keep, cursor)); x in Matching(items, keep, Some(s[k])) <==> x in s[k + 1..]
  {
    hide Sorting, Newer, After, SortBy;
    var s := Sorting(Matching(items, keep, cursor));
    if x in s[k + 1..] {
      var j :| k < j < |s| && s[j] == x;
      AfterIsStrictlyNewer(s[k], x);
      assert s[j] in s;
    } else if x in Matching(items, keep, Some(s[k])) {
      assert s[k] in s;
      AfterTransitive(x, s[k], cursor);
      AfterIsStrictlyNewer(s[k], x);
      assert false;
    }
  }

  /** Beyond a cursor lies what is strictly older than it. */
  lemma AfterIsStrictlyNewer(a: Entry, b: Entry)
    ensures After(b, Some(a)) <==> Newer(a, b) && a != b
    ensures After(b, Some(a)) ==> !Newer(b, a)
  {
    StringLeTotal(a.id, b.id);
  }

  lemma AfterTransitive(x: Entry, y: Entry, cursor: Option<Entry>)
    requires After(x, Some(y)) && After(y, cursor)
    ensures After(x, cursor)
  {
    if cursor.Some? && x.createdAt == y.createdAt == cursor.value.createdAt {
      StringLeTransitive(x.id, y.id, cursor.value.id);
      StringLeTotal(x.id, y.id);
    }
  }

  lemma NextIsSmaller(items: seq<Entry>, keep: Entry -> bool, cursor: Option<Entry>, limit: nat)
    requires limit >= 1 && Distinct(items) && PageAt(items, keep, cursor, limit).next.Some?
    ensures |Sorting(Matching(items, keep, PageAt(items, keep, cursor, limit).next))| < |Sorting(Matching(items, keep, cursor))|
  {
    hide Sorting, Matching;
    RestAfter(items, keep, cursor, limit - 1);
  }

  /** All the entries a caller sees who follows `nextCursor` until there is none. */
  function AllPages(items: seq<Entry>, keep: Entry -> bool, cursor: Option<Entry>, limit: nat): seq<Entry>
    requires limit >= 1 && Distinct(items)
    decreases |Sorting(Matching(items, keep, cursor))|
  {
    var page := PageAt(items, keep, cursor, limit);
    if page.next.None? then page.items
    else
      NextIsSmaller(items, keep, cursor, limit);
      page.items + AllPages(items, keep, page.next, limit)
  }

  /** Following the cursors gives the filtered list, sorted, with no gap and no repeat, for every page size. */
  lemma {:induction false} PagesAreTheList(items: seq<Entry>, keep: Entry -> bool, cursor: Option<Entry>, limit: nat)
    requires limit >= 1 && Distinct(items)
    ensures AllPages(items, keep, cursor, limit) == Sorting(Matching(items, keep, cursor))
    decreases |Sorting(Matching(items, keep, cursor))|
  {
    hide Sorting, Matching;
    var s := Sorting(Matching(items, keep, cursor));
    if |s| > limit {
      RestAfter(items, keep, cursor, limit - 1);
      PagesAreTheList(items, keep, Some(s[limit - 1]), limit);
      assert s == s[..limit] + s[limit..];
    }
  }

  /** From the first page on, a caller sees each entry the filter keeps exactly once, newest first. */
  lemma EveryEntryOnce(items: seq<Entry>, keep: Entry -> bool, limit: nat)
    requires limit >= 1 && Distinct(items)
    ensures var seen := AllPages(items, keep, None, limit);
            && Distinct(seen) && Sorted(seen, Newer)
            && forall x :: x in seen <==> x in items && keep(x)
  {
    PagesAreTheList(items, keep, None, limit);
    FilterDistinct(items, Beyond(keep, None));
    SortingIsSorted(Matching(items, keep, None));
  }

  /**
   A page, read off the entries: kept entries strictly older than the cursor, or of its
   instant with a smaller id; newest first, and within an instant by falling id; as many
   as asked for, and a cursor exactly when there are more.
  */
  lemma PageHolds(items: seq<Entry>, keep: Entry -> bool, cursor: Option<Entry>, limit: nat)
    requires limit >= 1 && Distinct(items)
    ensures var page := PageAt(items, keep, cursor, limit); var p := page.items;
            && (forall x :: x in p ==> x in items && keep(x) && IsBeyond(x, cursor))
            && (forall i, j :: 0 <= i < j < |p| ==> p[i] != p[j] && ComesFirst(p[i], p[j]))
            && (forall x :: x in items && keep(x) && IsBeyond(x, cursor) && x !in p ==> page.next.Some? && IsBeyond(x, page.next))
            && (page.next.Some? ==> |p| == limit && page.next == Some(p[limit - 1]) && exists x :: x in items && keep(x) && IsBeyond(x, page.next))
            && (page.next.None? ==> |p| <= limit)
  {
    hide Sorting, After, Newer, IsBeyond, ComesFirst;
    var matching := Matching(items, keep, cursor);
    var s := Sorting(matching);
    FilterDistinct(items, Beyond(keep, cursor));
    SortingIsSorted(matching);
    forall x: Entry, c: Option<Entry> ensures After(x, c) <==> IsBeyond(x, c) {
      AfterIsBeyond(x, c);
    }
    forall a: Entry, b: Entry ensures Newer(a, b) <==> ComesFirst(a, b) {
      NewerComesFirst(a, b);
    }
    forall x ensures x in s <==> x in items && keep(x) && After(x, cursor) {
      assert Beyond(keep, cursor)(x) <==> keep(x) && After(x, cursor);
    }
    if |s| > limit {
      CutAt(s, limit);
      assert s[limit] in s;
      var p := PageAt(items, keep, cursor, limit).items;
      assert forall x :: x in p ==> x in s;
      assert forall i, j :: 0 <= i < j < |p| ==> p[i] != p[j] && ComesFirst(p[i], p[j]);
    }
  }

  /** What a cut leaves out is beyond the last entry kept. */
  lemma CutAt(s: seq<Entry>, limit: nat)
    requires 1 <= limit < |s| && Distinct(s) && Sorted(s, Newer)
    ensures forall x :: x in s && x !in s[..limit] ==> After(x, Some(s[limit - 1]))
    ensures After(s[limit], Some(s[limit - 1]))
  {
    hide After, Newer;
    forall x | x in s && x !in s[..limit] ensures After(x, Some(s[limit - 1])) {
      assert s == s[..limit] + s[limit..];
      var k :| 0 <= k < |s[limit..]| && s[limit..][k] == x;
      assert s[limit + k] == x;
      AfterIsStrictlyNewer(s[limit - 1], x);
    }
    AfterIsStrictlyNewer(s[limit - 1], s[limit]);
  }

  /** Older than the cursor, or of its instant with a smaller id. */
  predicate IsBeyond(x: Entry, cursor: Option<Entry>) {
    cursor.None? || x.createdAt < cursor.value.createdAt || (x.createdAt == cursor.value.createdAt && !StringLe(cursor.value.id, x.id))
  }

  predicate ComesFirst(a: Entry, b: Entry) {
    a.createdAt > b.createdAt || (a.createdAt == b.createdAt && StringLe(b.id, a.id))
  }

  lemma AfterIsBeyond(x: Entry, cursor: Option<Entry>)
    ensures After(x, cursor) <==> IsBeyond(x, cursor)
  {
    if cursor.Some? {
      StringLeTotal(x.id, cursor.value.id);
    }
  }

  lemma NewerComesFirst(a: Entry, b: Entry)
    ensures Newer(a, b) <==> ComesFirst(a, b)
  {}

  /** The page size is what was asked for, brought within 1 and 100; 50 unless said. */
  lemma LimitExactly(requested: Option<int>)
    ensures requested.None? ==> Limit(requested) == 50
    ensures requested.Some? && 1 <= requested.value <= 100 ==> Limit(requested) == requested.value
    ensures requested.Some? && requested.value > 100 ==> Limit(requested) == 100
    ensures requested.Some? && requested.value < 1 ==> Limit(requested) == 1
  {}

  /** Entries that are not beyond the cursor change neither the next page nor any page after it. */
  lemma NewEntriesChangeNoLaterPage(items: seq<Entry>, more: seq<Entry>, keep: Entry -> bool, cursor: Entry, limit: nat)
    requires limit >= 1 && forall x :: x in more ==> !After(x, Some(cursor))
    ensures PageAt(items + more, keep, Some(cursor), limit) == PageAt(items, keep, Some(cursor), limit)
    ensures PageAt(more + items, keep, Some(cursor), limit) == PageAt(items, keep, Some(cursor), limit)
    ensures Distinct(items + more) ==> Distinct(items) && AllPages(items + more, keep, Some(cursor), limit) == AllPages(items, keep, Some(cursor), limit)
  {
    hide Sorting, Filter, After;
    MatchingIgnores(items, more, keep, cursor);
    if Distinct(items + more) {
      DistinctPrefix(items, more);
      PagesAreTheList(items + more, keep, Some(cursor), limit);
      PagesAreTheList(items, keep, Some(cursor), limit);
    }
  }

  lemma DistinctPrefix(a: seq<Entry>, b: seq<Entry>)
    requires Distinct(a + b)
    ensures Distinct(a)
  {
    forall i, j | 0 <= i < j < |a| ensures a[i] != a[j] {
      assert (a + b)[i] == a[i] && (a + b)[j] == a[j];
    }
  }

  function Joined(lists: seq<seq<Entry>>): seq<Entry> {
    if lists == [] then [] else lists[0] + Joined(lists[1..])
  }

  /** Following the cursors while new entries arrive: each page is read from the list as it is by then. */
  function Follow(items: seq<Entry>, arrivals: seq<seq<Entry>>, keep: Entry -> bool, cursor: Option<Entry>, limit: nat): seq<Entry>
    requires limit >= 1 && Distinct(items + Joined(arrivals))
    decreases |arrivals|
  {
    if arrivals == [] then
      assert items + [] == items;
      AllPages(items, keep, cursor, limit)
    else
      var page := PageAt(items, keep, cursor, limit);
      if page.next.None? then page.items
      else
        assert items + Joined(arrivals) == items + arrivals[0] + Joined(arrivals[1..]);
        page.items + Follow(items + arrivals[0], arrivals[1..], keep, page.next, limit)
  }

  /** The cursor of a page lies beyond the cursor it was asked with. */
  lemma CursorMovesOn(items: seq<Entry>, keep: Entry -> bool, cursor: Option<Entry>, limit: nat)
    requires limit >= 1 && PageAt(items, keep, cursor, limit).next.Some?
    ensures After(PageAt(items, keep, cursor, limit).next.value, cursor)
  {
    var filtered := Sorting(Matching(items, keep, cursor));
    SortingIsSorted(Matching(items, keep, cursor));
    assert filtered[limit - 1] in filtered;
  }

  /**
   While notifications arrive between the pages, none of them beyond the first
   cursor, a caller who follows the cursors sees exactly the list as it was at the
   first page, whole and in order.
  */
  lemma {:induction false} ArrivalsDisturbNoPage(items: seq<Entry>, arrivals: seq<seq<Entry>>, keep: Entry -> bool, cursor: Option<Entry>, limit: nat)
    requires limit >= 1 && Distinct(items + Joined(arrivals)) && Distinct(items)
    requires PageAt(items, keep, cursor, limit).next.Some? ==>
               forall x :: x in Joined(arrivals) ==> !After(x, PageAt(items, keep, cursor, limit).next)
    ensures Follow(items, arrivals, keep, cursor, limit) == Sorting(Matching(items, keep, cursor))
    decreases |arrivals|
  {
    hide Sorting, Matching, After;
    PagesAreTheList(items, keep, cursor, limit);
    var page := PageAt(items, keep, cursor, limit);
    if arrivals != [] && page.next.Some? {
      var now := items + arrivals[0];
      assert items + Joined(arrivals) == now + Joined(arrivals[1..]);
      DistinctPrefix(now, Joined(arrivals[1..]));
      var later := PageAt(now, keep, page.next, limit);
      if later.next.Some? {
        CursorMovesOn(now, keep, page.next, limit);
        forall x | x in Joined(arrivals[1..]) ensures !After(x, later.next) {
          assert x in Joined(arrivals);
          if After(x, later.next) {
            AfterTransitive(x, later.next.value, page.next);
          }
        }
      }
      ArrivalsDisturbNoPage(now, arrivals[1..], keep, page.next, limit);
      PagesAreTheList(now, keep, page.next, limit);
      NewEntriesChangeNoLaterPage(items, arrivals[0], keep, page.next.value, limit);
    }
  }

  lemma MatchingIgnores(items: seq<Entry>, more: seq<Entry>, keep: Entry -> bool, cursor: Entry)
    requires forall x :: x in more ==> !After(x, Some(cursor))
    ensures Matching(items + more, keep, Some(cursor)) == Matching(items, keep, Some(cursor))
    ensures Matching(more + items, keep, Some(cursor)) == Matching(items, keep, Some(cursor))
  {
    hide After;
    var beyond := Beyond(keep, Some(cursor));
    FilterConcat(items, more, beyond);
    FilterConcat(more, items, beyond);
    FilterNothing(more, beyond);
  }

  lemma FilterNothing(s: seq<Entry>, keep: Entry -> bool)
    requires forall x :: x in s ==> !keep(x)
    ensures Filter(s, keep) == []
  {
    if Filter(s, keep) != [] {
      assert Filter(s, keep)[0] in Filter(s, keep);
    }
  }
}
