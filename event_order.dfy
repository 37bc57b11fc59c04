/** `sorted(events, key=lambda event: event["timestamp"])`: Python's sort is
    stable, so it is modelled by an insertion sort that puts an element before
    every later element with an equal or greater timestamp. */
module EventOrder {
  import opened AlarmTypes
  import opened Collections

  predicate Sorted(s: seq<Event>) {
    forall i, j :: 0 <= i < j < |s| ==> s[i].timestamp <= s[j].timestamp
  }

  /** `e` goes before the first element whose timestamp is not smaller. */
  function Insert(e: Event, s: seq<Event>): (r: seq<Event>)
    ensures multiset(r) == multiset(s) + multiset{e}
  {
    if s == [] then [e]
    else if e.timestamp <= s[0].timestamp then [e] + s
    else
      assert s == [s[0]] + s[1..];
      [s[0]] + Insert(e, s[1..])
  }

  /** Every element of `Insert(e, s)` is `e` or an element of `s`. */
  lemma InsertElements(e: Event, s: seq<Event>, x: Event)
    requires x in Insert(e, s)
    ensures x == e || x in s
  {
    assert x in multiset(Insert(e, s));
  }

  lemma {:induction false} InsertSorted(e: Event, s: seq<Event>)
    requires Sorted(s)
    ensures Sorted(Insert(e, s))
  {
    if s != [] && e.timestamp > s[0].timestamp {
      var rest := Insert(e, s[1..]);
      InsertSorted(e, s[1..]);
      forall k | 0 <= k < |rest|
        ensures s[0].timestamp <= rest[k].timestamp
      {
        InsertElements(e, s[1..], rest[k]);
      }
    }
  }

  function SortByTimestamp(s: seq<Event>): (r: seq<Event>)
    ensures Sorted(r)
    ensures multiset(r) == multiset(s)
  {
    if s == [] then []
    else
      assert s == [s[0]] + s[1..];
      InsertSorted(s[0], SortByTimestamp(s[1..]));
      Insert(s[0], SortByTimestamp(s[1..]))
  }

  /** The events recorded at time `t`. */
  function AtTime(t: int): Event -> bool {
    (e: Event) => e.timestamp == t
  }

  lemma {:induction false} FilterInsert(e: Event, s: seq<Event>, p: Event -> bool)
    requires Sorted(s)
    ensures Filter(Insert(e, s), p) == if p(e) then Insert(e, Filter(s, p)) else Filter(s, p)
  {
    if s == [] {
      assert Filter([e], p) == if p(e) then [e] else [];
    } else if e.timestamp <= s[0].timestamp {
      FilterInsertFront(e, s, p);
    } else {
      var s1 := s[1..];
      assert Sorted(s1) by {
        forall i, j | 0 <= i < j < |s1| ensures s1[i].timestamp <= s1[j].timestamp {
          assert s1[i] == s[i + 1] && s1[j] == s[j + 1];
        }
      }
      FilterInsert(e, s1, p);
      FilterInsertBehind(e, s, p);
    }
  }

  lemma FilterInsertFront(e: Event, s: seq<Event>, p: Event -> bool)
    requires Sorted(s) && s != [] && e.timestamp <= s[0].timestamp
    ensures Filter(Insert(e, s), p) == if p(e) then Insert(e, Filter(s, p)) else Filter(s, p)
  {
    assert Insert(e, s) == [e] + s;
    FilterConcat([e], s, p);
    var fs := Filter(s, p);
    if p(e) {
      assert Filter([e], p) == [e];
      if fs != [] {
        FilterNotEarlier(s, p, e.timestamp);
      }
      assert Insert(e, fs) == [e] + fs;
    } else {
      assert Filter([e], p) == [];
    }
  }

  /** Filtering a sorted sequence keeps it starting no earlier than it did. */
  lemma FilterNotEarlier(s: seq<Event>, p: Event -> bool, t: int)
    requires Sorted(s) && s != [] && t <= s[0].timestamp && Filter(s, p) != []
    ensures t <= Filter(s, p)[0].timestamp
  {
    var x := Filter(s, p)[0];
    assert x in s;
    var k :| 0 <= k < |s| && s[k] == x;
    assert s[0].timestamp <= s[k].timestamp;
  }

  lemma FilterInsertBehind(e: Event, s: seq<Event>, p: Event -> bool)
    requires s != [] && e.timestamp > s[0].timestamp
    requires Filter(Insert(e, s[1..]), p) == if p(e) then Insert(e, Filter(s[1..], p)) else Filter(s[1..], p)
    ensures Filter(Insert(e, s), p) == if p(e) then Insert(e, Filter(s, p)) else Filter(s, p)
  {
    var s1 := s[1..];
    var f1 := Filter(s1, p);
    var i1 := Insert(e, s1);
    assert Insert(e, s) == [s[0]] + i1;
    assert ([s[0]] + i1)[1..] == i1;
    assert s[1..] == s1;
    if p(s[0]) {
      assert Filter(s, p) == [s[0]] + f1;
      assert Filter(Insert(e, s), p) == [s[0]] + Filter(i1, p);
      if p(e) {
        assert ([s[0]] + f1)[1..] == f1;
        assert Insert(e, [s[0]] + f1) == [s[0]] + Insert(e, f1);
      }
    } else {
      assert Filter(s, p) == f1;
      assert Filter(Insert(e, s), p) == Filter(i1, p);
    }
  }

  /** Sorting then filtering equals filtering then sorting: the filtered
      elements keep their relative order. This is what stability means. */
  lemma {:induction false} FilterSort(s: seq<Event>, p: Event -> bool)
    ensures Filter(SortByTimestamp(s), p) == SortByTimestamp(Filter(s, p))
  {
    if s != [] {
      var s1 := s[1..];
      var f1 := Filter(s1, p);
      FilterSort(s1, p);
      assert SortByTimestamp(s) == Insert(s[0], SortByTimestamp(s1));
      FilterInsert(s[0], SortByTimestamp(s1), p);
      if p(s[0]) {
        assert Filter(s, p) == [s[0]] + f1;
        assert ([s[0]] + f1)[1..] == f1;
        assert SortByTimestamp([s[0]] + f1) == Insert(s[0], SortByTimestamp(f1));
      } else {
        assert Filter(s, p) == f1;
      }
    }
  }

  /** Sorting leaves a sequence whose timestamps are all equal as it is. */
  lemma {:induction false} SortKeepsEqualTimes(s: seq<Event>, t: int)
    requires forall k :: 0 <= k < |s| ==> s[k].timestamp == t
    ensures SortByTimestamp(s) == s
  {
    if s != [] {
      SortKeepsEqualTimes(s[1..], t);
      assert s == [s[0]] + s[1..];
    }
  }

  /** Events with equal timestamps come out of the sort in their load order. */
  lemma SortIsStable(s: seq<Event>, t: int)
    ensures Filter(SortByTimestamp(s), AtTime(t)) == Filter(s, AtTime(t))
  {
    FilterSort(s, AtTime(t));
    SortKeepsEqualTimes(Filter(s, AtTime(t)), t);
  }
}
