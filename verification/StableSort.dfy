/** Python's stable sort, in descending order of a key. */
module StableSort {
  datatype Keyed<+T> = Keyed(item: T, key: real)

  /** `sorted(..., reverse=True)`: descending, equal keys in their original order. */
  function Insert<T>(r: Keyed<T>, sorted: seq<Keyed<T>>): seq<Keyed<T>> {
    if sorted == [] || r.key >= sorted[0].key then [r] + sorted
    else [sorted[0]] + Insert(r, sorted[1..])
  }

  function SortedDown<T>(rs: seq<Keyed<T>>): seq<Keyed<T>> {
    if rs == [] then [] else Insert(rs[0], SortedDown(rs[1..]))
  }

  ghost predicate Before<T(!new)>(s: seq<T>, x: T, y: T) {
    exists i, j :: 0 <= i < j < |s| && s[i] == x && s[j] == y
  }

  ghost predicate Descending<T>(rs: seq<Keyed<T>>) {
    forall i, j :: 0 <= i < j < |rs| ==> rs[i].key >= rs[j].key
  }

  lemma {:induction false} InsertBag<T(!new)>(r: Keyed<T>, sorted: seq<Keyed<T>>)
    ensures multiset(Insert(r, sorted)) == multiset(sorted) + multiset{r}
  {
    if sorted != [] && r.key < sorted[0].key {
      InsertBag(r, sorted[1..]);
      assert sorted == [sorted[0]] + sorted[1..];
    }
  }

  lemma {:induction false} InsertFacts<T(!new)>(r: Keyed<T>, sorted: seq<Keyed<T>>)
    requires Descending(sorted)
    ensures Descending(Insert(r, sorted))
    ensures forall x :: x in Insert(r, sorted) <==> x == r || x in sorted
  {
    if sorted != [] && r.key < sorted[0].key {
      var rest := sorted[1..];
      InsertFacts(r, rest);
      assert sorted == [sorted[0]] + rest;
      DescendingCons(sorted[0], Insert(r, rest));
    }
  }

  lemma DescendingCons<T(!new)>(first: Keyed<T>, rest: seq<Keyed<T>>)
    requires Descending(rest) && forall x :: x in rest ==> first.key >= x.key
    ensures Descending([first] + rest)
  {
  }

  lemma {:induction false} SortedFacts<T(!new)>(rs: seq<Keyed<T>>)
    ensures Descending(SortedDown(rs)) && multiset(SortedDown(rs)) == multiset(rs)
  {
    if rs != [] {
      SortedFacts(rs[1..]);
      InsertFacts(rs[0], SortedDown(rs[1..]));
      InsertBag(rs[0], SortedDown(rs[1..]));
      assert rs == [rs[0]] + rs[1..];
    }
  }

  lemma BeforeCons<T(!new)>(first: T, rest: seq<T>, x: T, y: T)
    requires Before(rest, x, y) || (x == first && y in rest)
    ensures Before([first] + rest, x, y)
  {
    var all := [first] + rest;
    if Before(rest, x, y) {
      var i, j :| 0 <= i < j < |rest| && rest[i] == x && rest[j] == y;
      assert all[i + 1] == x && all[j + 1] == y;
    } else {
      var j :| 0 <= j < |rest| && rest[j] == y;
      assert all[0] == x && all[j + 1] == y;
    }
  }

  /** Inserting keeps the order of what is there, and puts the new element before anything
      that does not score higher. */
  lemma {:induction false} InsertOrders<T(!new)>(r: Keyed<T>, sorted: seq<Keyed<T>>, x: Keyed<T>, y: Keyed<T>)
    requires Descending(sorted)
    requires Before(sorted, x, y) || (x == r && y in sorted && r.key >= y.key)
    ensures Before(Insert(r, sorted), x, y)
  {
    if sorted == [] || r.key >= sorted[0].key {
      BeforeCons(r, sorted, x, y);
    } else {
      var first, rest := sorted[0], sorted[1..];
      assert sorted == [first] + rest;
      InsertFacts(r, rest);
      if x == r && y in sorted && r.key >= y.key {
        InsertOrders(r, rest, x, y);
      } else {
        var i, j :| 0 <= i < j < |sorted| && sorted[i] == x && sorted[j] == y;
        assert rest[j - 1] == y;
        if i > 0 {
          assert rest[i - 1] == x;
          InsertOrders(r, rest, x, y);
        }
      }
      BeforeCons(first, Insert(r, rest), x, y);
    }
  }

  /** The sort is stable: an element that comes first and does not score lower stays first. */
  lemma {:induction false} SortIsStable<T(!new)>(rs: seq<Keyed<T>>, x: Keyed<T>, y: Keyed<T>)
    requires Before(rs, x, y) && x.key >= y.key
    ensures Before(SortedDown(rs), x, y)
  {
    var rest := SortedDown(rs[1..]);
    SortedFacts(rs[1..]);
    var i, j :| 0 <= i < j < |rs| && rs[i] == x && rs[j] == y;
    assert rs[1..][j - 1] == y;
    if i > 0 {
      assert rs[1..][i - 1] == x;
      SortIsStable(rs[1..], x, y);
      InsertOrders(rs[0], rest, x, y);
    } else {
      assert y in multiset(rs[1..]);
      assert y in multiset(rest);
      InsertOrders(rs[0], rest, x, y);
    }
  }

  lemma HigherComesFirst<T(!new)>(rs: seq<Keyed<T>>, x: Keyed<T>, y: Keyed<T>)
    requires Descending(rs) && x in rs && y in rs && x.key > y.key
    ensures Before(rs, x, y)
  {
    var i :| 0 <= i < |rs| && rs[i] == x;
    var j :| 0 <= j < |rs| && rs[j] == y;
    assert i < j;
  }
}
