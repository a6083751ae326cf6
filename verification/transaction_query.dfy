/**
 The queries the store answers for the transaction routes: keep the records
 a filter matches, then order them by `date`, most recent first.
 The store's order among records with equal dates is unspecified; the model
 picks one, and its contracts promise only what any such order satisfies.
 */
module TransactionQuery {
  import opened LedgerTypes

  /** The three filters the routes use: one owner, one exact status, or none at all. */
  datatype Filter = ByUser(userId: UserId) | ByStatus(status: string) | Everything

  predicate Matches(f: Filter, t: Transaction)
  {
    match f
    case ByUser(u) => t.userId == u
    case ByStatus(st) => t.status == st
    case Everything => true
  }

  /** Most recent first: dates never increase along the sequence. */
  ghost predicate NewestFirst(s: seq<Transaction>)
  {
    forall i, j :: 0 <= i < j < |s| ==> s[i].date >= s[j].date
  }

  /** The records of `s` that `f` matches, in their stored order. */
  function Select(s: seq<Transaction>, f: Filter): seq<Transaction>
  {
    if s == [] then []
    else if Matches(f, s[0]) then [s[0]] + Select(s[1..], f)
    else Select(s[1..], f)
  }

  /** Selection keeps every matching record as often as the store holds it, and nothing else. */
  lemma {:induction false} SelectCounts(s: seq<Transaction>, f: Filter)
    ensures forall t :: multiset(Select(s, f))[t] == if Matches(f, t) then multiset(s)[t] else 0
  {
    if s != [] {
      SelectCounts(s[1..], f);
      assert s == [s[0]] + s[1..];
    }
  }

  /** Selecting from a store with one more record selects that record too, when it matches. */
  lemma {:induction false} SelectAppend(s: seq<Transaction>, t: Transaction, f: Filter)
    ensures Select(s + [t], f) == Select(s, f) + (if Matches(f, t) then [t] else [])
  {
    var tail := if Matches(f, t) then [t] else [];
    if s == [] {
      assert [t][1..] == [];
      assert Select([t], f) == tail;
      assert s + [t] == [t];
    } else {
      var s' := s + [t];
      assert s'[0] == s[0] && s'[1..] == s[1..] + [t];
      SelectAppend(s[1..], t, f);
      assert Select(s'[1..], f) == Select(s[1..], f) + tail;
      if Matches(f, s[0]) {
        assert Select(s', f) == [s[0]] + (Select(s[1..], f) + tail);
        assert Select(s, f) == [s[0]] + Select(s[1..], f);
        assert [s[0]] + (Select(s[1..], f) + tail) == ([s[0]] + Select(s[1..], f)) + tail;
      } else {
        assert Select(s', f) == Select(s[1..], f) + tail;
        assert Select(s, f) == Select(s[1..], f);
      }
      assert Select(s', f) == Select(s, f) + tail;
    }
  }

  /** Places `t` before the first record that is not more recent than it. */
  function Insert(t: Transaction, s: seq<Transaction>): seq<Transaction>
  {
    if s == [] || t.date >= s[0].date then [t] + s
    else [s[0]] + Insert(t, s[1..])
  }

  /** Insertion keeps a newest-first sequence newest first; its head is `t` or the old head. */
  lemma {:induction false} InsertNewestFirst(t: Transaction, s: seq<Transaction>)
    requires NewestFirst(s)
    ensures NewestFirst(Insert(t, s))
    ensures |Insert(t, s)| == |s| + 1
    ensures Insert(t, s)[0] == t || (s != [] && Insert(t, s)[0] == s[0])
  {
    if s != [] && t.date < s[0].date {
      var rest := Insert(t, s[1..]);
      InsertNewestFirst(t, s[1..]);
      assert s[0].date >= rest[0].date;
      var r := [s[0]] + rest;
      forall i, j | 0 <= i < j < |r|
        ensures r[i].date >= r[j].date
      {
        if i == 0 {
          assert r[j] == rest[j - 1];
        } else {
          assert r[i] == rest[i - 1] && r[j] == rest[j - 1];
        }
      }
    }
  }

  /** Insertion adds `t` and loses nothing. */
  lemma {:induction false} InsertCounts(t: Transaction, s: seq<Transaction>)
    ensures multiset(Insert(t, s)) == multiset(s) + multiset{t}
  {
    if s != [] && t.date < s[0].date {
      InsertCounts(t, s[1..]);
      assert s == [s[0]] + s[1..];
    }
  }

  /** The records of `s` rearranged most recent first. */
  function SortByDate(s: seq<Transaction>): (r: seq<Transaction>)
    ensures NewestFirst(r)
    ensures multiset(r) == multiset(s)
  {
    if s == [] then []
    else
      var rest := SortByDate(s[1..]);
      InsertNewestFirst(s[0], rest);
      InsertCounts(s[0], rest);
      assert s == [s[0]] + s[1..];
      Insert(s[0], rest)
  }

  /** A store query: the matching records, most recent first. */
  function Find(s: seq<Transaction>, f: Filter): (r: seq<Transaction>)
    ensures NewestFirst(r)
    ensures forall t :: multiset(r)[t] == if Matches(f, t) then multiset(s)[t] else 0
  {
    SelectCounts(s, f);
    SortByDate(Select(s, f))
  }
}
