/** Cursor paging over an append-only log with a strictly increasing key. Session
    reads (key: record number), the runtime journal (key: position) and stream
    replays (key: stream sequence) all page this way. */
module Paging {

  ghost predicate Sorted<T>(log: seq<T>, key: T -> int) {
    forall i, j :: 0 <= i < j < |log| ==> key(log[i]) < key(log[j])
  }

  /** Where the entries with a key above `c` start. */
  function Cut<T>(log: seq<T>, key: T -> int, c: int): (n: nat)
    ensures n <= |log|
    ensures Sorted(log, key) ==> forall i :: 0 <= i < |log| ==> (key(log[i]) > c <==> n <= i)
  {
    if log == [] || key(log[|log| - 1]) <= c then |log| else Cut(log[..|log| - 1], key, c)
  }

  /** At most `limit` entries strictly after cursor `c`. */
  function Page<T>(log: seq<T>, key: T -> int, c: int, limit: nat): seq<T> {
    var n := Cut(log, key, c);
    log[n..if n + limit <= |log| then n + limit else |log|]
  }

  /** The cursor to ask with next: the last key seen, or unchanged after an empty page. */
  function NextCursor<T>(page: seq<T>, key: T -> int, c: int): int {
    if page == [] then c else key(page[|page| - 1])
  }

  /** The entries with a key above `c`, chosen one by one. */
  function SelectAfter<T>(log: seq<T>, key: T -> int, c: int): seq<T> {
    if log == [] then []
    else if key(log[0]) > c then [log[0]] + SelectAfter(log[1..], key, c)
    else SelectAfter(log[1..], key, c)
  }

  lemma {:induction false} SelectConcat<T>(a: seq<T>, b: seq<T>, key: T -> int, c: int)
    ensures SelectAfter(a + b, key, c) == SelectAfter(a, key, c) + SelectAfter(b, key, c)
    decreases |a|
  {
    if a == [] {
      assert a + b == b;
    } else {
      assert (a + b)[1..] == a[1..] + b;
      SelectConcat(a[1..], b, key, c);
    }
  }

  lemma {:induction false} SelectionIsSuffix<T>(log: seq<T>, key: T -> int, c: int, n: nat)
    requires n <= |log|
    requires forall i :: 0 <= i < |log| ==> (key(log[i]) > c <==> n <= i)
    ensures SelectAfter(log, key, c) == log[n..]
    decreases |log|
  {
    if log != [] {
      var rest := log[1..];
      var m := if n == 0 then 0 else n - 1;
      forall i | 0 <= i < |rest| ensures key(rest[i]) > c <==> m <= i {
        assert rest[i] == log[i + 1];
      }
      SelectionIsSuffix(rest, key, c, m);
      assert n == 0 ==> log == [log[0]] + rest;
    }
  }

  /** A page is the first `limit` of the selected entries. */
  lemma PageIsSelection<T>(log: seq<T>, key: T -> int, c: int, limit: nat)
    requires Sorted(log, key)
    ensures SelectAfter(log, key, c) == log[Cut(log, key, c)..]
    ensures Page(log, key, c, limit) <= SelectAfter(log, key, c)
    ensures |Page(log, key, c, limit)| ==
      if limit <= |SelectAfter(log, key, c)| then limit else |SelectAfter(log, key, c)|
  {
    SelectionIsSuffix(log, key, c, Cut(log, key, c));
  }

  lemma CutUnique<T>(log: seq<T>, key: T -> int, c: int, n: nat)
    requires Sorted(log, key) && n <= |log|
    requires n > 0 ==> key(log[n - 1]) <= c
    requires n < |log| ==> key(log[n]) > c
    ensures Cut(log, key, c) == n
  {
  }

  lemma PageStep<T>(log: seq<T>, key: T -> int, c: int, limit: nat)
    requires Sorted(log, key) && 1 <= limit
    ensures var page := Page(log, key, c, limit);
            var c' := NextCursor(page, key, c);
      && c <= c'
      && (page == [] <==> Cut(log, key, c) == |log|)
      && page == log[Cut(log, key, c)..Cut(log, key, c')]
  {
    var n := Cut(log, key, c);
    var page := Page(log, key, c, limit);
    if page != [] {
      var m := n + |page|;
      assert page[|page| - 1] == log[m - 1];
      CutUnique(log, key, NextCursor(page, key, c), m);
    }
  }

  // ------------------------------------------------------------ following a cursor

  /** One request: the log as it stands then, and the page size asked for. */
  datatype Round<T> = Round(log: seq<T>, limit: nat)

  /** The log only grows between requests. */
  ghost predicate Growing<T>(rounds: seq<Round<T>>, key: T -> int) {
    && (forall i :: 0 <= i < |rounds| ==> Sorted(rounds[i].log, key) && 1 <= rounds[i].limit)
    && (forall i, j :: 0 <= i <= j < |rounds| ==> rounds[i].log <= rounds[j].log)
  }

  /** The cursor reached by following NextCursor from `c`. */
  function Reached<T>(rounds: seq<Round<T>>, key: T -> int, c: int): int
    decreases |rounds|
  {
    if rounds == [] then c
    else Reached(rounds[1..], key, NextCursor(Page(rounds[0].log, key, c, rounds[0].limit), key, c))
  }

  /** Everything returned while following NextCursor from `c`. */
  function Collected<T>(rounds: seq<Round<T>>, key: T -> int, c: int): seq<T>
    decreases |rounds|
  {
    if rounds == [] then []
    else
      var page := Page(rounds[0].log, key, c, rounds[0].limit);
      page + Collected(rounds[1..], key, NextCursor(page, key, c))
  }

  lemma CutOfPrefix<T>(log: seq<T>, whole: seq<T>, key: T -> int, c: int)
    requires log <= whole && Sorted(whole, key) && Sorted(log, key)
    ensures Cut(log, key, c) <= Cut(whole, key, c)
    ensures Cut(log, key, c) < |log| ==> Cut(whole, key, c) == Cut(log, key, c)
  {
    var n := Cut(log, key, c);
    assert n > 0 ==> log[n - 1] == whole[n - 1];
    if n < |log| {
      assert log[n] == whole[n];
      CutUnique(whole, key, c, n);
    }
  }

  lemma CutOfKey<T>(log: seq<T>, key: T -> int, m: nat)
    requires Sorted(log, key) && m < |log|
    ensures Cut(log, key, key(log[m])) == m + 1
  {
    CutUnique(log, key, key(log[m]), m + 1);
  }

  /** A page taken from an earlier log is the same slice of any later log. */
  lemma PageInLaterLog<T>(log: seq<T>, whole: seq<T>, key: T -> int, c: int, limit: nat)
    requires log <= whole && Sorted(whole, key) && Sorted(log, key) && 1 <= limit
    ensures var page := Page(log, key, c, limit);
            var c' := NextCursor(page, key, c);
      && c <= c'
      && Cut(whole, key, c) <= Cut(whole, key, c')
      && page == whole[Cut(whole, key, c)..Cut(whole, key, c')]
  {
    var page := Page(log, key, c, limit);
    PageStep(log, key, c, limit);
    if page != [] {
      var n := Cut(log, key, c);
      var m := n + |page|;
      CutOfPrefix(log, whole, key, c);
      assert page[|page| - 1] == log[m - 1] == whole[m - 1];
      CutOfKey(whole, key, m - 1);
      assert page == log[n..m] == whole[n..m];
    }
  }

  /** Following the cursor returns, in order and exactly once, the entries of the
      final log whose key lies between the first and the last cursor. */
  lemma {:induction false} FollowEnumerates<T>(rounds: seq<Round<T>>, whole: seq<T>, key: T -> int, c: int)
    requires Growing(rounds, key) && Sorted(whole, key)
    requires forall i :: 0 <= i < |rounds| ==> rounds[i].log <= whole
    ensures c <= Reached(rounds, key, c)
    ensures Cut(whole, key, c) <= Cut(whole, key, Reached(rounds, key, c))
    ensures Collected(rounds, key, c) == whole[Cut(whole, key, c)..Cut(whole, key, Reached(rounds, key, c))]
    decreases |rounds|
  {
    if rounds != [] {
      var page := Page(rounds[0].log, key, c, rounds[0].limit);
      var c' := NextCursor(page, key, c);
      PageInLaterLog(rounds[0].log, whole, key, c, rounds[0].limit);
      LaterRounds(rounds, whole, key);
      FollowEnumerates(rounds[1..], whole, key, c');
      SliceJoin(whole, Cut(whole, key, c), Cut(whole, key, c'), Cut(whole, key, Reached(rounds[1..], key, c')));
    }
  }

  lemma LaterRounds<T>(rounds: seq<Round<T>>, whole: seq<T>, key: T -> int)
    requires rounds != [] && Growing(rounds, key)
    requires forall i :: 0 <= i < |rounds| ==> rounds[i].log <= whole
    ensures Growing(rounds[1..], key)
    ensures forall i :: 0 <= i < |rounds[1..]| ==> rounds[1..][i].log <= whole
  {
  }

  lemma SliceJoin<T>(s: seq<T>, a: nat, b: nat, d: nat)
    requires a <= b <= d <= |s|
    ensures s[a..b] + s[b..d] == s[a..d]
  {
  }

  /** Once the log stops growing, asking more often than entries remain returns all
      of them and ends with an empty page. */
  lemma {:induction false} FollowEnds<T>(rounds: seq<Round<T>>, whole: seq<T>, key: T -> int, c: int)
    requires Sorted(whole, key)
    requires forall i :: 0 <= i < |rounds| ==> rounds[i].log == whole && 1 <= rounds[i].limit
    requires |rounds| > |whole| - Cut(whole, key, c)
    ensures Collected(rounds, key, c) == whole[Cut(whole, key, c)..]
    ensures forall limit :: Page(whole, key, Reached(rounds, key, c), limit) == []
    decreases |rounds|
  {
    var page := Page(whole, key, c, rounds[0].limit);
    var c' := NextCursor(page, key, c);
    PageStep(whole, key, c, rounds[0].limit);
    if |rounds| > 1 {
      FollowEnds(rounds[1..], whole, key, c');
      SliceJoin(whole, Cut(whole, key, c), Cut(whole, key, c'), |whole|);
    } else {
      NoMoreRounds(rounds, key, c');
    }
  }

  lemma NoMoreRounds<T>(rounds: seq<Round<T>>, key: T -> int, c: int)
    requires |rounds| == 1
    ensures Collected(rounds[1..], key, c) == [] && Reached(rounds[1..], key, c) == c
  {
    assert rounds[1..] == [];
  }
}
