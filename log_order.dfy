/** The ordering both exports impose on a case's logs: ascending creation
    time, established by sorting the caller's array in place
    (lib/recall/export.ts, the `logs.sort(...)` calls). */
module LogOrder {
  import opened RecallTypes

  function Created(l: LogWithPhotos): Timestamp {
    l.log.created_at
  }

  /** Oldest log first. */
  predicate SortedByCreated(s: seq<LogWithPhotos>) {
    SortedUpTo(s, |s|)
  }

  /** The first `n` logs are oldest first. */
  predicate SortedUpTo(s: seq<LogWithPhotos>, n: int) {
    forall k, l | 0 <= k < l < n && l < |s| :: Created(s[k]) <= Created(s[l])
  }

  /** The logs of `s` created at time `k`, in their order in `s`. */
  function WithCreated(s: seq<LogWithPhotos>, k: Timestamp): (r: seq<LogWithPhotos>)
    ensures |r| <= |s|
    ensures forall l | l in r :: l in s && Created(l) == k
  {
    if s == [] then [] else (if Created(s[0]) == k then [s[0]] else []) + WithCreated(s[1..], k)
  }

  /** `s` and `t` list the logs of every creation time in the same order:
      what a stable sort keeps of its input. */
  ghost predicate SameTies(s: seq<LogWithPhotos>, t: seq<LogWithPhotos>) {
    forall k :: WithCreated(s, k) == WithCreated(t, k)
  }

  /** Sorts the logs in place by creation time, oldest first; logs created at
      the same time keep their relative order, as `Array.prototype.sort` is
      stable. */
  method SortByCreated(a: array<LogWithPhotos>)
    modifies a
    ensures SortedByCreated(a[..])
    ensures multiset(a[..]) == multiset(old(a[..]))
    ensures SameTies(a[..], old(a[..]))
  {
    for i := 0 to a.Length
      invariant SortedUpTo(a[..], i)
      invariant multiset(a[..]) == multiset(old(a[..]))
      invariant SameTies(a[..], old(a[..]))
    {
      InsertLast(a, i);
    }
  }

  /** While `a[i]` travels left to position `j`: the first `i + 1` logs
      without it are sorted, and it is older than everything it passed. */
  predicate Inserting(s: seq<LogWithPhotos>, i: int, j: int)
    requires 0 <= j <= i < |s|
  {
    && (forall k, l | 0 <= k < l <= i && k != j && l != j :: Created(s[k]) <= Created(s[l]))
    && (forall l | j < l <= i :: Created(s[j]) < Created(s[l]))
  }

  /** Moves `a[i]` left past every later-dated log before it, so that the
      first `i + 1` logs are sorted. */
  method InsertLast(a: array<LogWithPhotos>, i: nat)
    requires i < a.Length && SortedUpTo(a[..], i)
    modifies a
    ensures SortedUpTo(a[..], i + 1)
    ensures multiset(a[..]) == multiset(old(a[..]))
    ensures SameTies(a[..], old(a[..]))
  {
    var j := i;
    while j > 0 && Created(a[j - 1]) > Created(a[j])
      invariant 0 <= j <= i
      invariant multiset(a[..]) == multiset(old(a[..]))
      invariant SameTies(a[..], old(a[..]))
      invariant Inserting(a[..], i, j)
    {
      ghost var before := a[..];
      SwapBack(a, j);
      SwapKeepsInserting(before, i, j);
      SwapKeepsTies(before, j);
      j := j - 1;
    }
    InsertedIsSorted(a[..], i, j);
  }

  /** Exchanges `a[j - 1]` and `a[j]`. */
  method SwapBack(a: array<LogWithPhotos>, j: nat)
    requires 0 < j < a.Length
    modifies a
    ensures a[..] == old(a[..])[j - 1 := old(a[j])][j := old(a[j - 1])]
    ensures multiset(a[..]) == multiset(old(a[..]))
  {
    a[j - 1], a[j] := a[j], a[j - 1];
  }

  lemma SwapKeepsInserting(s: seq<LogWithPhotos>, i: int, j: int)
    requires 0 < j <= i < |s| && Inserting(s, i, j) && Created(s[j - 1]) > Created(s[j])
    ensures Inserting(s[j - 1 := s[j]][j := s[j - 1]], i, j - 1)
  {
  }

  lemma InsertedIsSorted(s: seq<LogWithPhotos>, i: int, j: int)
    requires 0 <= j <= i < |s| && Inserting(s, i, j)
    requires j == 0 || Created(s[j - 1]) <= Created(s[j])
    ensures SortedUpTo(s, i + 1)
  {
  }

  lemma {:induction false} WithCreatedAppend(s: seq<LogWithPhotos>, t: seq<LogWithPhotos>, k: Timestamp)
    ensures WithCreated(s + t, k) == WithCreated(s, k) + WithCreated(t, k)
  {
    if s == [] {
      assert s + t == t;
    } else {
      assert (s + t)[1..] == s[1..] + t;
      WithCreatedAppend(s[1..], t, k);
    }
  }

  /** Exchanging two neighbours created at different times keeps the order
      among the logs of each creation time. */
  lemma SwapKeepsTies(s: seq<LogWithPhotos>, j: int)
    requires 0 < j < |s| && Created(s[j - 1]) != Created(s[j])
    ensures SameTies(s[j - 1 := s[j]][j := s[j - 1]], s)
  {
    var x, y := s[j - 1], s[j];
    var p, q := s[..j - 1], s[j + 1..];
    var swapped := s[j - 1 := y][j := x];
    assert s == p + [x, y] + q;
    assert swapped == p + [y, x] + q;
    forall k
      ensures WithCreated(swapped, k) == WithCreated(s, k)
    {
      WithCreatedAppend(p + [x, y], q, k);
      WithCreatedAppend(p, [x, y], k);
      WithCreatedAppend(p + [y, x], q, k);
      WithCreatedAppend(p, [y, x], k);
      assert [x, y][1..] == [y] && [y, x][1..] == [x];
      assert WithCreated([x, y], k) == WithCreated([y, x], k);
    }
  }

  /** Sortedness and kept ties pin the result down: two sorted orders of
      the same logs that keep every creation time's logs in the same order
      are equal, so the contract of `SortByCreated` determines its result. */
  lemma {:induction false} StableOrderIsUnique(s: seq<LogWithPhotos>, t: seq<LogWithPhotos>)
    requires SortedByCreated(s) && SortedByCreated(t) && SameTies(s, t)
    ensures s == t
  {
    if s == [] || t == [] {
      NoneLeftOfAnyTime(s, t);
    } else {
      HeadsAgree(s, t);
      TailsKeepTies(s, t);
      assert SortedByCreated(s[1..]) && SortedByCreated(t[1..]);
      StableOrderIsUnique(s[1..], t[1..]);
      assert s == [s[0]] + s[1..];
      assert t == [t[0]] + t[1..];
    }
  }

  /** Both sorted orders start with the first log of the oldest time. */
  lemma HeadsAgree(s: seq<LogWithPhotos>, t: seq<LogWithPhotos>)
    requires s != [] && t != []
    requires SortedByCreated(s) && SortedByCreated(t) && SameTies(s, t)
    ensures s[0] == t[0]
  {
    var m, n := Created(s[0]), Created(t[0]);
    assert s[0] in WithCreated(s, m);
    assert s[0] in WithCreated(t, m);
    assert n <= m;
    assert t[0] in WithCreated(t, n);
    assert t[0] in WithCreated(s, n);
    assert m <= n;
    assert WithCreated(s, m)[0] == s[0];
    assert WithCreated(t, m)[0] == t[0];
  }

  /** Dropping a common first log keeps the ties. */
  lemma TailsKeepTies(s: seq<LogWithPhotos>, t: seq<LogWithPhotos>)
    requires s != [] && t != [] && s[0] == t[0] && SameTies(s, t)
    ensures SameTies(s[1..], t[1..])
  {
    forall k
      ensures WithCreated(s[1..], k) == WithCreated(t[1..], k)
    {
      var h := if Created(s[0]) == k then [s[0]] else [];
      assert WithCreated(s, k) == h + WithCreated(s[1..], k);
      assert WithCreated(t, k) == h + WithCreated(t[1..], k);
      assert WithCreated(s[1..], k) == WithCreated(s, k)[|h|..];
    }
  }

  /** Lists with the same ties are empty together. */
  lemma NoneLeftOfAnyTime(s: seq<LogWithPhotos>, t: seq<LogWithPhotos>)
    requires SameTies(s, t)
    ensures s == [] <==> t == []
  {
    if s != [] {
      assert s[0] in WithCreated(s, Created(s[0]));
    }
    if t != [] {
      assert t[0] in WithCreated(t, Created(t[0]));
    }
  }
}
