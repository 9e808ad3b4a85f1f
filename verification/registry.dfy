/**
  The bus's list of registered additives. Registration appends only when the additive is
  not already present; unregistration removes the first occurrence, as a list's `Remove`
  does. Together they keep the list free of duplicates, so it behaves as a set.
 */
module Registry {

  predicate NoDuplicates<T(==)>(s: seq<T>) {
    forall i, j :: 0 <= i < j < |s| ==> s[i] != s[j]
  }

  /** The position of the first occurrence of `a`. */
  function IndexOf<T(==)>(s: seq<T>, a: T): (i: nat)
    requires a in s
    ensures i < |s| && s[i] == a
    ensures a !in s[..i]
  {
    if s[0] == a then 0 else 1 + IndexOf(s[1..], a)
  }

  function Register<T(==)>(s: seq<T>, a: T): (r: seq<T>)
    ensures a in r
    ensures a in s ==> r == s
    ensures a !in s ==> r == s + [a]
    ensures NoDuplicates(s) ==> NoDuplicates(r)
  {
    if a in s then s else s + [a]
  }

  /** Removes the first occurrence of `a`, keeping the order of everything else. */
  function Unregister<T(==)>(s: seq<T>, a: T): (r: seq<T>)
    ensures a !in s ==> r == s
    ensures a in s ==> r == s[..IndexOf(s, a)] + s[IndexOf(s, a) + 1..]
  {
    if s == [] then []
    else if s[0] == a then
      assert s == [s[0]] + s[1..];
      s[1..]
    else
      assert s == [s[0]] + s[1..];
      SpliceAfterHead(s, if a in s then IndexOf(s, a) else 0);
      [s[0]] + Unregister(s[1..], a)
  }

  /** Cutting position `i > 0` out of a list is keeping its head and cutting `i - 1` out of its tail. */
  lemma SpliceAfterHead<T>(s: seq<T>, i: nat)
    ensures 0 < i < |s| ==> s[..i] + s[i + 1..] == [s[0]] + (s[1..][..i - 1] + s[1..][i..])
  {
    if 0 < i < |s| {
      assert s[..i] == [s[0]] + s[1..][..i - 1];
      assert s[i + 1..] == s[1..][i..];
    }
  }

  /** Unregistering removes exactly one copy of a present additive, and nothing when it is absent. */
  lemma UnregisterRemovesOne<T>(s: seq<T>, a: T)
    ensures multiset(Unregister(s, a)) == multiset(s) - multiset{a}
  {
    if a in s {
      var i := IndexOf(s, a);
      assert s == s[..i] + [a] + s[i + 1..];
      assert multiset(s) == multiset(s[..i]) + multiset{a} + multiset(s[i + 1..]);
    } else {
      assert multiset(s)[a] == 0;
      assert multiset(s) - multiset{a} == multiset(s);
    }
  }

  /** Unregistering a present additive shifts everything after its first occurrence down by one. */
  lemma UnregisterShifts<T>(s: seq<T>, a: T, j: nat)
    requires a in s
    requires j < |s| - 1
    ensures |Unregister(s, a)| == |s| - 1
    ensures j < IndexOf(s, a) ==> Unregister(s, a)[j] == s[j]
    ensures IndexOf(s, a) <= j ==> Unregister(s, a)[j] == s[j + 1]
  {
  }

  /** On a duplicate-free list, unregistering leaves no copy behind and creates no duplicate. */
  lemma UnregisterKeepsSet<T>(s: seq<T>, a: T)
    requires NoDuplicates(s)
    ensures NoDuplicates(Unregister(s, a))
    ensures a !in Unregister(s, a)
  {
    if a in s {
      var i := IndexOf(s, a);
      var r := Unregister(s, a);
      forall j, k | 0 <= j < k < |r|
        ensures r[j] != r[k]
      {
        UnregisterShifts(s, a, j);
        UnregisterShifts(s, a, k);
        var sj := if j < i then j else j + 1;
        var sk := if k < i then k else k + 1;
        assert r[j] == s[sj] && r[k] == s[sk] && sj < sk;
      }
      forall k | 0 <= k < |r|
        ensures r[k] != a
      {
        UnregisterShifts(s, a, k);
        var sk := if k < i then k else k + 1;
        assert r[k] == s[sk] && sk != i;
      }
    }
  }

  /** Registering a new additive and then unregistering it restores the list exactly. */
  lemma {:induction false} UnregisterUndoesRegister<T>(s: seq<T>, a: T)
    requires a !in s
    ensures Unregister(Register(s, a), a) == s
  {
    if s == [] {
    } else {
      assert s + [a] == [s[0]] + (s[1..] + [a]);
      UnregisterUndoesRegister(s[1..], a);
      assert [s[0]] + s[1..] == s;
    }
  }

  /** Unregistering and re-registering an additive keeps the same members, possibly reordered. */
  lemma ReregisterKeepsMembers<T>(s: seq<T>, a: T)
    requires NoDuplicates(s)
    requires a in s
    ensures multiset(Register(Unregister(s, a), a)) == multiset(s)
  {
    var u := Unregister(s, a);
    UnregisterRemovesOne(s, a);
    UnregisterKeepsSet(s, a);
    assert Register(u, a) == u + [a];
    assert multiset(u + [a]) == multiset(u) + multiset{a};
    assert a in multiset(s);
  }
}
