/** Lists of tunnel entries: ordering by name, stable sorting, and keys. */
module ConfigEntries {
  import opened Common

  /** Names compare character by character, a prefix coming first. */
  predicate Leq(a: string, b: string) {
    a == [] || (b != [] && (a[0] < b[0] || (a[0] == b[0] && Leq(a[1..], b[1..]))))
  }

  /** The order in full: a prefix, or a smaller character at the first difference. */
  lemma {:induction false} LeqMeans(a: string, b: string)
    ensures Leq(a, b) <==>
            a <= b || exists i :: 0 <= i < |a| && i < |b| && a[..i] == b[..i] && a[i] < b[i]
  {
    if a != [] && b != [] {
      LeqMeans(a[1..], b[1..]);
      if a[0] < b[0] {
        assert a[..0] == b[..0];
      }
      if a[0] == b[0] {
        LeqShift(a, b);
      }
    }
  }

  lemma LeqShift(a: string, b: string)
    requires a != [] && b != [] && a[0] == b[0]
    ensures a <= b <==> a[1..] <= b[1..]
    ensures (exists i :: 0 <= i < |a| && i < |b| && a[..i] == b[..i] && a[i] < b[i])
       <==> (exists i :: 0 <= i < |a[1..]| && i < |b[1..]| && a[1..][..i] == b[1..][..i] && a[1..][i] < b[1..][i])
  {
    assert a == [a[0]] + a[1..] && b == [b[0]] + b[1..];
    forall i | 0 <= i < |a[1..]| && i < |b[1..]|
      ensures a[1..][..i] == b[1..][..i] <==> a[..i + 1] == b[..i + 1]
    {
      assert a[..i + 1] == [a[0]] + a[1..][..i] && b[..i + 1] == [b[0]] + b[1..][..i];
      assert a[..i + 1][1..] == a[1..][..i] && b[..i + 1][1..] == b[1..][..i];
    }
    if i :| 0 <= i < |a| && i < |b| && a[..i] == b[..i] && a[i] < b[i] {
      assert i > 0 && a[1..][i - 1] < b[1..][i - 1];
    }
    if i :| 0 <= i < |a[1..]| && i < |b[1..]| && a[1..][..i] == b[1..][..i] && a[1..][i] < b[1..][i] {
      assert a[i + 1] < b[i + 1];
    }
  }

  lemma {:induction false} LeqTotal(a: string, b: string)
    ensures Leq(a, b) || Leq(b, a)
  {
    if a != [] && b != [] {
      LeqTotal(a[1..], b[1..]);
    }
  }

  lemma {:induction false} LeqAntisymmetric(a: string, b: string)
    requires Leq(a, b) && Leq(b, a)
    ensures a == b
  {
    if a != [] && b != [] {
      LeqAntisymmetric(a[1..], b[1..]);
      assert a == [a[0]] + a[1..] && b == [b[0]] + b[1..];
    }
  }

  lemma {:induction false} LeqTransitive(a: string, b: string, c: string)
    requires Leq(a, b) && Leq(b, c)
    ensures Leq(a, c)
  {
    if a != [] && b != [] && c != [] && a[0] == b[0] == c[0] {
      LeqTransitive(a[1..], b[1..], c[1..]);
    }
  }

  datatype Entry =
    | HostEntry(name: string, local: Addr, protocol: Protocol, privateSecret: string, publicSecret: string)
    | ClientEntry(name: string, local: Addr, protocol: Protocol, secret: string)

  predicate Sorted(s: seq<Entry>) {
    forall i, j :: 0 <= i < j < |s| ==> Leq(s[i].name, s[j].name)
  }

  predicate SameKey(a: Entry, b: Entry) {
    a.local == b.local && a.protocol == b.protocol
  }

  predicate DistinctKeys(s: seq<Entry>) {
    forall i, j :: 0 <= i < j < |s| ==> !SameKey(s[i], s[j])
  }

  /** The entries of one name, in list order. */
  function Named(s: seq<Entry>, name: string): seq<Entry> {
    if s == [] then []
    else Named(s[..|s| - 1], name) + if s[|s| - 1].name == name then [s[|s| - 1]] else []
  }

  /** `t` is `s` sorted by name, entries of equal name keeping their order. */
  ghost predicate StableSortOf(s: seq<Entry>, t: seq<Entry>) {
    Sorted(t) && forall name :: Named(t, name) == Named(s, name)
  }

  lemma NamedAppend(s: seq<Entry>, e: Entry, name: string)
    ensures Named(s + [e], name) == Named(s, name) + if e.name == name then [e] else []
  {
    assert (s + [e])[..|s|] == s;
  }

  lemma {:induction false} NamedHead(s: seq<Entry>, name: string)
    requires s != []
    ensures Named(s, name) == (if s[0].name == name then [s[0]] else []) + Named(s[1..], name)
  {
    if |s| > 1 {
      NamedHead(s[..|s| - 1], name);
      assert s[..|s| - 1][1..] == s[1..][..|s| - 2];
    }
  }

  lemma {:induction false} NamedMember(s: seq<Entry>, name: string)
    ensures Named(s, name) != [] <==> exists i :: 0 <= i < |s| && s[i].name == name
  {
    if s != [] {
      NamedMember(s[..|s| - 1], name);
    }
  }

  /** The first name of one list is the first name of the other. */
  lemma FirstNameLeq(t: seq<Entry>, u: seq<Entry>)
    requires Sorted(t) && t != [] && u != [] && Named(t, u[0].name) == Named(u, u[0].name)
    ensures Leq(t[0].name, u[0].name)
  {
    NamedMember(u, u[0].name);
    NamedMember(t, u[0].name);
    var i :| 0 <= i < |t| && t[i].name == u[0].name;
    LeqTotal(t[0].name, t[0].name);
  }

  /** A list has only one stable sort: whatever algorithm computes it, the result is the same. */
  lemma {:induction false} StableSortUnique(t: seq<Entry>, u: seq<Entry>)
    requires Sorted(t) && Sorted(u) && forall name :: Named(t, name) == Named(u, name)
    ensures t == u
    decreases |t|
  {
    if t == [] || u == [] {
      if t != [] {
        NamedMember(t, t[0].name);
        NamedMember(u, t[0].name);
      }
      if u != [] {
        NamedMember(t, u[0].name);
        NamedMember(u, u[0].name);
      }
    } else {
      FirstNameLeq(t, u);
      FirstNameLeq(u, t);
      LeqAntisymmetric(t[0].name, u[0].name);
      NamedHead(t, t[0].name);
      NamedHead(u, t[0].name);
      assert Named(t, t[0].name)[0] == t[0] && Named(u, t[0].name)[0] == u[0];
      forall name
        ensures Named(t[1..], name) == Named(u[1..], name)
      {
        NamedHead(t, name);
        NamedHead(u, name);
        SameTail(if t[0].name == name then [t[0]] else [], Named(t[1..], name), Named(u[1..], name));
      }
      StableSortUnique(t[1..], u[1..]);
      assert t == [t[0]] + t[1..] && u == [u[0]] + u[1..];
    }
  }

  lemma SameTail(a: seq<Entry>, b: seq<Entry>, c: seq<Entry>)
    requires a + b == a + c
    ensures b == c
  {
    assert (a + b)[|a|..] == b && (a + c)[|a|..] == c;
  }

  /** Insert after the last entry whose name is not greater. */
  function InsertAfter(s: seq<Entry>, e: Entry): seq<Entry> {
    if s == [] || Leq(s[|s| - 1].name, e.name) then s + [e]
    else InsertAfter(s[..|s| - 1], e) + [s[|s| - 1]]
  }

  lemma {:induction false} InsertMembers(s: seq<Entry>, e: Entry)
    ensures multiset(InsertAfter(s, e)) == multiset(s) + multiset{e}
  {
    if s != [] {
      InsertMembers(s[..|s| - 1], e);
      assert s == s[..|s| - 1] + [s[|s| - 1]];
    }
  }

  lemma SwapEmpty(s: seq<Entry>, a: seq<Entry>, b: seq<Entry>)
    requires a == [] || b == []
    ensures (s + a) + b == (s + b) + a
  {
  }

  lemma {:induction false} InsertNamed(s: seq<Entry>, e: Entry, name: string)
    ensures Named(InsertAfter(s, e), name) == Named(s + [e], name)
  {
    NamedAppend(s, e, name);
    if s != [] && !Leq(s[|s| - 1].name, e.name) {
      var init, last := s[..|s| - 1], s[|s| - 1];
      InsertNamed(init, e, name);
      NamedAppend(init, e, name);
      NamedAppend(InsertAfter(init, e), last, name);
      LeqTotal(last.name, last.name);
      assert last.name != e.name;
      var mine := if e.name == name then [e] else [];
      var its := if last.name == name then [last] else [];
      assert Named(InsertAfter(s, e), name) == (Named(init, name) + mine) + its;
      SwapEmpty(Named(init, name), mine, its);
      assert Named(s + [e], name) == (Named(init, name) + its) + mine;
    }
  }

  lemma {:induction false} InsertSorted(s: seq<Entry>, e: Entry)
    requires Sorted(s)
    ensures Sorted(InsertAfter(s, e))
  {
    if s == [] {
    } else if Leq(s[|s| - 1].name, e.name) {
      forall i | 0 <= i < |s|
        ensures Leq(s[i].name, e.name)
      {
        if i < |s| - 1 {
          LeqTransitive(s[i].name, s[|s| - 1].name, e.name);
        }
      }
    } else {
      var init, last := s[..|s| - 1], s[|s| - 1];
      InsertSorted(init, e);
      InsertMembers(init, e);
      var t := InsertAfter(init, e);
      forall i | 0 <= i < |t|
        ensures Leq(t[i].name, last.name)
      {
        assert t[i] in multiset(t);
        LeqTotal(last.name, e.name);
        if t[i] != e {
          assert t[i] in multiset(init);
          assert t[i] in init;
        }
      }
    }
  }

  /** Pushing an entry onto a sorted list and sorting stably is inserting it after its equals. */
  lemma PushThenSort(s: seq<Entry>, e: Entry, t: seq<Entry>)
    requires Sorted(s) && StableSortOf(s + [e], t)
    ensures t == InsertAfter(s, e)
  {
    InsertSorted(s, e);
    forall name
      ensures Named(t, name) == Named(InsertAfter(s, e), name)
    {
      InsertNamed(s, e, name);
    }
    StableSortUnique(t, InsertAfter(s, e));
  }

  /** The stable sort of a list by name. */
  function Sort(s: seq<Entry>): seq<Entry> {
    if s == [] then [] else InsertAfter(Sort(s[..|s| - 1]), s[|s| - 1])
  }

  lemma {:induction false} SortIsStable(s: seq<Entry>)
    ensures StableSortOf(s, Sort(s)) && multiset(Sort(s)) == multiset(s)
  {
    if s != [] {
      var init, last := s[..|s| - 1], s[|s| - 1];
      SortIsStable(init);
      InsertSorted(Sort(init), last);
      InsertMembers(Sort(init), last);
      assert s == init + [last];
      forall name
        ensures Named(Sort(s), name) == Named(s, name)
      {
        InsertNamed(Sort(init), last, name);
        NamedAppend(Sort(init), last, name);
      }
    }
  }

  lemma SplitHead(s: seq<Entry>, k: nat)
    requires k < |s|
    ensures s[k..] == [s[k]] + s[k + 1..]
  {
  }

  /** Finds the place from the end of the list. */
  method InsertByName(t: seq<Entry>, e: Entry) returns (u: seq<Entry>)
    ensures u == InsertAfter(t, e)
  {
    var k := |t|;
    assert t[..k] == t && InsertAfter(t, e) + [] == InsertAfter(t, e);
    while k > 0 && !Leq(t[k - 1].name, e.name)
      invariant 0 <= k <= |t|
      invariant InsertAfter(t, e) == InsertAfter(t[..k], e) + t[k..]
    {
      assert t[..k][..k - 1] == t[..k - 1];
      SplitHead(t, k - 1);
      Regroup(InsertAfter(t[..k - 1], e), [t[k - 1]], t[k..]);
      k := k - 1;
    }
    u := t[..k] + [e] + t[k..];
  }

  method SortByName(s: seq<Entry>) returns (t: seq<Entry>)
    ensures t == Sort(s)
  {
    t := [];
    for i := 0 to |s|
      invariant t == Sort(s[..i])
    {
      assert s[..i + 1][..i] == s[..i];
      t := InsertByName(t, s[i]);
    }
    assert s[..|s|] == s;
  }

  lemma SortPushed(s: seq<Entry>, e: Entry)
    requires Sorted(s)
    ensures Sort(s + [e]) == InsertAfter(s, e)
  {
    SortIsStable(s + [e]);
    PushThenSort(s, e, Sort(s + [e]));
  }
}
