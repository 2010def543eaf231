/** Lists of members: removal of one element, as the in-place splices do it. */
module Lists {
  ghost predicate NoDup<M>(s: seq<M>) {
    forall i, j :: 0 <= i < j < |s| ==> s[i] != s[j]
  }

  function RemoveFirst<M(==)>(s: seq<M>, m: M): seq<M> {
    if s == [] then [] else if s[0] == m then s[1..] else [s[0]] + RemoveFirst(s[1..], m)
  }

  /** The splice append(s[:i], s[i+1:]...) at the first occurrence is RemoveFirst. */
  lemma {:induction false} SpliceIsRemoveFirst<M>(s: seq<M>, i: nat)
    requires i < |s| && s[i] !in s[..i]
    ensures RemoveFirst(s, s[i]) == s[..i] + s[i + 1..]
  {
    if i > 0 {
      assert s[0] in s[..i];
      assert s[1..][..i - 1] == s[..i][1..];
      SpliceIsRemoveFirst(s[1..], i - 1);
      assert s[1..][i - 1 + 1..] == s[i + 1..];
      assert s[..i] == [s[0]] + s[1..][..i - 1];
    }
  }

  lemma {:induction false} RemoveAbsent<M>(s: seq<M>, m: M)
    requires m !in s
    ensures RemoveFirst(s, m) == s
  {
    if s != [] {
      RemoveAbsent(s[1..], m);
    }
  }

  /** Removal from a duplicate-free list takes out that member and no other. */
  lemma {:induction false} RemoveFirstMembers<M>(s: seq<M>, m: M)
    requires NoDup(s)
    ensures NoDup(RemoveFirst(s, m))
    ensures forall x :: x in RemoveFirst(s, m) ==> x in s && x != m
    ensures forall x :: x in s && x != m ==> x in RemoveFirst(s, m)
  {
    if s != [] {
      var t := s[1..];
      assert s == [s[0]] + t;
      RemoveFirstMembers(t, m);
      if s[0] != m {
        assert s[0] !in t;
        assert NoDup([s[0]] + RemoveFirst(t, m));
      } else {
        assert m !in t;
      }
    }
  }

  /** x stands before y. */
  ghost predicate Before<M>(s: seq<M>, x: M, y: M) {
    exists i, j :: 0 <= i < j < |s| && s[i] == x && s[j] == y
  }

  /** Cutting out position k keeps the order of the rest. */
  lemma CutKeepsOrder<M>(s: seq<M>, k: nat, x: M, y: M)
    requires k < |s| && x != s[k] && y != s[k]
    ensures Before(s[..k] + s[k + 1..], x, y) <==> Before(s, x, y)
  {
    var r := s[..k] + s[k + 1..];
    if Before(s, x, y) {
      var i, j :| 0 <= i < j < |s| && s[i] == x && s[j] == y;
      var i', j' := if i < k then i else i - 1, if j < k then j else j - 1;
      assert r[i'] == x && r[j'] == y;
    }
    if Before(r, x, y) {
      var i, j :| 0 <= i < j < |r| && r[i] == x && r[j] == y;
      var i', j' := if i < k then i else i + 1, if j < k then j else j + 1;
      assert s[i'] == x && s[j'] == y;
    }
  }

  /** Removal keeps the order of the rest. */
  lemma RemoveFirstKeepsOrder<M>(s: seq<M>, m: M, x: M, y: M)
    requires NoDup(s) && x != m && y != m
    ensures Before(RemoveFirst(s, m), x, y) <==> Before(s, x, y)
  {
    if m in s {
      var k :| 0 <= k < |s| && s[k] == m;
      SpliceIsRemoveFirst(s, k);
      CutKeepsOrder(s, k, x, y);
    } else {
      RemoveAbsent(s, m);
    }
  }

  /** A rearrangement has the same members, none twice. */
  lemma PermutationMembers<M>(s: seq<M>, t: seq<M>)
    requires multiset(s) == multiset(t) && NoDup(s)
    ensures NoDup(t) && |s| == |t| && (forall x :: x in s <==> x in t)
  {
    assert |s| == |multiset(s)| && |t| == |multiset(t)|;
    forall x ensures x in s <==> x in t {
      assert x in s <==> x in multiset(s);
      assert x in t <==> x in multiset(t);
    }
    forall i, j | 0 <= i < j < |t| ensures t[i] != t[j] {
      if t[i] == t[j] {
        MultiplicityTwo(t, i, j);
        MultiplicityOne(s, t[i]);
      }
    }
  }

  lemma MultiplicityTwo<M>(t: seq<M>, i: nat, j: nat)
    requires i < j < |t| && t[i] == t[j]
    ensures multiset(t)[t[i]] >= 2
  {
    assert t == t[..j] + t[j..];
    assert t[i] in t[..j] && t[i] in t[j..];
  }

  lemma {:induction false} MultiplicityOne<M>(s: seq<M>, x: M)
    requires NoDup(s)
    ensures multiset(s)[x] <= 1
  {
    if s != [] {
      assert s == [s[0]] + s[1..];
      MultiplicityOne(s[1..], x);
      assert s[0] !in s[1..];
    }
  }
}
