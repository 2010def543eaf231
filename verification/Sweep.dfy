/**
  The last loop of a reload: every member that the new configuration does not
  name is brought down.

  The loop ranges over append(active, pending...). When the array of active has
  room for both lists, or there is nothing to append, that slice shares the
  array, and the splice in bring_down shifts what the loop has still to read.
  Otherwise it is a copy, and the loop reads a snapshot. The array is made with
  room for 1000 members and keeps it until active has held more.
*/
module Sweep {
  import opened Common
  import opened Lists
  import opened Membership

  /** Whether the range slice shares the array of active, which has this much room. */
  predicate Shares<M>(s: State<M>, room: nat) {
    s.pending == [] || |s.active| + |s.pending| <= room
  }

  /** What the range slice holds once the list of online members is t: its prefix is that list. */
  function Reread<M>(shared: bool, t: seq<M>, b: seq<M>): seq<M> {
    if shared && |t| <= |b| then t + b[|t|..] else b
  }

  /** The loop from position i on: the final state and the members brought down, in order. */
  function SweepFrom<M>(shared: bool, s: State<M>, b: seq<M>, i: nat, keep: set<M>): (State<M>, seq<M>)
    decreases |b| - i
  {
    if i >= |b| then (s, [])
    else if b[i] in keep || b[i] !in s.members then SweepFrom(shared, s, b, i + 1, keep)
    else
      var t := BringDown(s, b[i]);
      ReadLength(shared, t.active, b);
      var (u, down) := SweepFrom(shared, t, Reread(shared, t.active, b), i + 1, keep);
      (u, [b[i]] + down)
  }

  lemma ReadLength<M>(shared: bool, t: seq<M>, b: seq<M>)
    ensures |Reread(shared, t, b)| == |b|
  {
  }

  function SweepAll<M>(shared: bool, s: State<M>, keep: set<M>): (State<M>, seq<M>) {
    SweepFrom(shared, s, s.active + s.pending, 0, keep)
  }

  // ------------------------------------------------- what a sweep leaves

  /** m has been brought down: it is shut down, or draining. */
  ghost predicate BroughtDown<M>(s: State<M>, m: M) {
    m in s.members && (s.members[m].down || (s.members[m].status == DRAINING && s.members[m].watched))
  }

  lemma BringDownOthers<M>(s: State<M>, m: M)
    requires Partition(s) && m in s.members
    ensures var t := BringDown(s, m);
      && t.members.Keys == s.members.Keys
      && BroughtDown(t, m)
      && (forall x :: x in s.members && x != m ==> t.members[x] == s.members[x] && (Listed(t, x) <==> Listed(s, x)))
      && (forall x :: x in s.members && BroughtDown(s, x) ==> BroughtDown(t, x))
      && (forall x :: x in s.members ==> Idle(t.members[x]) == Idle(s.members[x]))
      && (forall x :: x in s.members ==> t.members[x].name == s.members[x].name && (Listed(t, x) ==> Listed(s, x)))
      && t.soft == s.soft && t.relay == s.relay
  {
    if m in s.active {
      RemoveFirstMembers(s.active, m);
    } else {
      RemoveFirstMembers(s.pending, m);
    }
  }

  /** Members that are kept are not touched; the others in the list of effects are down or draining at the end. */
  lemma {:induction false} SweepEffect<M>(shared: bool, s: State<M>, b: seq<M>, i: nat, keep: set<M>)
    requires Partition(s)
    ensures var (u, down) := SweepFrom(shared, s, b, i, keep);
      && Partition(u) && u.members.Keys == s.members.Keys && u.soft == s.soft && u.relay == s.relay
      && (forall m :: m in down ==> m !in keep && BroughtDown(u, m))
      && (forall m :: m in s.members && m !in down ==> u.members[m] == s.members[m] && (Listed(u, m) <==> Listed(s, m)))
      && (forall m :: m in s.members && BroughtDown(s, m) ==> BroughtDown(u, m))
      && (forall m :: m in s.members ==> u.members[m].name == s.members[m].name && (Listed(u, m) ==> Listed(s, m)))
    decreases |b| - i
  {
    if i < |b| {
      if b[i] in keep || b[i] !in s.members {
        SweepEffect(shared, s, b, i + 1, keep);
      } else {
        var t := BringDown(s, b[i]);
        BringDownKeeps(s, b[i]);
        BringDownOthers(s, b[i]);
        ReadLength(shared, t.active, b);
        SweepEffect(shared, t, Reread(shared, t.active, b), i + 1, keep);
      }
    }
  }

  // ------------------------------------------- which members are reached

  /** The members of an online list that a shared sweep reads: a removal makes it skip the next one. */
  function Scanned<M(==)>(u: seq<M>, hits: set<M>): set<M>
    decreases |u|
  {
    if u == [] then {}
    else if u[0] in hits && |u| >= 2 then {u[0]} + Scanned(u[2..], hits)
    else {u[0]} + Scanned(u[1..], hits)
  }

  /** How many members of hits stand without a gap right before position i. */
  function HitsBefore<M(==)>(u: seq<M>, hits: set<M>, i: nat): nat
    requires i <= |u|
  {
    if i == 0 || u[i - 1] !in hits then 0 else 1 + HitsBefore(u, hits, i - 1)
  }

  lemma {:induction false} ScannedWithin<M>(u: seq<M>, hits: set<M>)
    ensures forall m :: m in Scanned(u, hits) ==> m in u
    decreases |u|
  {
    if u != [] {
      if u[0] in hits && |u| >= 2 {
        ScannedWithin(u[2..], hits);
      } else {
        ScannedWithin(u[1..], hits);
      }
    }
  }

  lemma {:induction false} HitsBeforeLater<M>(u: seq<M>, hits: set<M>, d: nat, i: nat)
    requires d <= i <= |u| && (d > 0 ==> u[d - 1] !in hits)
    ensures HitsBefore(u, hits, i) == HitsBefore(u[d..], hits, i - d)
    decreases i
  {
    if i > d {
      HitsBeforeLater(u, hits, d, i - 1);
    }
  }

  lemma {:induction false} HitsBeforeAfterTwo<M>(u: seq<M>, hits: set<M>, i: nat)
    requires 2 <= i <= |u| && u[0] in hits
    ensures HitsBefore(u, hits, i) % 2 == HitsBefore(u[2..], hits, i - 2) % 2
    decreases i
  {
    if i == 2 {
      assert HitsBefore(u, hits, 1) == 1;
    } else {
      HitsBeforeAfterTwo(u, hits, i - 1);
    }
  }

  /** A member is read exactly when an even number of removals stands without a gap before it. */
  lemma {:induction false} ScannedExactly<M>(u: seq<M>, hits: set<M>, i: nat)
    requires NoDup(u) && i < |u|
    ensures u[i] in Scanned(u, hits) <==> HitsBefore(u, hits, i) % 2 == 0
    decreases |u|
  {
    if i > 0 {
      if u[0] !in hits {
        ScannedExactly(u[1..], hits, i - 1);
        HitsBeforeLater(u, hits, 1, i);
      } else if i == 1 {
        ScannedWithin(u[2..], hits);
        assert HitsBefore(u, hits, 1) == 1 + HitsBefore(u, hits, 0);
      } else {
        ScannedExactly(u[2..], hits, i - 2);
        HitsBeforeAfterTwo(u, hits, i);
      }
    }
  }

  /** The shape of the shared array: the online list, copies of its last element z, then the offline members p. */
  ghost predicate Shape<M>(active: seq<M>, b: seq<M>, i: nat, n: nat, z: M, p: seq<M>) {
    && |active| <= n <= |b|
    && b[..|active|] == active
    && b[n..] == p
    && (forall k :: |active| <= k < n ==> b[k] == z)
    && (active != [] && (i < |active| || z in active) ==> active[|active| - 1] == z)
  }

  ghost predicate Backing<M>(s: State<M>, b: seq<M>, keep: set<M>, hits: set<M>, p: seq<M>) {
    && Partition(s)
    && (forall k :: 0 <= k < |b| ==> b[k] in s.members)
    && (forall m :: m in p ==> m !in s.active)
    && (forall m :: m in s.active ==> (m in hits <==> m !in keep && Idle(s.members[m])))
  }

  /** Where position i of the array finds an online member. */
  lemma ShapePosition<M>(active: seq<M>, b: seq<M>, i: nat, n: nat, z: M, p: seq<M>)
    requires Shape(active, b, i, n, z, p) && NoDup(active) && i < |b|
    requires b[i] in active && (forall m :: m in p ==> m !in active)
    ensures i < n && active != [] && active[if i < |active| then i else |active| - 1] == b[i]
  {
    forall k | n <= k < |b| ensures b[k] !in active {
      assert b[k] == p[k - n];
    }
  }

  /** The splice at position k keeps the shape. */
  lemma ShapeAfterCut<M>(active: seq<M>, b: seq<M>, i: nat, n: nat, z: M, p: seq<M>)
    requires Shape(active, b, i, n, z, p) && NoDup(active) && active != []
    ensures var k := if i < |active| then i else |active| - 1;
      var t := active[..k] + active[k + 1..];
      (i < |active| || active[k] == z) ==> Shape(t, Reread(true, t, b), i + 1, n, z, p)
  {
    var k := if i < |active| then i else |active| - 1;
    var t := active[..k] + active[k + 1..];
    var b' := Reread(true, t, b);
    assert b'[n..] == b[n..];
    assert b'[..|t|] == t;
    if i < |active| || active[k] == z {
      assert b[|active| - 1] == active[|active| - 1] == z;
      forall j | |t| <= j < n ensures b'[j] == z {
        assert b'[j] == b[j];
      }
    }
  }

  /** What bring_down does to the online list. */
  lemma BringDownActive<M>(s: State<M>, m: M, keep: set<M>, hits: set<M>)
    requires Partition(s) && m in s.members && m !in keep
    requires m in s.active ==> (m in hits <==> m !in keep && Idle(s.members[m]))
    ensures BringDown(s, m).active == if m in s.active && m in hits then RemoveFirst(s.active, m) else s.active
  {
  }

  lemma BackingAfter<M>(s: State<M>, b: seq<M>, m: M, keep: set<M>, hits: set<M>, p: seq<M>)
    requires Backing(s, b, keep, hits, p) && m in s.members && m !in keep
    ensures var t := BringDown(s, m);
      && Partition(t)
      && (forall x :: x in p ==> x !in t.active)
      && (forall x :: x in t.active ==> (x in hits <==> x !in keep && Idle(t.members[x])))
      && t.members.Keys == s.members.Keys
  {
    BringDownKeeps(s, m);
    BringDownOthers(s, m);
    BringDownActive(s, m, keep, hits);
    RemoveFirstMembers(s.active, m);
  }

  lemma RereadMembers<M>(t: State<M>, b: seq<M>)
    requires Partition(t) && forall k :: 0 <= k < |b| ==> b[k] in t.members
    ensures var b' := Reread(true, t.active, b); forall k :: 0 <= k < |b'| ==> b'[k] in t.members
  {
    var b' := Reread(true, t.active, b);
    forall k | 0 <= k < |b'| ensures b'[k] in t.members {
      assert k < |t.active| <= |b| ==> b'[k] in t.active;
    }
  }

  /** What a removal at position i does to the list of online members. */
  lemma CutActive<M>(active: seq<M>, b: seq<M>, i: nat, n: nat, z: M, p: seq<M>)
    requires Shape(active, b, i, n, z, p) && NoDup(active) && i < |b|
    requires b[i] in active && (forall m :: m in p ==> m !in active)
    ensures active != []
    ensures var k := if i < |active| then i else |active| - 1;
      && active[k] == b[i] && RemoveFirst(active, b[i]) == active[..k] + active[k + 1..]
      && (i < |active| || active[k] == z)
  {
    ShapePosition(active, b, i, n, z, p);
    SpliceIsRemoveFirst(active, if i < |active| then i else |active| - 1);
  }

  lemma CutKeepsShape<M>(active: seq<M>, b: seq<M>, i: nat, n: nat, z: M, p: seq<M>)
    requires Shape(active, b, i, n, z, p) && NoDup(active) && i < |b|
    requires b[i] in active && (forall m :: m in p ==> m !in active)
    ensures var t := RemoveFirst(active, b[i]);
      && Shape(t, Reread(true, t, b), i + 1, n, z, p)
      && |t| < |active| && (i < |active| ==> t == active[..i] + active[i + 1..])
  {
    CutActive(active, b, i, n, z, p);
    ShapeAfterCut(active, b, i, n, z, p);
  }

  lemma ShapeStays<M>(active: seq<M>, b: seq<M>, i: nat, n: nat, z: M, p: seq<M>)
    requires Shape(active, b, i, n, z, p)
    ensures Shape(active, Reread(true, active, b), i + 1, n, z, p)
  {
    assert Reread(true, active, b) == b;
  }

  /** One iteration keeps the shape. */
  lemma ShapeStep<M>(s: State<M>, b: seq<M>, i: nat, n: nat, z: M, p: seq<M>, keep: set<M>, hits: set<M>, t: seq<M>)
    requires Backing(s, b, keep, hits, p) && Shape(s.active, b, i, n, z, p) && i < |b|
    requires t == if b[i] in s.active && b[i] in hits then RemoveFirst(s.active, b[i]) else s.active
    ensures Shape(t, Reread(true, t, b), i + 1, n, z, p)
    ensures b[i] in s.active && b[i] in hits && i < |s.active| ==> t == s.active[..i] + s.active[i + 1..]
    ensures |t| <= |s.active| && (|t| == |s.active| ==> t == s.active)
  {
    if b[i] in s.active && b[i] in hits {
      CutKeepsShape(s.active, b, i, n, z, p);
    } else {
      ShapeStays(s.active, b, i, n, z, p);
    }
  }

  lemma ScannedUnfold<M>(active: seq<M>, t: seq<M>, i: nat, n: nat, z: M, hits: set<M>, m: M, rest: seq<M>)
    requires i < |active| <= n && active[|active| - 1] == z
    requires t == if active[i] in hits then active[..i] + active[i + 1..] else active
    requires m in rest <==> (i + 1 < |t| && m in Scanned(t[i + 1..], hits)) || (m == z && i + 1 < n)
    ensures m in [active[i]] + rest <==> m in Scanned(active[i..], hits) || m == z
  {
    var u := active[i..];
    assert u[1..] == active[i + 1..];
    if active[i] in hits && |u| >= 2 {
      assert u[2..] == t[i + 1..];
    }
  }

  /** One iteration that brings b[i] down. */
  lemma IterationKeeps<M>(s: State<M>, b: seq<M>, i: nat, n: nat, z: M, p: seq<M>, keep: set<M>, hits: set<M>)
    requires Backing(s, b, keep, hits, p) && Shape(s.active, b, i, n, z, p) && i < |b| && b[i] !in keep
    ensures var t := BringDown(s, b[i]);
      var b' := Reread(true, t.active, b);
      && Backing(t, b', keep, hits, p) && Shape(t.active, b', i + 1, n, z, p)
      && |t.active| <= |s.active|
      && (i < |s.active| ==> t.active == if b[i] in hits then s.active[..i] + s.active[i + 1..] else s.active)
  {
    var t := BringDown(s, b[i]);
    BackingAfter(s, b, b[i], keep, hits, p);
    BringDownActive(s, b[i], keep, hits);
    RereadMembers(t, b);
    ShapeStep(s, b, i, n, z, p, keep, hits, t.active);
  }

  lemma SweepUnfold<M>(shared: bool, s: State<M>, b: seq<M>, i: nat, keep: set<M>)
    requires i < |b| && b[i] !in keep && b[i] in s.members
    ensures var t := BringDown(s, b[i]);
      SweepFrom(shared, s, b, i, keep).1 == [b[i]] + SweepFrom(shared, t, Reread(shared, t.active, b), i + 1, keep).1
  {
  }

  /** The members a shared sweep brings down: those scanned, the last online one, and the offline ones. */
  lemma {:induction false} SharedReach<M>(s: State<M>, b: seq<M>, i: nat, n: nat, z: M, p: seq<M>,
                                          keep: set<M>, hits: set<M>, m: M)
    requires Backing(s, b, keep, hits, p) && Shape(s.active, b, i, n, z, p) && m !in keep && m !in p
    ensures m in SweepFrom(true, s, b, i, keep).1 <==>
      (i < |s.active| && m in Scanned(s.active[i..], hits)) || (m == z && i < n)
    decreases |b| - i
  {
    if i < |b| {
      var t, b', rest := s, b, [];
      if b[i] in keep {
        rest := SweepFrom(true, s, b, i + 1, keep).1;
        SharedReach(s, b, i + 1, n, z, p, keep, hits, m);
        SharedReachKept(s.active, b, i, n, z, p, keep, hits, m, rest);
      } else {
        t := BringDown(s, b[i]);
        b' := Reread(true, t.active, b);
        rest := SweepFrom(true, t, b', i + 1, keep).1;
        IterationKeeps(s, b, i, n, z, p, keep, hits);
        SweepUnfold(true, s, b, i, keep);
        SharedReach(t, b', i + 1, n, z, p, keep, hits, m);
        SharedReachStep(s.active, b, i, n, z, p, keep, hits, t.active, m, rest);
      }
    }
  }

  lemma SharedReachKept<M>(active: seq<M>, b: seq<M>, i: nat, n: nat, z: M, p: seq<M>,
                           keep: set<M>, hits: set<M>, m: M, rest: seq<M>)
    requires Shape(active, b, i, n, z, p) && m !in keep && i < |b| && b[i] in keep
    requires i < |active| ==> active[i] !in hits
    requires m in rest <==> (i + 1 < |active| && m in Scanned(active[i + 1..], hits)) || (m == z && i + 1 < n)
    ensures m in rest <==> (i < |active| && m in Scanned(active[i..], hits)) || (m == z && i < n)
  {
    if i < |active| {
      assert b[i] == active[i];
      ScannedUnfold(active, active, i, n, z, hits, m, rest);
    }
  }

  lemma SharedReachStep<M>(active: seq<M>, b: seq<M>, i: nat, n: nat, z: M, p: seq<M>,
                           keep: set<M>, hits: set<M>, t: seq<M>, m: M, rest: seq<M>)
    requires Shape(active, b, i, n, z, p) && m !in keep && m !in p && i < |b|
    requires i < |active| ==> t == if b[i] in hits then active[..i] + active[i + 1..] else active
    requires |t| <= |active|
    requires m in rest <==> (i + 1 < |t| && m in Scanned(t[i + 1..], hits)) || (m == z && i + 1 < n)
    ensures m in [b[i]] + rest <==> (i < |active| && m in Scanned(active[i..], hits)) || (m == z && i < n)
  {
    if i < |active| {
      assert b[i] == active[i];
      ScannedUnfold(active, t, i, n, z, hits, m, rest);
    } else if i >= n {
      assert b[i] == p[i - n];
    }
  }

  lemma BringDownShrinks<M>(s: State<M>, m: M)
    requires Partition(s) && m in s.members
    ensures var t := BringDown(s, m); Partition(t) && |t.active| <= |s.active| && t.members.Keys == s.members.Keys
  {
    BringDownKeeps(s, m);
    RemoveFirstShorter(s.active, m);
  }

  lemma RemoveFirstShorter<M>(s: seq<M>, m: M)
    ensures |RemoveFirst(s, m)| <= |s|
  {
  }

  lemma FixedStep<M>(shared: bool, s: State<M>, b: seq<M>, m: M, k: nat)
    requires Partition(s) && m in s.members && k < |b| && (shared ==> |s.active| <= k)
    requires forall j :: 0 <= j < |b| ==> b[j] in s.members
    ensures var t := BringDown(s, m); var b' := Reread(shared, t.active, b);
      && Partition(t) && |b'| == |b| && b'[k] == b[k] && (shared ==> |t.active| <= k)
      && forall j :: 0 <= j < |b'| ==> b'[j] in t.members
  {
    BringDownShrinks(s, m);
    RereadMembers(BringDown(s, m), b);
  }

  /**
    A position that the splices do not shift is read as it was: every position of a snapshot, those of the
    offline members of a shared array.
  */
  lemma {:induction false} FixedPositionReach<M>(shared: bool, s: State<M>, b: seq<M>, i: nat, keep: set<M>, k: nat)
    requires Partition(s) && i <= k < |b| && b[k] !in keep && (shared ==> |s.active| <= k)
    requires forall j :: 0 <= j < |b| ==> b[j] in s.members
    ensures b[k] in SweepFrom(shared, s, b, i, keep).1
    decreases |b| - i
  {
    if b[i] in keep {
      FixedPositionReach(shared, s, b, i + 1, keep, k);
    } else {
      SweepUnfold(shared, s, b, i, keep);
      if i < k {
        var t := BringDown(s, b[i]);
        FixedStep(shared, s, b, b[i], k);
        FixedPositionReach(shared, t, Reread(shared, t.active, b), i + 1, keep, k);
      }
    }
  }

  /** The online members that a sweep would remove at once. */
  function Hits<M>(s: State<M>, keep: set<M>): set<M> {
    set m | m in s.active && m !in keep && m in s.members && Idle(s.members[m])
  }

  /** The sweep reads the next position instead of this one. */
  ghost predicate Skipped<M>(s: State<M>, keep: set<M>, m: M) {
    exists i :: 0 <= i < |s.active| - 1 && s.active[i] == m && HitsBefore(s.active, Hits(s, keep), i) % 2 == 1
  }

  predicate AlreadyDraining(r: Record) {
    r.status == DRAINING && r.watched
  }

  /** At the end every unwanted member is shut down or draining. */
  ghost predicate AllBroughtDown<M>(shared: bool, s: State<M>, keep: set<M>) {
    forall m :: m in s.members && Listed(s, m) && m !in keep ==> BroughtDown(SweepAll(shared, s, keep).0, m)
  }

  lemma SweepStart<M>(s: State<M>, keep: set<M>)
    requires Partition(s)
    ensures Backing(s, s.active + s.pending, keep, Hits(s, keep), s.pending)
    ensures s.active != [] ==>
      Shape(s.active, s.active + s.pending, 0, |s.active|, s.active[|s.active| - 1], s.pending)
  {
    var b := s.active + s.pending;
    assert b[..|s.active|] == s.active && b[|s.active|..] == s.pending;
    forall k | 0 <= k < |b| ensures b[k] in s.members {
      assert b[k] in s.active || b[k] in s.pending;
    }
  }

  lemma SharedReachListed<M>(s: State<M>, keep: set<M>, m: M)
    requires Partition(s) && Listed(s, m) && m !in keep
    ensures m in SweepAll(true, s, keep).1 <==>
      m in s.pending || m in Scanned(s.active, Hits(s, keep)) || m == s.active[|s.active| - 1]
  {
    var b, n := s.active + s.pending, |s.active|;
    SweepStart(s, keep);
    assert s.active[0..] == s.active;
    if m in s.pending {
      var k :| 0 <= k < |s.pending| && s.pending[k] == m;
      assert b[n + k] == m;
      FixedPositionReach(true, s, b, 0, keep, n + k);
    } else {
      SharedReach(s, b, 0, n, s.active[n - 1], s.pending, keep, Hits(s, keep), m);
    }
  }

  lemma SharedReachExactly<M>(s: State<M>, keep: set<M>, m: M)
    requires Partition(s) && Listed(s, m) && m !in keep
    ensures m in SweepAll(true, s, keep).1 <==> !Skipped(s, keep, m)
  {
    SharedReachListed(s, keep, m);
    if m in s.active {
      var k :| 0 <= k < |s.active| && s.active[k] == m;
      ScannedExactly(s.active, Hits(s, keep), k);
      assert forall i :: 0 <= i < |s.active| && s.active[i] == m ==> i == k;
    }
  }

  /**
    On the shared array an unwanted member is shut down or draining at the end, unless it was skipped and not
    draining before.
  */
  lemma SharedSweepExactly<M>(s: State<M>, keep: set<M>, m: M)
    requires Partition(s) && m in s.members && Listed(s, m) && m !in keep
    ensures BroughtDown(SweepAll(true, s, keep).0, m) <==> !Skipped(s, keep, m) || AlreadyDraining(s.members[m])
  {
    SharedReachExactly(s, keep, m);
    SweepEffect(true, s, s.active + s.pending, 0, keep);
  }

  /** On a snapshot every unwanted member is. */
  lemma SnapshotSweepComplete<M>(s: State<M>, keep: set<M>)
    requires Partition(s)
    ensures AllBroughtDown(false, s, keep)
  {
    var b := s.active + s.pending;
    SweepStart(s, keep);
    SweepEffect(false, s, b, 0, keep);
    forall m | m in s.members && Listed(s, m) && m !in keep ensures BroughtDown(SweepAll(false, s, keep).0, m) {
      assert m in b;
      var k :| 0 <= k < |b| && b[k] == m;
      FixedPositionReach(false, s, b, 0, keep, k);
    }
  }

  /** Three idle members that the new configuration drops: the one in the middle stays, untouched. */
  lemma ThreeIdleMembersLeaveOne(r: Record)
    requires r.calls.young == {} && r.online && !r.down
    ensures var s := State([0, 1, 2], [], map[0 := r, 1 := r, 2 := r], false, None);
      var u := SweepAll(true, s, {}).0;
      Partition(s) && Listed(u, 1) && 1 in u.members && u.members[1] == r && BroughtDown(u, 0) && BroughtDown(u, 2)
  {
    var s := State([0, 1, 2], [], map[0 := r, 1 := r, 2 := r], false, None);
    assert HitsBefore(s.active, Hits(s, {}), 1) == 1 + HitsBefore(s.active, Hits(s, {}), 0);
    assert Skipped(s, {}, 1);
    SharedReachExactly(s, {}, 1);
    SharedSweepExactly(s, {}, 0);
    SharedSweepExactly(s, {}, 2);
    assert s.active[0] == 0 && s.active[2] == 2;
    SweepEffect(true, s, s.active + s.pending, 0, {});
  }
}
