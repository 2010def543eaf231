/**
  Session affinity of one member: the two generations of call-ids it has seen.

  The code keeps two maps from call-id to true; only their key sets carry
  information, so the model keeps two sets. isYours is a query that also moves
  the call to the young generation. Every ten minutes the ageing timer drops
  the old generation, and turns the young one into the old one when it has
  reached 1000 calls.
*/
module Sessions {
  const AGING_THRESHOLD := 1000

  datatype CallMaps = CallMaps(young: set<string>, aged: set<string>) {
    predicate Knows(c: string) {
      c in young || c in aged
    }
  }

  const NoCalls := CallMaps({}, {})

  /** isYours: a known call is brought to the young generation. */
  function Touch(s: CallMaps, c: string): (r: CallMaps) {
    if c !in s.young && c in s.aged then CallMaps(s.young + {c}, s.aged - {c}) else s
  }

  /** bind_session: only a 'D' command goes to the young generation. */
  function Bind(s: CallMaps, c: string, kind: char): CallMaps {
    if kind == 'D' then s.(young := s.young + {c}) else s.(aged := s.aged + {c})
  }

  function Unbind(s: CallMaps, c: string): CallMaps {
    CallMaps(s.young - {c}, s.aged + {c})
  }

  function Age(s: CallMaps): CallMaps {
    if |s.young| < AGING_THRESHOLD then s.(aged := {}) else CallMaps({}, s.young)
  }

  /**
    What one ageing does: the old generation is lost, and the young one stays young below 1000 calls and is old from
    there on.
  */
  lemma AgeingDropsExactlyOld(s: CallMaps, c: string)
    requires s.young !! s.aged
    ensures Age(s).Knows(c) <==> s.Knows(c) && c !in s.aged
    ensures |s.young| < 1000 ==> Age(s) == CallMaps(s.young, {})
    ensures |s.young| >= 1000 ==> Age(s) == CallMaps({}, s.young)
    ensures |Age(s).young| < 1000 && Age(s).young !! Age(s).aged
  {
  }

  /** In which generation each operation leaves the call it names; every other call stays where it was. */
  lemma GenerationsExactly(s: CallMaps, c: string, kind: char, d: string)
    ensures var t := Touch(s, c);
      && (s.Knows(c) ==> c in t.young && (s.young !! s.aged ==> c !in t.aged))
      && (!s.Knows(c) ==> t == s)
    ensures var b := Bind(s, c, kind);
      && (c in b.young <==> c in s.young || kind == 'D')
      && (c in b.aged <==> c in s.aged || kind != 'D')
    ensures var u := Unbind(s, c); c !in u.young && c in u.aged
    ensures d != c ==> forall t :: t in {Touch(s, c), Bind(s, c, kind), Unbind(s, c)} ==>
      (d in t.young <==> d in s.young) && (d in t.aged <==> d in s.aged)
  {
  }

  // ---------------------------------------------------------------- runs

  /** What one event means for the calls of a member; Other leaves them alone. */
  datatype Op = Touching(c: string) | Binding(c: string, kind: char) | Unbinding(c: string) | Ageing | Other

  function Apply(s: CallMaps, op: Op): CallMaps {
    match op
    case Touching(c) => Touch(s, c)
    case Binding(c, kind) => Bind(s, c, kind)
    case Unbinding(c) => Unbind(s, c)
    case Ageing => Age(s)
    case Other => s
  }

  function RunOps(s: CallMaps, ops: seq<Op>): CallMaps
    decreases |ops|
  {
    if ops == [] then s else RunOps(Apply(s, ops[0]), ops[1..])
  }

  /** Some touch of c lies strictly between positions i and j. */
  ghost predicate TouchedWithin(ops: seq<Op>, c: string, i: int, j: int) {
    exists k :: i < k < j && 0 <= k < |ops| && ops[k] == Touching(c)
  }

  /** c is touched between every two ageing runs, and before the first one. */
  ghost predicate TouchedEveryPeriod(ops: seq<Op>, c: string) {
    && (forall j :: 0 <= j < |ops| && ops[j].Ageing? ==> TouchedWithin(ops, c, -1, j))
    && (forall i, j :: 0 <= i < j < |ops| && ops[i].Ageing? && ops[j].Ageing? ==> TouchedWithin(ops, c, i, j))
  }

  /** The same for a call that is young already: the first period needs no touch. */
  ghost predicate TouchedBetweenAgeings(ops: seq<Op>, c: string) {
    forall i, j :: 0 <= i < j < |ops| && ops[i].Ageing? && ops[j].Ageing? ==> TouchedWithin(ops, c, i, j)
  }

  lemma TailTouched(ops: seq<Op>, c: string, i: int, j: int)
    requires ops != [] && TouchedWithin(ops, c, i, j) && (i >= 0 || ops[0] != Touching(c))
    ensures TouchedWithin(ops[1..], c, i - 1, j - 1)
  {
    var k :| i < k < j && 0 <= k < |ops| && ops[k] == Touching(c);
    assert ops[1..][k - 1] == Touching(c);
  }

  lemma TailBetween(ops: seq<Op>, c: string)
    requires ops != [] && TouchedBetweenAgeings(ops, c)
    ensures TouchedBetweenAgeings(ops[1..], c)
  {
    var t := ops[1..];
    forall i, j | 0 <= i < j < |t| && t[i].Ageing? && t[j].Ageing?
      ensures TouchedWithin(t, c, i, j)
    {
      assert ops[i + 1].Ageing? && ops[j + 1].Ageing?;
      TailTouched(ops, c, i + 1, j + 1);
    }
  }

  lemma TailEvery(ops: seq<Op>, c: string)
    requires ops != [] && TouchedBetweenAgeings(ops, c)
    requires ops[0].Ageing? || (ops[0] != Touching(c) && TouchedEveryPeriod(ops, c))
    ensures TouchedEveryPeriod(ops[1..], c)
  {
    TailBetween(ops, c);
    var t := ops[1..];
    forall j | 0 <= j < |t| && t[j].Ageing?
      ensures TouchedWithin(t, c, -1, j)
    {
      assert ops[j + 1].Ageing?;
      if ops[0].Ageing? {
        assert TouchedWithin(ops, c, 0, j + 1);
        TailTouched(ops, c, 0, j + 1);
      } else {
        assert TouchedWithin(ops, c, -1, j + 1);
        TailTouched(ops, c, -1, j + 1);
        var k :| -2 < k < j && 0 <= k < |t| && t[k] == Touching(c);
      }
    }
  }

  /** A known call, never unbound and touched in every ageing period, is recognised for ever. */
  lemma {:induction false} TouchedCallSurvives(s: CallMaps, ops: seq<Op>, c: string)
    requires Unbinding(c) !in ops
    requires (c in s.young && TouchedBetweenAgeings(ops, c)) || (s.Knows(c) && TouchedEveryPeriod(ops, c))
    ensures RunOps(s, ops).Knows(c)
    decreases |ops|
  {
    if ops != [] {
      assert ops[0] in ops;
      var n := Apply(s, ops[0]);
      assert TouchedBetweenAgeings(ops, c);
      TailBetween(ops, c);
      if ops[0].Ageing? {
        assert c in s.young || TouchedWithin(ops, c, -1, 0);
        TailEvery(ops, c);
        assert n.Knows(c);
      } else if c in s.young || ops[0] == Touching(c) {
        assert c in n.young;
      } else {
        TailEvery(ops, c);
      }
      TouchedCallSurvives(n, ops[1..], c);
    }
  }

  ghost predicate Mentions(ops: seq<Op>, c: string) {
    exists op :: op in ops && !op.Ageing? && !op.Other? && op.c == c
  }

  /** A call of the old generation that is not named again is forgotten exactly when an ageing comes. */
  lemma {:induction false} OldCallLivesUntilAgeing(s: CallMaps, ops: seq<Op>, c: string)
    requires c in s.aged && c !in s.young && !Mentions(ops, c)
    ensures RunOps(s, ops).Knows(c) <==> Ageing !in ops
    decreases |ops|
  {
    if ops != [] {
      assert ops[0] in ops;
      assert forall op :: op in ops[1..] ==> op in ops;
      assert forall op :: op in ops ==> op == ops[0] || op in ops[1..];
      if ops[0].Ageing? {
        UnknownStaysUnknown(Age(s), ops[1..], c);
      } else {
        OldCallLivesUntilAgeing(Apply(s, ops[0]), ops[1..], c);
      }
    }
  }

  lemma {:induction false} UnknownStaysUnknown(s: CallMaps, ops: seq<Op>, c: string)
    requires !s.Knows(c) && !Mentions(ops, c)
    ensures !RunOps(s, ops).Knows(c)
    decreases |ops|
  {
    if ops != [] {
      assert ops[0] in ops;
      assert forall op :: op in ops[1..] ==> op in ops;
      UnknownStaysUnknown(Apply(s, ops[0]), ops[1..], c);
    }
  }

  /** An unbound call, and likewise a session just bound, is lost at the next ageing unless it is named before. */
  lemma {:induction false} UnboundOrFreshCallLivesUntilAgeing(s: CallMaps, ops: seq<Op>, c: string, kind: char)
    requires !Mentions(ops, c)
    ensures RunOps(Unbind(s, c), ops).Knows(c) <==> Ageing !in ops
    ensures !s.Knows(c) && kind != 'D' ==> (RunOps(Bind(s, c, kind), ops).Knows(c) <==> Ageing !in ops)
  {
    OldCallLivesUntilAgeing(Unbind(s, c), ops, c);
    if !s.Knows(c) && kind != 'D' {
      OldCallLivesUntilAgeing(Bind(s, c, kind), ops, c);
    }
  }

  /** The generations stay disjoint as long as only unknown calls are bound. */
  lemma {:induction false} GenerationsStayDisjoint(s: CallMaps, ops: seq<Op>)
    requires s.young !! s.aged
    requires forall i :: 0 <= i < |ops| && ops[i].Binding? ==> !RunOps(s, ops[..i]).Knows(ops[i].c)
    ensures RunOps(s, ops).young !! RunOps(s, ops).aged
    decreases |ops|
  {
    if ops != [] {
      assert ops[..0] == [];
      var n := Apply(s, ops[0]);
      forall i | 0 <= i < |ops[1..]| && ops[1..][i].Binding?
        ensures !RunOps(n, ops[1..][..i]).Knows(ops[1..][i].c)
      {
        assert ops[..i + 1][1..] == ops[1..][..i];
        assert ops[i + 1].Binding?;
      }
      GenerationsStayDisjoint(n, ops[1..]);
    }
  }

  lemma RunOpsFront(s: CallMaps, op: Op, ops: seq<Op>)
    ensures RunOps(s, [op] + ops) == RunOps(Apply(s, op), ops)
  {
    assert ([op] + ops)[1..] == ops;
  }

  /** A delete that first touches the call leaves it where unbinding alone would. */
  lemma UnbindAfterTouch(s: CallMaps, c: string)
    ensures Unbind(Touch(s, c), c) == Unbind(s, c)
  {
    var t := Touch(s, c);
    assert t.young - {c} == s.young - {c};
    assert t.aged + {c} == s.aged + {c};
  }
}
