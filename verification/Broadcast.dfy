/**
  Merging the replies of a broadcast (merge_results, merge_stats_results).

  A board is the state of one broadcaster. As coded, its results slice starts
  with 1000 empty strings (make([]string, 1000)), so the test for exactly one
  result never succeeds; the intended slice starts empty. Both are covered:
  every statement is about a board with any initial results.
*/
module Broadcast {
  import opened Common

  datatype Board = Board(
    kind: char,
    bcount: int,               // replies still to come
    ecount: int,               // members without a usable statistics answer so far
    nparts: int,
    results: seq<string>,      // positive answers to a session command
    added: multiset<string>)   // answers added to the statistics object

  /** What is handed to down_command in the end. */
  datatype Final = Text(text: string) | Stats(added: multiset<string>)

  const CODED_SLOTS := 1000

  function CodedResults(): (r: seq<string>)
    ensures |r| == 1000 && forall i :: 0 <= i < |r| ==> r[i] == ""
  {
    seq(CODED_SLOTS, i => "")
  }

  function NewBoard(kind: char, bcount: int, results: seq<string>): Board {
    Board(kind, bcount, bcount, bcount, results, multiset{})
  }

  predicate IsError(r: string) {
    r != "" && (r[0] == 'E' || r[0] == 'e')
  }

  /** An answer worth relaying: a missing answer counts as an error, and "0" says a lookup failed. */
  predicate Positive(kind: char, r: string) {
    r != "" && !IsError(r) && !(IsUL(kind) && r == "0")
  }

  /** The answer when the positive answers are not exactly one. */
  function NoSoleAnswer(kind: char): string {
    if IsUL(kind) then "0" else "E995"
  }

  function Merge(b: Board, result: string): (Board, Option<Final>) {
    var r := if result == "" then "E996" else result;
    var b1 := b.(results := if Positive(b.kind, r) then b.results + [r] else b.results, bcount := b.bcount - 1);
    if b1.bcount > 0 then (b1, None)
    else if |b1.results| == 1 then (b1, Some(Text(b1.results[0])))
    else (b1, Some(Text(NoSoleAnswer(b.kind))))
  }

  function MergeAll(b: Board, rs: seq<string>): (Board, seq<Final>)
    decreases |rs|
  {
    if rs == [] then (b, [])
    else
      var (b1, f) := Merge(b, rs[0]);
      var (b2, fs) := MergeAll(b1, rs[1..]);
      (b2, (if f.Some? then [f.value] else []) + fs)
  }

  function Positives(kind: char, rs: seq<string>): seq<string> {
    if rs == [] then [] else (if Positive(kind, rs[0]) then [rs[0]] else []) + Positives(kind, rs[1..])
  }

  function Verdict(kind: char, results: seq<string>): string {
    if |results| == 1 then results[0] else NoSoleAnswer(kind)
  }

  /** Exactly one answer is given, after the last reply, and it depends on the collected positive answers only. */
  lemma {:induction false} SessionMergeAnswersOnce(b: Board, rs: seq<string>)
    requires b.bcount == |rs| > 0
    ensures MergeAll(b, rs).1 == [Text(Verdict(b.kind, b.results + Positives(b.kind, rs)))]
    decreases |rs|
  {
    var (b1, f) := Merge(b, rs[0]);
    var rest := Positives(b.kind, rs[1..]);
    assert b1.results + rest == b.results + Positives(b.kind, rs);
    if |rs| == 1 {
      assert rs[1..] == [] && rest == [];
      assert b1.results + rest == b1.results;
    } else {
      SessionMergeAnswersOnce(b1, rs[1..]);
    }
  }

  lemma {:induction false} PositivesCount(kind: char, rs: seq<string>, x: string)
    ensures multiset(Positives(kind, rs))[x] == if Positive(kind, x) then multiset(rs)[x] else 0
  {
    if rs != [] {
      assert rs == [rs[0]] + rs[1..];
      PositivesCount(kind, rs[1..], x);
    }
  }

  lemma PositivesPermuted(kind: char, rs: seq<string>, qs: seq<string>)
    requires multiset(rs) == multiset(qs)
    ensures multiset(Positives(kind, rs)) == multiset(Positives(kind, qs))
  {
    forall x ensures multiset(Positives(kind, rs))[x] == multiset(Positives(kind, qs))[x] {
      PositivesCount(kind, rs, x);
      PositivesCount(kind, qs, x);
    }
  }

  lemma VerdictPermuted(kind: char, initial: seq<string>, xs: seq<string>, ys: seq<string>)
    requires multiset(xs) == multiset(ys)
    ensures Verdict(kind, initial + xs) == Verdict(kind, initial + ys)
  {
    assert |xs| == |multiset(xs)| == |multiset(ys)| == |ys|;
    if |initial + xs| == 1 && |xs| == 1 {
      assert xs == [xs[0]] && ys == [ys[0]];
      assert multiset(xs)[xs[0]] == 1;
    }
  }

  /** The order in which the members reply does not matter. */
  lemma {:induction false} SessionMergeOrderFree(b: Board, rs: seq<string>, qs: seq<string>)
    requires b.bcount == |rs| > 0 && multiset(rs) == multiset(qs)
    ensures MergeAll(b, rs).1 == MergeAll(b, qs).1
  {
    assert |rs| == |multiset(rs)| == |multiset(qs)| == |qs|;
    SessionMergeAnswersOnce(b, rs);
    SessionMergeAnswersOnce(b, qs);
    PositivesPermuted(b.kind, rs, qs);
    VerdictPermuted(b.kind, b.results, Positives(b.kind, rs), Positives(b.kind, qs));
  }

  lemma {:induction false} PositivesArePositive(kind: char, rs: seq<string>)
    ensures forall i :: 0 <= i < |Positives(kind, rs)| ==> Positive(kind, Positives(kind, rs)[i])
  {
    if rs != [] {
      PositivesArePositive(kind, rs[1..]);
    }
  }

  /**
    With an empty results slice a sole positive answer is relayed; as coded it never is, and the two agree in
    all other cases.
  */
  lemma {:induction false} CodedMergeDiffersOnSoleAnswer(kind: char, rs: seq<string>)
    requires rs != []
    ensures var intended, coded :=
      MergeAll(NewBoard(kind, |rs|, []), rs).1, MergeAll(NewBoard(kind, |rs|, CodedResults()), rs).1;
      && (|Positives(kind, rs)| == 1 ==> intended == [Text(Positives(kind, rs)[0])])
      && coded == [Text(NoSoleAnswer(kind))]
      && (coded == intended <==> |Positives(kind, rs)| != 1)
  {
    SessionMergeAnswersOnce(NewBoard(kind, |rs|, []), rs);
    SessionMergeAnswersOnce(NewBoard(kind, |rs|, CodedResults()), rs);
    PositivesArePositive(kind, rs);
    assert [] + Positives(kind, rs) == Positives(kind, rs);
  }

  /** Which answers count as positive, and which text stands for a reply to a statistics command. */
  lemma ReplyReading(parses: string -> bool, kind: char, r: string, a: StatsReply)
    ensures Positive(kind, r) <==> r != "" && r[0] != 'E' && r[0] != 'e' && !((kind == 'U' || kind == 'L') && r == "0")
    ensures a.text != "" ==> Effective(a) == a.text
    ensures a.text == "" && a.cached.Some? ==> Effective(a) == a.cached.value
    ensures a.text == "" && a.cached.None? ==> Effective(a) == "E994"
    ensures Usable(parses, a) <==> Effective(a)[0] != 'E' && Effective(a)[0] != 'e' && parses(Effective(a))
    ensures UsableTexts(parses, [a]) == if Usable(parses, a) then multiset{Effective(a)} else multiset{}
  {
    assert [a][1..] == [];
  }

  /** Reply i is positive, and no other is. */
  ghost predicate SolePositive(kind: char, rs: seq<string>, i: int) {
    && 0 <= i < |rs| && Positive(kind, rs[i])
    && forall j :: 0 <= j < |rs| && j != i ==> !Positive(kind, rs[j])
  }

  lemma {:induction false} NoPositives(kind: char, rs: seq<string>)
    ensures Positives(kind, rs) == [] <==> forall j :: 0 <= j < |rs| ==> !Positive(kind, rs[j])
  {
    if rs != [] {
      NoPositives(kind, rs[1..]);
      assert forall j :: 0 < j < |rs| ==> rs[j] == rs[1..][j - 1];
    }
  }

  lemma {:induction false} SolePositiveExactly(kind: char, rs: seq<string>)
    ensures |Positives(kind, rs)| == 1 <==> exists i :: SolePositive(kind, rs, i)
    ensures forall i :: SolePositive(kind, rs, i) ==> Positives(kind, rs) == [rs[i]]
  {
    if rs != [] {
      var t := rs[1..];
      SolePositiveExactly(kind, t);
      NoPositives(kind, t);
      assert forall j :: 0 < j < |rs| ==> rs[j] == t[j - 1];
      if Positive(kind, rs[0]) {
        if Positives(kind, t) == [] {
          assert SolePositive(kind, rs, 0);
        }
      } else {
        assert forall i :: SolePositive(kind, rs, i) ==> SolePositive(kind, t, i - 1);
        assert forall i :: SolePositive(kind, t, i) ==> SolePositive(kind, rs, i + 1);
      }
    }
  }

  /** As coded, the answer is "0" for U and L and E995 for every other type, whatever the members reply. */
  lemma {:induction false} CodedAnswer(kind: char, rs: seq<string>)
    requires rs != []
    ensures MergeAll(NewBoard(kind, |rs|, CodedResults()), rs).1 ==
      [Text(if kind == 'U' || kind == 'L' then "0" else "E995")]
  {
    SessionMergeAnswersOnce(NewBoard(kind, |rs|, CodedResults()), rs);
  }

  /** With an empty results slice it is the sole positive reply, and otherwise those same texts. */
  lemma {:induction false} IntendedAnswer(kind: char, rs: seq<string>)
    requires rs != []
    ensures var fs := MergeAll(NewBoard(kind, |rs|, []), rs).1;
      && (forall i :: SolePositive(kind, rs, i) ==> fs == [Text(rs[i])])
      && ((forall i :: !SolePositive(kind, rs, i)) ==> fs == [Text(if kind == 'U' || kind == 'L' then "0" else "E995")])
  {
    SessionMergeAnswersOnce(NewBoard(kind, |rs|, []), rs);
    SolePositiveExactly(kind, rs);
    assert [] + Positives(kind, rs) == Positives(kind, rs);
  }

  // ------------------------------------------------------------ statistics

  type CachedText = t: string | t != "" witness "0"

  /** A member's reply, with what its statistics cache holds under the requested names. */
  datatype StatsReply = StatsReply(text: string, cached: Option<CachedText>)

  function Effective(a: StatsReply): string {
    if a.text != "" then a.text else match a.cached case Some(t) => t case None => "E994"
  }

  /** A reply that the statistics object accepts; parsing belongs to the client library. */
  predicate Usable(parses: string -> bool, a: StatsReply) {
    !IsError(Effective(a)) && parses(Effective(a))
  }

  function MergeStats(parses: string -> bool, b: Board, a: StatsReply): (Board, Option<Final>) {
    var b1 :=
      if Usable(parses, a)
      then b.(added := b.added + multiset{Effective(a)}, ecount := b.ecount - 1, bcount := b.bcount - 1)
      else b.(bcount := b.bcount - 1);
    if b1.bcount > 0 then (b1, None)
    else (b1, Some(if b1.ecount != b1.nparts then Stats(b1.added) else Text("E993")))
  }

  function MergeAllStats(parses: string -> bool, b: Board, rs: seq<StatsReply>): (Board, seq<Final>)
    decreases |rs|
  {
    if rs == [] then (b, [])
    else
      var (b1, f) := MergeStats(parses, b, rs[0]);
      var (b2, fs) := MergeAllStats(parses, b1, rs[1..]);
      (b2, (if f.Some? then [f.value] else []) + fs)
  }

  function UsableTexts(parses: string -> bool, rs: seq<StatsReply>): multiset<string> {
    if rs == [] then multiset{}
    else (if Usable(parses, rs[0]) then multiset{Effective(rs[0])} else multiset{}) + UsableTexts(parses, rs[1..])
  }

  /**
    One answer after the last reply: E993 exactly when no member gave a usable answer, else all usable answers
    added up.
  */
  lemma {:induction false} StatsMergeAnswersOnce(parses: string -> bool, b: Board, rs: seq<StatsReply>)
    requires b.bcount == |rs| > 0 && b.ecount == b.nparts - |b.added|
    ensures var all := b.added + UsableTexts(parses, rs);
      MergeAllStats(parses, b, rs).1 == [if all == multiset{} then Text("E993") else Stats(all)]
    decreases |rs|
  {
    var (b1, f) := MergeStats(parses, b, rs[0]);
    assert b1.added + UsableTexts(parses, rs[1..]) == b.added + UsableTexts(parses, rs);
    if |rs| == 1 {
      assert UsableTexts(parses, rs[1..]) == multiset{};
      assert b1.added + multiset{} == b1.added;
      assert |b1.added| == 0 <==> b1.added == multiset{};
    } else {
      StatsMergeAnswersOnce(parses, b1, rs[1..]);
    }
  }

  lemma {:induction false} UsableTextsConcat(parses: string -> bool, rs: seq<StatsReply>, qs: seq<StatsReply>)
    ensures UsableTexts(parses, rs + qs) == UsableTexts(parses, rs) + UsableTexts(parses, qs)
  {
    if rs == [] {
      assert rs + qs == qs;
    } else {
      assert (rs + qs)[1..] == rs[1..] + qs;
      UsableTextsConcat(parses, rs[1..], qs);
    }
  }

  lemma CancelOne<T>(x: T, rest: seq<T>, left: seq<T>, right: seq<T>)
    requires multiset([x] + rest) == multiset(left + ([x] + right))
    ensures multiset(rest) == multiset(left + right)
  {
    assert multiset([x] + rest) == multiset{x} + multiset(rest);
    assert multiset(left + ([x] + right)) == multiset(left) + (multiset{x} + multiset(right));
    assert multiset(left + right) == multiset(left) + multiset(right);
    forall y ensures multiset(rest)[y] == multiset(left + right)[y] {
      assert (multiset{x} + multiset(rest))[y] == (multiset(left) + (multiset{x} + multiset(right)))[y];
    }
  }

  /** The rearrangement qs around the first element of rs. */
  lemma Around<T>(rs: seq<T>, qs: seq<T>) returns (left: seq<T>, right: seq<T>)
    requires rs != [] && multiset(rs) == multiset(qs)
    ensures qs == left + ([rs[0]] + right) && multiset(rs[1..]) == multiset(left + right)
  {
    assert rs == [rs[0]] + rs[1..];
    assert rs[0] in multiset(qs);
    var i :| 0 <= i < |qs| && qs[i] == rs[0];
    left, right := qs[..i], qs[i + 1..];
    assert qs == left + ([rs[0]] + right);
    CancelOne(rs[0], rs[1..], left, right);
  }

  lemma UsableTextsInFront(parses: string -> bool, x: StatsReply, left: seq<StatsReply>, right: seq<StatsReply>)
    ensures UsableTexts(parses, left + ([x] + right)) == UsableTexts(parses, [x]) + UsableTexts(parses, left + right)
  {
    UsableTextsConcat(parses, left, [x] + right);
    UsableTextsConcat(parses, [x], right);
    UsableTextsConcat(parses, left, right);
  }

  lemma {:induction false} UsableTextsPermuted(parses: string -> bool, rs: seq<StatsReply>, qs: seq<StatsReply>)
    requires multiset(rs) == multiset(qs)
    ensures UsableTexts(parses, rs) == UsableTexts(parses, qs)
    decreases |rs|
  {
    if rs == [] {
      assert |multiset(qs)| == |multiset(rs)| == 0;
      assert |qs| == |multiset(qs)|;
    } else {
      var left, right := Around(rs, qs);
      UsableTextsPermuted(parses, rs[1..], left + right);
      UsableTextsInFront(parses, rs[0], left, right);
      UsableTextsInFront(parses, rs[0], [], rs[1..]);
      assert [] + ([rs[0]] + rs[1..]) == rs && [] + rs[1..] == rs[1..];
    }
  }

  /** The statistics answer does not depend on the order of the replies either. */
  lemma {:induction false} StatsMergeOrderFree(parses: string -> bool, b: Board, rs: seq<StatsReply>,
                                               qs: seq<StatsReply>)
    requires b.bcount == |rs| > 0 && b.ecount == b.nparts - |b.added| && multiset(rs) == multiset(qs)
    ensures MergeAllStats(parses, b, rs).1 == MergeAllStats(parses, b, qs).1
  {
    assert |rs| == |multiset(rs)| == |multiset(qs)| == |qs|;
    StatsMergeAnswersOnce(parses, b, rs);
    StatsMergeAnswersOnce(parses, b, qs);
    UsableTextsPermuted(parses, rs, qs);
  }

  // ------------------------------------------------------------ the object

  class Broadcaster {
    const kind: char
    const nparts: int
    var bcount: int
    var ecount: int
    var results: seq<string>
    var added: multiset<string>

    function View(): Board
      reads this
    {
      Board(kind, bcount, ecount, nparts, results, added)
    }

    /** newBroadcaster, with its 1000 empty results. */
    constructor (bcount: int, kind: char)
      ensures View() == NewBoard(kind, bcount, CodedResults())
    {
      this.kind, this.nparts := kind, bcount;
      this.bcount, this.ecount := bcount, bcount;
      results := CodedResults();
      added := multiset{};
    }

    method MergeResults(reply: string) returns (answer: Option<Final>)
      modifies this
      ensures (View(), answer) == Merge(old(View()), reply)
    {
      var result := reply;
      if result == "" {
        result := "E996";
      }
      if result[0] != 'E' && result[0] != 'e' && !((kind == 'U' || kind == 'L') && result == "0") {
        results := results + [result];
      }
      bcount := bcount - 1;
      if bcount > 0 {
        return None;
      }
      if |results| == 1 {
        answer := Some(Text(results[0]));
      } else if kind == 'U' || kind == 'L' {
        answer := Some(Text("0"));
      } else {
        answer := Some(Text("E995"));
      }
    }

    method MergeStatsResults(parses: string -> bool, reply: StatsReply) returns (answer: Option<Final>)
      modifies this
      ensures (View(), answer) == MergeStats(parses, old(View()), reply)
    {
      var result := reply.text;
      if result == "" {
        result := match reply.cached case Some(t) => t case None => "E994";
      }
      var e := ecount;
      if result[0] != 'E' && result[0] != 'e' {
        if parses(result) {
          added := added + multiset{result};
          ecount := ecount - 1;
          e := ecount;
        }
      }
      bcount := bcount - 1;
      if bcount > 0 {
        return None;
      }
      answer := Some(if e != nparts then Stats(added) else Text("E993"));
    }
  }
}
