/**
  The text that down_command makes of the reply to a command: an empty reply
  becomes an error, and the answer to a session command of a member that is
  known under another address outside gets that address.
*/
module Addresses {
  import opened Common
  import opened Text
  import opened Membership
  import opened Routing
  import opened Broadcast

  /** strings.Fields(s)[0]; None if there is no field. */
  function FirstField(s: string): Option<string> {
    if s == "" then None else if IsSpace(s[0]) then FirstField(s[1..]) else Some(FieldAt(s))
  }

  function FieldAt(s: string): string {
    if s == "" || IsSpace(s[0]) then "" else [s[0]] + FieldAt(s[1..])
  }

  /**
    The response to the client. The member is absent for replies of the dispatcher itself; None is an index
    failure.
  */
  function Response(cmd: Cmd, member: Option<Params>, result: string): Option<string> {
    if result == "" then Some("E997\n")
    else if IsUL(cmd.kind) && !IsError(result) && member.Some? && member.value.wan != "" then
      match FirstField(TrimSpace(result))
      case None => None
      case Some(f) =>
        if f != "0" && cmd.destIP != "" && cmd.localIP != member.value.lan then Some(f + " " + member.value.wan + "\n")
        else if f != "0" && cmd.localIP == "" then Some(f + " " + member.value.wan + "\n")
        else Some(result + "\n")
    else Some(result + "\n")
  }

  // -------------------------------------------------------------- fields

  /** f has no white space. */
  predicate Solid(f: string) {
    forall i :: 0 <= i < |f| ==> !(f[i] as int == 32 || 9 <= f[i] as int <= 13)
  }

  /** f is the first field of s, with a before it and b after it. */
  predicate FieldOf(s: string, a: string, f: string, b: string) {
    s == a + f + b && White(a) && f != "" && Solid(f) && (b != "" ==> White(b[..1]))
  }

  lemma {:induction false} FieldAtCuts(s: string) returns (b: string)
    ensures s == FieldAt(s) + b && Solid(FieldAt(s)) && (b != "" ==> White(b[..1]))
  {
    if s == "" || IsSpace(s[0]) {
      b := s;
    } else {
      b := FieldAtCuts(s[1..]);
      assert s == [s[0]] + s[1..];
    }
  }

  lemma {:induction false} FirstFieldExactly(s: string) returns (a: string, b: string)
    ensures match FirstField(s) case None => White(s) case Some(f) => FieldOf(s, a, f, b) && !White(s)
  {
    if s == "" {
      a, b := "", "";
    } else if IsSpace(s[0]) {
      a, b := FirstFieldExactly(s[1..]);
      a := [s[0]] + a;
      assert s == [s[0]] + s[1..];
    } else {
      a := "";
      b := FieldAtCuts(s);
    }
  }

  lemma {:induction false} TrimLeftKeepsField(s: string)
    ensures FirstField(TrimLeft(s)) == FirstField(s)
  {
    if s != "" && IsSpace(s[0]) {
      TrimLeftKeepsField(s[1..]);
    }
  }

  lemma {:induction false} SpaceAfterField(s: string, c: char)
    requires IsSpace(c)
    ensures FieldAt(s + [c]) == FieldAt(s)
  {
    if s != "" {
      assert (s + [c])[1..] == s[1..] + [c];
      SpaceAfterField(s[1..], c);
    }
  }

  lemma {:induction false} SpaceAfter(s: string, c: char)
    requires IsSpace(c)
    ensures FirstField(s + [c]) == FirstField(s)
  {
    if s != "" {
      assert (s + [c])[1..] == s[1..] + [c];
      SpaceAfter(s[1..], c);
      SpaceAfterField(s, c);
    } else {
      assert [c][1..] == "";
    }
  }

  lemma {:induction false} TrimRightKeepsField(s: string)
    ensures FirstField(TrimRight(s)) == FirstField(s)
  {
    if s != "" && IsSpace(s[|s| - 1]) {
      assert s == s[..|s| - 1] + [s[|s| - 1]];
      TrimRightKeepsField(s[..|s| - 1]);
      SpaceAfter(s[..|s| - 1], s[|s| - 1]);
    }
  }

  // ------------------------------------------------------------ responses

  /** The reply is an answer to a session command, from a member that has another address outside. */
  predicate Movable(cmd: Cmd, member: Option<Params>, result: string) {
    && (cmd.kind == 'U' || cmd.kind == 'L')
    && result != "" && result[0] != 'E' && result[0] != 'e'
    && member.Some? && member.value.wan != ""
  }

  /** The command names no local address, or it names a destination and a local address that is not the member's. */
  predicate AsksOutside(cmd: Cmd, p: Params) {
    cmd.localIP == "" || (cmd.destIP != "" && cmd.localIP != p.lan)
  }

  /**
    The reply is passed on with a line feed, except that an empty one is E997 and that the answer to such a
    command is its first field, unless that is "0", with the address outside. The code fails on a blank reply.
  */
  lemma ResponseExactly(cmd: Cmd, member: Option<Params>, result: string) returns (a: string, f: string, b: string)
    ensures Movable(cmd, member, result) && !White(result) ==> FieldOf(result, a, f, b)
    ensures Response(cmd, member, result).None? <==> Movable(cmd, member, result) && White(result)
    ensures Response(cmd, member, result).Some? ==>
      Response(cmd, member, result).value ==
        if result == "" then "E997\n"
        else if Movable(cmd, member, result) && f != "0" && AsksOutside(cmd, member.value)
          then f + " " + member.value.wan + "\n"
        else result + "\n"
  {
    TrimLeftKeepsField(result);
    TrimRightKeepsField(TrimLeft(result));
    a, b := FirstFieldExactly(result);
    f := match FirstField(result) case None => "" case Some(g) => g;
  }

  lemma {:induction false} FieldBefore(f: string, rest: string)
    requires Solid(f) && (rest != "" ==> IsSpace(rest[0]))
    ensures FieldAt(f + rest) == f
  {
    if f == "" {
      assert f + rest == rest;
    } else {
      assert (f + rest)[1..] == f[1..] + rest;
      FieldBefore(f[1..], rest);
    }
  }

  /** The text is passed on as it is by a second dispatcher that knows the member under the same addresses. */
  lemma ResponseIsStable(cmd: Cmd, member: Option<Params>, result: string, text: string)
    requires Response(cmd, member, result) == Some(text + "\n")
    ensures Response(cmd, member, text) == Some(text + "\n")
  {
    var a, f, b := ResponseExactly(cmd, member, result);
    var a1, f1, b1 := ResponseExactly(cmd, member, text);
    var said := Response(cmd, member, result).value;
    assert said[..|said| - 1] == text;
    if result == "" {
      assert said == "E997\n" && text == "E997";
    } else if Movable(cmd, member, result) && f != "0" && AsksOutside(cmd, member.value) {
      var moved := f + " " + member.value.wan;
      assert said == moved + "\n" && text == moved;
      assert text == f + (" " + member.value.wan);
      FieldBefore(f, " " + member.value.wan);
      assert text[0] == f[0];
      TrimLeftKeepsField(text);
      TrimRightKeepsField(TrimLeft(text));
    } else {
      assert said == result + "\n" && text == result;
    }
  }
}
