/**
  Disconnect notifications. When a session command asks for a notification on
  a local socket, the cluster replaces the socket by its own TCP port and hides
  the rest of the socket path in the notify tag, percent-encoded for a query
  (section 2.1 of RFC 3986, with '+' for a space). The proxy decodes the tag
  and sends it back; Recv_dnotify splits it at the first space.
*/
module Notify {
  import opened Common

  /** Byte strings: one character per byte. */
  type Bytes = s: string | forall i :: 0 <= i < |s| ==> s[i] as int < 256

  predicate IsUnreserved(c: char) {
    'a' <= c <= 'z' || 'A' <= c <= 'Z' || '0' <= c <= '9' || c in "-_.~"
  }

  function HexDigit(n: nat): (c: char)
    requires n < 16
    ensures c == "0123456789ABCDEF"[n]
  {
    if n < 10 then ('0' as int + n) as char else ('A' as int + n - 10) as char
  }

  function HexValue(c: char): (r: Option<nat>)
    ensures r.Some? ==> r.value < 16
  {
    if '0' <= c <= '9' then Some(c as int - '0' as int)
    else if 'a' <= c <= 'f' then Some(c as int - 'a' as int + 10)
    else if 'A' <= c <= 'F' then Some(c as int - 'A' as int + 10)
    else None
  }

  function EscapeByte(c: char): Bytes
    requires c as int < 256
  {
    if IsUnreserved(c) then [c]
    else if c == ' ' then ['+']
    else ['%', HexDigit(c as int / 16), HexDigit(c as int % 16)]
  }

  function QueryEscape(s: Bytes): Bytes {
    if s == [] then [] else EscapeByte(s[0]) + QueryEscape(s[1..])
  }

  /** None stands for the error of a malformed escape. */
  function QueryUnescape(s: Bytes): Option<Bytes> {
    if s == [] then Some([])
    else if s[0] == '%' then
      if |s| < 3 || HexValue(s[1]).None? || HexValue(s[2]).None? then None
      else
        match QueryUnescape(s[3..])
        case None => None
        case Some(rest) => Some([(HexValue(s[1]).value * 16 + HexValue(s[2]).value) as char] + rest)
    else
      match QueryUnescape(s[1..])
      case None => None
      case Some(rest) => Some([if s[0] == '+' then ' ' else s[0]] + rest)
  }

  /** Both letter cases are read. */
  lemma HexValueExactly(c: char)
    ensures HexValue(c).Some? <==> c in "0123456789ABCDEFabcdef"
    ensures HexValue(c).Some? ==>
      var n := HexValue(c).value; c as int == if n < 10 then 48 + n else if c < 'a' then 55 + n else 87 + n
  {
  }

  lemma UnescapeStep(c: char, rest: Bytes)
    requires c as int < 256 && QueryUnescape(rest).Some?
    ensures QueryUnescape(EscapeByte(c) + rest) == Some([c] + QueryUnescape(rest).value)
  {
    var e := EscapeByte(c);
    var s: Bytes := e + rest;
    if IsUnreserved(c) || c == ' ' {
      assert s[1..] == rest;
    } else {
      assert s[3..] == rest;
      assert c as int / 16 * 16 + c as int % 16 == c as int;
    }
  }

  /** Encoding and decoding give back every byte string. */
  lemma {:induction false} EscapeRoundTrip(s: Bytes)
    ensures QueryUnescape(QueryEscape(s)) == Some(s)
  {
    if s != [] {
      EscapeRoundTrip(s[1..]);
      UnescapeStep(s[0], QueryEscape(s[1..]));
      assert [s[0]] + s[1..] == s;
    }
  }

  /** Letters, digits and the four marks, by their codes. */
  predicate Kept(c: char) {
    || 65 <= c as int <= 90 || 97 <= c as int <= 122 || 48 <= c as int <= 57
    || c == '-' || c == '_' || c == '.' || c == '~'
  }

  /** Encoding goes byte by byte: a kept character stays, a space is '+', all else is two upper-case hex digits. */
  lemma {:induction false} EscapeExactly(s: Bytes, c: char)
    requires c as int < 256
    ensures QueryEscape(s + [c]) == QueryEscape(s) +
      if Kept(c) then [c]
      else if c == ' ' then "+"
      else ['%', "0123456789ABCDEF"[c as int / 16], "0123456789ABCDEF"[c as int % 16]]
    decreases |s|
  {
    if s == [] {
      assert [c][1..] == [];
      assert QueryEscape([c]) == EscapeByte(c) + [];
    } else {
      assert (s + [c])[1..] == s[1..] + [c];
      EscapeExactly(s[1..], c);
    }
  }

  /** An encoded string carries no space and no byte outside ASCII. */
  lemma {:induction false} EscapedIsPlain(s: Bytes)
    ensures forall i :: 0 <= i < |QueryEscape(s)| ==> QueryEscape(s)[i] != ' ' && QueryEscape(s)[i] as int < 128
  {
    if s != [] {
      EscapedIsPlain(s[1..]);
    }
  }

  predicate HasPrefix(s: Bytes, prefix: Bytes) {
    prefix <= s
  }

  /** The new notify tag of up_command; None when the old tag does not decode. */
  function RewriteTag(prefix: Bytes, socket: Bytes, tag: Bytes): Option<Bytes>
    requires HasPrefix(socket, prefix)
  {
    match QueryUnescape(tag)
    case None => None
    case Some(t) => Some(QueryEscape(socket[|prefix|..] + " " + t))
  }

  /** Position of the first space, or the length. */
  function FirstSpace(s: Bytes): (n: nat)
    ensures n <= |s| && ' ' !in s[..n] && (n < |s| ==> s[n] == ' ')
  {
    if s == [] || s[0] == ' ' then 0
    else
      var n := FirstSpace(s[1..]);
      assert s[..n + 1] == [s[0]] + s[1..][..n];
      n + 1
  }

  datatype Delivery = Delivery(path: Bytes, text: Bytes)

  /** What Recv_dnotify makes of a notification; None stands for the index failure when there is no space. */
  function Receive(prefix: Bytes, dnstring: Bytes): Option<Delivery> {
    var n := FirstSpace(dnstring);
    if n == |dnstring| then None
    else Some(Delivery(prefix + dnstring[..n], dnstring[n + 1..]))
  }

  lemma {:induction false} FirstSpaceOfJoin(a: Bytes, t: Bytes)
    ensures FirstSpace(a + " " + t) == FirstSpace(a)
  {
    if a != [] && a[0] != ' ' {
      FirstSpaceOfJoin(a[1..], t);
      assert (a + " " + t)[1..] == a[1..] + " " + t;
    }
  }

  /** The rewriting is undone exactly when the rest of the socket path has no space. */
  lemma RewriteIsTransparent(prefix: Bytes, socket: Bytes, tag: Bytes)
    requires HasPrefix(socket, prefix) && QueryUnescape(tag).Some?
    ensures var sent := QueryUnescape(RewriteTag(prefix, socket, tag).value);
      sent.Some? &&
      (Receive(prefix, sent.value) == Some(Delivery(socket, QueryUnescape(tag).value)) <==> ' ' !in socket[|prefix|..])
  {
    var rest, t := socket[|prefix|..], QueryUnescape(tag).value;
    var dnstr: Bytes := rest + " " + t;
    EscapeRoundTrip(dnstr);
    FirstSpaceOfJoin(rest, t);
    var n := FirstSpace(rest);
    assert prefix + rest == socket;
    if n == |rest| {
      assert rest[..n] == rest && dnstr[..n] == rest && dnstr[n + 1..] == t;
    } else {
      assert rest[n] in rest;
      assert |prefix + dnstr[..n]| < |socket|;
    }
  }

  // ------------------------------------------------------------ the relay

  /** One worker per socket path; the queue stands for its channel. */
  class DNWorker {
    const spath: Bytes
    var queue: seq<Bytes>

    constructor (spath: Bytes)
      ensures this.spath == spath && queue == []
    {
      this.spath := spath;
      queue := [];
    }
  }

  class DNRelay {
    var workers: map<Bytes, DNWorker>
    const dest_sprefix: Bytes

    ghost predicate Valid()
      reads this, workers.Values
    {
      && (forall p :: p in workers ==> workers[p].spath == p)
      && (forall p, q :: p in workers && q in workers && p != q ==> workers[p] != workers[q])
    }

    function Queues(): map<Bytes, seq<Bytes>>
      reads this, workers.Values
    {
      map p | p in workers :: workers[p].queue
    }

    constructor (prefix: Bytes)
      ensures Valid() && Queues() == map[] && dest_sprefix == prefix
    {
      workers := map[];
      dest_sprefix := prefix;
    }

    /** The worker of a path, started on first use. */
    method WorkerFor(spath: Bytes) returns (dnw: DNWorker)
      requires Valid()
      modifies this
      ensures Valid() && spath in workers && workers[spath] == dnw
      ensures fresh(workers.Values - old(workers).Values)
      ensures Queues() == QueuesWith(old(Queues()), spath)
    {
      if spath !in workers {
        var w := new DNWorker(spath);
        workers := workers[spath := w];
      }
      dnw := workers[spath];
    }

    method Enqueue(dnw: DNWorker, text: Bytes)
      requires Valid() && dnw.spath in workers && workers[dnw.spath] == dnw
      modifies dnw
      ensures Valid()
      ensures Queues() == old(Queues())[dnw.spath := old(Queues())[dnw.spath] + [text]]
    {
      dnw.queue := dnw.queue + [text];
    }

    /**
      Every notification ends up, in order, with the single worker of its path. False stands for the index
      failure of a notification without a space, which ends the process.
    */
    method RecvDnotify(dnstring: Bytes) returns (alive: bool)
      requires Valid()
      modifies this, workers.Values
      ensures Valid()
      ensures alive <==> Receive(dest_sprefix, dnstring).Some?
      ensures Queues() == QueuesAfter(old(Queues()), Receive(dest_sprefix, dnstring))
    {
      var n := SplitAtSpace(dnstring);
      if n == |dnstring| {
        return false;
      }
      var spath: Bytes := dest_sprefix + dnstring[..n];
      var text: Bytes := dnstring[n + 1..];
      assert Receive(dest_sprefix, dnstring) == Some(Delivery(spath, text));
      var dnw := WorkerFor(spath);
      Enqueue(dnw, text);
      alive := true;
    }
  }

  /** The queues once the path has a worker. */
  function QueuesWith(queues: map<Bytes, seq<Bytes>>, path: Bytes): map<Bytes, seq<Bytes>> {
    if path in queues then queues else queues[path := []]
  }

  function QueuesAfter(queues: map<Bytes, seq<Bytes>>, d: Option<Delivery>): map<Bytes, seq<Bytes>> {
    match d
    case None => queues
    case Some(d) => QueuesWith(queues, d.path)[d.path := QueuesWith(queues, d.path)[d.path] + [d.text]]
  }

  /** The text joins the queue of its path; the other paths keep theirs. */
  lemma QueuesAfterExactly(queues: map<Bytes, seq<Bytes>>, d: Delivery, p: Bytes)
    ensures var after := QueuesAfter(queues, Some(d));
      && (p in after <==> p in queues || p == d.path)
      && (p in after ==>
            after[p] == (if p in queues then queues[p] else []) + if p == d.path then [d.text] else [])
  {
    var after := QueuesAfter(queues, Some(d));
    if p in queues && p != d.path {
      assert queues[p] + [] == queues[p];
    }
  }

  method SplitAtSpace(s: Bytes) returns (n: nat)
    ensures n == FirstSpace(s)
  {
    n := 0;
    while n < |s| && s[n] != ' '
      invariant n <= |s| && n + FirstSpace(s[n..]) == FirstSpace(s)
    {
      assert s[n..][1..] == s[n + 1..];
      n := n + 1;
    }
  }
}
