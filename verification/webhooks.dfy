/** The sandbox gateway's webhook scheme: `t=<unix>,v1=<hex>` over `<t>.<body>`. The MAC and the JSON codec are
    parameters. */
module Webhooks {
  import opened Domain
  import opened Decimal
  import opened Strings

  type Byte = n: int | 0 <= n < 256

  datatype WebhookEvent = WebhookEvent(kind: string, intent: string, amount: int)

  const TOLERANCE := 300 * SECOND

  // ----- hexadecimal -----

  function HexDigit(n: nat): char
    requires n < 16
  {
    if n < 10 then ('0' as int + n) as char else ('a' as int + n - 10) as char
  }

  function HexValue(c: char): (v: Option<nat>)
    ensures v.Some? ==> v.value < 16
  {
    if '0' <= c <= '9' then Some(c as int - '0' as int)
    else if 'a' <= c <= 'f' then Some(c as int - 'a' as int + 10)
    else if 'A' <= c <= 'F' then Some(c as int - 'A' as int + 10)
    else None
  }

  function HexEncode(bytes: seq<Byte>): string {
    if bytes == [] then "" else [HexDigit(bytes[0] / 16), HexDigit(bytes[0] % 16)] + HexEncode(bytes[1..])
  }

  function HexDecode(s: string): Option<seq<Byte>> {
    if s == "" then Some([])
    else if |s| == 1 then None
    else
      match (HexValue(s[0]), HexValue(s[1]), HexDecode(s[2..]))
      case (Some(high), Some(low), Some(rest)) => Some([16 * high + low] + rest)
      case _ => None
  }

  lemma {:induction false} DecodeUndoesEncode(bytes: seq<Byte>)
    ensures HexDecode(HexEncode(bytes)) == Some(bytes)
    ensures forall i :: 0 <= i < |HexEncode(bytes)| ==> HexEncode(bytes)[i] != ','
    ensures |HexEncode(bytes)| == 2 * |bytes|
  {
    if bytes != [] {
      DecodeUndoesEncode(bytes[1..]);
      assert HexEncode(bytes)[2..] == HexEncode(bytes[1..]);
      assert bytes == [bytes[0]] + bytes[1..];
    }
  }

  /** The character is the hexadecimal digit of value v, in either case. */
  predicate IsHex(c: char, v: nat)
    requires v < 16
  {
    c == "0123456789abcdef"[v] || c == "0123456789ABCDEF"[v]
  }

  lemma HexValueIs(c: char, v: nat)
    requires v < 16
    ensures HexValue(c) == Some(v) <==> IsHex(c, v)
  {
  }

  lemma HalvesAre(high: nat, low: nat, n: Byte)
    requires high < 16 && low < 16
    ensures 16 * high + low == n <==> high == n / 16 && low == n % 16
  {
  }

  ghost predicate IsHexOf(s: string, bytes: seq<Byte>) {
    |s| == 2 * |bytes| &&
    forall i :: 0 <= i < |bytes| ==> IsHex(s[2 * i], bytes[i] / 16) && IsHex(s[2 * i + 1], bytes[i] % 16)
  }

  lemma IsHexOfRest(s: string, bytes: seq<Byte>)
    requires |s| >= 2 && bytes != []
    ensures IsHexOf(s, bytes) <==>
            IsHex(s[0], bytes[0] / 16) && IsHex(s[1], bytes[0] % 16) && IsHexOf(s[2..], bytes[1..])
  {
    hide IsHex;
    if IsHexOf(s, bytes) {
      assert IsHex(s[2 * 0], bytes[0] / 16) && IsHex(s[2 * 0 + 1], bytes[0] % 16);
      forall i | 0 <= i < |bytes[1..]|
        ensures IsHex(s[2..][2 * i], bytes[1..][i] / 16) && IsHex(s[2..][2 * i + 1], bytes[1..][i] % 16)
      {
        assert IsHex(s[2 * (i + 1)], bytes[i + 1] / 16) && IsHex(s[2 * (i + 1) + 1], bytes[i + 1] % 16);
      }
    }
    if IsHex(s[0], bytes[0] / 16) && IsHex(s[1], bytes[0] % 16) && IsHexOf(s[2..], bytes[1..]) {
      forall i | 0 <= i < |bytes| ensures IsHex(s[2 * i], bytes[i] / 16) && IsHex(s[2 * i + 1], bytes[i] % 16) {
        if i > 0 {
          assert bytes[i] == bytes[1..][i - 1];
          assert s[2 * i] == s[2..][2 * (i - 1)] && s[2 * i + 1] == s[2..][2 * (i - 1) + 1];
        }
      }
    }
  }

  /** Decoding reads two digits a byte, high half first, in either case, and refuses everything else. */
  lemma {:induction false} HexDecides(s: string, bytes: seq<Byte>)
    ensures HexDecode(s) == Some(bytes) <==> IsHexOf(s, bytes)
    decreases |s|
  {
    hide IsHex, HexValue;
    if |s| >= 2 && bytes != [] {
      var n, rest := bytes[0], bytes[1..];
      HexDecides(s[2..], rest);
      HexValueIs(s[0], n / 16);
      HexValueIs(s[1], n % 16);
      IsHexOfRest(s, bytes);
      if HexValue(s[0]).Some? && HexValue(s[1]).Some? {
        HalvesAre(HexValue(s[0]).value, HexValue(s[1]).value, n);
      }
      assert bytes == [n] + rest;
    }
  }

  // ----- the header -----

  /** strings.Split by commas: always at least one part. */
  function Split(s: string): (parts: seq<string>)
    ensures |parts| > 0
    decreases |s|
  {
    var i := IndexOf(s, ',');
    if i < 0 then [s] else [s[..i]] + Split(s[i + 1..])
  }

  datatype Fields = Fields(t: Option<string>, v1: Option<string>)

  /** One `key=value` part: a later value replaces an earlier one, an unknown key or a missing `=` refuses. */
  function ReadPart(f: Fields, part: string): Option<Fields> {
    var i := IndexOf(part, '=');
    if i < 0 then None
    else if part[..i] == "t" then Some(f.(t := Some(part[i + 1..])))
    else if part[..i] == "v1" then Some(f.(v1 := Some(part[i + 1..])))
    else None
  }

  function ReadParts(f: Fields, parts: seq<string>): Option<Fields>
    decreases |parts|
  {
    if parts == [] then Some(f)
    else
      match ReadPart(f, parts[0])
      case None => None
      case Some(g) => ReadParts(g, parts[1..])
  }

  function ParseHeader(header: string): Option<(string, string)> {
    match ReadParts(Fields(None, None), Split(header))
    case Some(Fields(Some(t), Some(v1))) => if t == "" || v1 == "" then None else Some((t, v1))
    case _ => None
  }

  method ParseSignatureHeader(header: string) returns (r: Option<(string, string)>)
    ensures r == ParseHeader(header)
  {
    var t, v1, sawT, sawV1 := "", "", false, false;
    var parts := Split(header);
    for i := 0 to |parts|
      invariant ReadParts(Fields(None, None), parts) ==
                ReadParts(Fields(if sawT then Some(t) else None, if sawV1 then Some(v1) else None), parts[i..])
      invariant (!sawT ==> t == "") && (!sawV1 ==> v1 == "")
    {
      var at := IndexOf(parts[i], '=');
      if at < 0 {
        return None;
      }
      var key, value := parts[i][..at], parts[i][at + 1..];
      if key == "t" {
        t, sawT := value, true;
      } else if key == "v1" {
        v1, sawV1 := value, true;
      } else {
        return None;
      }
      assert parts[i..][1..] == parts[i + 1..];
    }
    r := if !sawT || !sawV1 || t == "" || v1 == "" then None else Some((t, v1));
  }

  function PrintHeader(t: string, v1: string): string { "t=" + t + ",v1=" + v1 }

  predicate CommaFree(s: string) { forall i :: 0 <= i < |s| ==> s[i] != ',' }

  lemma SplitTwo(a: string, b: string)
    requires CommaFree(a) && CommaFree(b)
    ensures Split(a + "," + b) == [a, b]
  {
    var s := a + "," + b;
    IndexIs(s, ',', |a|);
    assert s[..|a|] == a && s[|a| + 1..] == b;
    assert IndexOf(b, ',') == -1;
  }

  /** Parsing the header undoes printing it. */
  lemma ParseUndoesPrint(t: string, v1: string)
    requires t != "" && v1 != "" && CommaFree(t) && CommaFree(v1)
    ensures ParseHeader(PrintHeader(t, v1)) == Some((t, v1))
  {
    var a, b := "t=" + t, "v1=" + v1;
    assert PrintHeader(t, v1) == a + "," + b;
    SplitTwo(a, b);
    IndexIs(a, '=', 1);
    IndexIs(b, '=', 2);
    assert a[..1] == "t" && a[2..] == t && b[..2] == "v1" && b[3..] == v1;
    var f := Fields(Some(t), None);
    assert ReadPart(Fields(None, None), a) == Some(f);
    assert ReadPart(f, b) == Some(Fields(Some(t), Some(v1)));
    var second := [b];
    assert [a, b][1..] == second && |second[1..]| == 0;
    assert ReadParts(f, second) == Some(Fields(Some(t), Some(v1)));
  }

  /** The parts put back together. */
  function Join(parts: seq<string>): string
    requires parts != []
  {
    if |parts| == 1 then parts[0] else parts[0] + "," + Join(parts[1..])
  }

  /** Splitting cuts at the commas and only there. */
  lemma {:induction false} SplitUndoesJoin(s: string)
    ensures Join(Split(s)) == s
    ensures forall i :: 0 <= i < |Split(s)| ==> CommaFree(Split(s)[i])
    decreases |s|
  {
    var i := IndexOf(s, ',');
    hide IndexOf, Join, CommaFree;
    if i >= 0 {
      var part, rest := s[..i], s[i + 1..];
      SplitUndoesJoin(rest);
      var parts := Split(rest);
      assert Split(s) == [part] + parts;
      hide Split;
      JoinFront(part, parts);
      FreeUpTo(s, i);
      assert s == part + "," + rest;
    } else {
      FreeUpTo(s, |s|);
      assert Split(s) == [s] && s[..|s|] == s;
      JoinOne(s);
    }
  }

  lemma FreeUpTo(s: string, n: nat)
    requires n <= |s| && forall k :: 0 <= k < n ==> s[k] != ','
    ensures CommaFree(s[..n])
  {
  }

  lemma JoinOne(p: string)
    ensures Join([p]) == p
  {
  }

  lemma JoinFront(p: string, rest: seq<string>)
    requires rest != []
    ensures Join([p] + rest) == p + "," + Join(rest)
  {
    assert ([p] + rest)[1..] == rest;
  }

  /** No part has the key. */
  ghost predicate Lacks(parts: seq<string>, key: string) {
    forall i :: 0 <= i < |parts| ==> !(key <= parts[i])
  }

  /** The last part with the key has this value. */
  ghost predicate Latest(parts: seq<string>, key: string, value: string) {
    exists i :: 0 <= i < |parts| && parts[i] == key + value && Lacks(parts[i + 1..], key)
  }

  lemma LatestFront(p: string, rest: seq<string>, key: string, value: string)
    ensures Latest([p] + rest, key, value) <==> Latest(rest, key, value) || (Lacks(rest, key) && p == key + value)
  {
    var parts := [p] + rest;
    forall i | 0 <= i < |rest| ensures parts[i + 1] == rest[i] && parts[i + 2..] == rest[i + 1..] {}
    assert parts[1..] == rest;
    if Latest(parts, key, value) {
      var i :| 0 <= i < |parts| && parts[i] == key + value && Lacks(parts[i + 1..], key);
      if i > 0 {
        assert rest[i - 1] == key + value && Lacks(rest[i..], key);
      }
    }
    if Latest(rest, key, value) {
      var i :| 0 <= i < |rest| && rest[i] == key + value && Lacks(rest[i + 1..], key);
      assert parts[i + 1] == key + value && Lacks(parts[i + 2..], key);
    } else if Lacks(rest, key) && p == key + value {
      assert parts[0] == key + value && Lacks(parts[0 + 1..], key);
    }
  }

  lemma LacksFront(p: string, rest: seq<string>, key: string)
    ensures Lacks([p] + rest, key) <==> !(key <= p) && Lacks(rest, key)
  {
    var parts := [p] + rest;
    assert parts[0] == p && forall i :: 0 <= i < |rest| ==> parts[i + 1] == rest[i];
    if Lacks(parts, key) {
      forall i | 0 <= i < |rest| ensures !(key <= rest[i]) {
        assert !(key <= parts[i + 1]);
      }
    }
  }

  lemma ReadPartDecides(f: Fields, part: string)
    ensures ReadPart(f, part) ==
            if "t=" <= part then Some(f.(t := Some(part[2..])))
            else if "v1=" <= part then Some(f.(v1 := Some(part[3..])))
            else None
  {
    if "t=" <= part {
      IndexIs(part, '=', 1);
    } else if "v1=" <= part {
      IndexIs(part, '=', 2);
    } else {
      var i := IndexOf(part, '=');
      if i >= 0 {
        assert part[..i + 1] == part[..i] + "=" && part[..i + 1] <= part;
      }
    }
  }

  ghost predicate Readable(parts: seq<string>) {
    forall i :: 0 <= i < |parts| ==> "t=" <= parts[i] || "v1=" <= parts[i]
  }

  lemma ReadableFront(p: string, rest: seq<string>)
    ensures Readable([p] + rest) <==> ("t=" <= p || "v1=" <= p) && Readable(rest)
  {
    var parts := [p] + rest;
    assert parts[0] == p && forall i :: 0 <= i < |rest| ==> parts[i + 1] == rest[i];
    if Readable(parts) {
      forall i | 0 <= i < |rest| ensures "t=" <= rest[i] || "v1=" <= rest[i] {
        assert "t=" <= parts[i + 1] || "v1=" <= parts[i + 1];
      }
    }
  }

  /** The value under a key after the parts: the last one given, or the one of before. */
  ghost predicate Holds(parts: seq<string>, key: string, before: Option<string>, after: Option<string>) {
    forall v :: after == Some(v) <==> Latest(parts, key, v) || (Lacks(parts, key) && before == Some(v))
  }

  lemma HoldsFront(p: string, rest: seq<string>, key: string, before: Option<string>, after: Option<string>)
    requires Holds(rest, key, if key <= p then Some(p[|key|..]) else before, after)
    ensures Holds([p] + rest, key, before, after)
  {
    hide Latest, Lacks;
    LacksFront(p, rest, key);
    forall v ensures after == Some(v) <==>
                     Latest([p] + rest, key, v) || (Lacks([p] + rest, key) && before == Some(v)) {
      LatestFront(p, rest, key, v);
      if key <= p {
        assert p == key + p[|key|..];
        assert (key + v)[|key|..] == v;
      }
    }
  }

  lemma {:induction false} ReadPartsDecides(f: Fields, parts: seq<string>)
    ensures ReadParts(f, parts).Some? <==> Readable(parts)
    ensures Readable(parts) ==>
              var g := ReadParts(f, parts).value; Holds(parts, "t=", f.t, g.t) && Holds(parts, "v1=", f.v1, g.v1)
    decreases |parts|
  {
    hide ReadPart, Holds;
    if parts == [] {
      NothingRead(f);
    } else {
      var p, rest := parts[0], parts[1..];
      assert parts == [p] + rest;
      ReadableFront(p, rest);
      ReadPartDecides(f, p);
      if ReadPart(f, p).Some? {
        var next := ReadPart(f, p).value;
        ReadPartsDecides(next, rest);
        assert ("t=" <= p ==> p[0] == 't') && ("v1=" <= p ==> p[0] == 'v');
        if Readable(rest) {
          var g := ReadParts(next, rest).value;
          HoldsFront(p, rest, "t=", f.t, g.t);
          HoldsFront(p, rest, "v1=", f.v1, g.v1);
        }
      }
    }
  }

  lemma NothingRead(f: Fields)
    ensures Holds([], "t=", f.t, f.t) && Holds([], "v1=", f.v1, f.v1)
  {
  }

  /** A header carries a timestamp and a signature if every comma-separated part has one of the two keys and the last
      value under each is theirs and not empty. */
  ghost predicate Carries(header: string, t: string, v1: string) {
    && t != "" && v1 != "" && Readable(Split(header))
    && Latest(Split(header), "t=", t) && Latest(Split(header), "v1=", v1)
  }

  /** What the header's parser accepts, and what it reads. */
  lemma HeaderDecides(header: string, t: string, v1: string)
    ensures ParseHeader(header) == Some((t, v1)) <==> Carries(header, t, v1)
  {
    hide ReadParts, Readable, Latest, Lacks;
    ReadPartsDecides(Fields(None, None), Split(header));
  }

  // ----- signing and verifying -----

  /** What is signed: the timestamp text, a dot, the exact body. */
  function Frame(t: string, body: string): string { t + "." + body }

  predicate Within(now: int, unix: int) { -TOLERANCE <= now - unix * SECOND <= TOLERANCE }

  function Sign(mac: string -> seq<Byte>, marshal: WebhookEvent -> string, ev: WebhookEvent, now: int): (string,
        string) {
    var body := marshal(ev);
    var t := Itoa(now / SECOND);
    (body, PrintHeader(t, HexEncode(mac(Frame(t, body)))))
  }

  /** The event, or None for every kind of failure alike. */
  function Verify(mac: string -> seq<Byte>, unmarshal: string -> Option<WebhookEvent>,
                  body: string, header: string, now: int): Option<WebhookEvent>
  {
    match ParseHeader(header)
    case None => None
    case Some((t, v1)) =>
      match (Atoi(t), HexDecode(v1))
      case (Some(unix), Some(signature)) =>
        if !Within(now, unix) || signature != mac(Frame(t, body)) then None
        else
          (match unmarshal(body)
           case None => None
           case Some(ev) => if ev.intent == "" then None else Some(ev))
      case _ => None
  }

  /** The checks in the source's order: header, timestamp, hexadecimal, tolerance, MAC, body, intent. */
  method VerifyWebhook(mac: string -> seq<Byte>, unmarshal: string -> Option<WebhookEvent>,
                       body: string, header: string, now: int)
    returns (r: Option<WebhookEvent>)
    ensures r == Verify(mac, unmarshal, body, header, now)
  {
    var parsed := ParseSignatureHeader(header);
    if parsed.None? {
      return None;
    }
    var (t, v1) := parsed.value;
    var unix := Atoi(t);
    if unix.None? {
      return None;
    }
    var signature := HexDecode(v1);
    if signature.None? {
      return None;
    }
    var age := now - unix.value * SECOND;
    if age > TOLERANCE || age < -TOLERANCE {
      return None;
    }
    if signature.value != mac(Frame(t, body)) {
      return None;
    }
    var ev := unmarshal(body);
    if ev.None? || ev.value.intent == "" {
      return None;
    }
    r := ev;
  }

  lemma ItoaCommaFree(n: int)
    ensures CommaFree(Itoa(n)) && Itoa(n) != ""
  {
    if n < 0 {
      assert forall i :: 0 < i < |Itoa(n)| ==> Itoa(n)[i] == PrintNat(-n)[i - 1];
    }
  }

  /** Exactly what is accepted: a header that carries a timestamp of at most five minutes ago or ahead and the MAC of
      timestamp, dot and body, over a body that decodes to an event naming an intent. */
  lemma VerifyDecides(mac: string -> seq<Byte>, unmarshal: string -> Option<WebhookEvent>, body: string, header: string,
                      now: int, ev: WebhookEvent)
    ensures Verify(mac, unmarshal, body, header, now) == Some(ev) <==>
            exists t, v1 :: && Carries(header, t, v1) && Atoi(t).Some?
                            && -300_000_000_000 <= now - Atoi(t).value * 1_000_000_000 <= 300_000_000_000
                            && IsHexOf(v1, mac(t + "." + body))
                            && unmarshal(body) == Some(ev) && ev.intent != ""
  {
    hide ParseHeader, Carries, Atoi, HexDecode, IsHexOf;
    forall t, v1 ensures ParseHeader(header) == Some((t, v1)) <==> Carries(header, t, v1) {
      HeaderDecides(header, t, v1);
    }
    forall v1, bytes ensures HexDecode(v1) == Some(bytes) <==> IsHexOf(v1, bytes) {
      HexDecides(v1, bytes);
    }
  }

  /** A signed delivery verifies to its own event exactly if the event names an intent and the verifier's clock is
      within the tolerance of the signing second; otherwise it is refused. */
  lemma VerifyUndoesSign(mac: string -> seq<Byte>, marshal: WebhookEvent -> string,
                         unmarshal: string -> Option<WebhookEvent>, ev: WebhookEvent, signed: int, now: int)
    requires unmarshal(marshal(ev)) == Some(ev)
    requires forall m :: mac(m) != []
    requires IsInt64(signed / SECOND)
    ensures var (body, header) := Sign(mac, marshal, ev, signed);
            Verify(mac, unmarshal, body, header, now) ==
            if ev.intent != "" && -300 * SECOND <= now - signed / SECOND * SECOND <= 300 * SECOND
            then Some(ev) else None
  {
    var (body, header) := Sign(mac, marshal, ev, signed);
    var t := Itoa(signed / SECOND);
    var signature := mac(Frame(t, body));
    ItoaCommaFree(signed / SECOND);
    DecodeUndoesEncode(signature);
    AtoiItoa(signed / SECOND);
    ParseUndoesPrint(t, HexEncode(signature));
  }

  /** A timestamp that parses holds no dot, so the signed text determines timestamp and body. */
  lemma FrameInjective(t: string, body: string, t': string, body': string)
    requires Atoi(t).Some? && Atoi(t').Some? && Frame(t, body) == Frame(t', body')
    ensures t == t' && body == body'
  {
    AtoiAlphabet(t);
    AtoiAlphabet(t');
    var f := Frame(t, body);
    assert f[|t|] == '.' && f[|t'|] == '.';
    assert forall i :: 0 <= i < |t| ==> f[i] == t[i];
    assert forall i :: 0 <= i < |t'| ==> f[i] == t'[i];
    assert |t| == |t'|;
    assert f[..|t|] == t && f[..|t'|] == t' && f[|t| + 1..] == body && f[|t'| + 1..] == body';
  }

  /** Nothing but the signed delivery passes under its signature: whatever body and header carry the same MAC
      bytes and are accepted, are that very body and that very timestamp, for a MAC that tells the two signed
      texts apart. */
  lemma TamperedIsRefused(mac: string -> seq<Byte>, unmarshal: string -> Option<WebhookEvent>, body: string, t: string,
                          body': string, header': string, t': string, v1': string, now: int)
    requires Atoi(t).Some?
    requires ParseHeader(header') == Some((t', v1')) && HexDecode(v1') == Some(mac(Frame(t, body)))
    requires mac(Frame(t', body')) == mac(Frame(t, body)) ==> Frame(t', body') == Frame(t, body)
    requires Verify(mac, unmarshal, body', header', now).Some?
    ensures body' == body && t' == t
  {
    FrameInjective(t, body, t', body');
  }
}
