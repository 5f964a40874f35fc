/**
 * URLSearchParams serialisation (the application/x-www-form-urlencoded
 * serializer of the WHATWG URL Standard): every name and value is
 * percent-encoded from UTF-8, a space becomes '+', and the pairs are joined
 * as name=value with '&'.
 */
module UrlParams {
  import opened JsText

  /** The characters the form serializer leaves as they are. */
  predicate IsKept(c: char) {
    ('a' <= c <= 'z') || ('A' <= c <= 'Z') || ('0' <= c <= '9') ||
    c == '*' || c == '-' || c == '.' || c == '_'
  }

  function HexDigit(d: int): (c: char)
    requires 0 <= d < 16
    ensures ('0' <= c <= '9') || ('A' <= c <= 'F')
  {
    if d < 10 then ('0' as int + d) as char else ('A' as int + d - 10) as char
  }

  /** The UTF-8 bytes of a code point. */
  function Utf8(k: int): (bytes: seq<int>)
    requires 0 <= k < 0x110000
    ensures 1 <= |bytes| <= 4 && forall i :: 0 <= i < |bytes| ==> 0 <= bytes[i] < 256
  {
    if k < 0x80 then [k]
    else if k < 0x800 then [0xC0 + k / 0x40, 0x80 + k % 0x40]
    else if k < 0x10000 then [0xE0 + k / 0x1000, 0x80 + (k / 0x40) % 0x40, 0x80 + k % 0x40]
    else [0xF0 + k / 0x40000, 0x80 + (k / 0x1000) % 0x40, 0x80 + (k / 0x40) % 0x40, 0x80 + k % 0x40]
  }

  function PercentBytes(bytes: seq<int>): (s: string)
    requires forall i :: 0 <= i < |bytes| ==> 0 <= bytes[i] < 256
    ensures |s| == 3 * |bytes|
    ensures forall i :: 0 <= i < |s| ==> s[i] == '%' || ('0' <= s[i] <= '9') || ('A' <= s[i] <= 'F')
  {
    if bytes == [] then []
    else ['%', HexDigit(bytes[0] / 16), HexDigit(bytes[0] % 16)] + PercentBytes(bytes[1..])
  }

  function EncodeChar(c: char): (s: string)
    ensures |s| >= 1
    ensures forall i :: 0 <= i < |s| ==> IsKept(s[i]) || s[i] == '+' || s[i] == '%'
  {
    if IsKept(c) then [c]
    else if c == ' ' then "+"
    else PercentBytes(Utf8(c as int))
  }

  /** The form encoding of one name or value. */
  function Encode(s: string): (r: string)
    ensures forall i :: 0 <= i < |r| ==> IsKept(r[i]) || r[i] == '+' || r[i] == '%'
    ensures |r| >= |s|
  {
    if s == [] then []
    else
      var a := EncodeChar(s[0]);
      var b := Encode(s[1..]);
      assert forall i :: 0 <= i < |a + b| ==> (a + b)[i] == if i < |a| then a[i] else b[i - |a|];
      a + b
  }

  /** A string made only of kept characters is its own encoding. */
  lemma {:induction false} EncodeKept(s: string)
    requires forall i :: 0 <= i < |s| ==> IsKept(s[i])
    ensures Encode(s) == s
  {
    if s != [] {
      EncodeKept(s[1..]);
    }
  }

  /** One serialised pair. */
  function PairText(p: (string, string)): string {
    Encode(p.0) + "=" + Encode(p.1)
  }

  function PairTexts(ps: seq<(string, string)>): (r: seq<string>)
    ensures |r| == |ps| && forall i :: 0 <= i < |ps| ==> r[i] == PairText(ps[i])
  {
    seq(|ps|, i requires 0 <= i < |ps| => PairText(ps[i]))
  }

  /** URLSearchParams.prototype.toString. */
  function Serialize(ps: seq<(string, string)>): string {
    Join(PairTexts(ps), '&')
  }

  /** An encoded name or value never contains '&' or '='. */
  lemma EncodeHasNoSeparator(s: string)
    ensures '&' !in Encode(s) && '=' !in Encode(s)
  {
  }

  /**
   * A serialised query splits back at '&' into its pairs, and each pair at '='
   * into its encoded name and value: the serialisation is unambiguous.
   */
  lemma SerializeSplits(ps: seq<(string, string)>)
    requires |ps| >= 1
    ensures Split(Serialize(ps), '&') == PairTexts(ps)
    ensures forall i :: 0 <= i < |ps| ==> Split(PairText(ps[i]), '=') == [Encode(ps[i].0), Encode(ps[i].1)]
  {
    var texts := PairTexts(ps);
    forall i | 0 <= i < |texts| ensures '&' !in texts[i] {
      EncodeHasNoSeparator(ps[i].0);
      EncodeHasNoSeparator(ps[i].1);
    }
    SplitJoin(texts, '&');
    forall i | 0 <= i < |ps| ensures Split(PairText(ps[i]), '=') == [Encode(ps[i].0), Encode(ps[i].1)] {
      var a, b := Encode(ps[i].0), Encode(ps[i].1);
      EncodeHasNoSeparator(ps[i].0);
      EncodeHasNoSeparator(ps[i].1);
      SplitJoin([a, b], '=');
      assert Join([a, b], '=') == a + ['='] + Join([b], '=');
    }
  }
}
