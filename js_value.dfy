/**
 * Untyped JavaScript values as a form or an HTTP response delivers them, and
 * the building blocks shared by the zod schemas of the application: reading a
 * property, string length in UTF-16 code units, optional fields and arrays.
 */
module JsValue {
  import opened Wrappers

  /** `JUndefined` is also what reading a missing property gives. */
  datatype Json =
    | JUndefined
    | JNull
    | JBool(b: bool)
    | JNum(n: real)
    | JStr(s: string)
    | JArr(items: seq<Json>)
    | JObj(fields: map<string, Json>)

  /** `v[key]` on an object; undefined when the property is missing. */
  function Get(v: Json, key: string): Json {
    if v.JObj? && key in v.fields then v.fields[key] else JUndefined
  }

  /** String.prototype.length: characters outside the Basic Multilingual Plane count twice. */
  function Utf16Length(s: string): (n: nat)
    ensures |s| <= n <= 2 * |s|
    ensures n == 0 <==> s == []
  {
    if s == [] then 0 else (if s[0] as int > 0xFFFF then 2 else 1) + Utf16Length(s[1..])
  }

  /** z.string().min(k). */
  predicate MinLength(s: string, k: nat) {
    Utf16Length(s) >= k
  }

  lemma MinLengthOne(s: string)
    ensures MinLength(s, 1) <==> s != []
  {
  }

  /** z.string() */
  function Str(v: Json): (r: Option<string>)
    ensures r.Some? <==> v.JStr?
  {
    if v.JStr? then Some(v.s) else None
  }

  /** z.boolean() */
  function Bool(v: Json): (r: Option<bool>)
    ensures r.Some? <==> v.JBool?
  {
    if v.JBool? then Some(v.b) else None
  }

  /** z.number() */
  function Num(v: Json): (r: Option<real>)
    ensures r.Some? <==> v.JNum?
  {
    if v.JNum? then Some(v.n) else None
  }

  /**
   * `.optional()` around a schema: undefined is accepted as absent (`Some(None)`),
   * anything else must pass the inner schema; `None` means rejected.
   */
  function Optional<T>(v: Json, inner: Json -> Option<T>): (r: Option<Option<T>>)
    ensures v.JUndefined? ==> r == Some(None)
    ensures !v.JUndefined? ==> (r.Some? <==> inner(v).Some?)
    ensures !v.JUndefined? && r.Some? ==> r.value == Some(inner(v).value)
  {
    if v.JUndefined? then Some(None)
    else if inner(v).Some? then Some(Some(inner(v).value)) else None
  }

  /** z.array(inner): every element must pass, and the output keeps the order. */
  function ParseAll<T>(items: seq<Json>, inner: Json -> Option<T>): (r: Option<seq<T>>)
    ensures r.Some? <==> forall i :: 0 <= i < |items| ==> inner(items[i]).Some?
    ensures r.Some? ==> |r.value| == |items| &&
                        forall i :: 0 <= i < |items| ==> r.value[i] == inner(items[i]).value
  {
    if items == [] then Some([])
    else
      var head := inner(items[0]);
      var tail := ParseAll(items[1..], inner);
      if head.Some? && tail.Some? then Some([head.value] + tail.value)
      else
        assert head.None? ==> !inner(items[0]).Some?;
        assert tail.None? ==> exists i :: 1 <= i < |items| && !inner(items[i]).Some?;
        None
  }

  /** z.array(inner) applied to a value that may not be an array. */
  function Array<T>(v: Json, inner: Json -> Option<T>): (r: Option<seq<T>>)
    ensures r.Some? <==> v.JArr? && ParseAll(v.items, inner).Some?
  {
    if v.JArr? then ParseAll(v.items, inner) else None
  }

  function StrArrayJson(xs: seq<string>): (v: Json)
    ensures v.JArr? && |v.items| == |xs|
  {
    JArr(seq(|xs|, i requires 0 <= i < |xs| => JStr(xs[i])))
  }

  /** Writing a list of strings as an array and reading it back with z.array(z.string()) gives it back. */
  lemma StringArrayRoundTrip(xs: seq<string>)
    ensures Array(StrArrayJson(xs), Str) == Some(xs)
  {
    var items := StrArrayJson(xs).items;
    var r := ParseAll(items, Str);
    assert r.Some?;
    assert r.value == xs;
  }

  /** An array of encoded elements. */
  function Encode<T>(xs: seq<T>, enc: T -> Json): (v: Json)
    ensures v.JArr? && |v.items| == |xs| && forall i :: 0 <= i < |xs| ==> v.items[i] == enc(xs[i])
  {
    JArr(seq(|xs|, i requires 0 <= i < |xs| => enc(xs[i])))
  }

  /** An optional field: the encoded value, or undefined when absent. */
  function EncodeOpt<T>(o: Option<T>, enc: T -> Json): Json {
    if o.Some? then enc(o.value) else JUndefined
  }

  /** Object properties for optional fields: the property is left out when the field is absent. */
  function PutOpt(m: map<string, Json>, key: string, v: Json): (r: map<string, Json>)
    ensures Get(JObj(r), key) == v
    ensures forall k :: k != key ==> Get(JObj(r), k) == Get(JObj(m), k)
  {
    if v.JUndefined? then m - {key} else m[key := v]
  }

  /** Object properties for a list of optional fields, put one after another. */
  function PutAll(m: map<string, Json>, puts: seq<(string, Json)>): map<string, Json>
    decreases |puts|
  {
    if puts == [] then m else PutOpt(PutAll(m, puts[..|puts| - 1]), puts[|puts| - 1].0, puts[|puts| - 1].1)
  }

  /** A property that none of the puts names keeps its value. */
  lemma {:induction false} GetPastPuts(m: map<string, Json>, puts: seq<(string, Json)>, k: string)
    requires forall i :: 0 <= i < |puts| ==> puts[i].0 != k
    ensures Get(JObj(PutAll(m, puts)), k) == Get(JObj(m), k)
    decreases |puts|
  {
    if puts != [] {
      GetPastPuts(m, puts[..|puts| - 1], k);
    }
  }

  /** A put property that no later put names reads back as put; undefined reads back as absent. */
  lemma {:induction false} GetPut(m: map<string, Json>, puts: seq<(string, Json)>, i: nat)
    requires i < |puts|
    requires forall j :: i < j < |puts| ==> puts[j].0 != puts[i].0
    ensures Get(JObj(PutAll(m, puts)), puts[i].0) == puts[i].1
    decreases |puts|
  {
    if i < |puts| - 1 {
      var init := puts[..|puts| - 1];
      assert init[i] == puts[i];
      GetPut(m, init, i);
    }
  }

  /**
   * If a schema reads back every encoded element that satisfies `wf`, and
   * refuses every other one, then z.array of it does the same for a list.
   */
  lemma {:induction false} ArrayRoundTrip<T>(xs: seq<T>, enc: T -> Json, dec: Json -> Option<T>, wf: T -> bool)
    requires forall i :: 0 <= i < |xs| ==> dec(enc(xs[i])) == (if wf(xs[i]) then Some(xs[i]) else None)
    ensures Array(Encode(xs, enc), dec) == (if forall i :: 0 <= i < |xs| ==> wf(xs[i]) then Some(xs) else None)
  {
    var items := Encode(xs, enc).items;
    if forall i :: 0 <= i < |xs| ==> wf(xs[i]) {
      var r := ParseAll(items, dec);
      assert r.Some?;
      assert r.value == xs;
    } else {
      var i :| 0 <= i < |xs| && !wf(xs[i]);
      assert dec(items[i]).None?;
    }
  }

  /** The same for an optional field. */
  lemma OptionalRoundTrip<T>(o: Option<T>, enc: T -> Json, dec: Json -> Option<T>, wf: T -> bool)
    requires o.Some? ==> !enc(o.value).JUndefined?
    requires o.Some? ==> dec(enc(o.value)) == (if wf(o.value) then Some(o.value) else None)
    ensures Optional(EncodeOpt(o, enc), dec) == (if o.None? || wf(o.value) then Some(o) else None)
  {
  }
}
