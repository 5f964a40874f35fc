/** The zod schema of the "new conference" form: a meeting name and the invited users. */
module MeetSchema {
  import opened Wrappers
  import opened JsValue

  datatype Meet = Meet(name: string, users: seq<string>)

  /** The character class of /^[a-zA-Z0-9_-]*$/. */
  predicate NameChar(c: char) {
    ('a' <= c <= 'z') || ('A' <= c <= 'Z') || ('0' <= c <= '9') || c == '_' || c == '-'
  }

  predicate ValidName(name: string) {
    MinLength(name, 1) && forall i :: 0 <= i < |name| ==> NameChar(name[i])
  }

  predicate WellFormed(m: Meet) {
    ValidName(m.name) && |m.users| >= 1
  }

  /** meetSchema.safeParse: the typed form value, or None when some rule fails. */
  function Parse(v: Json): (r: Option<Meet>)
    ensures r.Some? ==> WellFormed(r.value)
    ensures r.Some? <==> v.JObj? && Str(Get(v, "name")).Some? && ValidName(Get(v, "name").s) &&
                         Array(Get(v, "users"), Str).Some? && |Get(v, "users").items| >= 1
  {
    if !v.JObj? then None
    else
      var name := Str(Get(v, "name"));
      var users := Array(Get(v, "users"), Str);
      if name.Some? && ValidName(name.value) && users.Some? && |users.value| >= 1
      then Some(Meet(name.value, users.value))
      else None
  }

  function ToJson(m: Meet): Json {
    JObj(map["name" := JStr(m.name), "users" := StrArrayJson(m.users)])
  }

  /** A form value passes the schema unchanged exactly when it is well formed. */
  lemma RoundTrip(m: Meet)
    ensures Parse(ToJson(m)) == (if WellFormed(m) then Some(m) else None)
  {
    StringArrayRoundTrip(m.users);
    assert Get(ToJson(m), "users") == StrArrayJson(m.users);
    assert Get(ToJson(m), "name") == JStr(m.name);
  }

  /** A name with one character outside letters, digits, '_' and '-' is refused. */
  lemma SpaceInNameRejected(users: seq<string>)
    ensures Parse(ToJson(Meet("cours maths", users))) == None
  {
    RoundTrip(Meet("cours maths", users));
    assert !NameChar("cours maths"[5]);
  }
}
