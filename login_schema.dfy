/**
 * The zod schemas of sign-in: the form (e-mail, password, optional MAC
 * address) and the shape of the server's answer. zod's e-mail format rule
 * is a library rule and is passed in as the predicate `isEmail`.
 */
module LoginSchema {
  import opened Wrappers
  import opened JsText
  import opened JsValue

  /** The special characters listed in the password pattern. */
  const Specials := "!@#$%^&*()-_=~`+[{]}\\|:;\"'<,>.?/"

  predicate IsSpecial(c: char) { c in Specials }

  /** The characters the password pattern allows: ASCII letters, digits, the specials and white space. */
  predicate PasswordChar(c: char) {
    IsLower(c) || IsUpper(c) || IsDigit(c) || IsSpecial(c) || IsSpace(c)
  }

  /** The text before the first line terminator: what `.*` in a look-ahead can reach. */
  function FirstLine(s: string): (r: string)
    ensures r <= s
    ensures forall i :: 0 <= i < |r| ==> !IsLineTerminator(r[i])
    ensures |r| < |s| ==> IsLineTerminator(s[|r|])
  {
    if s == [] || IsLineTerminator(s[0]) then [] else [s[0]] + FirstLine(s[1..])
  }

  predicate HasLower(s: string) { exists i :: 0 <= i < |s| && IsLower(s[i]) }
  predicate HasUpper(s: string) { exists i :: 0 <= i < |s| && IsUpper(s[i]) }
  predicate HasDigit(s: string) { exists i :: 0 <= i < |s| && IsDigit(s[i]) }
  predicate HasSpecial(s: string) { exists i :: 0 <= i < |s| && IsSpecial(s[i]) }

  /** The password pattern: four look-aheads over the first line, then 8 to 50 allowed characters. */
  predicate MatchesPasswordPattern(s: string) {
    var line := FirstLine(s);
    HasLower(line) && HasUpper(line) && HasDigit(line) && HasSpecial(line) &&
    8 <= |s| <= 50 && forall i :: 0 <= i < |s| ==> PasswordChar(s[i])
  }

  /** The password field: trimmed first, then the length bounds and the pattern. */
  function CheckPassword(raw: string): (r: Option<string>)
    ensures r.Some? ==> r.value == Trim(raw) && MatchesPasswordPattern(r.value)
  {
    PasswordRules(Trim(raw))
  }

  /** The length bounds and the pattern, on the trimmed text. */
  function PasswordRules(t: string): Option<string> {
    if MinLength(t, 8) && Utf16Length(t) <= 50 && MatchesPasswordPattern(t) then Some(t) else None
  }

  /** An accepted password is 8 to 50 allowed characters with a lower-case letter, an upper-case letter, a digit and a special. */
  lemma AcceptedPasswordHasEveryKind(raw: string)
    requires CheckPassword(raw).Some?
    ensures var p := CheckPassword(raw).value;
            8 <= |p| <= 50 && HasLower(p) && HasUpper(p) && HasDigit(p) && HasSpecial(p)
    ensures var p := CheckPassword(raw).value;
            forall i :: 0 <= i < |p| ==> PasswordChar(p[i])
  {
    var t := CheckPassword(raw).value;
    var line := FirstLine(t);
    var a :| 0 <= a < |line| && IsLower(line[a]);
    assert t[a] == line[a];
    var b :| 0 <= b < |line| && IsUpper(line[b]);
    assert t[b] == line[b];
    var c :| 0 <= c < |line| && IsDigit(line[c]);
    assert t[c] == line[c];
    var d :| 0 <= d < |line| && IsSpecial(line[d]);
    assert t[d] == line[d];
  }

  /** Surrounding white space never changes the password check. */
  lemma PasswordTrimmedFirst(raw: string)
    ensures CheckPassword(raw) == CheckPassword(Trim(raw))
  {
    TrimIdempotent(raw);
  }

  /** The e-mail field: non-empty as typed, then trimmed, checked, and lowercased. */
  function CheckEmail(raw: string, isEmail: string -> bool): (r: Option<string>)
    ensures r.Some? <==> raw != [] && isEmail(Trim(raw))
    ensures r.Some? ==> r.value == ToLower(Trim(raw)) && forall i :: 0 <= i < |r.value| ==> !IsUpper(r.value[i])
  {
    MinLengthOne(raw);
    if MinLength(raw, 1) && isEmail(Trim(raw)) then Some(ToLower(Trim(raw))) else None
  }

  /** `.optional().nullable()`: absent, null, or a string. */
  datatype MacAddress = NoMac | NullMac | Mac(address: string)

  function CheckMac(v: Json): (r: Option<MacAddress>)
    ensures r.Some? <==> v.JUndefined? || v.JNull? || v.JStr?
  {
    match v
    case JUndefined => Some(NoMac)
    case JNull => Some(NullMac)
    case JStr(s) => Some(Mac(s))
    case _ => None
  }

  datatype SignInForm = SignInForm(email: string, password: string, macAddress: MacAddress)

  /** SignInFormSchema.safeParse. */
  function ParseSignIn(v: Json, isEmail: string -> bool): (r: Option<SignInForm>)
    ensures r.Some? <==> v.JObj? && Get(v, "email").JStr? && Get(v, "password").JStr? &&
                         CheckEmail(Get(v, "email").s, isEmail).Some? &&
                         CheckPassword(Get(v, "password").s).Some? && CheckMac(Get(v, "macAddress")).Some?
    ensures r.Some? ==> Some(r.value.password) == CheckPassword(Get(v, "password").s)
    ensures r.Some? ==> Some(r.value.email) == CheckEmail(Get(v, "email").s, isEmail)
    ensures r.Some? ==> Some(r.value.macAddress) == CheckMac(Get(v, "macAddress"))
  {
    if !v.JObj? || !Get(v, "email").JStr? || !Get(v, "password").JStr? then None
    else
      var email := CheckEmail(Get(v, "email").s, isEmail);
      var password := CheckPassword(Get(v, "password").s);
      var mac := CheckMac(Get(v, "macAddress"));
      if email.Some? && password.Some? && mac.Some? then Some(SignInForm(email.value, password.value, mac.value))
      else None
  }

  /** The form as the sign-in page submits it; an absent MAC address is left out. */
  function SignInJson(f: SignInForm): Json {
    var mac := match f.macAddress
      case NoMac => JUndefined
      case NullMac => JNull
      case Mac(a) => JStr(a);
    JObj(PutOpt(map["email" := JStr(f.email), "password" := JStr(f.password)], "macAddress", mac))
  }

  /** A form whose e-mail and password are already in the shape the checks give back. */
  predicate Normalised(f: SignInForm, isEmail: string -> bool) {
    CheckEmail(f.email, isEmail) == Some(f.email) && CheckPassword(f.password) == Some(f.password)
  }

  /**
   * A submitted form is accepted exactly when its e-mail and password pass
   * their checks, and then comes back with those fields normalised and the
   * MAC address as it was.
   */
  lemma SignInNormalises(f: SignInForm, isEmail: string -> bool)
    ensures var e := CheckEmail(f.email, isEmail);
            var p := CheckPassword(f.password);
            ParseSignIn(SignInJson(f), isEmail) ==
              if e.Some? && p.Some? then Some(SignInForm(e.value, p.value, f.macAddress)) else None
  {
    var v := SignInJson(f);
    assert Get(v, "email") == JStr(f.email);
    assert Get(v, "password") == JStr(f.password);
    assert CheckMac(Get(v, "macAddress")) == Some(f.macAddress) by {
      match f.macAddress
      case NoMac =>
      case NullMac =>
      case Mac(a) =>
    }
  }

  /** A submitted form parses back to itself exactly when its fields are normalised. */
  lemma SignInRoundTrip(f: SignInForm, isEmail: string -> bool)
    ensures ParseSignIn(SignInJson(f), isEmail) == Some(f) <==> Normalised(f, isEmail)
  {
    SignInNormalises(f, isEmail);
  }

  lemma {:induction false} Utf16OfBmp(s: string)
    requires forall i :: 0 <= i < |s| ==> s[i] as int <= 0xFFFF
    ensures Utf16Length(s) == |s|
  {
    if s != [] {
      Utf16OfBmp(s[1..]);
    }
  }

  /** For a password with no white space at either end, the check is the pattern alone. */
  lemma CheckIsPattern(t: string)
    requires t == [] || (!IsSpace(t[0]) && !IsSpace(t[|t| - 1]))
    ensures CheckPassword(t).Some? <==> MatchesPasswordPattern(t)
  {
    TrimUnchanged(t);
    if MatchesPasswordPattern(t) {
      PatternAccepted(t);
    }
  }

  /** The pattern implies the length bounds, so text it accepts passes the rules. */
  lemma PatternAccepted(t: string)
    requires MatchesPasswordPattern(t)
    ensures PasswordRules(t) == Some(t)
  {
    PatternLength(t);
  }

  /** A password the pattern accepts has one UTF-16 code unit per character. */
  lemma PatternLength(t: string)
    requires MatchesPasswordPattern(t)
    ensures Utf16Length(t) == |t|
    ensures MinLength(t, 8) && Utf16Length(t) <= 50
  {
    forall i | 0 <= i < |t| ensures t[i] as int <= 0xFFFF {
      PasswordCharIsBmp(t[i]);
    }
    Utf16OfBmp(t);
  }

  lemma PasswordCharIsBmp(c: char)
    requires PasswordChar(c)
    ensures c as int <= 0xFFFF
  {
    if IsSpecial(c) {
      SpecialsAreAscii();
    }
  }

  /** The specials are all printable ASCII. */
  lemma SpecialsAreAscii()
    ensures forall c :: c in Specials ==> ' ' < c <= '~'
  {
    forall k | 0 <= k < |Specials| ensures ' ' < Specials[k] <= '~' {
    }
  }

  /** The first line ends at the first line terminator, or at the end. */
  lemma {:induction false} FirstLineEndsAt(s: string, k: nat)
    requires k <= |s|
    requires forall i :: 0 <= i < k ==> !IsLineTerminator(s[i])
    requires k < |s| ==> IsLineTerminator(s[k])
    ensures FirstLine(s) == s[..k]
  {
    if k > 0 {
      FirstLineEndsAt(s[1..], k - 1);
      assert s[..k] == [s[0]] + s[1..][..k - 1];
    }
  }

  /** A line break hides the characters after it from the look-aheads, though they stay allowed. */
  lemma SecondLineNotSearched(first: string, rest: string)
    requires forall i :: 0 <= i < |first| ==> !IsLineTerminator(first[i]) && !IsUpper(first[i])
    ensures !MatchesPasswordPattern(first + "\n" + rest)
  {
    var s := first + "\n" + rest;
    assert s[|first|] == '\n';
    FirstLineEndsAt(s, |first|);
    assert s[..|first|] == first;
  }

  /** On a password without line breaks the look-aheads see the whole text: the pattern is the four kinds, the length and the allowed characters. */
  lemma SingleLinePattern(t: string)
    requires forall i :: 0 <= i < |t| ==> !IsLineTerminator(t[i])
    ensures MatchesPasswordPattern(t) <==>
      HasLower(t) && HasUpper(t) && HasDigit(t) && HasSpecial(t) &&
      8 <= |t| <= 50 && forall i :: 0 <= i < |t| ==> PasswordChar(t[i])
  {
    FirstLineEndsAt(t, |t|);
    assert t[..|t|] == t;
  }

  datatype SignInResponse = SignInResponse(status: bool, message: string, accessToken: string, refreshToken: string)

  /** SignInAPIResponseSchema.safeParse. */
  function ParseResponse(v: Json): (r: Option<SignInResponse>)
    ensures r.Some? <==> v.JObj? && Get(v, "status").JBool? && Get(v, "message").JStr? &&
                         Get(v, "payload").JObj? && Get(Get(v, "payload"), "accessToken").JStr? &&
                         Get(Get(v, "payload"), "refreshToken").JStr?
  {
    var payload := Get(v, "payload");
    if v.JObj? && Get(v, "status").JBool? && Get(v, "message").JStr? && payload.JObj? &&
       Get(payload, "accessToken").JStr? && Get(payload, "refreshToken").JStr?
    then Some(SignInResponse(Get(v, "status").b, Get(v, "message").s,
                             Get(payload, "accessToken").s, Get(payload, "refreshToken").s))
    else None
  }

  function ResponseJson(r: SignInResponse): Json {
    JObj(map["status" := JBool(r.status), "message" := JStr(r.message),
             "payload" := JObj(map["accessToken" := JStr(r.accessToken), "refreshToken" := JStr(r.refreshToken)])])
  }

  /** Every answer of this shape parses back to itself, and extra properties are ignored. */
  lemma ResponseRoundTrip(r: SignInResponse, extra: string, x: Json)
    requires extra !in {"status", "message", "payload"}
    ensures ParseResponse(ResponseJson(r)) == Some(r)
    ensures ParseResponse(JObj(ResponseJson(r).fields[extra := x])) == Some(r)
  {
    var v := JObj(ResponseJson(r).fields[extra := x]);
    assert Get(v, "payload") == Get(ResponseJson(r), "payload");
  }
}
