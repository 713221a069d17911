/** `ValidationUtils` from src/utils/validation.ts: parameter checks that
    throw an `Error` naming the parameter, and the string sanitiser.

    A `RegExp` pattern is an opaque predicate on strings, and `new URL(...)`
    is a parser that yields the URL's protocol (such as `https:`) or fails. */
module Validation {
  import opened Js

  function Fail(message: string): Result<()> {
    Throw(JsErr("Error", message))
  }

  predicate FailsWith(r: Result<()>, message: string) {
    r == Fail(message)
  }

  // ---------------------------------------------------------------------
  // validateString

  datatype StringOptions = StringOptions(
    required: bool,
    minLength: Option<int>,
    maxLength: Option<int>,
    pattern: Option<string -> bool>)

  /** Which values `validateString` accepts, stated check by check. A zero
      `minLength` or `maxLength` is falsy and so imposes nothing; lengths
      count UTF-16 code units. */
  predicate StringAccepted(value: Json, o: StringOptions) {
    && (o.required ==> Truthy(value))
    && (value.JUndefined? || value.JStr?)
    && (value.JStr? ==>
          && (o.minLength.Some? && o.minLength.value != 0 ==> Length(value.s) >= o.minLength.value)
          && (o.maxLength.Some? && o.maxLength.value != 0 ==> Length(value.s) <= o.maxLength.value)
          && (o.pattern.Some? ==> o.pattern.value(value.s)))
  }

  /** A truthy `minLength` the string falls short of. */
  predicate TooShort(s: string, o: StringOptions) {
    o.minLength.Some? && o.minLength.value != 0 && Length(s) < o.minLength.value
  }

  /** A truthy `maxLength` the string exceeds. */
  predicate TooLong(s: string, o: StringOptions) {
    o.maxLength.Some? && o.maxLength.value != 0 && Length(s) > o.maxLength.value
  }

  function ValidateString(value: Json, name: string, o: StringOptions): (r: Result<()>)
    ensures r.Ok? <==> StringAccepted(value, o)
    ensures r.Throw? ==> r.thrown.JsErr? && r.thrown.name == "Error" && name <= r.thrown.message
    ensures o.required && !Truthy(value) ==> FailsWith(r, name + " is required")
    ensures !(o.required && !Truthy(value)) && !value.JUndefined? && !value.JStr? ==>
              FailsWith(r, name + " must be a string")
    ensures !(o.required && !Truthy(value)) && value.JStr? && TooShort(value.s, o) ==>
              FailsWith(r, name + " must be at least " + IntToString(o.minLength.value) + " characters")
    ensures !(o.required && !Truthy(value)) && value.JStr? && !TooShort(value.s, o) && TooLong(value.s, o) ==>
              FailsWith(r, name + " must not exceed " + IntToString(o.maxLength.value) + " characters")
    ensures !(o.required && !Truthy(value)) && value.JStr? && !TooShort(value.s, o) && !TooLong(value.s, o)
            && o.pattern.Some? && !o.pattern.value(value.s) ==>
              FailsWith(r, name + " has invalid format")
  {
    if o.required && !Truthy(value) then Fail(name + " is required")
    else if !value.JUndefined? && !value.JStr? then Fail(name + " must be a string")
    else if value.JStr? then
      if o.minLength.Some? && o.minLength.value != 0 && Length(value.s) < o.minLength.value then
        Fail(name + " must be at least " + IntToString(o.minLength.value) + " characters")
      else if o.maxLength.Some? && o.maxLength.value != 0 && Length(value.s) > o.maxLength.value then
        Fail(name + " must not exceed " + IntToString(o.maxLength.value) + " characters")
      else if o.pattern.Some? && !o.pattern.value(value.s) then
        Fail(name + " has invalid format")
      else Ok(())
    else Ok(())
  }

  /** A single character outside the Basic Multilingual Plane (an emoji,
      say) already exceeds a `maxLength` of 1. */
  lemma AstralCharacterCountsTwice(c: char, name: string)
    requires c as int >= 0x1_0000
    ensures ValidateString(JStr([c]), name, StringOptions(false, None, Some(1), None))
         == Fail(name + " must not exceed " + IntToString(1) + " characters")
  {
    assert Length([c]) == 2 by {
      assert [c][1..] == [];
    }
  }

  // ---------------------------------------------------------------------
  // validateNumber

  datatype NumberOptions = NumberOptions(required: bool, min: Option<int>, max: Option<int>)

  /** Unlike the string check, `required` only rejects undefined, and a
      bound of 0 is a real bound. */
  predicate NumberAccepted(value: Json, o: NumberOptions) {
    || (value.JUndefined? && !o.required)
    || (value.JNum?
        && (o.min.Some? ==> value.n >= o.min.value)
        && (o.max.Some? ==> value.n <= o.max.value))
  }

  function ValidateNumber(value: Json, name: string, o: NumberOptions): (r: Result<()>)
    ensures r.Ok? <==> NumberAccepted(value, o)
    ensures r.Throw? ==> r.thrown.JsErr? && r.thrown.name == "Error" && name <= r.thrown.message
    ensures o.required && value.JUndefined? ==> FailsWith(r, name + " is required")
    ensures !value.JUndefined? && !value.JNum? ==> FailsWith(r, name + " must be a number")
    ensures value.JNum? && o.min.Some? && value.n < o.min.value ==>
              FailsWith(r, name + " must be at least " + IntToString(o.min.value))
    ensures value.JNum? && !(o.min.Some? && value.n < o.min.value) && o.max.Some? && value.n > o.max.value ==>
              FailsWith(r, name + " must not exceed " + IntToString(o.max.value))
  {
    if o.required && value.JUndefined? then Fail(name + " is required")
    else if value.JUndefined? then Ok(())
    else if !value.JNum? then Fail(name + " must be a number")
    else if o.min.Some? && value.n < o.min.value then Fail(name + " must be at least " + IntToString(o.min.value))
    else if o.max.Some? && value.n > o.max.value then Fail(name + " must not exceed " + IntToString(o.max.value))
    else Ok(())
  }

  // ---------------------------------------------------------------------
  // validateUrl

  datatype UrlOptions = UrlOptions(required: bool, protocols: Option<seq<string>>)

  /** `protocol.replace(':', '')`: only the first colon goes; every other
      character, later colons included, stays in place. */
  function RemoveFirstColon(s: string): (r: string)
    ensures ':' !in s ==> r == s
    ensures |r| == (if ':' in s then |s| - 1 else |s|)
  {
    if s == [] then []
    else if s[0] == ':' then s[1..]
    else [s[0]] + RemoveFirstColon(s[1..])
  }

  /** With `i` the position of the first colon, the result is the text
      before it followed by the text after it. */
  lemma {:induction false} RemoveFirstColonAt(s: string, i: nat)
    requires i < |s| && s[i] == ':' && ':' !in s[..i]
    ensures RemoveFirstColon(s) == s[..i] + s[i + 1..]
    decreases i
  {
    if i > 0 {
      assert s[0] in s[..i];
      assert s[1..][..i - 1] == s[1..i];
      RemoveFirstColonAt(s[1..], i - 1);
      assert s[..i] == [s[0]] + s[1..i];
      assert s[1..][i..] == s[i + 1..];
    }
  }

  /** Which values `validateUrl` accepts: the string form parses and, when a
      protocol list is given (even an empty one), its protocol is listed. */
  predicate UrlAccepted(value: Json, o: UrlOptions, parse: string -> Option<string>) {
    && (o.required ==> Truthy(value))
    && (!value.JUndefined? ==>
          && parse(Display(value)).Some?
          && (o.protocols.Some? ==> RemoveFirstColon(parse(Display(value)).value) in o.protocols.value))
  }

  /** `validateUrl` as written: the protocol error is thrown inside the `try`,
      so the `catch` replaces it with the generic message. */
  function ValidateUrl(value: Json, name: string, o: UrlOptions, parse: string -> Option<string>): (r: Result<()>)
    ensures r.Ok? <==> UrlAccepted(value, o, parse)
    ensures o.required && !Truthy(value) ==> FailsWith(r, name + " is required")
    ensures r.Throw? && !(o.required && !Truthy(value)) ==> FailsWith(r, name + " must be a valid URL")
  {
    if o.required && !Truthy(value) then Fail(name + " is required")
    else if value.JUndefined? then Ok(())
    else
      var inner := match parse(Display(value))
        case None => Fail("Invalid URL")
        case Some(protocol) =>
          if o.protocols.Some? && RemoveFirstColon(protocol) !in o.protocols.value
          then Fail(name + " must use one of these protocols: " + Join(o.protocols.value, ", "))
          else Ok(());
      if inner.Throw? then Fail(name + " must be a valid URL") else Ok(())
  }

  function ProtocolMessage(name: string, protocols: seq<string>): string {
    name + " must use one of these protocols: " + Join(protocols, ", ")
  }

  /** `validateUrl` as evidently intended: only a parse failure is reported
      as an invalid URL, and a disallowed protocol gets its own message. */
  function ValidateUrlIntended(value: Json, name: string, o: UrlOptions, parse: string -> Option<string>): (r: Result<()>)
    ensures r.Ok? <==> UrlAccepted(value, o, parse)
    ensures !value.JUndefined? && !(o.required && !Truthy(value)) && parse(Display(value)).Some?
            && o.protocols.Some? && RemoveFirstColon(parse(Display(value)).value) !in o.protocols.value ==>
              FailsWith(r, ProtocolMessage(name, o.protocols.value))
    ensures !value.JUndefined? && !(o.required && !Truthy(value)) && parse(Display(value)).None? ==>
              FailsWith(r, name + " must be a valid URL")
  {
    if o.required && !Truthy(value) then Fail(name + " is required")
    else if value.JUndefined? then Ok(())
    else match parse(Display(value))
      case None => Fail(name + " must be a valid URL")
      case Some(protocol) =>
        if o.protocols.Some? && RemoveFirstColon(protocol) !in o.protocols.value
        then Fail(ProtocolMessage(name, o.protocols.value))
        else Ok(())
  }

  /** The two versions accept the same values; they differ only in the
      message of a disallowed protocol. */
  lemma UrlVersionsAgreeOnVerdict(value: Json, name: string, o: UrlOptions, parse: string -> Option<string>)
    ensures ValidateUrl(value, name, o, parse).Ok? <==> ValidateUrlIntended(value, name, o, parse).Ok?
    ensures ValidateUrl(value, name, o, parse) != ValidateUrlIntended(value, name, o, parse) ==>
              ValidateUrlIntended(value, name, o, parse) == Fail(ProtocolMessage(name, o.protocols.value))
  {
  }

  /** A URL that parses but whose protocol is not listed (an `http:` URL
      checked against `['https']`, say) is reported as not a valid URL: the
      protocol message written in the source never reaches the caller. */
  lemma ProtocolMessageSwallowed(value: Json, name: string, o: UrlOptions, parse: string -> Option<string>)
    requires Truthy(value) && parse(Display(value)).Some?
    requires o.protocols.Some? && RemoveFirstColon(parse(Display(value)).value) !in o.protocols.value
    ensures ValidateUrl(value, name, o, parse) == Fail(name + " must be a valid URL")
    ensures ValidateUrlIntended(value, name, o, parse) == Fail(ProtocolMessage(name, o.protocols.value))
    ensures name + " must be a valid URL" != ProtocolMessage(name, o.protocols.value)
  {
    assert !UrlAccepted(value, o, parse);
    MessagesDiffer(name, o.protocols.value);
  }

  lemma MessagesDiffer(name: string, protocols: seq<string>)
    ensures name + " must be a valid URL" != ProtocolMessage(name, protocols)
  {
    var valid, proto := name + " must be a valid URL", ProtocolMessage(name, protocols);
    assert valid[|name| + 6] == 'b' && proto[|name| + 6] == 'u';
  }

  // ---------------------------------------------------------------------
  // sanitizeString

  predicate Unsafe(c: char) {
    c == '<' || c == '>' || c == '"' || c == '\'' || c == '/'
  }

  /** `replace(/[<>]/g, '')`: every angle bracket goes; `RemoveAnglesCounts`
      shows every other character is kept as often as it occurs, and
      `RemoveAnglesAppend` that the order is kept too. */
  function RemoveAngles(s: string): (r: string)
    ensures |r| <= |s|
    ensures forall i :: 0 <= i < |r| ==> r[i] != '<' && r[i] != '>'
  {
    if s == [] then []
    else (if s[0] == '<' || s[0] == '>' then [] else [s[0]]) + RemoveAngles(s[1..])
  }

  /** Every character other than a bracket is kept as often as it occurs. */
  lemma {:induction false} RemoveAnglesCounts(s: string)
    ensures multiset(RemoveAngles(s)) == multiset(s)['<' := 0]['>' := 0]
    decreases |s|
  {
    if s != [] {
      assert s == [s[0]] + s[1..];
      RemoveAnglesCounts(s[1..]);
    }
  }

  /** Removing brackets works piece by piece, so the kept characters stay in order. */
  lemma {:induction false} RemoveAnglesAppend(a: string, b: string)
    ensures RemoveAngles(a + b) == RemoveAngles(a) + RemoveAngles(b)
    decreases |a|
  {
    if a == [] {
      assert a + b == b;
    } else {
      assert (a + b)[1..] == a[1..] + b;
      RemoveAnglesAppend(a[1..], b);
    }
  }

  /** Text without brackets comes back unchanged. */
  lemma {:induction false} RemoveAnglesKeeps(s: string)
    requires forall i :: 0 <= i < |s| ==> s[i] != '<' && s[i] != '>'
    ensures RemoveAngles(s) == s
    decreases |s|
  {
    if s != [] {
      RemoveAnglesKeeps(s[1..]);
    }
  }

  /** `replace(/c/g, by)` for a single character `c`. */
  function ReplaceChar(s: string, c: char, rep: string): string {
    if s == [] then [] else (if s[0] == c then rep else [s[0]]) + ReplaceChar(s[1..], c, rep)
  }

  /** `sanitizeString`: the five passes in source order, then `trim`. */
  function SanitizeString(value: string): (r: string)
    ensures r == Trim(Escape(RemoveAngles(value)))
  {
    PassesEscapeOnce(RemoveAngles(value));
    Trim(Passes(RemoveAngles(value)))
  }

  function Passes(s: string): string {
    ReplaceChar(ReplaceChar(ReplaceChar(ReplaceChar(s, '&', "&amp;"), '"', "&quot;"), '\'', "&#x27;"), '/', "&#x2F;")
  }

  /** Reference: HTML-escape each character once. */
  function EscapeChar(c: char): string {
    if c == '&' then "&amp;"
    else if c == '"' then "&quot;"
    else if c == '\'' then "&#x27;"
    else if c == '/' then "&#x2F;"
    else [c]
  }

  function Escape(s: string): (r: string)
    ensures |s| <= |r|
    ensures forall i :: 0 <= i < |r| ==> r[i] != '"' && r[i] != '\'' && r[i] != '/'
  {
    if s == [] then [] else EscapeChar(s[0]) + Escape(s[1..])
  }

  /** Inverse of `Escape`: decode the four entities it produces. */
  function Unescape(s: string): string
    decreases |s|
  {
    if s == [] then []
    else if "&amp;" <= s then "&" + Unescape(s[5..])
    else if "&quot;" <= s then "\"" + Unescape(s[6..])
    else if "&#x27;" <= s then "'" + Unescape(s[6..])
    else if "&#x2F;" <= s then "/" + Unescape(s[6..])
    else [s[0]] + Unescape(s[1..])
  }

  lemma {:induction false} ReplaceCharAppend(a: string, b: string, c: char, rep: string)
    ensures ReplaceChar(a + b, c, rep) == ReplaceChar(a, c, rep) + ReplaceChar(b, c, rep)
    decreases |a|
  {
    if a == [] {
      assert a + b == b;
    } else {
      assert (a + b)[1..] == a[1..] + b;
      ReplaceCharAppend(a[1..], b, c, rep);
    }
  }

  lemma {:induction false} ReplaceCharAbsent(s: string, c: char, rep: string)
    requires c !in s
    ensures ReplaceChar(s, c, rep) == s
    decreases |s|
  {
    if s != [] {
      ReplaceCharAbsent(s[1..], c, rep);
    }
  }

  lemma PassesAppend(a: string, b: string)
    ensures Passes(a + b) == Passes(a) + Passes(b)
  {
    var p1a, p1b := ReplaceChar(a, '&', "&amp;"), ReplaceChar(b, '&', "&amp;");
    ReplaceCharAppend(a, b, '&', "&amp;");
    var p2a, p2b := ReplaceChar(p1a, '"', "&quot;"), ReplaceChar(p1b, '"', "&quot;");
    ReplaceCharAppend(p1a, p1b, '"', "&quot;");
    var p3a, p3b := ReplaceChar(p2a, '\'', "&#x27;"), ReplaceChar(p2b, '\'', "&#x27;");
    ReplaceCharAppend(p2a, p2b, '\'', "&#x27;");
    ReplaceCharAppend(p3a, p3b, '/', "&#x2F;");
  }

  lemma PassesChar(c: char)
    ensures Passes([c]) == EscapeChar(c)
  {
    ReplaceCharSingle(c, '&', "&amp;");
    var s1 := ReplaceChar([c], '&', "&amp;");
    if c == '&' {
      AbsentFromEntity("&amp;");
      ReplaceCharAbsent(s1, '"', "&quot;");
      ReplaceCharAbsent(s1, '\'', "&#x27;");
      ReplaceCharAbsent(s1, '/', "&#x2F;");
    } else {
      ReplaceCharSingle(c, '"', "&quot;");
      var s2 := ReplaceChar([c], '"', "&quot;");
      if c == '"' {
        AbsentFromEntity("&quot;");
        ReplaceCharAbsent(s2, '\'', "&#x27;");
        ReplaceCharAbsent(s2, '/', "&#x2F;");
      } else {
        ReplaceCharSingle(c, '\'', "&#x27;");
        var s3 := ReplaceChar([c], '\'', "&#x27;");
        if c == '\'' {
          AbsentFromEntity("&#x27;");
          ReplaceCharAbsent(s3, '/', "&#x2F;");
        } else {
          ReplaceCharSingle(c, '/', "&#x2F;");
        }
      }
    }
  }

  /** The entities contain none of the characters the later passes replace. */
  lemma AbsentFromEntity(e: string)
    requires e in ["&amp;", "&quot;", "&#x27;"]
    ensures '"' !in e && '\'' !in e && '/' !in e
  {
  }

  lemma ReplaceCharSingle(c: char, d: char, rep: string)
    ensures ReplaceChar([c], d, rep) == if c == d then rep else [c]
  {
    assert [c][1..] == [];
  }

  /** Escaping `&` first means the entities introduced by later passes are
      never escaped again: the five passes escape every character exactly once. */
  lemma {:induction false} PassesEscapeOnce(s: string)
    ensures Passes(s) == Escape(s)
    decreases |s|
  {
    if s != [] {
      assert s == [s[0]] + s[1..];
      PassesAppend([s[0]], s[1..]);
      PassesChar(s[0]);
      PassesEscapeOnce(s[1..]);
    }
  }

  /** Decoding an escaped character gives the character back, and decoding
      carries on right after its entity. */
  lemma UnescapeEntity(c: char, rest: string)
    ensures Unescape(EscapeChar(c) + rest) == [c] + Unescape(rest)
  {
    var e := EscapeChar(c) + rest;
    if c == '&' {
      assert "&amp;" <= e;
      assert e[5..] == rest;
    } else if c == '"' {
      assert e[1] == 'q';
      assert "&quot;" <= e;
      assert e[6..] == rest;
    } else if c == '\'' {
      assert e[1] == '#' && e[3] == '2';
      assert "&#x27;" <= e;
      assert e[6..] == rest;
    } else if c == '/' {
      assert e[1] == '#' && e[3] == '2' && e[4] == 'F';
      assert "&#x2F;" <= e;
      assert e[6..] == rest;
    } else {
      assert e[0] == c;
      assert e[1..] == rest;
    }
  }

  lemma {:induction false} UnescapeEscape(s: string)
    ensures Unescape(Escape(s)) == s
    decreases |s|
  {
    if s != [] {
      assert Escape(s) == EscapeChar(s[0]) + Escape(s[1..]);
      UnescapeEntity(s[0], Escape(s[1..]));
      UnescapeEscape(s[1..]);
      assert s == [s[0]] + s[1..];
    }
  }

  lemma {:induction false} EscapeSafe(s: string)
    requires forall i :: 0 <= i < |s| ==> s[i] != '<' && s[i] != '>'
    ensures forall i :: 0 <= i < |Escape(s)| ==> !Unsafe(Escape(s)[i])
    decreases |s|
  {
    if s != [] {
      EscapeSafe(s[1..]);
      var head := EscapeChar(s[0]);
      assert forall i :: 0 <= i < |head| ==> !Unsafe(head[i]);
      assert Escape(s) == head + Escape(s[1..]);
    }
  }

  /** What `sanitizeString` guarantees: angle brackets dropped, the other
      markup characters entity-escaped exactly once (so decoding gives the
      bracket-free text back), surrounding white space trimmed, and no
      `<`, `>`, quote, apostrophe or slash left in the result. */
  lemma SanitizeStringGuarantees(value: string)
    ensures SanitizeString(value) == Trim(Escape(RemoveAngles(value)))
    ensures Unescape(Escape(RemoveAngles(value))) == RemoveAngles(value)
    ensures forall i :: 0 <= i < |SanitizeString(value)| ==> !Unsafe(SanitizeString(value)[i])
  {
    var kept := RemoveAngles(value);
    PassesEscapeOnce(kept);
    UnescapeEscape(kept);
    EscapeSafe(kept);
    var escaped := Escape(kept);
    var r := Trim(escaped);
    var i :| SpaceCut(escaped, r, i);
    forall k | 0 <= k < |r|
      ensures !Unsafe(r[k])
    {
      assert r[k] == escaped[i + k];
    }
  }
}
