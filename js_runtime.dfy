/** The small pieces of JavaScript semantics the modelled code relies on:
    optional values, truthiness of strings, `String.prototype.toLowerCase`,
    `String.prototype.startsWith` and the `\s` class of regular expressions. */
module JsRuntime {

  /** A value that may be `undefined` or `null`. */
  datatype Option<T> = None | Some(value: T) {
    function GetOr(default: T): T {
      match this
      case Some(v) => v
      case None => default
    }
  }

  /** A string is truthy in JavaScript exactly when it is not empty. */
  predicate Truthy(s: string) {
    s != ""
  }

  /** An optional string is truthy when it is present and not empty. */
  predicate TruthyOpt(s: Option<string>) {
    s.Some? && Truthy(s.value)
  }

  /** `s.startsWith(prefix)`. */
  predicate StartsWith(s: string, prefix: string) {
    prefix <= s
  }

  /** The code points `\s` matches in an ECMAScript regular expression:
      WhiteSpace and LineTerminator (ECMA-262, sections 12.2 and 12.3). */
  predicate IsWhitespace(c: char) {
    c == '\t' || c == '\n' || c == '\U{000B}' || c == '\U{000C}' || c == '\r' ||
    c == ' ' || c == '\U{00A0}' || c == '\U{1680}' ||
    ('\U{2000}' <= c <= '\U{200A}') ||
    c == '\U{2028}' || c == '\U{2029}' || c == '\U{202F}' || c == '\U{205F}' ||
    c == '\U{3000}' || c == '\U{FEFF}'
  }

  predicate IsAsciiUpper(c: char) {
    'A' <= c <= 'Z'
  }

  /** Lower-casing of one character. Of all Unicode characters, only the
      ASCII capitals and KELVIN SIGN have a lower case that is plain ASCII,
      so this agrees with the full mapping of `toLowerCase` on every question
      of the form "is the lower-cased string equal to this ASCII keyword". */
  function LowerChar(c: char): (r: char)
    ensures !IsAsciiUpper(r)
    ensures IsWhitespace(r) <==> IsWhitespace(c)
  {
    if IsAsciiUpper(c) then (c as int + 32) as char
    else if c == '\U{212A}' then 'k'
    else c
  }

  /** `s.toLowerCase()`, character by character. */
  function ToLower(s: string): (r: string)
    ensures |r| == |s|
  {
    seq(|s|, i requires 0 <= i < |s| => LowerChar(s[i]))
  }

  /** Lower-casing twice is lower-casing once. */
  lemma ToLowerIdempotent(s: string)
    ensures ToLower(ToLower(s)) == ToLower(s)
  {
    var t := ToLower(s);
    forall i | 0 <= i < |s|
      ensures ToLower(t)[i] == t[i]
    {
      assert t[i] == LowerChar(s[i]);
    }
  }

  /** A string without capitals (nor KELVIN SIGN) is its own lower case. */
  lemma ToLowerIdentity(s: string)
    requires forall i :: 0 <= i < |s| ==> !IsAsciiUpper(s[i]) && s[i] != '\U{212A}'
    ensures ToLower(s) == s
  {
  }

  /** The characters that `\s+` does not match at the start of `s` and after. */
  function SkipWhitespace(s: string): (r: string)
    ensures |r| <= |s|
    ensures r == s[|s| - |r|..]
    ensures r != [] ==> !IsWhitespace(r[0])
    ensures forall i :: 0 <= i < |s| - |r| ==> IsWhitespace(s[i])
  {
    if s != [] && IsWhitespace(s[0]) then SkipWhitespace(s[1..]) else s
  }

  predicate NoWhitespace(s: string) {
    forall i :: 0 <= i < |s| ==> !IsWhitespace(s[i])
  }

  /** `s.replace(/\s+/g, '_')`: every maximal run of whitespace becomes one `_`. */
  function ReplaceWhitespaceRuns(s: string): (r: string)
    ensures NoWhitespace(r)
    ensures |r| <= |s|
    decreases |s|
  {
    if s == [] then []
    else
      var head := if IsWhitespace(s[0]) then '_' else s[0];
      var rest := if IsWhitespace(s[0]) then SkipWhitespace(s[1..]) else s[1..];
      var tail := ReplaceWhitespaceRuns(rest);
      assert !IsWhitespace(head);
      [head] + tail
  }

  /** A string without whitespace is left as it is. */
  lemma {:induction false} ReplaceWhitespaceRunsIdentity(s: string)
    requires NoWhitespace(s)
    ensures ReplaceWhitespaceRuns(s) == s
  {
    if s != [] {
      assert !IsWhitespace(s[0]);
      ReplaceWhitespaceRunsIdentity(s[1..]);
    }
  }

  /** Lower-casing never introduces an ASCII capital, and replacing whitespace
      runs only adds `_`: the result of both has no ASCII capital. */
  lemma {:induction false} ReplaceWhitespaceRunsKeepsLower(s: string)
    requires forall i :: 0 <= i < |s| ==> !IsAsciiUpper(s[i])
    ensures forall i :: 0 <= i < |ReplaceWhitespaceRuns(s)| ==> !IsAsciiUpper(ReplaceWhitespaceRuns(s)[i])
    decreases |s|
  {
    if s != [] {
      if IsWhitespace(s[0]) {
        var rest := SkipWhitespace(s[1..]);
        assert forall i :: 0 <= i < |rest| ==> rest[i] == s[1..][|s[1..]| - |rest| + i];
        ReplaceWhitespaceRunsKeepsLower(rest);
      } else {
        ReplaceWhitespaceRunsKeepsLower(s[1..]);
      }
    }
  }

  /** A run of whitespace followed by a non-whitespace character is skipped
      whole. */
  lemma {:induction false} SkipWhitespaceRun(w: string, v: string)
    requires forall i :: 0 <= i < |w| ==> IsWhitespace(w[i])
    requires v == [] || !IsWhitespace(v[0])
    ensures SkipWhitespace(w + v) == v
    decreases |w|
  {
    if w == [] {
      assert w + v == v;
    } else {
      assert (w + v)[0] == w[0];
      assert (w + v)[1..] == w[1..] + v;
      SkipWhitespaceRun(w[1..], v);
    }
  }

  /** Characters that are not whitespace are copied as they are. */
  lemma {:induction false} ReplaceWhitespaceRunsKeepsPrefix(u: string, x: string)
    requires NoWhitespace(u)
    ensures ReplaceWhitespaceRuns(u + x) == u + ReplaceWhitespaceRuns(x)
    decreases |u|
  {
    if u == [] {
      assert u + x == x;
    } else {
      assert (u + x)[0] == u[0] && !IsWhitespace(u[0]);
      assert (u + x)[1..] == u[1..] + x;
      ReplaceWhitespaceRunsKeepsPrefix(u[1..], x);
      assert u == [u[0]] + u[1..];
    }
  }

  /** A whole whitespace run at the start becomes one `_`. */
  lemma ReplaceWhitespaceRunsOfRun(w: string, v: string)
    requires w != [] && forall i :: 0 <= i < |w| ==> IsWhitespace(w[i])
    requires v == [] || !IsWhitespace(v[0])
    ensures ReplaceWhitespaceRuns(w + v) == "_" + ReplaceWhitespaceRuns(v)
  {
    var x := w + v;
    assert x[0] == w[0] && IsWhitespace(x[0]);
    assert x[1..] == w[1..] + v;
    SkipWhitespaceRun(w[1..], v);
    assert SkipWhitespace(x[1..]) == v;
    assert ReplaceWhitespaceRuns(x) == ['_'] + ReplaceWhitespaceRuns(SkipWhitespace(x[1..]));
  }

  /** `replace(/\s+/g, '_')` on its own terms: the characters before a run
      are kept, the whole run (however long) becomes one `_`, and the
      replacement goes on after the run. */
  lemma ReplaceWhitespaceRunsStep(u: string, w: string, v: string)
    requires NoWhitespace(u)
    requires w != [] && forall i :: 0 <= i < |w| ==> IsWhitespace(w[i])
    requires v == [] || !IsWhitespace(v[0])
    ensures ReplaceWhitespaceRuns(u + w + v) == u + "_" + ReplaceWhitespaceRuns(v)
  {
    var x := w + v;
    var t := ReplaceWhitespaceRuns(v);
    assert u + w + v == u + x;
    ReplaceWhitespaceRunsKeepsPrefix(u, x);
    ReplaceWhitespaceRunsOfRun(w, v);
    assert u + ("_" + t) == u + "_" + t;
  }
}
