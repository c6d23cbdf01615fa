/** String behaviour of JavaScript that the core relies on: `String.prototype.trim`,
    `String.prototype.includes` and the truthiness of a nullable string. */
module JsText {
  import opened Wrappers

  /** The code points ECMAScript counts as WhiteSpace or LineTerminator, which
      `trim` strips from both ends. */
  predicate IsJsSpace(c: char) {
    || c == '\t' || c == '\n' || c == '\U{000B}' || c == '\U{000C}' || c == '\r' || c == ' '
    || c == '\U{00A0}' || c == '\U{1680}' || ('\U{2000}' <= c <= '\U{200A}')
    || c == '\U{2028}' || c == '\U{2029}' || c == '\U{202F}' || c == '\U{205F}'
    || c == '\U{3000}' || c == '\U{FEFF}'
  }

  predicate AllSpace(s: string) {
    forall i :: 0 <= i < |s| ==> IsJsSpace(s[i])
  }

  /** `trimStart`: drops the leading white space. */
  function TrimStart(s: string): string {
    if s != [] && IsJsSpace(s[0]) then TrimStart(s[1..]) else s
  }

  /** `trimEnd`: drops the trailing white space. */
  function TrimEnd(s: string): string {
    if s != [] && IsJsSpace(s[|s| - 1]) then TrimEnd(s[..|s| - 1]) else s
  }

  /** `trim`: drops white space from both ends. */
  function Trim(s: string): string {
    TrimEnd(TrimStart(s))
  }

  /** `trimStart` keeps a suffix, drops only white space, and what it keeps
      does not start with white space. */
  lemma {:induction false} TrimStartSpec(s: string)
    ensures |TrimStart(s)| <= |s| && TrimStart(s) == s[|s| - |TrimStart(s)|..]
    ensures AllSpace(s[..|s| - |TrimStart(s)|])
    ensures TrimStart(s) == [] || !IsJsSpace(TrimStart(s)[0])
  {
    if s != [] && IsJsSpace(s[0]) {
      var p := s[1..];
      TrimStartSpec(p);
      var r := TrimStart(p);
      var n := |s| - |r|;
      assert p[|p| - |r|..] == s[n..];
      forall i | 0 <= i < n ensures IsJsSpace(s[..n][i]) {
        if 0 < i { assert s[..n][i] == p[..|p| - |r|][i - 1]; }
      }
    }
  }

  /** `trimEnd` keeps a prefix, drops only white space, and what it keeps does
      not end with white space. */
  lemma {:induction false} TrimEndSpec(s: string)
    ensures |TrimEnd(s)| <= |s| && TrimEnd(s) == s[..|TrimEnd(s)|]
    ensures AllSpace(s[|TrimEnd(s)|..])
    ensures TrimEnd(s) == [] || !IsJsSpace(TrimEnd(s)[|TrimEnd(s)| - 1])
  {
    if s != [] && IsJsSpace(s[|s| - 1]) {
      var p := s[..|s| - 1];
      TrimEndSpec(p);
      var r := TrimEnd(p);
      assert p[..|r|] == s[..|r|];
      forall i | 0 <= i < |s| - |r| ensures IsJsSpace(s[|r|..][i]) {
        if i < |s| - 1 - |r| { assert s[|r|..][i] == p[|r|..][i]; }
      }
    }
  }

  /** `trim` never lengthens the text, and what it keeps neither starts nor
      ends with white space. */
  lemma TrimSpec(s: string)
    ensures |Trim(s)| <= |s|
    ensures Trim(s) == [] || (!IsJsSpace(Trim(s)[0]) && !IsJsSpace(Trim(s)[|Trim(s)| - 1]))
  {
    var t := TrimStart(s);
    TrimStartSpec(s);
    TrimEndSpec(t);
    var r := TrimEnd(t);
    if r != [] {
      assert r[0] == t[0];
    }
  }

  /** What is left is a slice of the text with only white space around it. */
  lemma TrimIsSlice(s: string)
    ensures exists k :: 0 <= k <= |s| - |Trim(s)| && Trim(s) == s[k..k + |Trim(s)|]
                        && AllSpace(s[..k]) && AllSpace(s[k + |Trim(s)|..])
  {
    var t := TrimStart(s);
    TrimStartSpec(s);
    TrimEndSpec(t);
    var r := TrimEnd(t);
    var k := |s| - |t|;
    assert t == s[k..];
    assert r == t[..|r|];
    assert t[..|r|] == s[k..k + |r|];
    assert t[|r|..] == s[k + |r|..];
    assert AllSpace(s[..k]) && AllSpace(s[k + |r|..]);
    assert r == Trim(s);
  }

  /** Trimming keeps nothing exactly when the text is all white space. */
  lemma TrimEmptyIffAllSpace(s: string)
    ensures Trim(s) == [] <==> AllSpace(s)
  {
    var t := TrimStart(s);
    TrimStartSpec(s);
    var k := |s| - |t|;
    if t == [] {
      assert s[..k] == s;
    } else {
      assert !IsJsSpace(s[k]) by { assert s[k] == t[0]; }
      assert TrimEnd(t) != [] by {
        TrimEndSpec(t);
        assert t[0..] == t;
      }
    }
  }

  /** A text with no white space at either end is its own trim. */
  lemma TrimKeepsTidyText(s: string)
    requires s == [] || (!IsJsSpace(s[0]) && !IsJsSpace(s[|s| - 1]))
    ensures Trim(s) == s
  {
  }

  /** Trimming twice is trimming once. */
  lemma TrimIdempotent(s: string)
    ensures Trim(Trim(s)) == Trim(s)
  {
    TrimSpec(s);
    TrimKeepsTidyText(Trim(s));
  }

  /** A blank after a tidy text is dropped. */
  lemma TrimDropsTrailingBlank(s: string)
    requires s != [] && !IsJsSpace(s[0]) && !IsJsSpace(s[|s| - 1])
    ensures Trim(s + " ") == s
  {
    var t := s + " ";
    assert t[0] == s[0];
    assert TrimStart(t) == t;
    assert t[|t| - 1] == ' ' && t[..|t| - 1] == s;
    assert TrimEnd(t) == TrimEnd(s) == s;
  }

  /** The callsign of the OpenSky unit test loses its trailing blank. */
  lemma TrimTrailingBlankExample()
    ensures Trim("TEST123 ") == "TEST123"
  {
    TrimDropsTrailingBlank("TEST123");
    assert "TEST123" + " " == "TEST123 ";
  }

  /** JavaScript truthiness of a `string | null`: non-null and non-empty. */
  predicate IsTruthy(v: Option<string>) {
    v.Some? && v.value != ""
  }

  /** `s.includes(sub)`. */
  predicate Contains(s: string, sub: string) {
    exists i :: 0 <= i <= |s| - |sub| && sub <= s[i..]
  }

  /** A text cannot contain a word one of whose letters it lacks. */
  lemma {:induction false} MissingLetterExcludes(s: string, sub: string, j: nat)
    requires j < |sub| && sub[j] !in s
    ensures !Contains(s, sub)
  {
    forall i | 0 <= i <= |s| - |sub| ensures !(sub <= s[i..]) {
      assert s[i + j] in s;
      assert s[i..][j] == s[i + j] != sub[j];
    }
  }
}
