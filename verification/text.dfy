/** JavaScript's `String.prototype.trim`, which the client uses both to reject
    blank input (`!text.trim()`) and to clean up the assistant's reply. */
module Text {

  /** The characters `trim` removes: ECMAScript WhiteSpace (tab, vertical tab,
      form feed, space, no-break space, byte order mark and the Unicode Zs
      category) and LineTerminator (line feed, carriage return, the line and
      paragraph separators). */
  predicate IsSpace(c: char)
  {
    || c == '\t' || c == '\n' || c == '\U{000B}' || c == '\U{000C}' || c == '\r'
    || c == ' ' || c == '\U{00A0}' || c == '\U{1680}'
    || ('\U{2000}' <= c <= '\U{200A}')
    || c == '\U{2028}' || c == '\U{2029}' || c == '\U{202F}' || c == '\U{205F}'
    || c == '\U{3000}' || c == '\U{FEFF}'
  }

  /** Empty or made only of whitespace: the strings for which `!s.trim()` holds. */
  predicate IsBlank(s: string)
  {
    s == [] || (IsSpace(s[0]) && IsBlank(s[1..]))
  }

  /** IsBlank says that every character is whitespace. */
  lemma {:induction false} BlankIffAllSpace(s: string)
    ensures IsBlank(s) <==> forall i :: 0 <= i < |s| ==> IsSpace(s[i])
  {
    if s != [] {
      BlankIffAllSpace(s[1..]);
      assert forall i :: 0 < i < |s| ==> s[1..][i - 1] == s[i];
    }
  }

  /** Neither starts nor ends with whitespace. */
  predicate IsTrimmed(s: string)
  {
    s == [] || (!IsSpace(s[0]) && !IsSpace(s[|s| - 1]))
  }

  /** Drops the leading whitespace: the result is a suffix of `s` that does
      not start with whitespace (LeadingIsBlank: what is cut off is whitespace). */
  function TrimStart(s: string): (r: string)
    ensures |r| <= |s| && r == s[|s| - |r|..]
    ensures r == [] || !IsSpace(r[0])
  {
    if s == [] || !IsSpace(s[0]) then s else TrimStart(s[1..])
  }

  /** Drops the trailing whitespace: the result is a prefix of `s` that does
      not end with whitespace (TrailingIsBlank: what is cut off is whitespace). */
  function TrimEnd(s: string): (r: string)
    ensures |r| <= |s| && r == s[..|r|]
    ensures r == [] || !IsSpace(r[|r| - 1])
  {
    if s == [] || !IsSpace(s[|s| - 1]) then s else TrimEnd(s[..|s| - 1])
  }

  /** `s.trim()`: what is left once the leading and the trailing whitespace
      are dropped. It neither starts nor ends with whitespace. */
  function Trim(s: string): (r: string)
    ensures IsTrimmed(r) && |r| <= |s|
  {
    TrimEnd(TrimStart(s))
  }

  /** What TrimStart drops is whitespace. */
  lemma {:induction false} LeadingIsBlank(s: string)
    ensures IsBlank(s[..|s| - |TrimStart(s)|])
  {
    if s != [] && IsSpace(s[0]) {
      LeadingIsBlank(s[1..]);
      var rest := s[1..][..|s[1..]| - |TrimStart(s[1..])|];
      var prefix := s[..|s| - |TrimStart(s)|];
      assert prefix == [s[0]] + rest;
      assert prefix[1..] == rest;
    }
  }

  /** What TrimEnd drops is whitespace. */
  lemma {:induction false} TrailingIsBlank(s: string)
    ensures IsBlank(s[|TrimEnd(s)|..])
  {
    if s != [] && IsSpace(s[|s| - 1]) {
      var init := s[..|s| - 1];
      TrailingIsBlank(init);
      var rest := init[|TrimEnd(init)|..];
      var suffix := s[|TrimEnd(s)|..];
      assert suffix == rest + [s[|s| - 1]];
      BlankIffAllSpace(rest);
      forall i | 0 <= i < |suffix| ensures IsSpace(suffix[i]) {
        if i < |rest| {
          assert suffix[i] == rest[i];
        }
      }
      BlankIffAllSpace(suffix);
    }
  }

  /** The trim is the part of `s` between a whitespace prefix and a
      whitespace suffix: `k` is where it starts. */
  lemma TrimIsInfix(s: string) returns (k: nat)
    ensures k + |Trim(s)| <= |s| && Trim(s) == s[k..k + |Trim(s)|]
    ensures IsBlank(s[..k]) && IsBlank(s[k + |Trim(s)|..])
  {
    var t := TrimStart(s);
    k := |s| - |t|;
    LeadingIsBlank(s);
    TrailingIsBlank(t);
    assert s[k + |Trim(s)|..] == t[|Trim(s)|..];
    assert s[k..k + |Trim(s)|] == t[..|Trim(s)|];
  }

  /** `!s.trim()` is exactly "s is empty or whitespace only", in both directions. */
  lemma TrimEmptyIffBlank(s: string)
    ensures Trim(s) == [] <==> IsBlank(s)
  {
    var t := TrimStart(s);
    var k := |s| - |t|;
    BlankIffAllSpace(s);
    if Trim(s) == [] {
      // TrimEnd dropped all of `t`, so `t` is blank; as it does not start
      // with whitespace, it is empty.
      LeadingIsBlank(s);
      TrailingIsBlank(t);
      assert t[|TrimEnd(t)|..] == t;
      assert k == |s|;
      BlankIffAllSpace(s[..k]);
      assert s[..k] == s;
    } else {
      assert t != [] && s[k] == t[0];
    }
  }

  /** `!s.trim()`: holds exactly for the empty and the whitespace-only strings. */
  function TrimsToEmpty(s: string): (b: bool)
    ensures b <==> IsBlank(s)
  {
    TrimEmptyIffBlank(s);
    Trim(s) == ""
  }

  /** TrimsToEmpty as the event handlers evaluate it. Callers see only the
      contract, not the trimming it does. */
  method CheckBlank(s: string) returns (blank: bool)
    ensures blank <==> IsBlank(s)
  {
    blank := TrimsToEmpty(s);
  }

  /** A trimmed string that is not empty is not blank either. */
  lemma TrimmedNonEmptyIsNotBlank(s: string)
    requires IsTrimmed(s) && s != []
    ensures !IsBlank(s)
  {
    assert !IsSpace(s[0]);
  }

  /** Trimming twice is trimming once. */
  lemma {:induction false} TrimIdempotent(s: string)
    ensures Trim(Trim(s)) == Trim(s)
  {
    TrimOfTrimmed(Trim(s));
  }

  /** A string without surrounding whitespace is its own trim. */
  lemma TrimOfTrimmed(s: string)
    requires IsTrimmed(s)
    ensures Trim(s) == s
  {
  }
}
