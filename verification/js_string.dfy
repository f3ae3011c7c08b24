/**
 * The two pieces of JavaScript string behaviour the model depends on:
 * `String.prototype.trim` (used by every `trim: true` schema path) and the
 * truthiness of an optional string (`!x` in the request guards).
 */
module JsString {
  import opened Wrappers

  /** The characters `trim` removes: WhiteSpace and LineTerminator of ECMA-262. */
  predicate IsWhitespace(c: char) {
    || c == ' ' || c == '\t' || c == '\n' || c == '\r' || c == '\U{0B}' || c == '\U{0C}'
    || c == '\U{A0}' || c == '\U{1680}' || ('\U{2000}' <= c <= '\U{200A}')
    || c == '\U{2028}' || c == '\U{2029}' || c == '\U{202F}' || c == '\U{205F}'
    || c == '\U{3000}' || c == '\U{FEFF}'
  }

  /** Every character of `s[lo..hi]` is whitespace. */
  predicate AllWhitespace(s: string, lo: int, hi: int)
    requires 0 <= lo <= hi <= |s|
  {
    forall i :: lo <= i < hi ==> IsWhitespace(s[i])
  }

  /** `s` neither starts nor ends with whitespace: what `trim` leaves behind. */
  predicate IsTrimmed(s: string) {
    |s| > 0 ==> !IsWhitespace(s[0]) && !IsWhitespace(s[|s| - 1])
  }

  /** Drops the leading whitespace of `s`. */
  function TrimStart(s: string): (r: string)
    ensures |r| <= |s| && r == s[|s| - |r|..]
    ensures AllWhitespace(s, 0, |s| - |r|)
    ensures |r| > 0 ==> !IsWhitespace(r[0])
  {
    if |s| > 0 && IsWhitespace(s[0]) then TrimStart(s[1..]) else s
  }

  /** Drops the trailing whitespace of `s`. */
  function TrimEnd(s: string): (r: string)
    ensures |r| <= |s| && r == s[..|r|]
    ensures AllWhitespace(s, |r|, |s|)
    ensures |r| > 0 ==> !IsWhitespace(r[|r| - 1])
  {
    if |s| > 0 && IsWhitespace(s[|s| - 1]) then TrimEnd(s[..|s| - 1]) else s
  }

  /** `r` is the slice of `s` starting at `lo`, and only whitespace lies outside it. */
  predicate SliceWithin(s: string, lo: int, r: string) {
    && 0 <= lo <= lo + |r| <= |s|
    && r == s[lo..lo + |r|]
    && AllWhitespace(s, 0, lo)
    && AllWhitespace(s, lo + |r|, |s|)
  }

  /**
   * `String.prototype.trim`: the result is a slice of `s`, everything cut off
   * on either side is whitespace, and the result has no whitespace at its ends.
   */
  function Trim(s: string): (r: string)
    ensures IsTrimmed(r)
    ensures SliceWithin(s, |s| - |TrimStart(s)|, r)
  {
    TrimBothEnds(s);
    TrimEnd(TrimStart(s))
  }

  lemma TrimBothEnds(s: string)
    ensures IsTrimmed(TrimEnd(TrimStart(s)))
    ensures SliceWithin(s, |s| - |TrimStart(s)|, TrimEnd(TrimStart(s)))
  {
    var t := TrimStart(s);
    var r := TrimEnd(t);
    PrefixKeepsFirst(t, r);
    SliceOfSuffix(s, t, r);
  }

  /** A non-empty prefix of `t` starts with `t`'s first character. */
  lemma PrefixKeepsFirst(t: string, r: string)
    requires |r| <= |t| && r == t[..|r|]
    requires |t| > 0 ==> !IsWhitespace(t[0])
    requires |r| > 0 ==> !IsWhitespace(r[|r| - 1])
    ensures IsTrimmed(r)
  {
    if |r| > 0 {
      assert r[0] == t[0];
    }
  }

  /** A prefix `r` of a suffix `t` of `s` is a slice of `s`, and whitespace around it in `t` is whitespace in `s`. */
  lemma SliceOfSuffix(s: string, t: string, r: string)
    requires |t| <= |s| && t == s[|s| - |t|..]
    requires AllWhitespace(s, 0, |s| - |t|)
    requires |r| <= |t| && r == t[..|r|]
    requires AllWhitespace(t, |r|, |t|)
    ensures SliceWithin(s, |s| - |t|, r)
  {
    var lo := |s| - |t|;
    forall i | lo + |r| <= i < |s| ensures IsWhitespace(s[i]) {
      assert s[i] == t[i - lo];
    }
  }

  /** A string with no whitespace at either end is its own trim. */
  lemma TrimOfTrimmed(s: string)
    requires IsTrimmed(s)
    ensures Trim(s) == s
  {
    if |s| > 0 {
      assert TrimStart(s) == s;
      assert TrimEnd(s) == s;
    }
  }

  /** Trimming twice is trimming once. */
  lemma TrimIdempotent(s: string)
    ensures Trim(Trim(s)) == Trim(s)
  {
    TrimOfTrimmed(Trim(s));
  }

  /** The trim of a padded string is its core: whitespace around a trimmed, non-empty core is all `trim` removes. */
  lemma TrimPadded(a: string, core: string, b: string)
    requires AllWhitespace(a, 0, |a|) && AllWhitespace(b, 0, |b|)
    requires IsTrimmed(core) && |core| > 0
    ensures Trim(a + core + b) == core
  {
    TrimStartPadded(a, core + b);
    assert a + (core + b) == a + core + b;
    TrimEndPadded(core, b);
  }

  lemma {:induction false} TrimStartPadded(a: string, rest: string)
    requires AllWhitespace(a, 0, |a|)
    requires |rest| > 0 && !IsWhitespace(rest[0])
    ensures TrimStart(a + rest) == rest
  {
    if |a| > 0 {
      assert (a + rest)[1..] == a[1..] + rest;
      TrimStartPadded(a[1..], rest);
    } else {
      assert a + rest == rest;
    }
  }

  lemma {:induction false} TrimEndPadded(rest: string, b: string)
    requires AllWhitespace(b, 0, |b|)
    requires |rest| > 0 && !IsWhitespace(rest[|rest| - 1])
    ensures TrimEnd(rest + b) == rest
  {
    if |b| > 0 {
      assert (rest + b)[..|rest + b| - 1] == rest + b[..|b| - 1];
      TrimEndPadded(rest, b[..|b| - 1]);
    } else {
      assert rest + b == rest;
    }
  }

  /** Applies `trim` to an optional string (mongoose runs setters only on present values). */
  function TrimOpt(o: Option<string>): (r: Option<string>)
    ensures r.Some? <==> o.Some?
    ensures r.Some? ==> r.value == Trim(o.value)
  {
    match o
    case None => None
    case Some(s) => Some(Trim(s))
  }

  /** JavaScript truthiness of an optional string: present and not empty. */
  predicate Truthy(o: Option<string>) {
    o.Some? && o.value != ""
  }
}
