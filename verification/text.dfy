/**
 * The few Rust standard-library string operations the authentication code
 * relies on: `str::trim`, `String::len` (a UTF-8 byte count),
 * `eq_ignore_ascii_case`, `starts_with`, and the `http` crate's
 * `HeaderValue::to_str`.
 */
module Text {
  import opened Common

  /** The Unicode White_Space property, which `char::is_whitespace` and `str::trim` use. */
  predicate IsWhitespace(c: char) {
    || ('\t' <= c <= '\r')
    || c == ' '
    || c == '\U{85}'
    || c == '\U{A0}'
    || c == '\U{1680}'
    || ('\U{2000}' <= c <= '\U{200A}')
    || c == '\U{2028}'
    || c == '\U{2029}'
    || c == '\U{202F}'
    || c == '\U{205F}'
    || c == '\U{3000}'
  }

  ghost predicate AllWhitespace(s: string) {
    forall i :: 0 <= i < |s| ==> IsWhitespace(s[i])
  }

  /** `str::trim_start`: drops leading whitespace. */
  function TrimStart(s: string): string {
    if s != [] && IsWhitespace(s[0]) then TrimStart(s[1..]) else s
  }

  /** `str::trim_end`: drops trailing whitespace. */
  function TrimEnd(s: string): string {
    if s != [] && IsWhitespace(s[|s| - 1]) then TrimEnd(s[..|s| - 1]) else s
  }

  /** `str::trim`: no longer than its input, and neither starts nor ends with whitespace. */
  function Trim(s: string): (t: string)
    ensures |t| <= |s|
    ensures t != [] ==> !IsWhitespace(t[0]) && !IsWhitespace(t[|t| - 1])
  {
    var u := TrimStart(s);
    TrimStartShape(s);
    TrimEndShape(u);
    TrimEnd(u)
  }

  lemma {:induction false} TrimStartShape(s: string)
    ensures |TrimStart(s)| <= |s|
    ensures TrimStart(s) == s[|s| - |TrimStart(s)|..]
    ensures AllWhitespace(s[..|s| - |TrimStart(s)|])
    ensures TrimStart(s) != [] ==> !IsWhitespace(TrimStart(s)[0])
  {
    if s != [] && IsWhitespace(s[0]) {
      TrimStartShape(s[1..]);
      var k := |s| - |TrimStart(s[1..])|;
      forall i | 0 <= i < k ensures IsWhitespace(s[..k][i]) {
        if i > 0 {
          assert s[..k][i] == s[1..][..k - 1][i - 1];
        }
      }
    }
  }

  lemma {:induction false} TrimEndShape(s: string)
    ensures |TrimEnd(s)| <= |s|
    ensures TrimEnd(s) == s[..|TrimEnd(s)|]
    ensures AllWhitespace(s[|TrimEnd(s)|..])
    ensures TrimEnd(s) != [] ==> !IsWhitespace(TrimEnd(s)[|TrimEnd(s)| - 1])
  {
    if s != [] && IsWhitespace(s[|s| - 1]) {
      var u := s[..|s| - 1];
      TrimEndShape(u);
      var k := |TrimEnd(u)|;
      forall i | 0 <= i < |s| - k ensures IsWhitespace(s[k..][i]) {
        if k + i < |s| - 1 {
          assert s[k..][i] == u[k..][i];
        }
      }
    }
  }

  /**
   * `Trim(s)` is the infix of `s` left after removing a whitespace prefix
   * and a whitespace suffix, and it neither starts nor ends with whitespace.
   */
  lemma TrimShape(s: string)
    ensures |TrimStart(s)| <= |s|
    ensures var t, lead := Trim(s), |s| - |TrimStart(s)|;
      && lead + |t| <= |s|
      && t == s[lead..lead + |t|]
      && AllWhitespace(s[..lead])
      && AllWhitespace(s[lead + |t|..])
      && (t != [] ==> !IsWhitespace(t[0]) && !IsWhitespace(t[|t| - 1]))
  {
    var u := TrimStart(s);
    TrimStartShape(s);
    TrimEndShape(u);
    var t, lead := TrimEnd(u), |s| - |u|;
    assert Trim(s) == t;
    assert t == u[..|t|];
    assert s[lead + |t|..] == u[|t|..];
  }

  lemma {:induction false} TrimStartSkipsWhitespace(p: string, x: string)
    requires AllWhitespace(p)
    ensures TrimStart(p + x) == TrimStart(x)
  {
    if p != [] {
      assert (p + x)[1..] == p[1..] + x;
      TrimStartSkipsWhitespace(p[1..], x);
    } else {
      assert p + x == x;
    }
  }

  lemma {:induction false} TrimEndSkipsWhitespace(x: string, q: string)
    requires AllWhitespace(q)
    ensures TrimEnd(x + q) == TrimEnd(x)
  {
    if q != [] {
      assert (x + q)[..|x + q| - 1] == x + q[..|q| - 1];
      TrimEndSkipsWhitespace(x, q[..|q| - 1]);
    } else {
      assert x + q == x;
    }
  }

  /**
   * The reference characterisation of `trim`: whenever `s` splits into a
   * whitespace prefix, an infix that neither starts nor ends with
   * whitespace, and a whitespace suffix, `Trim(s)` is that infix.
   */
  lemma TrimOfPadded(p: string, t: string, q: string)
    requires AllWhitespace(p) && AllWhitespace(q)
    requires t != [] ==> !IsWhitespace(t[0]) && !IsWhitespace(t[|t| - 1])
    ensures Trim(p + t + q) == t
  {
    assert p + t + q == p + (t + q);
    TrimStartSkipsWhitespace(p, t + q);
    if t == [] {
      assert t + q == q + [];
      TrimStartSkipsWhitespace(q, []);
    } else {
      assert (t + q)[0] == t[0];
      TrimEndSkipsWhitespace(t, q);
    }
  }

  lemma AllWhitespaceConcat(a: string, b: string)
    requires AllWhitespace(a) && AllWhitespace(b)
    ensures AllWhitespace(a + b)
  {
    forall i | 0 <= i < |a + b| ensures IsWhitespace((a + b)[i]) {
      if i >= |a| {
        assert (a + b)[i] == b[i - |a|];
      }
    }
  }

  /** Surrounding whitespace never changes the result of `trim`. */
  lemma TrimIgnoresPadding(p: string, s: string, q: string)
    requires AllWhitespace(p) && AllWhitespace(q)
    ensures Trim(p + s + q) == Trim(s)
  {
    TrimShape(s);
    var t, lead := Trim(s), |s| - |TrimStart(s)|;
    var a, b := s[..lead], s[lead + |t|..];
    assert s == a + t + b by {
      assert s == s[..lead] + s[lead..lead + |t|] + s[lead + |t|..];
    }
    assert p + s + q == (p + a) + t + (b + q);
    AllWhitespaceConcat(p, a);
    AllWhitespaceConcat(b, q);
    TrimOfPadded(p + a, t, b + q);
  }

  /** Bytes in the UTF-8 encoding of one scalar value. */
  function Utf8Width(c: char): nat {
    if c as int < 0x80 then 1
    else if c as int < 0x800 then 2
    else if c as int < 0x1_0000 then 3
    else 4
  }

  /** `String::len`: the number of bytes of the UTF-8 encoding, between one and four per character. */
  function Utf8Len(s: string): (n: nat)
    ensures |s| <= n <= 4 * |s|
  {
    if s == [] then 0 else Utf8Width(s[0]) + Utf8Len(s[1..])
  }

  /** On ASCII text the byte length and the character count agree. */
  lemma {:induction false} Utf8LenOfAscii(s: string)
    requires forall i :: 0 <= i < |s| ==> s[i] as int < 0x80
    ensures Utf8Len(s) == |s|
  {
    if s != [] {
      Utf8LenOfAscii(s[1..]);
    }
  }

  function AsciiLower(c: char): char {
    if 'A' <= c <= 'Z' then (c as int + 32) as char else c
  }

  /** `str::eq_ignore_ascii_case`. */
  predicate EqIgnoreAsciiCase(a: string, b: string) {
    |a| == |b| && forall i :: 0 <= i < |a| ==> AsciiLower(a[i]) == AsciiLower(b[i])
  }

  /** `str::to_ascii_lowercase`. */
  function AsciiLowerText(s: string): (r: string)
    ensures |r| == |s| && forall i :: 0 <= i < |s| ==> r[i] == AsciiLower(s[i])
  {
    seq(|s|, i requires 0 <= i < |s| => AsciiLower(s[i]))
  }

  /** Two texts are equal ignoring ASCII case exactly when their ASCII lower-case forms are equal. */
  lemma EqIgnoreAsciiCaseLowers(a: string, b: string)
    ensures EqIgnoreAsciiCase(a, b) <==> AsciiLowerText(a) == AsciiLowerText(b)
  {
    if AsciiLowerText(a) == AsciiLowerText(b) {
      forall i | 0 <= i < |a| ensures AsciiLower(a[i]) == AsciiLower(b[i]) {
        assert AsciiLowerText(a)[i] == AsciiLowerText(b)[i];
      }
    }
  }

  /** `str::starts_with` for a string prefix. */
  predicate StartsWith(s: string, prefix: string) {
    |prefix| <= |s| && s[..|prefix|] == prefix
  }

  /** The octets `HeaderValue::to_str` accepts: visible ASCII and horizontal tab. */
  predicate IsVisibleAscii(b: byte) {
    (32 <= b < 127) || b == 9
  }

  /** `HeaderValue::to_str`: the value as text when every octet is visible ASCII, an error otherwise. */
  function HeaderToStr(v: seq<byte>): (r: Option<string>)
    ensures r.Some? <==> forall i :: 0 <= i < |v| ==> IsVisibleAscii(v[i])
    ensures r.Some? ==> |r.value| == |v| && forall i :: 0 <= i < |v| ==> r.value[i] as int == v[i] as int
  {
    if forall i :: 0 <= i < |v| ==> IsVisibleAscii(v[i]) then
      Some(seq(|v|, i requires 0 <= i < |v| => (v[i] as int) as char))
    else
      None
  }
}
