/** The JavaScript string operations the client code applies: `trim`, `toLowerCase`,
    `includes`, and the decimal rendering of a whole number inside a template string. */
module Text {

  /** The characters `String.prototype.trim` removes: ECMAScript WhiteSpace (tab, vertical tab,
      form feed, space, no-break space, byte order mark and the space separators) and
      LineTerminator (line feed, carriage return, line and paragraph separator). */
  predicate IsWhitespace(c: char)
  {
    c == '\t' || c == '\n' || c == '\U{B}' || c == '\U{C}' || c == '\r' || c == ' ' ||
    c == '\U{A0}' || c == '\U{1680}' || ('\U{2000}' <= c <= '\U{200A}') ||
    c == '\U{2028}' || c == '\U{2029}' || c == '\U{202F}' || c == '\U{205F}' ||
    c == '\U{3000}' || c == '\U{FEFF}'
  }

  /** `s` with its leading whitespace removed. */
  function TrimStart(s: string): (r: string)
    ensures |r| <= |s| && r == s[|s| - |r|..]
    ensures forall i :: 0 <= i < |s| - |r| ==> IsWhitespace(s[i])
    ensures r != [] ==> !IsWhitespace(r[0])
  {
    if s != [] && IsWhitespace(s[0]) then TrimStart(s[1..]) else s
  }

  /** `s` with its trailing whitespace removed. */
  function TrimEnd(s: string): (r: string)
    ensures |r| <= |s| && r == s[..|r|]
    ensures forall i :: |r| <= i < |s| ==> IsWhitespace(s[i])
    ensures r != [] ==> !IsWhitespace(r[|r| - 1])
  {
    if s != [] && IsWhitespace(s[|s| - 1]) then TrimEnd(s[..|s| - 1]) else s
  }

  /** `s.trim()`. */
  function Trim(s: string): string
  {
    TrimEnd(TrimStart(s))
  }

  /** The lower-case form `toLowerCase` gives a character: the Basic Latin and Latin-1 capital
      letters map to their small letters; every other character is kept. */
  function LowerChar(c: char): char
  {
    if 'A' <= c <= 'Z' || ('\U{C0}' <= c <= '\U{DE}' && c != '\U{D7}') then (c as int + 32) as char
    else c
  }

  /** `s.toLowerCase()`, character by character. */
  function Lower(s: string): string
  {
    seq(|s|, i requires 0 <= i < |s| => LowerChar(s[i]))
  }

  /** `hay.includes(needle)`. */
  predicate Contains(hay: string, needle: string)
    decreases |hay|
  {
    |needle| <= |hay| && (hay[..|needle|] == needle || (hay != [] && Contains(hay[1..], needle)))
  }

  /** The digit character for `d`. */
  function DigitChar(d: nat): char
    requires d < 10
  {
    ('0' as int + d) as char
  }

  predicate IsDigits(s: string)
  {
    forall i :: 0 <= i < |s| ==> '0' <= s[i] <= '9'
  }

  /** `${n}` for a whole number `n`: its decimal digits. */
  function NatToString(n: nat): string
  {
    if n < 10 then [DigitChar(n)] else NatToString(n / 10) + [DigitChar(n % 10)]
  }

  /** The number a string of decimal digits denotes. */
  function ParseDigits(s: string): nat
    requires IsDigits(s)
  {
    if s == [] then 0 else ParseDigits(s[..|s| - 1]) * 10 + (s[|s| - 1] as int - '0' as int)
  }

  // ---------------------------------------------------------------------------------------
  // Lemmas

  /** Where `trim()` starts cutting: the number of leading whitespace characters. */
  function TrimOffset(s: string): nat
  {
    |s| - |TrimStart(s)|
  }

  /** What `trim()` returns: the slice of `s` that starts and ends with a non-whitespace
      character, everything cut off on either side being whitespace. */
  lemma TrimSpec(s: string)
    ensures TrimOffset(s) + |Trim(s)| <= |s|
    ensures Trim(s) == s[TrimOffset(s)..TrimOffset(s) + |Trim(s)|]
    ensures forall k :: 0 <= k < TrimOffset(s) ==> IsWhitespace(s[k])
    ensures forall k :: TrimOffset(s) + |Trim(s)| <= k < |s| ==> IsWhitespace(s[k])
    ensures Trim(s) != [] ==> !IsWhitespace(Trim(s)[0]) && !IsWhitespace(Trim(s)[|Trim(s)| - 1])
  {
    var t := TrimStart(s);
    var r := TrimEnd(t);
    SliceOfSuffix(s, t, r, |s| - |t|);
  }

  /** A prefix `r` of the suffix `t == s[i..]` is the slice `s[i..i + |r|]`, and what `t` has
      beyond `r` is what `s` has beyond it. */
  lemma SliceOfSuffix(s: string, t: string, r: string, i: nat)
    requires i <= |s| && t == s[i..]
    requires |r| <= |t| && r == t[..|r|]
    requires forall k :: |r| <= k < |t| ==> IsWhitespace(t[k])
    ensures r == s[i..i + |r|]
    ensures forall k :: i + |r| <= k < |s| ==> IsWhitespace(s[k])
    ensures r != [] ==> r[0] == t[0]
  {
    forall k | i + |r| <= k < |s| ensures IsWhitespace(s[k]) {
      assert s[k] == t[k - i];
    }
  }

  /** Trimming an already trimmed string changes nothing. */
  lemma TrimIdempotent(s: string)
    ensures Trim(Trim(s)) == Trim(s)
  {
    var r := Trim(s);
    TrimSpec(s);
    assert TrimStart(r) == r;
    assert TrimEnd(r) == r;
  }

  /** A string is blank after `trim()` exactly when every character of it is whitespace. */
  lemma TrimBlank(s: string)
    ensures Trim(s) == [] <==> forall i :: 0 <= i < |s| ==> IsWhitespace(s[i])
  {
    TrimSpec(s);
    var r, i := Trim(s), TrimOffset(s);
    if r != [] {
      assert s[i] == r[0];
    }
  }

  lemma LowerIdempotent(s: string)
    ensures Lower(Lower(s)) == Lower(s)
  {
  }

  lemma LowerCharKeepsWhitespace(c: char)
    ensures IsWhitespace(LowerChar(c)) == IsWhitespace(c)
  {
  }

  lemma {:induction false} LowerCommutesWithTrimStart(s: string)
    ensures TrimStart(Lower(s)) == Lower(TrimStart(s))
  {
    if s != [] {
      LowerCharKeepsWhitespace(s[0]);
      assert Lower(s)[0] == LowerChar(s[0]);
      assert Lower(s)[1..] == Lower(s[1..]);
      if IsWhitespace(s[0]) {
        LowerCommutesWithTrimStart(s[1..]);
        assert TrimStart(s) == TrimStart(s[1..]);
        assert TrimStart(Lower(s)) == TrimStart(Lower(s)[1..]);
      } else {
        assert TrimStart(s) == s;
        assert TrimStart(Lower(s)) == Lower(s);
      }
    }
  }

  lemma {:induction false} LowerCommutesWithTrimEnd(s: string)
    ensures TrimEnd(Lower(s)) == Lower(TrimEnd(s))
  {
    if s != [] {
      LowerCharKeepsWhitespace(s[|s| - 1]);
      assert Lower(s)[..|s| - 1] == Lower(s[..|s| - 1]);
      LowerCommutesWithTrimEnd(s[..|s| - 1]);
    }
  }

  /** Lower-casing neither creates nor removes whitespace, so it commutes with `trim()`. */
  lemma LowerCommutesWithTrim(s: string)
    ensures Trim(Lower(s)) == Lower(Trim(s))
  {
    LowerCommutesWithTrimStart(s);
    LowerCommutesWithTrimEnd(TrimStart(s));
  }

  /** When `s[..i]` is whitespace and `s[i]` is not (or `i == |s|`), `TrimStart` cuts `s[..i]`. */
  lemma {:induction false} TrimStartFrom(s: string, i: nat)
    requires i <= |s|
    requires forall k :: 0 <= k < i ==> IsWhitespace(s[k])
    requires i < |s| ==> !IsWhitespace(s[i])
    ensures TrimStart(s) == s[i..]
  {
    if i > 0 {
      TrimStartFrom(s[1..], i - 1);
      assert s[1..][i - 1..] == s[i..];
    }
  }

  /** When `s[m..]` is whitespace and `s[m - 1]` is not (or `m == 0`), `TrimEnd` cuts `s[m..]`. */
  lemma {:induction false} TrimEndTo(s: string, m: nat)
    requires m <= |s|
    requires forall k :: m <= k < |s| ==> IsWhitespace(s[k])
    requires m > 0 ==> !IsWhitespace(s[m - 1])
    ensures TrimEnd(s) == s[..m]
    decreases |s|
  {
    if m < |s| {
      TrimEndTo(s[..|s| - 1], m);
      assert s[..|s| - 1][..m] == s[..m];
    }
  }

  /** `hay.includes(needle)` holds exactly when `needle` occurs at some offset of `hay`. */
  lemma {:induction false} ContainsAt(hay: string, needle: string)
    ensures Contains(hay, needle) <==>
      exists i :: 0 <= i <= |hay| - |needle| && hay[i..][..|needle|] == needle
    decreases |hay|
  {
    if |needle| <= |hay| {
      if hay[..|needle|] == needle {
        assert hay[0..][..|needle|] == needle;
      } else if hay != [] {
        ContainsAt(hay[1..], needle);
        if Contains(hay[1..], needle) {
          var i :| 0 <= i <= |hay| - 1 - |needle| && hay[1..][i..][..|needle|] == needle;
          assert hay[i + 1..] == hay[1..][i..];
        } else {
          forall i | 0 <= i <= |hay| - |needle|
            ensures hay[i..][..|needle|] != needle
          {
            if i > 0 { assert hay[i..] == hay[1..][i - 1..]; }
          }
        }
      }
    }
  }

  /** Every string contains the empty string, so a blank search term matches everything. */
  lemma ContainsEmpty(hay: string)
    ensures Contains(hay, [])
  {
  }

  lemma {:induction false} NatToStringDigits(n: nat)
    ensures IsDigits(NatToString(n)) && |NatToString(n)| > 0
    ensures |NatToString(n)| > 1 ==> NatToString(n)[0] != '0'
    ensures ParseDigits(NatToString(n)) == n
    decreases n
  {
    if n >= 10 {
      NatToStringDigits(n / 10);
      var p := NatToString(n / 10);
      var s := NatToString(n);
      assert s == p + [DigitChar(n % 10)];
      assert s[..|s| - 1] == p;
      if |p| == 1 { assert p[0] != '0'; }
      assert s[0] == p[0];
    }
  }

  /** Distinct numbers render as distinct strings. */
  lemma NatToStringInjective(m: nat, n: nat)
    requires NatToString(m) == NatToString(n)
    ensures m == n
  {
    NatToStringDigits(m);
    NatToStringDigits(n);
  }
}
