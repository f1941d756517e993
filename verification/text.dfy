/** The string primitives the app relies on: `toLowerCase`, `trim`, `includes`,
    the Turkish-letter folding of the search box, and decimal rendering. Letter
    case covers ASCII, Latin-1 and the Turkish letters; other scripts pass
    through unchanged. */
module Text {

  /** JavaScript's `trim` removes these: ASCII whitespace, line terminators and
      the space separators of Unicode. */
  predicate IsSpace(c: char) {
    || c == ' ' || c == '\t' || c == '\n' || c == '\r' || c == '\U{B}' || c == '\U{C}'
    || c == '\U{A0}' || c == '\U{1680}' || ('\U{2000}' <= c <= '\U{200A}')
    || c == '\U{2028}' || c == '\U{2029}' || c == '\U{202F}' || c == '\U{205F}'
    || c == '\U{3000}' || c == '\U{FEFF}'
  }

  function TrimStart(s: string): (r: string)
    ensures r == [] || !IsSpace(r[0])
    ensures exists k :: 0 <= k <= |s| && r == s[k..] && forall i :: 0 <= i < k ==> IsSpace(s[i])
    decreases |s|
  {
    if s != [] && IsSpace(s[0]) then
      var r := TrimStart(s[1..]);
      var k :| 0 <= k <= |s[1..]| && r == s[1..][k..] && forall i :: 0 <= i < k ==> IsSpace(s[1..][i]);
      assert r == s[k + 1..];
      r
    else
      assert s == s[0..];
      s
  }

  function TrimEnd(s: string): (r: string)
    ensures r == [] || !IsSpace(r[|r| - 1])
    ensures exists k :: 0 <= k <= |s| && r == s[..k] && forall i :: k <= i < |s| ==> IsSpace(s[i])
    decreases |s|
  {
    if s != [] && IsSpace(s[|s| - 1]) then
      var t := s[..|s| - 1];
      var r := TrimEnd(t);
      var k :| 0 <= k <= |t| && r == t[..k] && forall i :: k <= i < |t| ==> IsSpace(t[i]);
      assert r == s[..k];
      r
    else
      assert s == s[..|s|];
      s
  }

  /** `s.trim()`. */
  function Trim(s: string): string {
    TrimStart(TrimEnd(s))
  }

  /** A string trims to nothing exactly when every character is whitespace. */
  lemma TrimEmptyIffBlank(s: string)
    ensures Trim(s) == [] <==> forall i :: 0 <= i < |s| ==> IsSpace(s[i])
  {
    var e := TrimEnd(s);
    var k :| 0 <= k <= |s| && e == s[..k] && forall i :: k <= i < |s| ==> IsSpace(s[i]);
    var r := TrimStart(e);
    var m :| 0 <= m <= |e| && r == e[m..] && forall i :: 0 <= i < m ==> IsSpace(e[i]);
    if r == [] {
      assert m == |e|;
      assert e == [];
    } else {
      assert !IsSpace(r[0]);
      assert r[0] == s[m];
    }
  }

  /** Lower-case letter for one character; `İ` becomes `i` followed by a combining
      dot, as JavaScript renders it. */
  function LowerChar(c: char): (r: string)
    ensures |r| >= 1
  {
    if 'A' <= c <= 'Z' || ('\U{C0}' <= c <= '\U{DE}' && c != '\U{D7}') then
      [(c as int + 32) as char]
    else if c == '\U{11E}' || c == '\U{15E}' then
      [(c as int + 1) as char]
    else if c == '\U{130}' then
      ['i', '\U{307}']
    else
      [c]
  }

  /** `s.toLowerCase()`. */
  function Lower(s: string): string
    decreases |s|
  {
    if s == [] then [] else LowerChar(s[0]) + Lower(s[1..])
  }

  /** The six Turkish letters the search box folds, and their ASCII images. */
  function FoldChar(c: char): char {
    if c == '\U{131}' then 'i'
    else if c == '\U{FC}' then 'u'
    else if c == '\U{F6}' then 'o'
    else if c == '\U{15F}' then 's'
    else if c == '\U{E7}' then 'c'
    else if c == '\U{11F}' then 'g'
    else c
  }

  predicate IsFoldedTurkish(c: char) {
    c == '\U{131}' || c == '\U{FC}' || c == '\U{F6}' || c == '\U{15F}' || c == '\U{E7}' || c == '\U{11F}'
  }

  /** The six chained `replace(/x/g, y)` calls; each replacement is ASCII, so
      the chain acts character by character. */
  function Fold(s: string): (r: string)
    ensures |r| == |s|
    ensures forall i :: 0 <= i < |r| ==> !IsFoldedTurkish(r[i])
    ensures forall i :: 0 <= i < |s| && !IsFoldedTurkish(s[i]) ==> r[i] == s[i]
    decreases |s|
  {
    if s == [] then [] else [FoldChar(s[0])] + Fold(s[1..])
  }

  lemma {:induction false} LowerAppend(a: string, b: string)
    ensures Lower(a + b) == Lower(a) + Lower(b)
    decreases |a|
  {
    if a != [] {
      assert (a + b)[0] == a[0];
      assert (a + b)[1..] == a[1..] + b;
      LowerAppend(a[1..], b);
    } else {
      assert a + b == b;
    }
  }

  lemma {:induction false} FoldAppend(a: string, b: string)
    ensures Fold(a + b) == Fold(a) + Fold(b)
    decreases |a|
  {
    if a != [] {
      assert (a + b)[0] == a[0];
      assert (a + b)[1..] == a[1..] + b;
      FoldAppend(a[1..], b);
    } else {
      assert a + b == b;
    }
  }

  /** `needle` is a prefix of `hay`. */
  predicate IsPrefix(needle: string, hay: string) {
    |needle| <= |hay| && hay[..|needle|] == needle
  }

  /** `hay.includes(needle)`. */
  predicate Contains(hay: string, needle: string)
    decreases |hay|
  {
    IsPrefix(needle, hay) || (hay != [] && Contains(hay[1..], needle))
  }

  /** `includes` holds exactly when the needle sits inside the haystack. */
  lemma {:induction false} ContainsIffSplit(hay: string, needle: string)
    ensures Contains(hay, needle) <==> exists a, b :: hay == a + needle + b
    decreases |hay|
  {
    if Contains(hay, needle) {
      if IsPrefix(needle, hay) {
        assert hay == [] + needle + hay[|needle|..];
      } else {
        ContainsIffSplit(hay[1..], needle);
        var a, b :| hay[1..] == a + needle + b;
        assert hay == ([hay[0]] + a) + needle + b;
      }
    }
    if exists a, b :: hay == a + needle + b {
      var a, b :| hay == a + needle + b;
      if a == [] {
        assert hay[..|needle|] == needle;
      } else {
        assert hay[1..] == a[1..] + needle + b;
        ContainsIffSplit(hay[1..], needle);
      }
    }
  }

  /** The decimal digit for `d`. */
  function Digit(d: int): char
    requires 0 <= d < 10
  {
    "0123456789"[d]
  }

  predicate IsDigit(c: char) {
    '0' <= c <= '9'
  }

  /** `n.toString()` for a natural number. */
  function NatToString(n: nat): (r: string)
    ensures |r| >= 1
    ensures forall i :: 0 <= i < |r| ==> IsDigit(r[i])
    ensures n < 10 <==> |r| == 1
    decreases n
  {
    if n < 10 then [Digit(n)] else NatToString(n / 10) + [Digit(n % 10)]
  }

  /** `n.toString()` for any integer. */
  function IntToString(n: int): string {
    if n < 0 then "-" + NatToString(-n) else NatToString(n)
  }

  /** The value of a string of decimal digits. */
  function ParseNat(s: string): nat
    requires forall i :: 0 <= i < |s| ==> IsDigit(s[i])
    decreases |s|
  {
    if s == [] then 0
    else
      assert IsDigit(s[|s| - 1]);
      ParseNat(s[..|s| - 1]) * 10 + (s[|s| - 1] as int - '0' as int)
  }

  /** Reading back a rendered number gives the number. */
  lemma {:induction false} ParseNatToString(n: nat)
    ensures ParseNat(NatToString(n)) == n
    decreases n
  {
    if n >= 10 {
      var s := NatToString(n);
      assert s[..|s| - 1] == NatToString(n / 10);
      ParseNatToString(n / 10);
    }
  }

  /** Code-unit lexicographic order: `a` sorts no later than `b`. */
  predicate StrLe(a: string, b: string)
    decreases |a|
  {
    a == [] || (b != [] && (a[0] < b[0] || (a[0] == b[0] && StrLe(a[1..], b[1..]))))
  }

  lemma {:induction false} StrLeTotal(a: string, b: string)
    ensures StrLe(a, b) || StrLe(b, a)
    decreases |a|
  {
    if a != [] && b != [] && a[0] == b[0] {
      StrLeTotal(a[1..], b[1..]);
    }
  }

  lemma {:induction false} StrLeTrans(a: string, b: string, c: string)
    requires StrLe(a, b) && StrLe(b, c)
    ensures StrLe(a, c)
    decreases |a|
  {
    if a != [] && a[0] == b[0] && b[0] == c[0] {
      StrLeTrans(a[1..], b[1..], c[1..]);
    }
  }
}
