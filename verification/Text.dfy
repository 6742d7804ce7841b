/** Python's text primitives, as far as the configuration and report code uses them. */
module Text {

  /** `str.isspace` for one character */
  predicate IsSpace(c: char) {
    || '\t' <= c <= '\r' || '\U{1c}' <= c <= ' ' || c == '\U{85}' || c == '\U{a0}' || c == '\U{1680}'
    || '\U{2000}' <= c <= '\U{200a}' || c == '\U{2028}' || c == '\U{2029}' || c == '\U{202f}' || c == '\U{205f}'
        || c == '\U{3000}'
  }

  /** The code points of these characters. */
  lemma IsSpaceIff(c: char)
    ensures IsSpace(c) <==>
            c as int in {9, 10, 11, 12, 13, 28, 29, 30, 31, 32, 133, 160, 5760, 8192, 8193, 8194, 8195, 8196, 8197,
                         8198, 8199, 8200, 8201, 8202, 8232, 8233, 8239, 8287, 12288}
  {
  }

  function LStrip(s: string): string {
    if s != "" && IsSpace(s[0]) then LStrip(s[1..]) else s
  }

  function RStrip(s: string): string {
    if s != "" && IsSpace(s[|s| - 1]) then RStrip(s[..|s| - 1]) else s
  }

  /** `str.strip()` */
  function Strip(s: string): string { RStrip(LStrip(s)) }

  predicate Trimmed(s: string) { s == "" || (!IsSpace(s[0]) && !IsSpace(s[|s| - 1])) }

  lemma {:induction false} LStripShape(s: string)
    ensures LStrip(s) == "" || !IsSpace(LStrip(s)[0])
    ensures |LStrip(s)| <= |s| && LStrip(s) == s[|s| - |LStrip(s)|..]
  {
    if s != "" && IsSpace(s[0]) { LStripShape(s[1..]); }
  }

  lemma {:induction false} RStripShape(s: string)
    ensures RStrip(s) <= s
    ensures RStrip(s) == "" || !IsSpace(RStrip(s)[|RStrip(s)| - 1])
  {
    if s != "" && IsSpace(s[|s| - 1]) { RStripShape(s[..|s| - 1]); }
  }

  /** Stripping always yields trimmed text, and leaves trimmed text alone. */
  lemma StripTrims(s: string)
    ensures Trimmed(Strip(s))
    ensures Trimmed(s) ==> Strip(s) == s
  {
    LStripShape(s);
    RStripShape(LStrip(s));
  }

  predicate Blank(s: string) { forall i :: 0 <= i < |s| ==> IsSpace(s[i]) }

  /** Is `core` the text `s` without the space around it? */
  ghost predicate IsStripOf(core: string, s: string) {
    Trimmed(core) && exists i, j ::
      0 <= i <= j <= |s| && core == s[i..j] && Blank(s[..i]) && Blank(s[j..])
  }

  /** Stripping removes space at both ends and nothing else. */
  lemma StripKeeps(s: string)
    ensures IsStripOf(Strip(s), s)
  {
    StripTrims(s);
    LStripBlank(s);
    RStripBlank(LStrip(s));
    LStripShape(s);
    RStripShape(LStrip(s));
    StripPieces(s, LStrip(s), Strip(s));
  }

  lemma StripPieces(s: string, tail: string, core: string)
    requires |tail| <= |s| && tail == s[|s| - |tail|..] && Blank(s[..|s| - |tail|])
    requires core <= tail && Blank(tail[|core|..]) && Trimmed(core)
    ensures IsStripOf(core, s)
  {
    var i := |s| - |tail|;
    var j := i + |core|;
    assert s[i..j] == tail[..|core|] && s[j..] == tail[|core|..];
  }

  lemma {:induction false} LStripBlank(s: string)
    ensures |LStrip(s)| <= |s| && Blank(s[..|s| - |LStrip(s)|])
  {
    if s != "" && IsSpace(s[0]) {
      LStripBlank(s[1..]);
      var n := |s| - |LStrip(s)|;
      assert s[..n] == [s[0]] + s[1..][..n - 1];
    }
  }

  lemma {:induction false} RStripBlank(s: string)
    ensures |RStrip(s)| <= |s| && Blank(s[|RStrip(s)|..])
  {
    if s != "" && IsSpace(s[|s| - 1]) {
      RStripBlank(s[..|s| - 1]);
      assert s[|RStrip(s)|..] == s[..|s| - 1][|RStrip(s)|..] + [s[|s| - 1]];
    }
  }

  /** There is only one such text. */
  lemma StripUnique(s: string, core: string)
    requires IsStripOf(core, s)
    ensures core == Strip(s)
  {
    StripKeeps(s);
    CoreUnique(s, core, Strip(s));
  }

  lemma CoreUnique(s: string, a: string, b: string)
    requires IsStripOf(a, s) && IsStripOf(b, s)
    ensures a == b
  {
    var i, j :| 0 <= i <= j <= |s| && a == s[i..j] && Blank(s[..i]) && Blank(s[j..]);
    var k, l :| 0 <= k <= l <= |s| && b == s[k..l] && Blank(s[..k]) && Blank(s[l..]);
    CoreWithin(s, i, j, k, l);
    CoreWithin(s, k, l, i, j);
    if i < j || k < l { assert i == k && j == l; } else { assert a == [] && b == []; }
  }

  /** A trimmed stretch lies within every other one that leaves only space outside. */
  lemma CoreWithin(s: string, i: int, j: int, k: int, l: int)
    requires 0 <= i <= j <= |s| && 0 <= k <= l <= |s| && Trimmed(s[i..j]) && Blank(s[..k]) && Blank(s[l..])
    ensures i < j ==> k <= i && j <= l
  {
    if i < j {
      assert s[i] == s[i..j][0] && s[j - 1] == s[i..j][j - i - 1];
      forall q | 0 <= q < k ensures IsSpace(s[q]) { assert s[..k][q] == s[q]; }
      forall q | l <= q < |s| ensures IsSpace(s[q]) { assert s[l..][q - l] == s[q]; }
    }
  }

  function LowerChar(c: char): char { if 'A' <= c <= 'Z' then c - 'A' + 'a' else c }

  /** `str.lower()` on the ASCII letters */
  function Lower(s: string): (r: string)
    ensures |r| == |s| && forall i :: 0 <= i < |s| ==> r[i] == LowerChar(s[i])
  {
    seq(|s|, i requires 0 <= i < |s| => LowerChar(s[i]))
  }

  /** A capital letter moves up by 32 code points; every other character stays. */
  lemma LowerTells(s: string, i: nat)
    requires i < |s|
    ensures |Lower(s)| == |s|
    ensures 65 <= s[i] as int <= 90 ==> Lower(s)[i] as int == s[i] as int + 32
    ensures !(65 <= s[i] as int <= 90) ==> Lower(s)[i] == s[i]
  {
  }

  lemma LowerLower(s: string)
    ensures Lower(Lower(s)) == Lower(s)
  {
  }

  lemma LowerTrimmed(s: string)
    requires Trimmed(s)
    ensures Trimmed(Lower(s))
  {
  }

  predicate IsDigit(c: char) { '0' <= c <= '9' }

  // ------------------------------------------------------ decimal numerals --

  function Digit(n: nat): char
    requires n < 10
  {
    '0' + n as char
  }

  /** `"%d" % n` */
  function Decimal(n: nat): (s: string)
    ensures s != ""
  {
    if n < 10 then [Digit(n)] else Decimal(n / 10) + [Digit(n % 10)]
  }

  /** The number a digit string denotes. */
  function Value(s: string): int {
    if s == "" then 0 else 10 * Value(s[..|s| - 1]) + (s[|s| - 1] as int - '0' as int)
  }

  lemma {:induction false} ValueDecimal(n: nat)
    ensures Value(Decimal(n)) == n
    ensures forall c :: c in Decimal(n) ==> IsDigit(c)
  {
    if n < 10 {
      assert Decimal(n)[..0] == "";
    } else {
      ValueDecimal(n / 10);
      assert Decimal(n)[..|Decimal(n)| - 1] == Decimal(n / 10);
    }
  }

  /** Printing numbers is injective. */
  lemma DecimalInjective(m: nat, n: nat)
    requires Decimal(m) == Decimal(n)
    ensures m == n
  {
    ValueDecimal(m);
    ValueDecimal(n);
  }
}
