/**
 What a loaded configuration means: a relation between supplied values and the values
 they load as, and what it says of every key of every load. Nothing here is stated through
 the loader's own normalisation.
 */
module LoadMeaning {
  import opened Prelude
  import opened Text
  import opened Config

  // --------------------------------------------------------------- one value --

  /** Digits, with at most one underscore between two of them. */
  predicate Underscored(s: string) {
    var n := |s| - 1;
    && n >= 0 && IsDigit(s[n])
    && (n == 0 || Underscored(s[..n]) || (n >= 2 && s[n - 1] == '_' && Underscored(s[..n - 1])))
  }

  /** The number its digits denote. */
  function NumberOf(s: string): int {
    if s == "" then 0
    else
      var n := |s| - 1;
      if s[n] == '_' then NumberOf(s[..n]) else 10 * NumberOf(s[..n]) + (s[n] as int - 48)
  }

  /** An unsigned numeral of at most 4300 digits. */
  predicate Unsigned(s: string, n: int) {
    Underscored(s) && |Ungrouped(s)| <= 4300 && n == NumberOf(s)
  }

  /** Is this text a decimal numeral of `n`, with or without a sign? */
  predicate Numeral(core: string, n: int) {
    || Unsigned(core, n)
    || (core != "" && core[0] == '+' && Unsigned(core[1..], n))
    || (core != "" && core[0] == '-' && Unsigned(core[1..], -n))
  }

  /** The values that stand for the number `n`. */
  ghost predicate Denotes(v: Json, n: int) {
    match v
    case Int(i) => i == n
    case Float(x) => x == Some(n as real)
    case Str(s) => exists core :: IsStripOf(core, s) && Numeral(core, n)
    case _ => false
  }

  /** Space around it and capital letters aside, is the text this word? */
  predicate Spells(s: string, word: string) { Lower(Strip(s)) == word }

  predicate SaysYes(v: Json) {
    match v
    case Bool(b) => b
    case Int(i) => i == 1
    case Str(s) => Spells(s, "true") || Spells(s, "yes") || Spells(s, "on") || Spells(s, "1")
    case _ => false
  }

  predicate SaysNo(v: Json) {
    match v
    case Bool(b) => !b
    case Int(i) => i == 0
    case Str(s) => Spells(s, "false") || Spells(s, "no") || Spells(s, "off") || Spells(s, "0")
    case _ => false
  }

  predicate Size(s: string, width: nat, height: nat) {
    10 <= width <= 99999 && 10 <= height <= 99999 && s == Decimal(width) + "x" + Decimal(height)
  }

  /** A full screen, all monitors, a window, or a size in pixels. */
  ghost predicate NamesDisplay(s: string) {
    s == "fullscreen" || s == "multimon" || s == "window" || exists width, height :: Size(s, width, height)
  }

  /** Are these the items that hold text, in their order and stripped? Read from the end. */
  ghost predicate WordsFrom(items: seq<Json>, words: seq<Json>)
    decreases |items|
  {
    if items == [] then words == []
    else
      var n, last := |items| - 1, items[|items| - 1];
      if last.Str? && !Blank(last.s) then
        && words != [] && words[|words| - 1].Str? && IsStripOf(words[|words| - 1].s, last.s)
        && WordsFrom(items[..n], words[..|words| - 1])
      else WordsFrom(items[..n], words)
  }

  /** The number nearest to `n` in a range. */
  predicate Clamped(lo: int, hi: int, n: int, r: int) {
    && (lo <= n <= hi ==> r == n)
    && (n < lo <= hi ==> r == lo)
    && (lo <= hi < n ==> r == hi)
    && (hi < lo ==> r == hi)
  }

  /** A value supplied for a setting of this kind loads as `r`. */
  ghost predicate Means(k: Kind, v: Json, r: Json) {
    match k
    case Text(strip) => v.Str? && r.Str? && (if strip then IsStripOf(r.s, v.s) else r.s == v.s)
    case Flag => r.Bool? && (if r.b then SaysYes(v) else SaysNo(v))
    case Range(lo, hi) => r.Int? && exists n :: Denotes(v, n) && Clamped(lo, hi, n, r.i)
    case Choice(choices) => v.Str? && r.Str? && r.s in choices && Spells(v.s, r.s)
    case Display => v.Str? && r.Str? && NamesDisplay(r.s) && Spells(v.s, r.s)
    case Words => v.Arr? && r.Arr? && WordsFrom(v.items, r.items)
  }

  // ---------------------------------------------------------------- numerals --

  function Power(n: nat): int { if n == 0 then 1 else 10 * Power(n - 1) }

  lemma {:induction false} ValueBelow(s: string, n: nat)
    requires forall i :: 0 <= i < |s| ==> IsDigit(s[i])
    ensures 0 <= Value(s) && (|s| <= n ==> Value(s) < Power(n))
    decreases |s|
  {
    if s != "" {
      ValueBelow(s[..|s| - 1], if n > 0 then n - 1 else 0);
    } else {
      PowerPositive(n);
    }
  }

  lemma {:induction false} PowerPositive(n: nat)
    ensures Power(n) >= 1
  {
    if n > 0 { PowerPositive(n - 1); }
  }

  /** Digit strings without a leading zero are what their value prints as. */
  lemma {:induction false} DecimalOfValue(s: string)
    requires Digits(s) && s[0] != '0'
    ensures Value(s) > 0 && Decimal(Value(s)) == s
  {
    var init, d := s[..|s| - 1], s[|s| - 1];
    var v := Value(init);
    assert Value(s) == 10 * v + (d as int - '0' as int);
    if init == "" {
      assert s == [d];
    } else {
      DecimalOfValue(init);
      assert Value(s) / 10 == v && Value(s) % 10 == d as int - '0' as int;
      assert Decimal(Value(s)) == Decimal(v) + [d];
      assert s == init + [d];
    }
  }

  /** Printed numbers have as many digits as their size asks for, and no leading zero. */
  lemma {:induction false} DecimalShape(n: nat)
    ensures Digits(Decimal(n)) && Decimal(n) != ""
    ensures n > 0 ==> Decimal(n)[0] != '0'
    ensures n >= 10 ==> |Decimal(n)| >= 2
  {
    ValueDecimal(n);
    if n >= 10 { DecimalShape(n / 10); }
  }

  lemma {:induction false} DecimalLength(n: nat, digits: nat)
    requires digits > 0 && n < Power(digits)
    ensures |Decimal(n)| <= digits
    decreases digits
  {
    if n >= 10 {
      assert Power(1) == 10 * Power(0);
      assert digits > 1;
      DecimalLength(n / 10, digits - 1);
    }
  }

  lemma FiveDigits()
    ensures Power(5) == 100000
  {
    assert Power(3) == 10 * Power(2);
    assert Power(1) == 10;
  }

  lemma DecimalExtent(n: nat, s: string)
    requires 10 <= n <= 99999 && s == Decimal(n)
    ensures Extent(s)
  {
    FiveDigits();
    DecimalShape(n);
    DecimalLength(n, 5);
  }

  /** A width or height is a number from 10 to 99999 without leading zeros. */
  lemma ExtentIff(s: string)
    ensures Extent(s) <==> exists n: nat :: 10 <= n <= 99999 && s == Decimal(n)
  {
    FiveDigits();
    if Extent(s) {
      DecimalOfValue(s);
      ValueBelow(s, 5);
      var n: nat := Value(s);
      assert n < 10 ==> |Decimal(n)| == 1;
      assert 10 <= n <= 99999 && s == Decimal(n);
    }
    if n: nat :| 10 <= n <= 99999 && s == Decimal(n) { DecimalExtent(n, s); }
  }

  lemma SizeSplits(s: string, k: int)
    requires 0 <= k < |s| && s[k] == 'x' && Extent(s[..k]) && Extent(s[k + 1..])
    ensures exists width, height :: Size(s, width, height)
  {
    ExtentIff(s[..k]);
    ExtentIff(s[k + 1..]);
    var width: nat :| 10 <= width <= 99999 && s[..k] == Decimal(width);
    var height: nat :| 10 <= height <= 99999 && s[k + 1..] == Decimal(height);
    assert s == s[..k] + [s[k]] + s[k + 1..];
    assert Size(s, width, height);
  }

  lemma SizeJoins(s: string, before: string, after: string)
    requires s == before + "x" + after && Extent(before) && Extent(after)
    ensures IsSize(s)
  {
    var k := |before|;
    assert s[..k] == before && s[k + 1..] == after && s[k] == 'x';
  }

  lemma SizeIff(s: string)
    ensures IsSize(s) <==> exists width, height :: Size(s, width, height)
  {
    if IsSize(s) {
      var k :| 0 <= k < |s| && s[k] == 'x' && Extent(s[..k]) && Extent(s[k + 1..]);
      SizeSplits(s, k);
    }
    if width: nat, height: nat :| Size(s, width, height) {
      var before, after := Decimal(width), Decimal(height);
      DecimalExtent(width, before);
      DecimalExtent(height, after);
      SizeJoins(s, before, after);
    }
  }

  lemma {:induction false} UngroupedDigits(s: string)
    requires forall i :: 0 <= i < |s| ==> IsDigit(s[i])
    ensures Ungrouped(s) == s
  {
    if s != "" { UngroupedDigits(s[1..]); }
  }

  lemma {:induction false} GroupedIff(s: string)
    ensures Grouped(s) <==> Underscored(s)
    decreases |s|
  {
    var n := |s| - 1;
    if n >= 1 {
      GroupedIff(s[..n]);
      GroupedIff(s[..n - 1]);
    }
  }

  lemma {:induction false} UngroupedSnoc(s: string, c: char)
    ensures Ungrouped(s + [c]) == Ungrouped(s) + (if c == '_' then "" else [c])
  {
    if s == "" {
      assert [c][1..] == "";
    } else {
      UngroupedSnoc(s[1..], c);
      assert (s + [c])[1..] == s[1..] + [c];
    }
  }

  lemma {:induction false} NumberOfValue(s: string)
    ensures NumberOf(s) == Value(Ungrouped(s))
  {
    if s != "" {
      var n := |s| - 1;
      NumberOfValue(s[..n]);
      UngroupedSnoc(s[..n], s[n]);
      assert s == s[..n] + [s[n]];
      if s[n] == '_' {
        assert Ungrouped(s) == Ungrouped(s[..n]);
      } else {
        var u := Ungrouped(s);
        assert u[..|u| - 1] == Ungrouped(s[..n]) && u[|u| - 1] == s[n];
      }
    }
  }

  lemma UnsignedIff(s: string, n: int)
    ensures Unsigned(s, n) <==> Grouped(s) && |Ungrouped(s)| <= MAX_DIGITS && n == Value(Ungrouped(s))
  {
    GroupedIff(s);
    NumberOfValue(s);
  }

  lemma DecimalReads(n: nat, d: string)
    requires d == Decimal(n) && |d| <= 4300
    ensures Digits(d) && Grouped(d) && Unsigned(d, n)
  {
    ValueDecimal(n);
    DecimalShape(n);
    UngroupedDigits(d);
    UnsignedIff(d, n);
  }

  lemma NumeralIff(text: string, t: string, n: int)
    requires t == Strip(text)
    ensures ParseInt(text) == Some(n) <==> Numeral(t, n)
  {
    UnsignedIff(t, n);
    if t != "" {
      UnsignedIff(t[1..], n);
      UnsignedIff(t[1..], -n);
    }
  }

  /** A printed number is read back, with a sign or without one. */
  lemma NumbersRead(n: nat, d: string, signed: string)
    requires d == Decimal(n) && |d| <= 4300 && signed != "" && signed[1..] == d
    ensures ParseInt(d) == Some(n)
    ensures signed[0] == '+' ==> ParseInt(signed) == Some(n)
    ensures signed[0] == '-' ==> ParseInt(signed) == Some(0 - n)
  {
    DecimalReads(n, d);
    StripTrims(d);
    StripTrims(signed);
    assert signed[|signed| - 1] == d[|d| - 1];
    NumeralIff(d, d, n);
    if signed[0] == '+' {
      NumeralIff(signed, signed, n);
    } else if signed[0] == '-' {
      NumeralIff(signed, signed, 0 - n);
    }
  }

  /** The numeral rule decides the conversion of every text. */
  lemma ParseIntIff(text: string, n: int)
    ensures ParseInt(text) == Some(n) <==> exists core :: IsStripOf(core, text) && Numeral(core, n)
  {
    StripKeeps(text);
    var t := Strip(text);
    NumeralIff(text, t, n);
    forall core | IsStripOf(core, text) ensures core == t {
      StripUnique(text, core);
    }
  }

  lemma NumberIff(v: Json, n: int)
    ensures Number(v) == Some(n) <==> Denotes(v, n)
  {
    if v.Str? { ParseIntIff(v.s, n); }
  }

  // ---------------------------------------------------------- normal values --

  lemma TruthIff(v: Json)
    ensures Truth(v) == Some(true) <==> SaysYes(v)
    ensures Truth(v) == Some(false) <==> SaysNo(v)
  {
    if v.Str? {
      assert Folded(v.s) in YES <==>
        Spells(v.s, "true") || Spells(v.s, "yes") || Spells(v.s, "on") || Spells(v.s, "1");
      assert Folded(v.s) in NO <==>
        Spells(v.s, "false") || Spells(v.s, "no") || Spells(v.s, "off") || Spells(v.s, "0");
    }
  }

  lemma BlankIff(s: string)
    ensures Blank(s) <==> Strip(s) == ""
  {
    StripKeeps(s);
    var i, j :| 0 <= i <= j <= |s| && Strip(s) == s[i..j] && Blank(s[..i]) && Blank(s[j..]);
    if Strip(s) == "" {
      forall k | 0 <= k < |s| ensures IsSpace(s[k]) {
        if k < i { assert s[..i][k] == s[k]; } else { assert s[j..][k - j] == s[k]; }
      }
    } else {
      assert Strip(s)[0] == s[i];
    }
  }

  lemma {:induction false} CleanWordsSnoc(items: seq<Json>, last: Json)
    ensures CleanWords(items + [last]) ==
            CleanWords(items) + (if last.Str? && Strip(last.s) != "" then [Str(Strip(last.s))] else [])
  {
    if items == [] {
      assert [last][1..] == [];
    } else {
      CleanWordsSnoc(items[1..], last);
      assert (items + [last])[1..] == items[1..] + [last];
    }
  }

  lemma {:induction false} WordsAreClean(items: seq<Json>, words: seq<Json>)
    ensures WordsFrom(items, words) <==> words == CleanWords(items)
    decreases |items|
  {
    if items != [] {
      var n, last := |items| - 1, items[|items| - 1];
      assert items == items[..n] + [last];
      CleanWordsSnoc(items[..n], last);
      if last.Str? {
        BlankIff(last.s);
        StripKeeps(last.s);
      }
      if last.Str? && !Blank(last.s) {
        if words != [] && words[|words| - 1].Str? && IsStripOf(words[|words| - 1].s, last.s) {
          StripUnique(last.s, words[|words| - 1].s);
        }
        if words != [] {
          WordsAreClean(items[..n], words[..|words| - 1]);
          assert words == words[..|words| - 1] + [words[|words| - 1]];
        }
      } else {
        WordsAreClean(items[..n], words);
      }
    }
  }

  lemma DisplayIff(s: string)
    ensures s in DISPLAY_MODES || IsSize(s) <==> NamesDisplay(s)
  {
    SizeIff(s);
  }

  /** A usable value means its normal form and nothing else; an unusable one means nothing. */
  lemma MeaningIff(k: Kind, v: Json, r: Json)
    ensures Means(k, v, r) <==> Valid(k, v) && r == Canonical(k, v)
  {
    match k
    case Text(_) =>
      if v.Str? {
        StripKeeps(v.s);
        if r.Str? && IsStripOf(r.s, v.s) { StripUnique(v.s, r.s); }
      }
    case Flag => TruthIff(v);
    case Range(lo, hi) => RangeIff(lo, hi, v, r);
    case Choice(_) =>
    case Display => if r.Str? { DisplayIff(r.s); }
    case Words => if v.Arr? && r.Arr? { WordsAreClean(v.items, r.items); }
  }

  ghost predicate Meaningful(k: Kind, v: Json) { exists r :: Means(k, v, r) }

  lemma MeaningfulIff(k: Kind, v: Json)
    ensures Meaningful(k, v) <==> Valid(k, v)
  {
    if Valid(k, v) { MeaningIff(k, v, Canonical(k, v)); }
    if r :| Means(k, v, r) { MeaningIff(k, v, r); }
  }

  lemma RangeIff(lo: int, hi: int, v: Json, r: Json)
    ensures Means(Range(lo, hi), v, r) <==> Valid(Range(lo, hi), v) && r == Canonical(Range(lo, hi), v)
  {
    if Number(v).Some? {
      NumberIff(v, Number(v).value);
      assert Clamped(lo, hi, Number(v).value, Min(hi, Max(lo, Number(v).value)));
    }
    if n :| r.Int? && Denotes(v, n) && Clamped(lo, hi, n, r.i) { NumberIff(v, n); }
  }
}
