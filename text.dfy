/**
 * The string operations the session needs: ASCII lower-casing for name
 * dispatch, width padding as done by Python's `<` and `>` format
 * alignments, decimal rendering of integers, and lines made of columns
 * each closed by a `|` separator.
 */
module Text {

  // ---------------------------------------------------------------------
  // Lower-casing

  predicate IsUpper(c: char) {
    'A' <= c <= 'Z'
  }

  /** The ASCII lower-case form of one character; other characters are kept. */
  function LowerChar(c: char): char {
    if IsUpper(c) then (c as int + 32) as char else c
  }

  /** Lower-cases every ASCII letter of `s` and keeps everything else. */
  function ToLower(s: string): (r: string)
    ensures |r| == |s|
    ensures forall i :: 0 <= i < |s| ==> r[i] == LowerChar(s[i])
  {
    if s == [] then [] else [LowerChar(s[0])] + ToLower(s[1..])
  }

  /** Two strings that differ at most in the case of ASCII letters. */
  predicate SameIgnoringCase(a: string, b: string) {
    |a| == |b| && forall i :: 0 <= i < |a| ==> LowerChar(a[i]) == LowerChar(b[i])
  }

  /** Lower-casing leaves no upper-case letter and is idempotent. */
  lemma ToLowerNormalises(s: string)
    ensures forall i :: 0 <= i < |s| ==> !IsUpper(ToLower(s)[i])
    ensures ToLower(ToLower(s)) == ToLower(s)
  {
  }

  /** Strings equal up to case have the same lower-case form, and only they do. */
  lemma ToLowerDecidesCase(a: string, b: string)
    ensures ToLower(a) == ToLower(b) <==> SameIgnoringCase(a, b)
  {
    if SameIgnoringCase(a, b) {
      assert forall i :: 0 <= i < |a| ==> ToLower(a)[i] == ToLower(b)[i];
    }
  }

  // ---------------------------------------------------------------------
  // Padding

  /** `n` copies of `c`. */
  function Repeat(c: char, n: nat): (r: string)
    ensures |r| == n
    ensures forall i :: 0 <= i < n ==> r[i] == c
  {
    seq(n, _ => c)
  }

  /** Right-aligns `s` in a field of width `w` (Python's `>w`); never truncates. */
  function PadLeft(s: string, w: nat): (r: string)
    ensures |r| == if |s| < w then w else |s|
    ensures r[|r| - |s|..] == s
    ensures forall i :: 0 <= i < |r| - |s| ==> r[i] == ' '
  {
    if |s| < w then Repeat(' ', w - |s|) + s else s
  }

  /** Left-aligns `s` in a field of width `w` (Python's `<w`); never truncates. */
  function PadRight(s: string, w: nat): (r: string)
    ensures |r| == if |s| < w then w else |s|
    ensures r[..|s|] == s
    ensures forall i :: |s| <= i < |r| ==> r[i] == ' '
  {
    if |s| < w then s + Repeat(' ', w - |s|) else s
  }

  // ---------------------------------------------------------------------
  // Decimal integers

  predicate IsDigit(c: char) {
    '0' <= c <= '9'
  }

  function DigitChar(d: nat): (c: char)
    requires d < 10
    ensures IsDigit(c)
  {
    ('0' as int + d) as char
  }

  function DigitValue(c: char): nat
    requires IsDigit(c)
  {
    c as int - '0' as int
  }

  /** Python's `str(n)` (and `format(n, '')`) for a non-negative integer. */
  function Decimal(n: nat): (r: string)
    ensures |r| >= 1
    ensures forall i :: 0 <= i < |r| ==> IsDigit(r[i])
    ensures r[0] == '0' ==> n == 0
    decreases n
  {
    if n < 10 then [DigitChar(n)] else Decimal(n / 10) + [DigitChar(n % 10)]
  }

  /** The number a string of digits denotes. */
  function DecimalValue(s: string): nat
    requires forall i :: 0 <= i < |s| ==> IsDigit(s[i])
  {
    if s == [] then 0 else DecimalValue(s[..|s| - 1]) * 10 + DigitValue(s[|s| - 1])
  }

  /** Reading back the rendered digits gives the number. */
  lemma {:induction false} DecimalRoundTrip(n: nat)
    ensures DecimalValue(Decimal(n)) == n
    decreases n
  {
    if n >= 10 {
      DecimalRoundTrip(n / 10);
      var s := Decimal(n);
      assert s[..|s| - 1] == Decimal(n / 10);
    }
  }

  function Pow10(k: nat): (p: nat)
    ensures p >= 1
  {
    if k == 0 then 1 else 10 * Pow10(k - 1)
  }

  /** A number is rendered in at most `k` digits exactly when it is below 10^k. */
  lemma {:induction false} DecimalWidth(n: nat, k: nat)
    requires k >= 1
    ensures |Decimal(n)| <= k <==> n < Pow10(k)
    decreases n
  {
    if n >= 10 {
      if k == 1 {
        assert |Decimal(n)| >= 2;
      } else {
        DecimalWidth(n / 10, k - 1);
      }
    }
  }

  // ---------------------------------------------------------------------
  // Lines of `|`-separated columns

  /** The columns, each followed by a `|`. */
  function Barred(cols: seq<string>): string {
    if cols == [] then "" else Barred(cols[..|cols| - 1]) + cols[|cols| - 1] + "|"
  }

  /** Width of a barred line whose columns have widths `ws`. */
  function LineWidth(ws: seq<nat>): nat {
    if ws == [] then 0 else LineWidth(ws[..|ws| - 1]) + ws[|ws| - 1] + 1
  }

  /** Where the `|` separators of such a line fall. */
  function BarSet(ws: seq<nat>): set<int> {
    if ws == [] then {} else BarSet(ws[..|ws| - 1]) + {LineWidth(ws[..|ws| - 1]) + ws[|ws| - 1]}
  }

  /** The positions of `|` in `s`. */
  function Bars(s: string): set<int> {
    set k | 0 <= k < |s| && s[k] == '|'
  }

  predicate NoBar(s: string) {
    '|' !in s
  }

  /** Every column has its intended width and holds no `|` of its own. */
  predicate HasWidths(cols: seq<string>, ws: seq<nat>) {
    |cols| == |ws| && forall i :: 0 <= i < |cols| ==> |cols[i]| == ws[i] && NoBar(cols[i])
  }

  lemma BarSetBelow(ws: seq<nat>)
    ensures forall k :: k in BarSet(ws) ==> 0 <= k < LineWidth(ws)
  {
  }

  /**
   * The layout of a barred line depends only on its column widths: its
   * length, and the places of its separators.
   */
  lemma {:induction false} BarredLayout(cols: seq<string>, ws: seq<nat>)
    requires HasWidths(cols, ws)
    ensures |Barred(cols)| == LineWidth(ws)
    ensures Bars(Barred(cols)) == BarSet(ws)
  {
    if cols != [] {
      var n := |cols|;
      var p, wp := cols[..n - 1], ws[..n - 1];
      assert HasWidths(p, wp) by {
        forall i | 0 <= i < |p| ensures |p[i]| == wp[i] && NoBar(p[i]) {
          assert p[i] == cols[i];
        }
      }
      BarredLayout(p, wp);
      BarSetBelow(wp);
      var line, head, last := Barred(cols), Barred(p), cols[n - 1];
      assert line == head + last + "|";
      var l := |head|;
      forall k | 0 <= k < |line|
        ensures line[k] == '|' <==> k in BarSet(ws)
      {
        if k < l {
          assert line[k] == head[k];
          assert k in Bars(head) <==> head[k] == '|';
        } else if k < l + |last| {
          assert line[k] == last[k - l];
          assert last[k - l] in last;
        }
      }
      assert Bars(line) == BarSet(ws);
    }
  }
}
