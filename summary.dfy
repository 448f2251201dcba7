/**
 * The optimization summary table: the three header lines, and one data row
 * per history step reporting the energy and, for five families of vectors,
 * the largest magnitude with the index of the first vector attaining it.
 */
module Summary {
  import opened Wrappers
  import opened Text
  import opened History

  // ---------------------------------------------------------------------
  // Maximum and first index of the maximum (numpy `max` and `argmax`)

  /** The largest element of a non-empty sequence. */
  function Max(s: seq<real>): (m: real)
    requires |s| > 0
    ensures forall j :: 0 <= j < |s| ==> s[j] <= m
    ensures exists j :: 0 <= j < |s| && s[j] == m
  {
    if |s| == 1 then s[0]
    else
      var m := Max(s[..|s| - 1]);
      if s[|s| - 1] > m then s[|s| - 1] else m
  }

  /** The index of the first occurrence of the largest element. */
  function ArgMax(s: seq<real>): (k: nat)
    requires |s| > 0
    ensures k < |s|
    ensures forall j :: 0 <= j < |s| ==> s[j] <= s[k]
    ensures forall j :: 0 <= j < k ==> s[j] < s[k]
  {
    if |s| == 1 then 0
    else
      var k := ArgMax(s[..|s| - 1]);
      if s[|s| - 1] > s[k] then |s| - 1 else k
  }

  /** The maximum and the argmax agree: the index points at the maximum. */
  lemma MaxAtArgMax(s: seq<real>)
    requires |s| > 0
    ensures Max(s) == s[ArgMax(s)]
  {
  }

  /** A reported (magnitude, index) pair of one column. */
  datatype Peak = Peak(value: real, index: nat)

  /** `p` names the first element of `s` that is at least every other one. */
  predicate IsPeak(p: Peak, s: seq<real>) {
    && p.index < |s|
    && s[p.index] == p.value
    && (forall j :: 0 <= j < |s| ==> s[j] <= p.value)
    && (forall j :: 0 <= j < p.index ==> s[j] < p.value)
  }

  function PeakOf(s: seq<real>): (p: Peak)
    requires |s| > 0
    ensures IsPeak(p, s)
  {
    MaxAtArgMax(s);
    Peak(Max(s), ArgMax(s))
  }

  /** A non-empty sequence has exactly one peak, so the reported pair is determined. */
  lemma PeakUnique(p: Peak, q: Peak, s: seq<real>)
    requires IsPeak(p, s) && IsPeak(q, s)
    ensures p == q
  {
    assert p.value == q.value;
  }

  // ---------------------------------------------------------------------
  // Rows as data

  /** One data row: step index, energy and the five peaks. */
  datatype Row = Row(
    step: nat,
    energy: real,
    forceRaw: Peak,
    forceAllowed: Peak,
    torqueRaw: Peak,
    torqueAllowed: Peak,
    atomForce: Peak)

  /** A step whose five magnitude lists are all non-empty, so numpy can reduce them. */
  predicate Measurable(s: Step) {
    && |s.forcesAllowed| > 0
    && |s.forcesRaw| > 0
    && |s.torquesAllowed| > 0
    && |s.torquesRaw| > 0
    && |s.forcesOnAtoms| > 0
  }

  /** The row of step `s` at position `i`; none when a list is empty (numpy raises). */
  function StepRow(i: nat, s: Step): (r: Option<Row>)
    ensures r.Some? <==> Measurable(s)
    ensures r.Some? ==> r.value.step == i && r.value.energy == s.energy
    ensures r.Some? ==> IsPeak(r.value.forceRaw, s.forcesRaw)
    ensures r.Some? ==> IsPeak(r.value.forceAllowed, s.forcesAllowed)
    ensures r.Some? ==> IsPeak(r.value.torqueRaw, s.torquesRaw)
    ensures r.Some? ==> IsPeak(r.value.torqueAllowed, s.torquesAllowed)
    ensures r.Some? ==> IsPeak(r.value.atomForce, s.forcesOnAtoms)
  {
    if !Measurable(s) then None
    else Some(Row(i, s.energy, PeakOf(s.forcesRaw), PeakOf(s.forcesAllowed),
                  PeakOf(s.torquesRaw), PeakOf(s.torquesAllowed), PeakOf(s.forcesOnAtoms)))
  }

  predicate AllMeasurable(h: seq<Step>) {
    forall j :: 0 <= j < |h| ==> Measurable(h[j])
  }

  /** How many leading steps yield a row: the rows written before numpy raises. */
  function MeasuredPrefix(h: seq<Step>): (n: nat)
    ensures n <= |h|
    ensures AllMeasurable(h[..n])
    ensures n < |h| ==> !Measurable(h[n])
  {
    if h == [] || !Measurable(h[0]) then 0
    else
      var n := 1 + MeasuredPrefix(h[1..]);
      assert forall j :: 1 <= j < n ==> h[..n][j] == h[1..][..n - 1][j - 1];
      n
  }

  /** The rows of a history of measurable steps, in history order. */
  function Rows(h: seq<Step>): (rows: seq<Row>)
    requires AllMeasurable(h)
    ensures |rows| == |h|
    ensures forall i :: 0 <= i < |h| ==> StepRow(i, h[i]) == Some(rows[i])
  {
    seq(|h|, i requires 0 <= i < |h| => StepRow(i, h[i]).value)
  }

  /** Appending a measurable step appends its row. */
  lemma RowsSnoc(h: seq<Step>, i: nat)
    requires i < |h| && AllMeasurable(h[..i]) && Measurable(h[i])
    ensures AllMeasurable(h[..i + 1])
    ensures Rows(h[..i + 1]) == Rows(h[..i]) + [StepRow(i, h[i]).value]
  {
    assert forall j :: 0 <= j < i ==> h[..i + 1][j] == h[..i][j];
  }

  /** Each row reports its own position and the peaks of its own step. */
  lemma RowsFaithful(h: seq<Step>, i: nat)
    requires AllMeasurable(h) && i < |h|
    ensures Rows(h)[i].step == i
    ensures Rows(h)[i].energy == h[i].energy
    ensures IsPeak(Rows(h)[i].forceRaw, h[i].forcesRaw)
    ensures IsPeak(Rows(h)[i].forceAllowed, h[i].forcesAllowed)
    ensures IsPeak(Rows(h)[i].torqueRaw, h[i].torquesRaw)
    ensures IsPeak(Rows(h)[i].torqueAllowed, h[i].torquesAllowed)
    ensures IsPeak(Rows(h)[i].atomForce, h[i].forcesOnAtoms)
  {
    assert StepRow(i, h[i]) == Some(Rows(h)[i]);
  }

  // ---------------------------------------------------------------------
  // Rows as text

  /** The widths of the seven columns of the second header line and of every data row. */
  const ColumnWidths: seq<nat> := [5, 19, 19, 19, 19, 19, 19]

  /** The widths of the first header line, whose fragment columns span two columns each. */
  const TitleWidths: seq<nat> := [5, 19, 39, 39, 19]

  function TitleCells(): seq<string> {
    [ PadRight("", 5), PadLeft("", 19),
      PadLeft("Max. Force on Fragments [eV/A] ", 39),
      PadLeft("Max. Torque on Fragments [eV] ", 39),
      PadLeft("Max. Force on ", 19) ]
  }

  function ColumnCells(): seq<string> {
    [ PadRight("Step", 5), PadLeft("Energy [eV] ", 19),
      PadLeft("Raw", 14) + PadLeft("# ", 5),
      PadLeft("Allowed", 14) + PadLeft("# ", 5),
      PadLeft("Raw", 14) + PadLeft("# ", 5),
      PadLeft("Allowed", 14) + PadLeft("# ", 5),
      PadLeft("Atoms [eV/A]", 14) + PadLeft("# ", 5) ]
  }

  function TitleLine(): string {
    Barred(TitleCells()) + "\n"
  }

  function ColumnLine(): string {
    Barred(ColumnCells()) + "\n"
  }

  function SeparatorLine(): string {
    Repeat('=', 5 + 1 + 19 + 1 + 39 + 1 + 39 + 1 + 19 + 1) + "\n"
  }

  function Header(): seq<string> {
    [TitleLine(), ColumnLine(), SeparatorLine()]
  }

  /** A peak as `{value:>14.10f}{index:>5}`, with `fmt` standing for the `.10f` rendering. */
  function PeakCell(p: Peak, fmt: real -> string): string {
    PadLeft(fmt(p.value), 14) + PadLeft(Decimal(p.index), 5)
  }

  function RowCells(r: Row, fmt: real -> string): seq<string> {
    [ PadRight(Decimal(r.step), 5), PadLeft(fmt(r.energy), 19),
      PeakCell(r.forceRaw, fmt), PeakCell(r.forceAllowed, fmt),
      PeakCell(r.torqueRaw, fmt), PeakCell(r.torqueAllowed, fmt),
      PeakCell(r.atomForce, fmt) ]
  }

  function RowText(r: Row, fmt: real -> string): string {
    Barred(RowCells(r, fmt)) + "\n"
  }

  /** The texts of the rows, in order. */
  function RowTexts(rows: seq<Row>, fmt: real -> string): (t: seq<string>)
    ensures |t| == |rows|
    ensures forall i :: 0 <= i < |rows| ==> t[i] == RowText(rows[i], fmt)
  {
    MapSeq(r => RowText(r, fmt), rows)
  }

  /** `f` applied to every element, in order. */
  function MapSeq<A, B>(f: A -> B, s: seq<A>): (t: seq<B>)
    ensures |t| == |s|
    ensures forall i :: 0 <= i < |s| ==> t[i] == f(s[i])
  {
    if s == [] then [] else MapSeq(f, s[..|s| - 1]) + [f(s[|s| - 1])]
  }

  lemma MapSeqSnoc<A, B>(f: A -> B, s: seq<A>, x: A)
    ensures MapSeq(f, s + [x]) == MapSeq(f, s) + [f(x)]
  {
    assert (s + [x])[..|s|] == s;
  }

  lemma RowTextsSnoc(rows: seq<Row>, r: Row, fmt: real -> string)
    ensures RowTexts(rows + [r], fmt) == RowTexts(rows, fmt) + [RowText(r, fmt)]
  {
    MapSeqSnoc(r => RowText(r, fmt), rows, r);
  }

  /**
   * The writes the summary file receives, in order: the three header
   * lines, then the rows of the steps before the first unmeasurable one.
   */
  function SummaryWrites(h: seq<Step>, fmt: real -> string): seq<string> {
    Header() + RowTexts(Rows(h[..MeasuredPrefix(h)]), fmt)
  }

  /** The header and the rows of the first `n` steps. */
  function WrittenAfter(h: seq<Step>, n: nat, fmt: real -> string): seq<string>
    requires n <= |h| && AllMeasurable(h[..n])
  {
    Header() + RowTexts(Rows(h[..n]), fmt)
  }

  /** Before any row only the header is written. */
  lemma WrittenAfterNone(h: seq<Step>, fmt: real -> string)
    ensures WrittenAfter(h, 0, fmt) == Header()
  {
    assert Rows(h[..0]) == [];
  }

  /** Each measurable step adds its row after those of the earlier steps. */
  lemma WrittenAfterStep(h: seq<Step>, i: nat, fmt: real -> string)
    requires i < |h| && AllMeasurable(h[..i]) && Measurable(h[i])
    ensures AllMeasurable(h[..i + 1])
    ensures WrittenAfter(h, i + 1, fmt) == WrittenAfter(h, i, fmt) + [RowText(StepRow(i, h[i]).value, fmt)]
  {
    RowsSnoc(h, i);
    var a, x := Rows(h[..i]), StepRow(i, h[i]).value;
    RowTextsSnoc(a, x, fmt);
    AppendAfter(Header(), RowTexts(a, fmt), RowText(x, fmt));
  }

  lemma AppendAfter<T>(p: seq<T>, t: seq<T>, l: T)
    ensures p + (t + [l]) == (p + t) + [l]
  {
  }

  /** The rows written up to the first unmeasurable step, or up to the end, are the whole summary. */
  lemma WrittenAfterAll(h: seq<Step>, n: nat, fmt: real -> string)
    requires n <= |h| && AllMeasurable(h[..n]) && (n < |h| ==> !Measurable(h[n]))
    ensures WrittenAfter(h, n, fmt) == SummaryWrites(h, fmt)
    ensures n == MeasuredPrefix(h)
  {
    if n < |h| {
      SummaryStopsAtUnmeasurable(h, n, fmt);
    } else {
      assert h[..n] == h;
      SummaryRows(h, fmt);
    }
  }

  // ---------------------------------------------------------------------
  // Column layout

  /** A barred line closed by a newline keeps the bars of its columns. */
  lemma LineLayout(cols: seq<string>, ws: seq<nat>)
    requires HasWidths(cols, ws)
    ensures |Barred(cols) + "\n"| == LineWidth(ws) + 1
    ensures Bars(Barred(cols) + "\n") == BarSet(ws)
    ensures (Barred(cols) + "\n")[LineWidth(ws)] == '\n'
  {
    BarredLayout(cols, ws);
    var line := Barred(cols) + "\n";
    assert forall k :: 0 <= k < |Barred(cols)| ==> line[k] == Barred(cols)[k];
    assert Bars(line) == Bars(Barred(cols));
  }

  lemma LineWidthSnoc(ws: seq<nat>, w: nat)
    ensures LineWidth(ws + [w]) == LineWidth(ws) + w + 1
  {
    assert (ws + [w])[..|ws|] == ws;
  }

  lemma LineWidths()
    ensures LineWidth(ColumnWidths) == 126
    ensures LineWidth(TitleWidths) == 126
  {
    var w1, w2, w3: seq<nat> := [5], [5, 19], [5, 19, 19];
    var w4, w5, w6: seq<nat> := [5, 19, 19, 19], [5, 19, 19, 19, 19], [5, 19, 19, 19, 19, 19];
    assert w1 == [] + [5];
    LineWidthSnoc([], 5);
    assert w2 == w1 + [19];
    LineWidthSnoc(w1, 19);
    assert w3 == w2 + [19];
    LineWidthSnoc(w2, 19);
    assert w4 == w3 + [19];
    LineWidthSnoc(w3, 19);
    assert w5 == w4 + [19];
    LineWidthSnoc(w4, 19);
    assert w6 == w5 + [19];
    LineWidthSnoc(w5, 19);
    assert ColumnWidths == w6 + [19];
    LineWidthSnoc(w6, 19);
    var t3, t4: seq<nat> := [5, 19, 39], [5, 19, 39, 39];
    assert t3 == w2 + [39];
    LineWidthSnoc(w2, 39);
    assert t4 == t3 + [39];
    LineWidthSnoc(t3, 39);
    assert TitleWidths == t4 + [19];
    LineWidthSnoc(t4, 19);
  }

  lemma TitleCellsFit()
    ensures HasWidths(TitleCells(), TitleWidths)
  {
    var a, b, c := "Max. Force on Fragments [eV/A] ", "Max. Torque on Fragments [eV] ", "Max. Force on ";
    assert NoBar(a) && NoBar(b) && NoBar(c);
    NoBarPadded(a, 39);
    NoBarPadded(b, 39);
    NoBarPadded(c, 19);
    NoBarPadded("", 19);
    NoBarPaddedRight("", 5);
  }

  lemma PairCellFits(a: string)
    requires |a| <= 14 && NoBar(a)
    ensures |PadLeft(a, 14) + PadLeft("# ", 5)| == 19
    ensures NoBar(PadLeft(a, 14) + PadLeft("# ", 5))
  {
    NoBarPadded(a, 14);
    assert NoBar("# ");
    NoBarPadded("# ", 5);
  }

  lemma ColumnCellsFit()
    ensures HasWidths(ColumnCells(), ColumnWidths)
  {
    assert NoBar("Step");
    NoBarPaddedRight("Step", 5);
    assert NoBar("Energy [eV] ");
    NoBarPadded("Energy [eV] ", 19);
    assert NoBar("Raw") && NoBar("Allowed") && NoBar("Atoms [eV/A]");
    PairCellFits("Raw");
    PairCellFits("Allowed");
    PairCellFits("Atoms [eV/A]");
  }

  /**
   * The header: three lines of 126 characters and a newline each; the
   * column line has its bars where ColumnWidths puts them.
   */
  lemma HeaderLayout()
    ensures |TitleLine()| == 127 && TitleLine()[126] == '\n'
    ensures |ColumnLine()| == 127 && ColumnLine()[126] == '\n'
    ensures |SeparatorLine()| == 127 && SeparatorLine()[126] == '\n'
    ensures Bars(TitleLine()) == BarSet(TitleWidths)
    ensures Bars(ColumnLine()) == BarSet(ColumnWidths)
  {
    LineWidths();
    TitleCellsFit();
    LineLayout(TitleCells(), TitleWidths);
    ColumnCellsFit();
    LineLayout(ColumnCells(), ColumnWidths);
  }

  lemma NoBarPadded(s: string, w: nat)
    requires NoBar(s)
    ensures NoBar(PadLeft(s, w))
  {
    var r := PadLeft(s, w);
    forall i | 0 <= i < |r| ensures r[i] != '|' {
      if i >= |r| - |s| {
        assert r[i] == r[|r| - |s|..][i - (|r| - |s|)];
      }
    }
  }

  lemma NoBarPaddedRight(s: string, w: nat)
    requires NoBar(s)
    ensures NoBar(PadRight(s, w))
  {
    var r := PadRight(s, w);
    forall i | 0 <= i < |r| ensures r[i] != '|' {
      if i < |s| {
        assert r[i] == r[..|s|][i];
      }
    }
  }


  /** The digits of a number hold no `|`. */
  lemma NoBarDecimal(n: nat)
    ensures NoBar(Decimal(n))
  {
  }

  /** The widths fit: five-digit indices, at most 19 and 14 characters of rendered reals, no `|`. */
  predicate PeakFits(p: Peak, fmt: real -> string) {
    |fmt(p.value)| <= 14 && NoBar(fmt(p.value)) && p.index < 100000
  }

  predicate RowFits(r: Row, fmt: real -> string) {
    && r.step < 100000
    && |fmt(r.energy)| <= 19 && NoBar(fmt(r.energy))
    && PeakFits(r.forceRaw, fmt) && PeakFits(r.forceAllowed, fmt)
    && PeakFits(r.torqueRaw, fmt) && PeakFits(r.torqueAllowed, fmt)
    && PeakFits(r.atomForce, fmt)
  }

  lemma PeakCellLayout(p: Peak, fmt: real -> string)
    requires PeakFits(p, fmt)
    ensures |PeakCell(p, fmt)| == 19 && NoBar(PeakCell(p, fmt))
  {
    DecimalWidth(p.index, 5);
    assert Pow10(5) == 100000;
    NoBarDecimal(p.index);
    NoBarPadded(fmt(p.value), 14);
    NoBarPadded(Decimal(p.index), 5);
  }

  lemma StepCellFits(n: nat)
    requires n < 100000
    ensures |PadRight(Decimal(n), 5)| == 5 && NoBar(PadRight(Decimal(n), 5))
  {
    DecimalWidth(n, 5);
    assert Pow10(5) == 100000;
    NoBarDecimal(n);
    NoBarPaddedRight(Decimal(n), 5);
  }

  lemma RowCellsFit(r: Row, fmt: real -> string)
    requires RowFits(r, fmt)
    ensures HasWidths(RowCells(r, fmt), ColumnWidths)
  {
    StepCellFits(r.step);
    NoBarPadded(fmt(r.energy), 19);
    PeakCellLayout(r.forceRaw, fmt);
    PeakCellLayout(r.forceAllowed, fmt);
    PeakCellLayout(r.torqueRaw, fmt);
    PeakCellLayout(r.torqueAllowed, fmt);
    PeakCellLayout(r.atomForce, fmt);
    SevenColumns(PadRight(Decimal(r.step), 5), PadLeft(fmt(r.energy), 19),
      PeakCell(r.forceRaw, fmt), PeakCell(r.forceAllowed, fmt),
      PeakCell(r.torqueRaw, fmt), PeakCell(r.torqueAllowed, fmt),
      PeakCell(r.atomForce, fmt));
  }

  lemma SevenColumns(a: string, b: string, c: string, d: string, e: string, f: string, g: string)
    requires |a| == 5 && NoBar(a)
    requires |b| == 19 && NoBar(b) && |c| == 19 && NoBar(c) && |d| == 19 && NoBar(d)
    requires |e| == 19 && NoBar(e) && |f| == 19 && NoBar(f) && |g| == 19 && NoBar(g)
    ensures HasWidths([a, b, c, d, e, f, g], ColumnWidths)
  {
  }

  /**
   * A row whose values fit is 126 characters and a newline, with its bars
   * exactly under those of the column header line.
   */
  lemma RowLayout(r: Row, fmt: real -> string)
    requires RowFits(r, fmt)
    ensures |RowText(r, fmt)| == 127 && RowText(r, fmt)[126] == '\n'
    ensures Bars(RowText(r, fmt)) == Bars(ColumnLine())
  {
    LineWidths();
    RowCellsFit(r, fmt);
    LineLayout(RowCells(r, fmt), ColumnWidths);
    ColumnCellsFit();
    LineLayout(ColumnCells(), ColumnWidths);
  }

  /**
   * The summary of a history whose steps are all measurable holds the
   * header and then exactly one row per step: the `i`-th row reports step
   * `i`, its energy and the peaks of its five magnitude lists.
   */
  lemma SummaryRows(h: seq<Step>, fmt: real -> string)
    requires AllMeasurable(h)
    ensures MeasuredPrefix(h) == |h|
    ensures |SummaryWrites(h, fmt)| == 3 + |h|
    ensures SummaryWrites(h, fmt)[..3] == Header()
    ensures forall i :: 0 <= i < |h| ==> SummaryWrites(h, fmt)[3 + i] == RowText(Rows(h)[i], fmt)
    ensures forall i :: 0 <= i < |h| ==> Rows(h)[i].step == i && Rows(h)[i].energy == h[i].energy
  {
    var n := MeasuredPrefix(h);
    assert h[..n] == h;
    forall i | 0 <= i < |h| ensures Rows(h)[i].step == i && Rows(h)[i].energy == h[i].energy {
      RowsFaithful(h, i);
    }
  }

  /** A history with an unmeasurable step gets the rows before it, and no more. */
  lemma SummaryStopsAtUnmeasurable(h: seq<Step>, k: nat, fmt: real -> string)
    requires k < |h| && AllMeasurable(h[..k]) && !Measurable(h[k])
    ensures MeasuredPrefix(h) == k
    ensures |SummaryWrites(h, fmt)| == 3 + k
  {
    var n := MeasuredPrefix(h);
    forall j | 0 <= j < k ensures Measurable(h[j]) {
      assert h[..k][j] == h[j];
    }
    forall j | 0 <= j < n ensures Measurable(h[j]) {
      assert h[..n][j] == h[j];
    }
  }

  /**
   * When every row's values fit their columns, every line of the summary
   * is 126 characters and a newline, and every data row has its bars under
   * those of the column header line.
   */
  lemma SummaryColumns(h: seq<Step>, fmt: real -> string)
    requires AllMeasurable(h)
    requires forall i :: 0 <= i < |h| ==> RowFits(Rows(h)[i], fmt)
    ensures forall k :: 0 <= k < |SummaryWrites(h, fmt)| ==>
      |SummaryWrites(h, fmt)[k]| == 127 && SummaryWrites(h, fmt)[k][126] == '\n'
    ensures forall k :: 3 <= k < |SummaryWrites(h, fmt)| ==> Bars(SummaryWrites(h, fmt)[k]) == Bars(ColumnLine())
  {
    SummaryRows(h, fmt);
    var w := SummaryWrites(h, fmt);
    forall k | 0 <= k < |w|
      ensures |w[k]| == 127 && w[k][126] == '\n'
      ensures 3 <= k ==> Bars(w[k]) == Bars(ColumnLine())
    {
      if k < 3 {
        assert w[k] == w[..3][k];
        HeaderLines(k);
      } else {
        RowLine(h, fmt, k - 3);
      }
    }
  }

  lemma HeaderLines(k: nat)
    requires k < 3
    ensures |Header()[k]| == 127 && Header()[k][126] == '\n'
  {
    HeaderLayout();
  }

  lemma RowLine(h: seq<Step>, fmt: real -> string, i: nat)
    requires AllMeasurable(h) && i < |h|
    requires RowFits(Rows(h)[i], fmt)
    ensures 3 + i < |SummaryWrites(h, fmt)|
    ensures |SummaryWrites(h, fmt)[3 + i]| == 127 && SummaryWrites(h, fmt)[3 + i][126] == '\n'
    ensures Bars(SummaryWrites(h, fmt)[3 + i]) == Bars(ColumnLine())
  {
    SummaryRows(h, fmt);
    RowLayout(Rows(h)[i], fmt);
  }
}
