/** Spreadsheet column names: bijective base 26, and the cell references built from them. */
module SpreadsheetColumns {

  predicate IsLetter(c: char) {
    'A' <= c <= 'Z'
  }

  function Letter(n: nat): (c: char)
    requires n < 26
    ensures IsLetter(c) && LetterValue(c) == n
  {
    ('A' as int + n) as char
  }

  function LetterValue(c: char): (n: nat)
    requires IsLetter(c)
    ensures n < 26
  {
    c as int - 'A' as int
  }

  predicate IsName(s: string) {
    forall i | 0 <= i < |s| :: IsLetter(s[i])
  }

  function Column(index: nat): (s: string)
    ensures IsName(s)
    ensures s == "" <==> index == 0
  {
    if index == 0 then "" else Column((index - 1) / 26) + [Letter((index - 1) % 26)]
  }

  /** The loop of `_column`, which builds the name from its last letter. */
  method ColumnName(start: nat) returns (result: string)
    ensures result == Column(start)
  {
    result := "";
    var index := start;
    while index != 0
      invariant Column(start) == Column(index) + result
    {
      var remainder := (index - 1) % 26;
      index := (index - 1) / 26;
      result := [Letter(remainder)] + result;
    }
  }

  /** The value of the loop variable after `steps` rounds that ignore the loop test. */
  function Countdown(index: int, steps: nat): int
    decreases steps
  {
    if steps == 0 then index else Countdown((index - 1) / 26, steps - 1)
  }

  /** The loop ends exactly for indices that are not negative. */
  lemma {:induction false} LoopEndsIffNotNegative(index: int)
    ensures (exists steps: nat :: Countdown(index, steps) == 0) <==> index >= 0
  {
    if index >= 0 {
      var steps := EndsAfter(index);
      assert Countdown(index, steps) == 0;
    } else {
      forall steps: nat
        ensures Countdown(index, steps) < 0
      {
        StaysNegative(index, steps);
      }
    }
  }

  lemma {:induction false} EndsAfter(index: nat) returns (steps: nat)
    ensures Countdown(index, steps) == 0
  {
    if index == 0 {
      steps := 0;
    } else {
      steps := EndsAfter((index - 1) / 26);
      steps := steps + 1;
    }
  }

  lemma {:induction false} StaysNegative(index: int, steps: nat)
    requires index < 0
    ensures Countdown(index, steps) < 0
    decreases steps
  {
    if steps > 0 {
      StaysNegative((index - 1) / 26, steps - 1);
    }
  }

  // ----- a bijection with the non-empty names -----

  function ColumnIndex(s: string): nat
    requires IsName(s)
  {
    if s == "" then 0 else 26 * ColumnIndex(s[..|s| - 1]) + LetterValue(s[|s| - 1]) + 1
  }

  lemma {:induction false} IndexOfColumn(index: nat)
    ensures ColumnIndex(Column(index)) == index
  {
    if index != 0 {
      IndexOfColumn((index - 1) / 26);
      var s := Column(index);
      assert s[..|s| - 1] == Column((index - 1) / 26);
    }
  }

  lemma {:induction false} ColumnOfIndex(s: string)
    requires IsName(s)
    ensures Column(ColumnIndex(s)) == s
    ensures s != "" ==> ColumnIndex(s) >= 1
  {
    if s != "" {
      var n := |s| - 1;
      ColumnOfIndex(s[..n]);
      var index, value := ColumnIndex(s[..n]), LetterValue(s[n]);
      assert (26 * index + value) / 26 == index && (26 * index + value) % 26 == value;
      assert Letter(value) == s[n];
      assert s == s[..n] + [s[n]];
    }
  }

  /** Every index from 1 has its own non-empty name, and every non-empty name has an index. */
  lemma {:induction false} ColumnIsBijective(index: nat, other: nat, name: string)
    requires IsName(name)
    ensures Column(index) == Column(other) <==> index == other
    ensures Column(index) == name <==> ColumnIndex(name) == index
    ensures ColumnIndex(name) >= 1 <==> name != ""
  {
    IndexOfColumn(index);
    IndexOfColumn(other);
    ColumnOfIndex(name);
  }

  // ----- the order of the columns -----

  predicate LexBelow(a: string, b: string)
    requires |a| == |b|
  {
    exists k | 0 <= k < |a| :: a[..k] == b[..k] && a[k] < b[k]
  }

  /** Shorter names first, and names of one length alphabetically. */
  predicate Shortlex(a: string, b: string) {
    |a| < |b| || (|a| == |b| && LexBelow(a, b))
  }

  lemma {:induction false} ShortlexPrefix(a: string, b: string, c: char, d: char)
    requires Shortlex(a, b)
    ensures Shortlex(a + [c], b + [d])
  {
    if |a| == |b| {
      var k :| 0 <= k < |a| && a[..k] == b[..k] && a[k] < b[k];
      assert (a + [c])[..k] == a[..k] && (b + [d])[..k] == b[..k];
      assert (a + [c])[k] < (b + [d])[k];
    }
  }

  lemma {:induction false} ShortlexLast(a: string, c: char, d: char)
    requires c < d
    ensures Shortlex(a + [c], a + [d])
  {
    assert (a + [c])[..|a|] == (a + [d])[..|a|];
    assert (a + [c])[|a|] < (a + [d])[|a|];
  }

  lemma {:induction false} ColumnRises(m: nat, n: nat)
    requires m < n
    ensures Shortlex(Column(m), Column(n))
    decreases n
  {
    if m > 0 {
      var m', n' := (m - 1) / 26, (n - 1) / 26;
      if m' < n' {
        ColumnRises(m', n');
        ShortlexPrefix(Column(m'), Column(n'), Letter((m - 1) % 26), Letter((n - 1) % 26));
      } else {
        assert m' == n' && (m - 1) % 26 < (n - 1) % 26;
        ShortlexLast(Column(m'), Letter((m - 1) % 26), Letter((n - 1) % 26));
      }
    }
  }

  lemma {:induction false} ShortlexAsymmetric(a: string, b: string)
    requires Shortlex(a, b)
    ensures !Shortlex(b, a) && a != b
  {
  }

  /** The order of the indices is the shortlex order of the names. */
  lemma {:induction false} ColumnOrder(m: nat, n: nat)
    ensures Shortlex(Column(m), Column(n)) <==> m < n
  {
    if m < n {
      ColumnRises(m, n);
    } else if n < m {
      ColumnRises(n, m);
      ShortlexAsymmetric(Column(n), Column(m));
    } else if Shortlex(Column(m), Column(n)) {
      ShortlexAsymmetric(Column(m), Column(n));
    }
  }

  // ----- cell references -----

  predicate IsDigit(c: char) {
    '0' <= c <= '9'
  }

  function Digit(n: nat): (c: char)
    requires n < 10
    ensures IsDigit(c) && c as int == '0' as int + n
  {
    ('0' as int + n) as char
  }

  predicate IsDecimal(s: string) {
    s != "" && forall i | 0 <= i < |s| :: IsDigit(s[i])
  }

  function Decimal(n: nat): (s: string)
    ensures IsDecimal(s)
  {
    if n < 10 then [Digit(n)] else Decimal(n / 10) + [Digit(n % 10)]
  }

  /** The number a decimal numeral stands for. */
  function Value(s: string): nat
    requires forall i | 0 <= i < |s| :: IsDigit(s[i])
  {
    if s == "" then 0
    else
      assert IsDigit(s[|s| - 1]);
      10 * Value(s[..|s| - 1]) + (s[|s| - 1] as int - '0' as int)
  }

  /** The numeral stands for the number and has no leading zero. */
  lemma {:induction false} DecimalValue(n: nat)
    ensures Value(Decimal(n)) == n
    ensures |Decimal(n)| > 1 ==> Decimal(n)[0] != '0'
  {
    var s := Decimal(n);
    if n >= 10 {
      DecimalValue(n / 10);
      assert s[..|s| - 1] == Decimal(n / 10) && s[0] == Decimal(n / 10)[0];
      if n < 100 {
        SmallDecimal(n / 10);
      }
    } else {
      assert s[..0] == "";
    }
  }

  lemma {:induction false} SmallDecimal(n: nat)
    requires 0 < n < 10
    ensures Decimal(n)[0] != '0'
  {
  }

  lemma {:induction false} DecimalInjective(m: nat, n: nat)
    requires Decimal(m) == Decimal(n)
    ensures m == n
  {
    DecimalValue(m);
    DecimalValue(n);
  }

  /** The `r` attribute of a cell. */
  function Reference(column: nat, row: nat): string {
    Column(column) + Decimal(row)
  }

  /** Letters end where digits begin. */
  lemma {:induction false} LettersEndFirst(a: string, d: string, b: string, e: string)
    requires IsName(a) && IsName(b) && IsDecimal(d) && IsDecimal(e)
    requires a + d == b + e
    ensures |a| <= |b|
  {
    assert (b + e)[|b|] == e[0];
    assert IsDigit((a + d)[|b|]);
  }

  /** A reference determines its column and its row. */
  lemma {:induction false} ReferenceInjective(column: nat, row: nat, column': nat, row': nat)
    ensures Reference(column, row) == Reference(column', row') <==> column == column' && row == row'
  {
    if Reference(column, row) == Reference(column', row') {
      var r := Reference(column, row);
      var a, b := Column(column), Column(column');
      LettersEndFirst(a, Decimal(row), b, Decimal(row'));
      LettersEndFirst(b, Decimal(row'), a, Decimal(row));
      assert a == r[..|a|] == b && Decimal(row) == r[|a|..] == Decimal(row');
      IndexOfColumn(column);
      IndexOfColumn(column');
      DecimalInjective(row, row');
    }
  }

  /** The references that `_xlsx` writes, row by row, and no two of them are equal. */
  method SheetReferences(rows: seq<seq<string>>) returns (references: seq<seq<string>>)
    ensures |references| == |rows|
    ensures forall r | 0 <= r < |rows| ::
              |references[r]| == |rows[r]| &&
              forall c | 0 <= c < |rows[r]| :: references[r][c] == Reference(c + 1, r + 1)
    ensures forall r, c, r', c' |
              && 0 <= r < |rows| && 0 <= c < |rows[r]|
              && 0 <= r' < |rows| && 0 <= c' < |rows[r']|
              && (r != r' || c != c') ::
              references[r][c] != references[r'][c']
  {
    references := [];
    for r := 0 to |rows|
      invariant |references| == r
      invariant forall i | 0 <= i < r ::
                  |references[i]| == |rows[i]| &&
                  forall c | 0 <= c < |rows[i]| :: references[i][c] == Reference(c + 1, i + 1)
    {
      var cells: seq<string> := [];
      for c := 0 to |rows[r]|
        invariant |cells| == c
        invariant forall i | 0 <= i < c :: cells[i] == Reference(i + 1, r + 1)
      {
        var name := ColumnName(c + 1);
        cells := cells + [name + Decimal(r + 1)];
      }
      references := references + [cells];
    }
    forall r, c, r', c' |
        0 <= r < |rows| && 0 <= c < |rows[r]| && 0 <= r' < |rows| && 0 <= c' < |rows[r']| && (r != r' || c != c')
      ensures references[r][c] != references[r'][c']
    {
      ReferenceInjective(c + 1, r + 1, c' + 1, r' + 1);
    }
  }
}
