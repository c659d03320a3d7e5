/** What the user interface controller computes from a budget snapshot
    before writing it into the page: the texts of the four budget labels.
    The page itself is not modelled. */
module UiController {
  import opened Wrappers
  import opened BudgetController

  /** The contents of the four labels of the budget summary. The three
      amounts are shown as numbers; the percentage label is a text. */
  datatype BudgetLabels = BudgetLabels(budget: real, income: real, expenses: real, percentage: string)

  predicate IsDigit(c: char) {
    '0' <= c <= '9'
  }

  predicate AllDigits(s: string) {
    forall i :: 0 <= i < |s| ==> IsDigit(s[i])
  }

  function DigitChar(d: nat): (c: char)
    requires d < 10
    ensures IsDigit(c)
  {
    ('0' as int + d) as char
  }

  function DigitValue(c: char): (d: nat)
    requires IsDigit(c)
    ensures d < 10
  {
    c as int - '0' as int
  }

  /** The decimal text of a non-negative integer, as JavaScript writes a
      whole number: only digits, and no leading zero except for 0 itself. */
  function Decimal(n: nat): (s: string)
    ensures |s| >= 1 && AllDigits(s)
    ensures s[0] == '0' <==> n == 0
    decreases n
  {
    if n < 10 then [DigitChar(n)] else Decimal(n / 10) + [DigitChar(n % 10)]
  }

  /** The number a string of digits denotes. */
  function DecimalValue(s: string): nat
    requires AllDigits(s)
  {
    if s == [] then 0 else DecimalValue(s[..|s| - 1]) * 10 + DigitValue(s[|s| - 1])
  }

  /** Reading back the decimal text of a number gives the number. */
  lemma {:induction false} DecimalRoundTrip(n: nat)
    ensures DecimalValue(Decimal(n)) == n
    decreases n
  {
    var s := Decimal(n);
    if n < 10 {
      assert s[..0] == [];
    } else {
      DecimalRoundTrip(n / 10);
      assert s[..|s| - 1] == Decimal(n / 10);
    }
  }

  /** Reads a percentage label back: a positive number without leading
      zeros followed by a percent sign, or nothing for any other text. */
  function ParseLabel(s: string): Option<int> {
    if |s| >= 2 && s[|s| - 1] == '%' && AllDigits(s[..|s| - 1]) && s[0] != '0'
    then Some(DecimalValue(s[..|s| - 1]))
    else None
  }

  /** The text of the percentage label: the percentage followed by a percent
      sign when it is positive, and a placeholder of three dashes otherwise.
      The label carries the percentage exactly when it is positive: reading
      it back gives the percentage, and the placeholder stands for every
      percentage that is zero or below, the sentinel -1 included. */
  function PercentageLabel(p: int): (s: string)
    ensures ParseLabel(s) == (if p > 0 then Some(p) else None)
    ensures s == "---" <==> p <= 0
  {
    if p > 0 then
      DecimalRoundTrip(p);
      var s := Decimal(p) + "%";
      assert s[..|s| - 1] == Decimal(p);
      s
    else
      "---"
  }

  /** The label texts for a budget snapshot: the three amounts as they are,
      and a percentage label from which the percentage can be read back
      when it is positive. */
  function DisplayBudget(b: BudgetView): (l: BudgetLabels)
    ensures l.budget == b.budget && l.income == b.totalInc && l.expenses == b.totalExp
    ensures ParseLabel(l.percentage) == (if b.percentage > 0 then Some(b.percentage) else None)
    ensures l.percentage == "---" <==> b.percentage <= 0
  {
    BudgetLabels(b.budget, b.totalInc, b.totalExp, PercentageLabel(b.percentage))
  }
}
