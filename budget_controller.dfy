/** The budget ledger: two append-only lists of entries (income and
    expenses), the total of each list, the budget (income minus expenses)
    and the share of income spent, as a percentage. */
module BudgetController {

  /** Which list an entry belongs to: expenses or income. */
  datatype Kind = Exp | Inc

  /** An income or an expense; both have the same shape and differ only in
      the list that holds them. */
  datatype Entry = Entry(id: nat, description: string, value: real)

  /** The four derived values the ledger hands out for display. */
  datatype BudgetView = BudgetView(budget: real, totalInc: real, totalExp: real, percentage: int)

  function Other(t: Kind): Kind {
    match t
    case Exp => Inc
    case Inc => Exp
  }

  /** The sum of the values of a list, added up from the first entry to the last. */
  function Sum(items: seq<Entry>): real {
    if items == [] then 0.0 else Sum(items[..|items| - 1]) + items[|items| - 1].value
  }

  /** The ids of a list are 0, 1, 2, ...: each equals its position. */
  ghost predicate IdsAreIndices(items: seq<Entry>) {
    forall i :: 0 <= i < |items| ==> items[i].id == i
  }

  /** Every value of a list is strictly positive. */
  ghost predicate AllPositive(items: seq<Entry>) {
    forall i :: 0 <= i < |items| ==> items[i].value > 0.0
  }

  /** The id of the next entry of a list: one more than the last entry's id,
      or 0 for an empty list. On a list whose ids are its positions, that is
      the list's length, so the next entry keeps ids and positions equal. */
  function NextId(items: seq<Entry>): (id: nat)
    ensures IdsAreIndices(items) ==> id == |items|
    ensures IdsAreIndices(items) ==>
              forall d, v :: IdsAreIndices(items + [Entry(id, d, v)])
  {
    if |items| > 0 then items[|items| - 1].id + 1 else 0
  }

  /** Rounding to the nearest integer with halves rounded up, as JavaScript's
      Math.round does: the result is the one integer within half a unit
      below or strictly less than half a unit above x. */
  function Round(x: real): (n: int)
    ensures n as real - 0.5 <= x < n as real + 0.5
  {
    (x + 0.5).Floor
  }

  /** The share of income spent, in percent and rounded; -1 when there is no
      income to divide by. */
  function Percentage(totalInc: real, totalExp: real): (p: int)
    ensures totalInc > 0.0 ==> p as real - 0.5 <= totalExp / totalInc * 100.0 < p as real + 0.5
    ensures totalInc <= 0.0 ==> p == -1
  {
    if totalInc > 0.0 then Round(totalExp / totalInc * 100.0) else -1
  }

  /** The sum of a list of positive values is never negative, and is zero
      exactly when the list is empty. */
  lemma {:induction false} SumOfPositive(items: seq<Entry>)
    requires AllPositive(items)
    ensures Sum(items) >= 0.0
    ensures Sum(items) > 0.0 <==> items != []
  {
    if items != [] {
      var front := items[..|items| - 1];
      assert AllPositive(front) by {
        forall i | 0 <= i < |front| ensures front[i].value > 0.0 {
          assert front[i] == items[i];
        }
      }
      SumOfPositive(front);
    }
  }

  /** Spending no more than the income gives a percentage from 0 to 100. */
  lemma PercentageBounds(totalInc: real, totalExp: real)
    requires 0.0 <= totalExp <= totalInc
    requires totalInc > 0.0
    ensures 0 <= Percentage(totalInc, totalExp) <= 100
  {
  }

  /** With positive entries, the sentinel -1 appears exactly when no income
      has been recorded; otherwise the percentage is never negative. */
  lemma NoIncomeSentinel(inc: seq<Entry>, exp: seq<Entry>)
    requires AllPositive(inc) && AllPositive(exp)
    ensures Percentage(Sum(inc), Sum(exp)) == -1 <==> inc == []
    ensures inc != [] ==> Percentage(Sum(inc), Sum(exp)) >= 0
  {
    SumOfPositive(inc);
    SumOfPositive(exp);
    if inc != [] {
      PercentageNonNegative(Sum(inc), Sum(exp));
    }
  }

  /** With positive income and no negative spending the percentage is not negative. */
  lemma PercentageNonNegative(totalInc: real, totalExp: real)
    requires totalInc > 0.0 && totalExp >= 0.0
    ensures Percentage(totalInc, totalExp) >= 0
  {
    var ratio := totalExp / totalInc;
    assert ratio * totalInc == totalExp;
  }

  /** The ledger's state: the data object of the budget controller, with the
      controller's operations as methods. */
  class Ledger {
    var exp: seq<Entry>
    var inc: seq<Entry>
    var totalExp: real
    var totalInc: real
    var budget: real
    var percentage: int

    /** The list of the given kind. */
    function Items(t: Kind): seq<Entry>
      reads this
    {
      match t
      case Exp => exp
      case Inc => inc
    }

    /** The stored total of the given kind. */
    function Total(t: Kind): real
      reads this
    {
      match t
      case Exp => totalExp
      case Inc => totalInc
    }

    /** The ledger's invariant: in each list the ids are the positions. */
    ghost predicate Valid()
      reads this
    {
      IdsAreIndices(exp) && IdsAreIndices(inc)
    }

    /** The derived values agree with the lists: each total is the sum of
        its list, the budget is their difference and the percentage follows
        the rounding and sentinel rule. */
    ghost predicate Calculated()
      reads this
    {
      && totalExp == Sum(exp)
      && totalInc == Sum(inc)
      && budget == totalInc - totalExp
      && percentage == Percentage(totalInc, totalExp)
    }

    /** The initial data: no entries, zero totals and budget, and the
        sentinel percentage; it already agrees with its (empty) lists. */
    constructor ()
      ensures Valid() && Calculated()
      ensures exp == [] && inc == []
      ensures GetBudget() == BudgetView(0.0, 0.0, 0.0, -1)
    {
      exp, inc := [], [];
      totalExp, totalInc := 0.0, 0.0;
      budget := 0.0;
      percentage := -1;
    }

    /** Recomputes the total of one kind by adding up its list in order. */
    method CalculateTotal(t: Kind)
      modifies this
      ensures Total(t) == Sum(Items(t))
      ensures Total(Other(t)) == old(Total(Other(t)))
      ensures exp == old(exp) && inc == old(inc)
      ensures budget == old(budget) && percentage == old(percentage)
    {
      var items := Items(t);
      var sum := 0.0;
      for i := 0 to |items|
        invariant sum == Sum(items[..i])
      {
        assert items[..i + 1][..i] == items[..i];
        sum := sum + items[i].value;
      }
      assert items[..|items|] == items;
      match t
      case Exp => totalExp := sum;
      case Inc => totalInc := sum;
    }

    /** Creates an entry with the next id of its kind, appends it to the end
        of that list and returns it; nothing else changes. */
    method AddItem(t: Kind, des: string, val: real) returns (newItem: Entry)
      requires Valid()
      modifies this
      ensures Valid()
      ensures newItem == Entry(|old(Items(t))|, des, val)
      ensures Items(t) == old(Items(t)) + [newItem]
      ensures Items(Other(t)) == old(Items(Other(t)))
      ensures totalExp == old(totalExp) && totalInc == old(totalInc)
      ensures budget == old(budget) && percentage == old(percentage)
    {
      var id := NextId(Items(t));
      newItem := Entry(id, des, val);
      match t
      case Exp => exp := exp + [newItem];
      case Inc => inc := inc + [newItem];
    }

    /** Recomputes both totals (expenses first), then the budget and the
        percentage. Only the derived values change, and recomputing a ledger
        that already agrees with its lists changes nothing. */
    method CalculateBudget()
      modifies this
      ensures exp == old(exp) && inc == old(inc)
      ensures Calculated()
      ensures old(Calculated()) ==> GetBudget() == old(GetBudget())
    {
      CalculateTotal(Exp);
      CalculateTotal(Inc);
      budget := totalInc - totalExp;
      if totalInc > 0.0 {
        percentage := Round(totalExp / totalInc * 100.0);
      } else {
        percentage := -1;
      }
      assert percentage == Percentage(totalInc, totalExp);
    }

    /** The four derived values. On a recomputed ledger they are the sums of
        the lists, their difference and the percentage of income spent. */
    function GetBudget(): (r: BudgetView)
      reads this
      ensures Calculated() ==>
                && r.totalInc == Sum(inc) && r.totalExp == Sum(exp)
                && r.budget == r.totalInc - r.totalExp
                && r.percentage == Percentage(r.totalInc, r.totalExp)
    {
      BudgetView(budget, totalInc, totalExp, percentage)
    }
  }
}
