/** The controller that connects the ledger and the user interface: it
    filters the user's input, adds an accepted entry to the ledger and
    recomputes and displays the budget. Reading the input fields, drawing
    the new entry and clearing the fields are page operations and are not
    modelled; the parsed amount arrives as an optional number, None
    standing for "not a number". */
module Controller {
  import opened Wrappers
  import opened BudgetController
  import opened UiController

  /** One submission of the input form. */
  datatype Input = Input(kind: Kind, description: string, value: Option<real>)

  /** An entry the ledger is meant to hold: a description and a positive amount. */
  predicate WellFormed(e: Entry) {
    e.description != "" && e.value > 0.0
  }

  /** Every entry of a list is well formed. */
  ghost predicate AllWellFormed(items: seq<Entry>) {
    forall i :: 0 <= i < |items| ==> WellFormed(items[i])
  }

  /** The invariant the controller keeps on the ledger: every entry of
      both lists is well formed. */
  ghost predicate EntriesWellFormed(data: Ledger)
    reads data
  {
    AllWellFormed(data.exp) && AllWellFormed(data.inc)
  }

  /** The guard on a submission: a non-empty description and an amount that
      is a number and strictly positive. It accepts exactly the submissions
      whose amount is a number and whose entry, appended to any list of
      well-formed entries, keeps that list well formed. */
  function Accepts(input: Input): (ok: bool)
    ensures ok <==>
              && input.value.Some?
              && forall items :: AllWellFormed(items) ==>
                   AllWellFormed(items + [Entry(|items|, input.description, input.value.value)])
  {
    var ok := input.description != "" && !input.value.None? && input.value.value > 0.0;
    if input.value.Some? then
      var e := Entry(0, input.description, input.value.value);
      assert [] + [e] == [e] && [e][0] == e;
      ok
    else
      ok
  }

  /** On a ledger whose entries are well formed and whose derived values are
      up to date, the percentage is the sentinel -1 exactly when no income
      has been recorded, and is never negative otherwise. */
  lemma WellFormedSentinel(data: Ledger)
    requires EntriesWellFormed(data) && data.Calculated()
    ensures data.percentage == -1 <==> data.inc == []
    ensures data.inc != [] ==> data.percentage >= 0
  {
    assert AllPositive(data.inc) && AllPositive(data.exp) by {
      forall i | 0 <= i < |data.inc| ensures data.inc[i].value > 0.0 {
        assert WellFormed(data.inc[i]);
      }
      forall i | 0 <= i < |data.exp| ensures data.exp[i].value > 0.0 {
        assert WellFormed(data.exp[i]);
      }
    }
    NoIncomeSentinel(data.inc, data.exp);
  }

  /** Recomputes the budget, takes its snapshot and renders the labels. */
  method UpdateBudget(data: Ledger) returns (labels: BudgetLabels)
    modifies data
    ensures data.exp == old(data.exp) && data.inc == old(data.inc)
    ensures data.Calculated()
    ensures labels == DisplayBudget(data.GetBudget())
  {
    data.CalculateBudget();
    var budget := data.GetBudget();
    labels := DisplayBudget(budget);
  }

  /** Handles one submission. A rejected submission changes nothing and
      shows nothing. An accepted one appends exactly one entry, with the
      next id of its kind, to the end of its list, leaves the other list
      alone, brings the derived values back in agreement with the lists
      and shows them. Well-formed entries stay well formed. */
  method CtrlAddItem(data: Ledger, input: Input) returns (newItem: Option<Entry>, labels: Option<BudgetLabels>)
    requires data.Valid()
    modifies data
    ensures data.Valid()
    ensures !Accepts(input) ==>
              && newItem == None && labels == None
              && data.exp == old(data.exp) && data.inc == old(data.inc)
              && data.GetBudget() == old(data.GetBudget())
    ensures Accepts(input) ==>
              && newItem == Some(Entry(|old(data.Items(input.kind))|, input.description, input.value.value))
              && data.Items(input.kind) == old(data.Items(input.kind)) + [newItem.value]
              && data.Items(Other(input.kind)) == old(data.Items(Other(input.kind)))
              && data.Calculated()
              && labels == Some(DisplayBudget(data.GetBudget()))
              && WellFormed(newItem.value)
    ensures old(EntriesWellFormed(data)) ==> EntriesWellFormed(data)
  {
    if Accepts(input) {
      var item := data.AddItem(input.kind, input.description, input.value.value);
      var shown := UpdateBudget(data);
      newItem, labels := Some(item), Some(shown);
      assert data.Items(input.kind)[|data.Items(input.kind)| - 1] == item;
    } else {
      newItem, labels := None, None;
    }
  }

  /** The sums and percentages of the example session below, on its lists.
      A separate lemma only to keep that method's proof small enough. */
  lemma ExampleFigures(salary: Entry, rent: Entry)
    ensures Sum([salary]) == salary.value && Sum([rent]) == rent.value && Sum([]) == 0.0
    ensures Percentage(1000.0, 0.0) == 0 && Percentage(1000.0, 300.0) == 30
  {
  }

  /** An example session: a salary of
      1000, then rent of 300, then a rejected coffee at -5. With income and
      no expenses the percentage is 0 (shown as the placeholder), not the
      sentinel; the rejected entry leaves the snapshot as it was. */
  method ExampleBudget() returns (afterSalary: BudgetView, afterRent: BudgetView, afterCoffee: BudgetView)
    ensures afterSalary == BudgetView(1000.0, 1000.0, 0.0, 0)
    ensures afterRent == BudgetView(700.0, 1000.0, 300.0, 30)
    ensures afterCoffee == afterRent
  {
    var data := new Ledger();
    var salary, _ := CtrlAddItem(data, Input(Inc, "Salary", Some(1000.0)));
    ExampleFigures(salary.value, salary.value);
    assert data.inc == [salary.value] && data.exp == [];
    afterSalary := data.GetBudget();

    var rent, _ := CtrlAddItem(data, Input(Exp, "Rent", Some(300.0)));
    ExampleFigures(salary.value, rent.value);
    assert data.inc == [salary.value] && data.exp == [rent.value];
    afterRent := data.GetBudget();

    var _, _ := CtrlAddItem(data, Input(Exp, "Coffee", Some(-5.0)));
    afterCoffee := data.GetBudget();
  }

  /** The labels of that session: the placeholder while nothing is spent,
      then the rounded percentage with a percent sign. */
  method ExampleLabels() returns (afterSalary: string, afterRent: string)
    ensures afterSalary == "---" && afterRent == "30%"
  {
    afterSalary := PercentageLabel(0);
    var rent := PercentageLabel(30);
    assert rent == Decimal(30) + "%";
    assert Decimal(30) == Decimal(3) + [DigitChar(0)];
    afterRent := rent;
  }

  /** Ids count from 0 in each list independently: a salary, then rent and
      a bus ticket, get ids 0, 0 and 1. */
  method ExampleIds() returns (incomeIds: seq<nat>, expenseIds: seq<nat>)
    ensures incomeIds == [0] && expenseIds == [0, 1]
  {
    var data := new Ledger();
    var salary, _ := CtrlAddItem(data, Input(Inc, "Salary", Some(1000.0)));
    var rent, _ := CtrlAddItem(data, Input(Exp, "Rent", Some(300.0)));
    var bus, _ := CtrlAddItem(data, Input(Exp, "Bus", Some(2.5)));
    incomeIds := [salary.value.id];
    expenseIds := [rent.value.id, bus.value.id];
  }
}
