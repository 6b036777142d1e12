/** The summary cards: the month's budget percentage with its zero guard,
    the over-budget flag, the bar width and the overage line. */
module SummaryCards {
  import Arith

  /** `monthlyBudget > 0 ? (monthlySpent / monthlyBudget) * 100 : 0`. */
  function BudgetPercentage(budget: real, spent: real): (r: real)
    ensures budget <= 0.0 ==> r == 0.0
    ensures budget > 0.0 ==> r * budget == spent * 100.0
  {
    if budget > 0.0 then spent / budget * 100.0 else 0.0
  }

  predicate IsOverBudget(budget: real, spent: real) {
    BudgetPercentage(budget, spent) > 100.0
  }

  /** `Math.min(budgetPercentage, 100)`. */
  function BarWidth(budget: real, spent: real): (r: real)
    ensures r <= 100.0
    ensures r == 100.0 || r == BudgetPercentage(budget, spent)
  {
    var p := BudgetPercentage(budget, spent);
    if p <= 100.0 then p else 100.0
  }

  /** The figure of the "Over budget by" line, shown only when over budget. */
  function Overage(budget: real, spent: real): (r: OverageLine)
    ensures r.Shown? <==> IsOverBudget(budget, spent)
    ensures r.Shown? ==> r.amount == spent - budget
  {
    if IsOverBudget(budget, spent) then Shown(spent - budget) else Hidden
  }

  datatype OverageLine = Hidden | Shown(amount: real)

  /** Over budget means spending above a positive budget; a budget that is
      zero or negative never shows as over. */
  lemma OverBudgetIff(budget: real, spent: real)
    ensures IsOverBudget(budget, spent) <==> budget > 0.0 && spent > budget
  {
    if budget > 0.0 {
      Arith.QuotientCompare(spent, budget, 1.0);
    }
  }

  /** The overage line, when shown, names a positive amount. */
  lemma OverageIsPositive(budget: real, spent: real)
    ensures Overage(budget, spent).Shown? ==> Overage(budget, spent).amount > 0.0
  {
    OverBudgetIff(budget, spent);
  }

  /** With no negative spending the bar lies between empty and full. */
  lemma WidthInRange(budget: real, spent: real)
    requires spent >= 0.0
    ensures 0.0 <= BarWidth(budget, spent) <= 100.0
  {
    if budget > 0.0 {
      Arith.QuotientCompare(spent, budget, 0.0);
    }
  }
}
