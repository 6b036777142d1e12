/** The dashboard: today's, this month's and the budget totals, the seven-day
    series, the upcoming bills, the balance and percentage in the header,
    the first categories and the recent transactions. Dates are day numbers;
    every query's rows are inputs. */
module DashboardPage {
  import opened Common
  import Seqs
  import TransactionsPage
  import SummaryCards
  import Arith

  type Transaction = TransactionsPage.Transaction

  datatype Category = Category(id: string, name: string)

  /** One point of the activity chart. */
  datatype DayPoint = DayPoint(day: int, amount: real)

  const BILLS_CATEGORY: string := "Bills & Utilities"

  function Amount(x: real): real { x }

  /** `rows?.reduce((sum, t) => sum + t.amount, 0) || 0` over the amounts a
      query returned, or `None` when it returned no data. */
  function ReplyTotal(rows: Option<seq<real>>): (r: real)
    ensures rows.None? ==> r == 0.0
    ensures rows.Some? && rows.value == [] ==> r == 0.0
  {
    match rows
    case None => 0.0
    case Some(xs) => Seqs.SumBy(xs, Amount)
  }

  /** A total depends only on which amounts came back, not their order. */
  lemma ReplyTotalOrderIndependent(a: seq<real>, b: seq<real>)
    requires multiset(a) == multiset(b)
    ensures ReplyTotal(Some(a)) == ReplyTotal(Some(b))
  {
    Seqs.SumByPermutation(a, b, Amount);
  }

  /** Amounts that are not negative give a total that is not negative. */
  lemma ReplyTotalNonNegative(rows: seq<real>)
    requires forall i :: 0 <= i < |rows| ==> rows[i] >= 0.0
    ensures ReplyTotal(Some(rows)) >= 0.0
  {
    Seqs.SumByNonNegative(rows, Amount);
  }

  /** `last7Days`: seven consecutive days ending today. */
  function Last7Days(today: int): (r: seq<int>)
    ensures |r| == 7 && r[0] == today - 6 && r[6] == today
    ensures forall i :: 0 <= i < 6 ==> r[i + 1] == r[i] + 1
  {
    seq(7, i requires 0 <= i < 7 => today - (6 - i))
  }

  /** Consecutive days are strictly ascending. */
  lemma {:induction false} Last7DaysAscending(today: int, i: nat, j: nat)
    requires i < j < 7
    ensures Last7Days(today)[i] < Last7Days(today)[j]
    decreases j - i
  {
    if i + 1 < j {
      Last7DaysAscending(today, i + 1, j);
    }
  }

  /** The weekly series: one point per day with that day's total. */
  function Weekly(days: seq<int>, replies: seq<Option<seq<real>>>): (r: seq<DayPoint>)
    requires |replies| == |days|
    ensures |r| == |days|
    ensures forall i :: 0 <= i < |days| ==> r[i].day == days[i] && r[i].amount == ReplyTotal(replies[i])
  {
    seq(|days|, i requires 0 <= i < |days| => DayPoint(days[i], ReplyTotal(replies[i])))
  }

  /** The red figure beside the balance: a fixed text, "2.5" when anything
      was spent today and "0.0" otherwise, whatever the amounts. */
  function TodayFigure(todaySpent: real): (r: string)
    ensures r == "2.5" <==> todaySpent > 0.0
    ensures r == "0.0" <==> todaySpent <= 0.0
  {
    if todaySpent > 0.0 then "2.5" else "0.0"
  }

  /** The header balance: what is left of a positive budget, otherwise the
      spending itself. */
  function Balance(budget: real, spent: real): real {
    if budget > 0.0 then budget - spent else spent
  }

  /** The header balance is not negative exactly when the spending is at most
      100% of a positive budget; without a budget it is the spending and the
      percentage is 0. */
  lemma BalanceAgreesWithPercentage(budget: real, spent: real)
    ensures budget > 0.0 ==> (Balance(budget, spent) >= 0.0 <==> SummaryCards.BudgetPercentage(budget, spent) <= 100.0)
    ensures budget <= 0.0 ==> Balance(budget, spent) == spent && SummaryCards.BudgetPercentage(budget, spent) == 0.0
  {
    if budget > 0.0 {
      Arith.QuotientCompare(spent, budget, 1.0);
    }
  }

  /** The bills category lookup `.eq('name', 'Bills & Utilities').maybeSingle()`
      over the user's categories: the id when exactly one category has that
      exact name. */
  function BillsCategory(table: seq<Category>): (r: Option<string>)
    ensures r.Some? ==> exists i :: 0 <= i < |table| && table[i].name == BILLS_CATEGORY && table[i].id == r.value
    ensures (forall i :: 0 <= i < |table| ==> table[i].name != BILLS_CATEGORY) ==> r.None?
  {
    var named := Seqs.Filter(table, (c: Category) => c.name == BILLS_CATEGORY);
    if |named| == 1 then Some(named[0].id) else None
  }

  /** `categories.slice(0, 4)`. */
  function FirstCategories(categories: seq<Category>): (r: seq<Category>)
    ensures |r| <= 4 && |r| <= |categories| && r == categories[..|r|]
    ensures |r| == (if |categories| < 4 then |categories| else 4)
  {
    if |categories| <= 4 then categories else categories[..4]
  }

  /** What `Promise.all` and the later queries of `fetchData` returned. */
  datatype Replies = Replies(
    categories: Option<seq<Category>>, transactions: Option<seq<Transaction>>,
    budgetAmounts: Option<seq<real>>, todayAmounts: Option<seq<real>>, monthAmounts: Option<seq<real>>,
    dailyAmounts: seq<Option<seq<real>>>, categoryTable: seq<Category>, nextMonthBills: Option<seq<real>>)

  class Board {
    var categories: seq<Category>
    var transactions: seq<Transaction>
    var todaySpent: real
    var monthlySpent: real
    var monthlyBudget: real
    var weekly: seq<DayPoint>
    var upcomingBills: real
    var pendingDelete: Option<string>
    var loading: bool

    constructor ()
      ensures categories == [] && transactions == [] && weekly == [] && pendingDelete == None
      ensures todaySpent == 0.0 && monthlySpent == 0.0 && monthlyBudget == 0.0 && upcomingBills == 0.0
      ensures loading
    {
      categories, transactions, weekly, pendingDelete := [], [], [], None;
      todaySpent, monthlySpent, monthlyBudget, upcomingBills := 0.0, 0.0, 0.0, 0.0;
      loading := true;
    }

    /** `fetchData`, for the day `today`. Lists are replaced only when data
        came back; each total is 0 without data; the bills figure is
        refreshed only when the bills category exists. */
    method FetchData(signedIn: bool, today: int, r: Replies)
      requires |r.dailyAmounts| == 7
      modifies this
      ensures !signedIn ==> categories == old(categories) && transactions == old(transactions) &&
                            todaySpent == old(todaySpent) && monthlySpent == old(monthlySpent) &&
                            monthlyBudget == old(monthlyBudget) && weekly == old(weekly) &&
                            upcomingBills == old(upcomingBills) && loading == old(loading)
      ensures pendingDelete == old(pendingDelete)
      ensures signedIn ==>
                categories == r.categories.GetOr(old(categories)) &&
                transactions == r.transactions.GetOr(old(transactions)) &&
                todaySpent == ReplyTotal(r.todayAmounts) && monthlySpent == ReplyTotal(r.monthAmounts) &&
                monthlyBudget == ReplyTotal(r.budgetAmounts) &&
                weekly == Weekly(Last7Days(today), r.dailyAmounts) && !loading
      ensures signedIn ==>
                upcomingBills == (if BillsCategory(r.categoryTable).Some? then ReplyTotal(r.nextMonthBills)
                                  else old(upcomingBills))
    {
      if !signedIn {
        return;
      }
      loading := true;
      categories, transactions := r.categories.GetOr(categories), r.transactions.GetOr(transactions);
      SetTotals(r);
      weekly := Weekly(Last7Days(today), r.dailyAmounts);
      SetBills(r);
      loading := false;
    }

    /** The three sums of `fetchData`. */
    method SetTotals(r: Replies)
      modifies this`todaySpent, this`monthlySpent, this`monthlyBudget
      ensures todaySpent == ReplyTotal(r.todayAmounts) && monthlySpent == ReplyTotal(r.monthAmounts)
      ensures monthlyBudget == ReplyTotal(r.budgetAmounts)
    {
      todaySpent, monthlySpent, monthlyBudget := ReplyTotal(r.todayAmounts), ReplyTotal(r.monthAmounts), ReplyTotal(r.budgetAmounts);
    }

    /** The bills query of `fetchData`, which runs only when the bills
        category exists. */
    method SetBills(r: Replies)
      modifies this`upcomingBills
      ensures upcomingBills == (if BillsCategory(r.categoryTable).Some? then ReplyTotal(r.nextMonthBills)
                                else old(upcomingBills))
    {
      var bills := BillsCategory(r.categoryTable);
      if bills.Some? {
        upcomingBills := ReplyTotal(r.nextMonthBills);
      }
    }

    /** The recent-transactions list: the loaded ones without the one whose
        deletion is pending. */
    function Recent(): seq<Transaction>
      reads this
    {
      TransactionsPage.Displayed(transactions, pendingDelete)
    }

    /** `handleDeleteTransaction`: the transaction is hidden at once; the
        delayed delete itself is left to the timer. */
    method MarkForDelete(id: string)
      modifies this`pendingDelete
      ensures pendingDelete == Some(id)
      ensures forall i :: 0 <= i < |Recent()| ==> Recent()[i].id != id
    {
      pendingDelete := Some(id);
      TransactionsPage.DisplayedOmitsPending(transactions, id);
    }

    /** The toast's Undo action: nothing is hidden any more. */
    method Undo()
      modifies this`pendingDelete
      ensures pendingDelete == None && Recent() == transactions
    {
      pendingDelete := None;
    }
  }
}
