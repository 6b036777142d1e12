/** The budgets page: the add/edit budget form and its submit checks, the
    spent figure the page attaches to each budget, and the status, bar width
    and footer figure each budget card shows. */
module BudgetsPage {
  import opened Common
  import Strings
  import Seqs
  import JsNum
  import Arith

  datatype Category = Category(id: string, name: string)

  datatype Budget = Budget(id: string, categoryId: string, month: string, amount: real)

  /** A stored transaction, as far as the spent query looks at it. */
  datatype Txn = Txn(userId: string, categoryId: string, date: string, amount: real)

  datatype BudgetForm = BudgetForm(categoryId: string, month: string, amount: AmountField)

  /** The messages the form can show. */
  datatype FormError = InvalidAmount | NoCategory | SaveFailed(message: string)

  /** The row written for a budget; `parseFloat` of the amount text. */
  datatype BudgetRow = BudgetRow(userId: string, categoryId: string, month: string, amount: Option<real>)

  /** The call to the budgets table a successful submit makes. */
  datatype BudgetWrite = InsertBudget(row: BudgetRow) | UpdateBudget(id: string, row: BudgetRow)

  const SAVE_FAILED: string := "Failed to save budget"

  /** The two checks of `handleSubmit`, in order: the amount first, then the
      category. At most one message results, and none exactly when both pass. */
  function Check(form: BudgetForm): (r: Option<FormError>)
    ensures r == Some(InvalidAmount) <==> AmountRejected(form.amount)
    ensures r == Some(NoCategory) <==> !AmountRejected(form.amount) && form.categoryId == ""
    ensures r.None? <==> !AmountRejected(form.amount) && form.categoryId != ""
  {
    if AmountRejected(form.amount) then Some(InvalidAmount)
    else if form.categoryId == "" then Some(NoCategory)
    else None
  }

  class BudgetModal {
    var form: BudgetForm
    var error: Option<FormError>
    var loading: bool

    /** The initial state, for a current month `currentMonth` (the first
        seven characters of the ISO date, taken from the clock). */
    constructor (currentMonth: string)
      ensures form == BudgetForm("", currentMonth, AmountField(true, None)) && error == None && !loading
    {
      form := BudgetForm("", currentMonth, AmountField(true, None));
      error := None;
      loading := false;
    }

    /** The form effect: editing copies the budget; adding starts from the
        first category (or none), the current month and an empty amount. */
    method Open(editing: Option<Budget>, categories: seq<Category>, currentMonth: string)
      modifies this`form
      ensures editing.Some? ==>
                form == BudgetForm(editing.value.categoryId, editing.value.month, AmountText(editing.value.amount))
      ensures editing.None? ==>
                form.categoryId == (if |categories| > 0 then categories[0].id else "") &&
                form.month == currentMonth && form.amount.empty
    {
      if editing.Some? {
        form := BudgetForm(editing.value.categoryId, editing.value.month, AmountText(editing.value.amount));
      } else {
        form := BudgetForm(if |categories| > 0 then categories[0].id else "", currentMonth, AmountField(true, None));
      }
    }

    /** The category select is disabled while a budget is being edited. */
    method ChangeCategory(editing: bool, categoryId: string)
      modifies this`form
      ensures editing ==> form == old(form)
      ensures !editing ==> form == old(form).(categoryId := categoryId)
    {
      if !editing {
        form := form.(categoryId := categoryId);
      }
    }

    /** The month input is disabled while a budget is being edited. */
    method ChangeMonth(editing: bool, month: string)
      modifies this`form
      ensures editing ==> form == old(form)
      ensures !editing ==> form == old(form).(month := month)
    {
      if !editing {
        form := form.(month := month);
      }
    }

    method ChangeAmount(amount: AmountField)
      modifies this`form
      ensures form == old(form).(amount := amount)
    {
      form := form.(amount := amount);
    }

    /** `handleSubmit`, given whether a user is signed in, the budget being
        edited, and the error the write reported. The message is cleared
        first; a failed check shows its message and writes nothing; otherwise
        the row is updated (editing) or inserted (adding), and the dialog
        closes unless the write failed. */
    method HandleSubmit(signedIn: bool, userId: string, editing: Option<Budget>, writeError: Option<DbError>)
      returns (issued: Option<BudgetWrite>, closed: bool)
      modifies this`error, this`loading
      ensures !signedIn ==> issued == None && !closed && error == None && loading == old(loading)
      ensures signedIn && Check(form).Some? ==>
                issued == None && !closed && error == Check(form) && loading == old(loading)
      ensures signedIn && Check(form).None? ==>
                var row := BudgetRow(userId, form.categoryId, form.month, form.amount.parsed);
                issued == Some(if editing.Some? then UpdateBudget(editing.value.id, row) else InsertBudget(row)) &&
                closed == writeError.None? && !loading &&
                error == (if writeError.Some? then Some(SaveFailed(ErrorText(writeError.value, SAVE_FAILED))) else None)
    {
      issued, closed := None, false;
      error := None;
      if !signedIn {
        return;
      }
      var problem := Check(form);
      if problem.Some? {
        error := problem;
        return;
      }
      loading := true;
      var row := BudgetRow(userId, form.categoryId, form.month, form.amount.parsed);
      issued := Some(if editing.Some? then UpdateBudget(editing.value.id, row) else InsertBudget(row));
      if writeError.Some? {
        error := Some(SaveFailed(ErrorText(writeError.value, SAVE_FAILED)));
      } else {
        closed := true;
      }
      loading := false;
    }
  }

  /** A submitted budget always has a category and an amount that is not
      zero or negative; an amount that parses to NaN gets through. */
  lemma AcceptedForm(form: BudgetForm)
    requires Check(form).None?
    ensures form.categoryId != "" && !form.amount.empty
    ensures form.amount.parsed.Some? ==> form.amount.parsed.value > 0.0
    ensures Check(form.(amount := AmountField(false, None))).None?
  {
  }

  // ---------------------------------------------------------------- spent

  function TxnAmount(t: Txn): real { t.amount }

  /** The spent query: the user's transactions in the budget's category,
      dated from the month's `-01` to its `-31` in ISO text order. */
  function InBudget(userId: string, b: Budget): Txn -> bool {
    (t: Txn) => t.userId == userId && t.categoryId == b.categoryId &&
                Strings.LessEq(b.month + "-01", t.date) && Strings.LessEq(t.date, b.month + "-31")
  }

  /** `transactions?.reduce((sum, t) => sum + t.amount, 0) || 0` over the
      rows the query returns, or `None` when it returned no data. */
  function Spent(table: Option<seq<Txn>>, userId: string, b: Budget): (r: real)
    ensures table.None? ==> r == 0.0
  {
    match table
    case None => 0.0
    case Some(rows) => Seqs.SumBy(Seqs.Filter(rows, InBudget(userId, b)), TxnAmount)
  }

  /** The amount `t` contributes to budget `b`. */
  function Contribution(userId: string, b: Budget): Txn -> real {
    (t: Txn) => if InBudget(userId, b)(t) then t.amount else 0.0
  }

  /** The spent figure adds up exactly the transactions the query selects. */
  lemma SpentIsSum(rows: seq<Txn>, userId: string, b: Budget)
    ensures Spent(Some(rows), userId, b) == Seqs.SumBy(rows, Contribution(userId, b))
  {
    Seqs.SumByFilter(rows, InBudget(userId, b), TxnAmount, Contribution(userId, b));
  }

  /** It does not depend on the order the rows come back in, and other
      users' transactions or other categories never change it. */
  lemma SpentOrderIndependent(a: seq<Txn>, c: seq<Txn>, userId: string, b: Budget)
    requires multiset(a) == multiset(c)
    ensures Spent(Some(a), userId, b) == Spent(Some(c), userId, b)
  {
    SpentIsSum(a, userId, b);
    SpentIsSum(c, userId, b);
    Seqs.SumByPermutation(a, c, Contribution(userId, b));
  }

  lemma SpentIgnoresOthers(rows: seq<Txn>, extra: seq<Txn>, userId: string, b: Budget)
    requires forall i :: 0 <= i < |extra| ==> extra[i].userId != userId || extra[i].categoryId != b.categoryId
    ensures Spent(Some(rows + extra), userId, b) == Spent(Some(rows), userId, b)
  {
    SpentIsSum(rows + extra, userId, b);
    SpentIsSum(rows, userId, b);
    Seqs.SumByConcat(rows, extra, Contribution(userId, b));
    Seqs.SumByZero(extra, Contribution(userId, b));
  }

  // ---------------------------------------------------------------- card

  datatype Status = Over | Warning | OnTrack

  /** The figure below the bar. */
  datatype Footer = OverBy(overage: real) | Left(remaining: real)

  /** What one budget card shows. */
  datatype Card = Card(percentage: JsNum.Num, status: Status, width: JsNum.Num, footer: Footer)

  /** `(spent / amount) * 100`, with no guard against a zero amount. */
  function PercentageOf(spent: real, amount: real): JsNum.Num {
    JsNum.Scale(JsNum.Div(spent, amount), 100.0)
  }

  /** `isOverBudget ? red : isWarning ? yellow : green`. */
  function StatusOf(p: JsNum.Num): (r: Status)
    ensures r == Over <==> JsNum.Gt(p, 100.0)
    ensures r == Warning <==> JsNum.Gt(p, 80.0) && JsNum.Le(p, 100.0)
    ensures r == OnTrack <==> !JsNum.Gt(p, 80.0)
  {
    if JsNum.Gt(p, 100.0) then Over
    else if JsNum.Gt(p, 80.0) && JsNum.Le(p, 100.0) then Warning
    else OnTrack
  }

  function CardOf(spent: real, amount: real): Card {
    var p := PercentageOf(spent, amount);
    var status := StatusOf(p);
    Card(p, status, JsNum.Min(p, 100.0),
         if status == Over then OverBy(spent - amount) else Left(amount - spent))
  }

  /** For a positive amount the bands are over above 100%, warning in
      (80%, 100%], on track at or below 80%: exactly 100% is a warning. */
  lemma Bands(spent: real, amount: real)
    requires amount > 0.0
    ensures var c := CardOf(spent, amount);
            c.percentage == JsNum.Finite(spent / amount * 100.0) &&
            (c.status == Over <==> spent / amount * 100.0 > 100.0) &&
            (c.status == Warning <==> 80.0 < spent / amount * 100.0 <= 100.0) &&
            (c.status == OnTrack <==> spent / amount * 100.0 <= 80.0)
  {
  }

  lemma ExactlyFullIsWarning(amount: real)
    requires amount > 0.0
    ensures CardOf(amount, amount).status == Warning
  {
    assert amount / amount == 1.0;
  }

  /** A zero budget with spending is infinitely over; with no spending the
      percentage is NaN and the card shows on track with an unset width. */
  lemma ZeroAmount(spent: real)
    ensures spent > 0.0 ==> CardOf(spent, 0.0).status == Over && CardOf(spent, 0.0).width == JsNum.Finite(100.0)
    ensures spent == 0.0 ==> CardOf(spent, 0.0).status == OnTrack && CardOf(spent, 0.0).width.NaN?
  {
  }

  /** The bar never draws past 100%. */
  lemma WidthAtMostFull(spent: real, amount: real)
    ensures var w := CardOf(spent, amount).width;
            (w.Finite? ==> w.v <= 100.0) && !w.PosInf?
  {
  }

  /** For an amount that is not negative, an over-budget card shows a
      positive overage and any other card a remaining figure that is not
      negative. */
  lemma FooterSign(spent: real, amount: real)
    requires amount >= 0.0
    ensures var c := CardOf(spent, amount);
            (c.footer.OverBy? <==> c.status == Over) &&
            (c.footer.OverBy? ==> c.footer.overage > 0.0) &&
            (c.footer.Left? ==> c.footer.remaining >= 0.0)
  {
    if amount > 0.0 {
      Arith.QuotientCompare(spent, amount, 1.0);
    }
  }
}
