/** The budget-alert engine (`generateAlerts`): given the user's enabled alert
    settings, this month's budgets, this month's transactions and the
    categories, it evaluates each setting against the spending and returns
    the alerts that fire, one per (setting, title), newest first.

    The four database replies and the clock are parameters. */
module Alerts {
  import opened Common
  import Strings
  import Seqs
  import Tally
  import Unique
  import StableSort

  // ---------------------------------------------------------------- data

  datatype AlertKind = CategoryThreshold | TotalBudgetThreshold | MonthlyCompletion

  /** A row of the alert_settings table. */
  datatype AlertSetting = AlertSetting(
    id: string,
    kind: AlertKind,
    categoryId: Option<string>,
    threshold: real,
    isEnabled: bool)

  /** A row of the budgets table (one category, one `YYYY-MM` month). */
  datatype Budget = Budget(id: string, categoryId: string, amount: real, month: string)

  /** The two columns of a transaction the engine selects. */
  datatype Txn = Txn(categoryId: string, amount: real)

  datatype Category = Category(id: string, name: string)

  datatype Severity = Success | Error | Warning | Info

  /** The quantities each alert message embeds; the wording is left out. */
  datatype Message =
    | CategoryExceeded(threshold: real, categoryName: string, percentage: real, spent: real, budget: real)
    | TotalExceeded(threshold: real, percentage: real, spent: real, budget: real)
    | MonthWithinBudget(spent: real, budget: real, percentage: real)
    | MonthOverBudget(overage: real, spent: real, budget: real, percentage: real)

  datatype GeneratedAlert = GeneratedAlert(
    id: string,
    severity: Severity,
    title: string,
    message: Message,
    timestamp: int,
    settingId: Option<string>)

  /** The clock, read once: milliseconds since the epoch, the day of the
      month, the number of days in the month, and the month as `YYYY-MM`. */
  datatype Clock = Clock(nowMs: nat, currentDay: int, daysInMonth: int, currentMonth: string)

  /** What one evaluation pass has computed before it looks at the settings. */
  datatype Context = Context(
    budgets: seq<Budget>,
    categories: seq<Category>,
    spending: Tally.Table<string>,
    totalBudget: real,
    totalSpending: real,
    clock: Clock)

  const CATEGORY_TITLE: string := "Budget Alert"
  const TOTAL_TITLE: string := "Total Budget Alert"
  /** The title exactly as the source spells it: the UTF-8 bytes of the
      party-popper emoji read back as Windows-1252 text. */
  const COMPLETED_TITLE: string := "Monthly Goal Achieved! \U{00F0}\U{0178}\U{017D}\U{2030}"
  const EXCEEDED_TITLE: string := "Monthly Budget Exceeded"

  // ---------------------------------------------------------------- aggregation

  /** A string is truthy when it is present and not empty. */
  predicate Truthy(s: Option<string>) {
    s.Some? && s.value != ""
  }

  function TxnCategory(t: Txn): string { t.categoryId }

  function TxnAmount(t: Txn): real { t.amount }

  function BudgetAmount(b: Budget): real { b.amount }

  /** The transactions filed under category `c`. */
  function InCategory(c: string): Txn -> bool {
    (t: Txn) => t.categoryId == c
  }

  /** `categorySpending`: the per-category tally of transaction amounts. */
  function CategorySpending(txns: seq<Txn>): Tally.Table<string> {
    Tally.TallyOf(txns, TxnCategory, TxnAmount)
  }

  /** `budgets.reduce((sum, b) => sum + b.amount, 0)`. */
  function TotalBudget(budgets: seq<Budget>): real {
    Seqs.SumBy(budgets, BudgetAmount)
  }

  /** `budgets.find(b => b.category_id === c)`. */
  function FindBudget(budgets: seq<Budget>, c: string): (r: Option<Budget>)
    ensures r.None? <==> forall i :: 0 <= i < |budgets| ==> budgets[i].categoryId != c
    ensures r.Some? ==> exists i :: 0 <= i < |budgets| && budgets[i] == r.value && r.value.categoryId == c &&
                                    forall j :: 0 <= j < i ==> budgets[j].categoryId != c
  {
    if budgets == [] then None
    else if budgets[0].categoryId == c then Some(budgets[0])
    else
      var r := FindBudget(budgets[1..], c);
      assert r.Some? ==> exists i :: 1 <= i < |budgets| && budgets[i] == r.value &&
                                     forall j :: 1 <= j < i ==> budgets[j].categoryId != c by {
        if r.Some? {
          var i :| 0 <= i < |budgets[1..]| && budgets[1..][i] == r.value &&
                   forall j :: 0 <= j < i ==> budgets[1..][j].categoryId != c;
          assert budgets[i + 1] == r.value;
          forall j | 1 <= j < i + 1 ensures budgets[j].categoryId != c {
            assert budgets[j] == budgets[1..][j - 1];
          }
        }
      }
      r
  }

  /** `categories.find(c => c.id === id)?.name || 'category'`. */
  function CategoryName(categories: seq<Category>, id: string): (r: string)
    ensures r != ""
    ensures (forall i :: 0 <= i < |categories| ==> categories[i].id != id) ==> r == "category"
    ensures forall i :: 0 <= i < |categories| && categories[i].id == id &&
                        (forall j :: 0 <= j < i ==> categories[j].id != id) ==>
                        r == (if categories[i].name != "" then categories[i].name else "category")
  {
    if categories == [] then "category"
    else if categories[0].id == id then (if categories[0].name != "" then categories[0].name else "category")
    else
      var r := CategoryName(categories[1..], id);
      assert forall i :: 1 <= i < |categories| && categories[i].id == id &&
                         (forall j :: 1 <= j < i ==> categories[j].id != id) ==>
                         r == (if categories[i].name != "" then categories[i].name else "category") by {
        forall i | 1 <= i < |categories| && categories[i].id == id &&
                   (forall j :: 1 <= j < i ==> categories[j].id != id)
          ensures r == (if categories[i].name != "" then categories[i].name else "category")
        {
          assert categories[1..][i - 1] == categories[i];
          forall j | 0 <= j < i - 1 ensures categories[1..][j].id != id {
            assert categories[1..][j] == categories[j + 1];
          }
        }
      }
      r
  }

  /** The percentage of a budget that has been spent, 0 when the budget is
      not positive. */
  function Percentage(spent: real, budget: real): real {
    if budget > 0.0 then spent / budget * 100.0 else 0.0
  }

  /** The severity of both threshold rules. */
  function ThresholdSeverity(percentage: real): (r: Severity)
    ensures r == Error <==> percentage >= 100.0
    ensures r == Warning <==> percentage < 100.0
  {
    if percentage >= 100.0 then Error else Warning
  }

  /** The last three days of the month. The source also fires when two reads
      of the clock fall in different months; that never happens within one
      read, so the model leaves that disjunct out. */
  predicate NearMonthEnd(clock: Clock) {
    clock.currentDay >= clock.daysInMonth - 2
  }

  // ---------------------------------------------------------------- rules

  /** The alert one setting raises, if any. */
  function Evaluate(s: AlertSetting, ctx: Context): (r: Option<GeneratedAlert>)
    ensures r.Some? ==> r.value.settingId == Some(s.id) && r.value.timestamp == ctx.clock.nowMs
    ensures r.Some? && s.kind != MonthlyCompletion ==>
              (r.value.severity == Error || r.value.severity == Warning)
    ensures r.Some? && s.kind == MonthlyCompletion ==>
              (r.value.severity == Success || r.value.severity == Error)
  {
    var stamp := Strings.NatToString(ctx.clock.nowMs);
    if s.kind == CategoryThreshold && Truthy(s.categoryId) then
      var c := s.categoryId.value;
      match FindBudget(ctx.budgets, c)
      case None => None
      case Some(b) =>
        var spent := Tally.Get(ctx.spending, c);
        var pct := Percentage(spent, b.amount);
        if pct >= s.threshold then
          Some(GeneratedAlert("category-" + s.id + "-" + stamp, ThresholdSeverity(pct), CATEGORY_TITLE,
                              CategoryExceeded(s.threshold, CategoryName(ctx.categories, c), pct, spent, b.amount),
                              ctx.clock.nowMs, Some(s.id)))
        else None
    else if s.kind == TotalBudgetThreshold then
      var pct := Percentage(ctx.totalSpending, ctx.totalBudget);
      if pct >= s.threshold then
        Some(GeneratedAlert("total-" + s.id + "-" + stamp, ThresholdSeverity(pct), TOTAL_TITLE,
                            TotalExceeded(s.threshold, pct, ctx.totalSpending, ctx.totalBudget),
                            ctx.clock.nowMs, Some(s.id)))
      else None
    else if s.kind == MonthlyCompletion then
      if NearMonthEnd(ctx.clock) && ctx.totalBudget > 0.0 then
        var pct := ctx.totalSpending / ctx.totalBudget * 100.0;
        if pct <= 100.0 then
          Some(GeneratedAlert("completion-" + s.id + "-" + ctx.clock.currentMonth, Success, COMPLETED_TITLE,
                              MonthWithinBudget(ctx.totalSpending, ctx.totalBudget, pct),
                              ctx.clock.nowMs, Some(s.id)))
        else
          Some(GeneratedAlert("completion-over-" + s.id + "-" + ctx.clock.currentMonth, Error, EXCEEDED_TITLE,
                              MonthOverBudget(ctx.totalSpending - ctx.totalBudget, ctx.totalSpending, ctx.totalBudget, pct),
                              ctx.clock.nowMs, Some(s.id)))
      else None
    else None
  }

  /** The alerts array after the loop over the settings. */
  function EvaluateAll(settings: seq<AlertSetting>, ctx: Context): (r: seq<GeneratedAlert>)
    ensures |r| <= |settings|
    ensures forall i :: 0 <= i < |r| ==>
              exists j :: 0 <= j < |settings| && Evaluate(settings[j], ctx) == Some(r[i])
    decreases |settings|
  {
    if settings == [] then []
    else
      var init := settings[..|settings| - 1];
      var prev := EvaluateAll(init, ctx);
      assert forall i :: 0 <= i < |prev| ==>
               exists j :: 0 <= j < |settings| && Evaluate(settings[j], ctx) == Some(prev[i]) by {
        forall i | 0 <= i < |prev|
          ensures exists j :: 0 <= j < |settings| && Evaluate(settings[j], ctx) == Some(prev[i])
        {
          var j :| 0 <= j < |init| && Evaluate(init[j], ctx) == Some(prev[i]);
          assert settings[j] == init[j];
        }
      }
      match Evaluate(settings[|settings| - 1], ctx)
      case None => prev
      case Some(a) => prev + [a]
  }

  // ---------------------------------------------------------------- dedup and order

  /** `alert_setting_id || id`. */
  function SettingKey(a: GeneratedAlert): string {
    if Truthy(a.settingId) then a.settingId.value else a.id
  }

  /** `${alert_setting_id || id}-${title}`. */
  function DedupKey(a: GeneratedAlert): string {
    SettingKey(a) + "-" + a.title
  }

  function Timestamp(a: GeneratedAlert): int { a.timestamp }

  /** The `unique` map's values: the first alert for each key, in order. */
  function Dedup(alerts: seq<GeneratedAlert>): seq<GeneratedAlert> {
    Unique.DedupBy(alerts, DedupKey)
  }

  /** Newest first, equal timestamps in their original order. */
  function NewestFirst(alerts: seq<GeneratedAlert>): seq<GeneratedAlert> {
    StableSort.SortDesc(alerts, Timestamp)
  }

  // ---------------------------------------------------------------- engine

  /** The alert settings the engine goes on to evaluate: none when the
      fetch reported the missing table or returned no rows. */
  function SettingsToEvaluate(settingsReply: Reply<seq<AlertSetting>>): (r: seq<AlertSetting>)
    ensures HasMissingTable(settingsReply.error) ==> r == []
    ensures settingsReply.data.None? ==> r == []
    ensures !HasMissingTable(settingsReply.error) && settingsReply.data.Some? ==> r == settingsReply.data.value
  {
    if HasMissingTable(settingsReply.error) then []
    else if settingsReply.data.None? then []
    else settingsReply.data.value
  }

  function ContextOf(budgets: seq<Budget>, txns: seq<Txn>, categories: seq<Category>, clock: Clock): Context {
    var spending := CategorySpending(txns);
    Context(budgets, categories, spending, TotalBudget(budgets), Tally.SumValues(spending), clock)
  }

  /** `generateAlerts` as a function of the four replies and the clock. An
      absent reply for budgets, transactions or categories reads as empty. */
  function Engine(settingsReply: Reply<seq<AlertSetting>>, budgetsReply: Reply<seq<Budget>>,
                  txnsReply: Reply<seq<Txn>>, categoriesReply: Reply<seq<Category>>, clock: Clock): seq<GeneratedAlert>
  {
    var settings := SettingsToEvaluate(settingsReply);
    if settings == [] then []
    else
      var ctx := ContextOf(budgetsReply.data.GetOr([]), txnsReply.data.GetOr([]), categoriesReply.data.GetOr([]), clock);
      NewestFirst(Dedup(EvaluateAll(settings, ctx)))
  }

  /** The `forEach` that fills `categorySpending`. */
  method TallySpending(txns: seq<Txn>) returns (spending: Tally.Table<string>)
    ensures spending == CategorySpending(txns)
  {
    spending := [];
    var i := 0;
    while i < |txns|
      invariant 0 <= i <= |txns|
      invariant spending == Tally.TallyOf(txns[..i], TxnCategory, TxnAmount)
    {
      assert txns[..i + 1][..i] == txns[..i];
      spending := Tally.Add(spending, txns[i].categoryId, txns[i].amount);
      i := i + 1;
    }
    assert txns[..|txns|] == txns;
  }

  /** The `for` loop that pushes one alert per firing setting. */
  method EvaluateSettings(settings: seq<AlertSetting>, ctx: Context) returns (alerts: seq<GeneratedAlert>)
    ensures alerts == EvaluateAll(settings, ctx)
  {
    alerts := [];
    var k := 0;
    while k < |settings|
      invariant 0 <= k <= |settings|
      invariant alerts == EvaluateAll(settings[..k], ctx)
    {
      EvaluateAllSnoc(settings, k, ctx);
      var alert := Evaluate(settings[k], ctx);
      if alert.Some? {
        alerts := alerts + [alert.value];
      }
      k := k + 1;
    }
    assert settings[..|settings|] == settings;
  }

  /** One more setting adds its alert, if it fires. */
  lemma EvaluateAllSnoc(settings: seq<AlertSetting>, k: nat, ctx: Context)
    requires k < |settings|
    ensures EvaluateAll(settings[..k + 1], ctx) ==
            EvaluateAll(settings[..k], ctx) + (if Evaluate(settings[k], ctx).Some? then [Evaluate(settings[k], ctx).value] else [])
  {
    assert settings[..k + 1][..k] == settings[..k];
  }

  /** The `forEach` that fills the `unique` map. */
  method DedupAlerts(alerts: seq<GeneratedAlert>) returns (unique: seq<GeneratedAlert>)
    ensures unique == Dedup(alerts)
  {
    unique := [];
    var n := 0;
    while n < |alerts|
      invariant 0 <= n <= |alerts|
      invariant unique == Unique.DedupBy(alerts[..n], DedupKey)
    {
      assert alerts[..n + 1][..n] == alerts[..n];
      if !Unique.KeyPresent(unique, DedupKey, DedupKey(alerts[n])) {
        unique := unique + [alerts[n]];
      }
      n := n + 1;
    }
    assert alerts[..|alerts|] == alerts;
  }

  /** One evaluation pass in the order of the source. */
  method GenerateAlerts(settingsReply: Reply<seq<AlertSetting>>, budgetsReply: Reply<seq<Budget>>,
                        txnsReply: Reply<seq<Txn>>, categoriesReply: Reply<seq<Category>>, clock: Clock)
    returns (result: seq<GeneratedAlert>)
    ensures result == Engine(settingsReply, budgetsReply, txnsReply, categoriesReply, clock)
  {
    if HasMissingTable(settingsReply.error) {
      return [];
    }
    if settingsReply.data.None? || |settingsReply.data.value| == 0 {
      return [];
    }
    var settings := settingsReply.data.value;
    var budgets := budgetsReply.data.GetOr([]);
    var txns := txnsReply.data.GetOr([]);
    var categories := categoriesReply.data.GetOr([]);
    var spending := TallySpending(txns);
    var ctx := Context(budgets, categories, spending, TotalBudget(budgets), Tally.SumValues(spending), clock);
    var alerts := EvaluateSettings(settings, ctx);
    var unique := DedupAlerts(alerts);
    result := NewestFirst(unique);
  }

  // ---------------------------------------------------------------- properties

  /** With no settings to evaluate (the missing-table error, no rows, or an
      empty list) the engine returns no alerts. */
  lemma EngineEmptyWithoutSettings(settingsReply: Reply<seq<AlertSetting>>, budgetsReply: Reply<seq<Budget>>,
                                   txnsReply: Reply<seq<Txn>>, categoriesReply: Reply<seq<Category>>, clock: Clock)
    requires HasMissingTable(settingsReply.error) || settingsReply.data.None? || settingsReply.data == Some([])
    ensures Engine(settingsReply, budgetsReply, txnsReply, categoriesReply, clock) == []
  {
  }

  /** The spending of a category is the sum of the amounts of its transactions. */
  lemma CategorySpendingIsSum(txns: seq<Txn>, c: string)
    ensures Tally.Get(CategorySpending(txns), c) == Seqs.SumBy(Seqs.Filter(txns, InCategory(c)), TxnAmount)
  {
    Tally.GetTallyOf(txns, TxnCategory, TxnAmount, c);
    var g := Tally.Masked(TxnCategory, TxnAmount, c);
    forall x: Txn ensures g(x) == (if InCategory(c)(x) then TxnAmount(x) else 0.0) {
      assert g(x) == (if TxnCategory(x) == c then TxnAmount(x) else 0.0);
    }
    Seqs.SumByFilter(txns, InCategory(c), TxnAmount, Tally.Masked(TxnCategory, TxnAmount, c));
  }

  /** `totalSpending`, the sum of the per-category figures, is the sum of all amounts. */
  lemma TotalSpendingIsSum(txns: seq<Txn>)
    ensures Tally.SumValues(CategorySpending(txns)) == Seqs.SumBy(txns, TxnAmount)
  {
    Tally.SumValuesTallyOf(txns, TxnCategory, TxnAmount);
  }

  /** Neither the per-category spending, the total spending nor the total
      budget depends on the order the rows arrive in. */
  lemma FiguresOrderIndependent(t1: seq<Txn>, t2: seq<Txn>, b1: seq<Budget>, b2: seq<Budget>, c: string)
    requires multiset(t1) == multiset(t2) && multiset(b1) == multiset(b2)
    ensures Tally.Get(CategorySpending(t1), c) == Tally.Get(CategorySpending(t2), c)
    ensures Tally.SumValues(CategorySpending(t1)) == Tally.SumValues(CategorySpending(t2))
    ensures TotalBudget(b1) == TotalBudget(b2)
  {
    Tally.TallyOrderIndependent(t1, t2, TxnCategory, TxnAmount, c);
    Seqs.SumByPermutation(b1, b2, BudgetAmount);
  }

  /** Against a positive budget, the percentage reaches 100 exactly when the
      spending reaches the budget, and passes it exactly when the spending does. */
  lemma PercentageBands(spent: real, budget: real)
    requires budget > 0.0
    ensures Percentage(spent, budget) >= 100.0 <==> spent >= budget
    ensures Percentage(spent, budget) <= 100.0 <==> spent <= budget
    ensures Percentage(spent, budget) > 100.0 <==> spent > budget
  {
    var q := spent / budget;
    assert q * budget == spent;
    assert (q - 1.0) * budget == spent - budget;
    if q >= 1.0 {
      assert (q - 1.0) * budget >= 0.0;
    } else {
      assert (1.0 - q) * budget > 0.0;
    }
    if q <= 1.0 {
      assert (1.0 - q) * budget >= 0.0;
    } else {
      assert (q - 1.0) * budget > 0.0;
    }
  }

  /** A category rule fires only for a named category with a budget row; then
      it fires exactly when the category's percentage reaches the threshold,
      as an error from 100% on and as a warning below. */
  lemma CategoryRule(s: AlertSetting, ctx: Context)
    requires s.kind == CategoryThreshold
    ensures !Truthy(s.categoryId) ==> Evaluate(s, ctx) == None
    ensures Truthy(s.categoryId) && FindBudget(ctx.budgets, s.categoryId.value).None? ==> Evaluate(s, ctx) == None
    ensures Truthy(s.categoryId) && FindBudget(ctx.budgets, s.categoryId.value).Some? ==>
              var c := s.categoryId.value;
              var b := FindBudget(ctx.budgets, c).value;
              var pct := Percentage(Tally.Get(ctx.spending, c), b.amount);
              (Evaluate(s, ctx).Some? <==> pct >= s.threshold) &&
              (Evaluate(s, ctx).Some? ==>
                 Evaluate(s, ctx).value.title == CATEGORY_TITLE &&
                 (Evaluate(s, ctx).value.severity == Error <==> pct >= 100.0) &&
                 Evaluate(s, ctx).value.message ==
                   CategoryExceeded(s.threshold, CategoryName(ctx.categories, c), pct, Tally.Get(ctx.spending, c), b.amount))
  {
  }

  /** The total rule fires exactly when the total percentage reaches the
      threshold; with no positive total budget the percentage is 0, so it
      fires exactly when the threshold is at most 0. */
  lemma TotalRule(s: AlertSetting, ctx: Context)
    requires s.kind == TotalBudgetThreshold
    ensures Evaluate(s, ctx).Some? <==> Percentage(ctx.totalSpending, ctx.totalBudget) >= s.threshold
    ensures ctx.totalBudget <= 0.0 ==> (Evaluate(s, ctx).Some? <==> s.threshold <= 0.0)
    ensures Evaluate(s, ctx).Some? ==>
              Evaluate(s, ctx).value.title == TOTAL_TITLE &&
              (Evaluate(s, ctx).value.severity == Error <==> ctx.totalBudget > 0.0 && ctx.totalSpending >= ctx.totalBudget)
  {
    if ctx.totalBudget > 0.0 {
      PercentageBands(ctx.totalSpending, ctx.totalBudget);
    }
  }

  /** The completion rule fires only in the last three days of the month and
      with a positive total budget: a success when the spending stayed within
      the budget, otherwise an error that reports a positive overage. */
  lemma CompletionRule(s: AlertSetting, ctx: Context)
    requires s.kind == MonthlyCompletion
    ensures Evaluate(s, ctx).Some? <==> NearMonthEnd(ctx.clock) && ctx.totalBudget > 0.0
    ensures Evaluate(s, ctx).Some? ==>
              (Evaluate(s, ctx).value.severity == Success <==> ctx.totalSpending <= ctx.totalBudget) &&
              (Evaluate(s, ctx).value.severity == Success ==> Evaluate(s, ctx).value.title == COMPLETED_TITLE) &&
              (Evaluate(s, ctx).value.severity == Error ==>
                 Evaluate(s, ctx).value.title == EXCEEDED_TITLE &&
                 Evaluate(s, ctx).value.message.MonthOverBudget? &&
                 Evaluate(s, ctx).value.message.overage == ctx.totalSpending - ctx.totalBudget > 0.0)
  {
    if ctx.totalBudget > 0.0 {
      PercentageBands(ctx.totalSpending, ctx.totalBudget);
    }
  }

  /** Every alert of a pass carries the pass's one timestamp, so the final
      sort keeps the de-duplicated alerts in the order their settings came. */
  lemma EngineKeepsSettingOrder(settingsReply: Reply<seq<AlertSetting>>, budgetsReply: Reply<seq<Budget>>,
                                txnsReply: Reply<seq<Txn>>, categoriesReply: Reply<seq<Category>>, clock: Clock)
    requires SettingsToEvaluate(settingsReply) != []
    ensures Engine(settingsReply, budgetsReply, txnsReply, categoriesReply, clock) ==
            Dedup(EvaluateAll(SettingsToEvaluate(settingsReply),
                              ContextOf(budgetsReply.data.GetOr([]), txnsReply.data.GetOr([]), categoriesReply.data.GetOr([]), clock)))
  {
    var settings := SettingsToEvaluate(settingsReply);
    var ctx := ContextOf(budgetsReply.data.GetOr([]), txnsReply.data.GetOr([]), categoriesReply.data.GetOr([]), clock);
    AlertsOfOnePass(settings, ctx);
    PassAfterDedup(EvaluateAll(settings, ctx), settings, clock.nowMs);
  }

  lemma AlertsOfOnePass(settings: seq<AlertSetting>, ctx: Context)
    ensures forall i :: 0 <= i < |EvaluateAll(settings, ctx)| ==>
              EvaluateAll(settings, ctx)[i].timestamp == ctx.clock.nowMs &&
              exists j :: 0 <= j < |settings| && EvaluateAll(settings, ctx)[i].settingId == Some(settings[j].id)
  {
    var r := EvaluateAll(settings, ctx);
    forall i | 0 <= i < |r|
      ensures r[i].timestamp == ctx.clock.nowMs && exists j :: 0 <= j < |settings| && r[i].settingId == Some(settings[j].id)
    {
      var j :| 0 <= j < |settings| && Evaluate(settings[j], ctx) == Some(r[i]);
    }
  }

  /** What one pass returns: at most one alert per setting, each tied to a
      setting by its id, no two with the same key, newest first. */
  lemma EngineProperties(settingsReply: Reply<seq<AlertSetting>>, budgetsReply: Reply<seq<Budget>>,
                         txnsReply: Reply<seq<Txn>>, categoriesReply: Reply<seq<Category>>, clock: Clock)
    ensures var r := Engine(settingsReply, budgetsReply, txnsReply, categoriesReply, clock);
            var settings := SettingsToEvaluate(settingsReply);
            |r| <= |settings| &&
            Unique.DistinctKeys(r, DedupKey) &&
            StableSort.Descending(r, Timestamp) &&
            forall i :: 0 <= i < |r| ==> exists j :: 0 <= j < |settings| && r[i].settingId == Some(settings[j].id)
  {
    var settings := SettingsToEvaluate(settingsReply);
    if settings != [] {
      var ctx := ContextOf(budgetsReply.data.GetOr([]), txnsReply.data.GetOr([]), categoriesReply.data.GetOr([]), clock);
      var alerts := EvaluateAll(settings, ctx);
      AlertsOfOnePass(settings, ctx);
      PassAfterDedup(alerts, settings, clock.nowMs);
      EngineKeepsSettingOrder(settingsReply, budgetsReply, txnsReply, categoriesReply, clock);
      Unique.DedupDistinct(alerts, DedupKey);
    }
  }

  /** De-duplicating the alerts of one pass keeps each alert's timestamp and
      setting, and leaves a list the newest-first sort does not move. */
  lemma PassAfterDedup(alerts: seq<GeneratedAlert>, settings: seq<AlertSetting>, now: int)
    requires forall i :: 0 <= i < |alerts| ==>
               alerts[i].timestamp == now && exists j :: 0 <= j < |settings| && alerts[i].settingId == Some(settings[j].id)
    ensures var u := Dedup(alerts);
            |u| <= |alerts| && NewestFirst(u) == u && StableSort.Descending(u, Timestamp) &&
            forall i :: 0 <= i < |u| ==>
              u[i].timestamp == now && exists j :: 0 <= j < |settings| && u[i].settingId == Some(settings[j].id)
  {
    var u := Dedup(alerts);
    Unique.DedupFirstWins(alerts, DedupKey);
    forall i | 0 <= i < |u|
      ensures u[i].timestamp == now && exists j :: 0 <= j < |settings| && u[i].settingId == Some(settings[j].id)
    {
      var k :| 0 <= k < |alerts| && alerts[k] == u[i] && forall m :: 0 <= m < k ==> DedupKey(alerts[m]) != DedupKey(u[i]);
    }
    StableSort.SortAllEqual(u, Timestamp);
  }

  lemma {:induction false} EvaluateAllAgree(settings: seq<AlertSetting>, c1: Context, c2: Context)
    requires forall j :: 0 <= j < |settings| ==> Evaluate(settings[j], c1) == Evaluate(settings[j], c2)
    ensures EvaluateAll(settings, c1) == EvaluateAll(settings, c2)
    decreases |settings|
  {
    if settings != [] {
      EvaluateAllAgree(settings[..|settings| - 1], c1, c2);
    }
  }

  /** Two contexts that agree on every figure a setting reads give it the same verdict. */
  lemma EvaluateAgree(s: AlertSetting, c1: Context, c2: Context)
    requires c1.budgets == c2.budgets && c1.categories == c2.categories && c1.clock == c2.clock
    requires c1.totalBudget == c2.totalBudget && c1.totalSpending == c2.totalSpending
    requires s.categoryId.Some? ==> Tally.Get(c1.spending, s.categoryId.value) == Tally.Get(c2.spending, s.categoryId.value)
    ensures Evaluate(s, c1) == Evaluate(s, c2)
  {
  }

  /** The engine's answer does not depend on the order in which the
      transactions arrive. */
  lemma EngineTxnOrderIndependent(settingsReply: Reply<seq<AlertSetting>>, budgetsReply: Reply<seq<Budget>>,
                                  t1: Reply<seq<Txn>>, t2: Reply<seq<Txn>>, categoriesReply: Reply<seq<Category>>, clock: Clock)
    requires multiset(t1.data.GetOr([])) == multiset(t2.data.GetOr([]))
    ensures Engine(settingsReply, budgetsReply, t1, categoriesReply, clock) ==
            Engine(settingsReply, budgetsReply, t2, categoriesReply, clock)
  {
    var settings := SettingsToEvaluate(settingsReply);
    var budgets, categories := budgetsReply.data.GetOr([]), categoriesReply.data.GetOr([]);
    var x1, x2 := t1.data.GetOr([]), t2.data.GetOr([]);
    var c1 := ContextOf(budgets, x1, categories, clock);
    var c2 := ContextOf(budgets, x2, categories, clock);
    forall j | 0 <= j < |settings| ensures Evaluate(settings[j], c1) == Evaluate(settings[j], c2) {
      var c := if settings[j].categoryId.Some? then settings[j].categoryId.value else "";
      FiguresOrderIndependent(x1, x2, budgets, budgets, c);
      EvaluateAgree(settings[j], c1, c2);
    }
    EvaluateAllAgree(settings, c1, c2);
  }

  // ---------------------------------------------------------------- scenarios

  const GROCERY_TXNS: seq<Txn> := [Txn("groceries", 300.0), Txn("rent", 900.0), Txn("groceries", 150.0)]

  lemma GrocerySpending()
    ensures CategorySpending(GROCERY_TXNS) == [Tally.Entry("groceries", 450.0), Tally.Entry("rent", 900.0)]
  {
    var txns := GROCERY_TXNS;
    var one := Tally.TallyOf(txns[..1], TxnCategory, TxnAmount);
    assert txns[..1][..0] == [];
    assert Tally.TallyOf(txns[..1][..0], TxnCategory, TxnAmount) == [];
    assert txns[..1] != [];
    assert |txns[..1]| - 1 == 0;
    assert txns[..1][0] == Txn("groceries", 300.0);
    assert one == Tally.Add(Tally.TallyOf(txns[..1][..0], TxnCategory, TxnAmount), TxnCategory(txns[..1][0]), TxnAmount(txns[..1][0]));
    assert one == [Tally.Entry("groceries", 300.0)];
    var two := Tally.TallyOf(txns[..2], TxnCategory, TxnAmount);
    assert txns[..2][..1] == txns[..1];
    assert two == Tally.Add(one, "rent", 900.0);
    assert "groceries" != "rent";
    assert Tally.Add([], "rent", 900.0) == [Tally.Entry("rent", 900.0)];
    assert two == [Tally.Entry("groceries", 300.0), Tally.Entry("rent", 900.0)];
    assert txns[..|txns| - 1] == txns[..2];
    assert txns[2] == Txn("groceries", 150.0);
    assert Tally.TallyOf(txns, TxnCategory, TxnAmount) == Tally.Add(two, "groceries", 150.0);
  }

  const GROCERY_RULE := AlertSetting("rule-1", CategoryThreshold, Some("groceries"), 80.0, true)
  const GROCERY_BUDGETS := [Budget("b-1", "groceries", 500.0, "2024-05")]
  const GROCERY_CATEGORIES := [Category("groceries", "Groceries")]

  lemma GroceryVerdict(clock: Clock)
    ensures var r := Evaluate(GROCERY_RULE, ContextOf(GROCERY_BUDGETS, GROCERY_TXNS, GROCERY_CATEGORIES, clock));
            r.Some? && r.value.severity == Warning && r.value.title == CATEGORY_TITLE &&
            r.value.message == CategoryExceeded(80.0, "Groceries", 90.0, 450.0, 500.0) &&
            r.value.settingId == Some("rule-1")
  {
    GrocerySpending();
    var ctx := ContextOf(GROCERY_BUDGETS, GROCERY_TXNS, GROCERY_CATEGORIES, clock);
    assert Tally.Get(ctx.spending, "groceries") == 450.0;
    assert FindBudget(GROCERY_BUDGETS, "groceries") == Some(GROCERY_BUDGETS[0]);
    assert CategoryName(GROCERY_CATEGORIES, "groceries") == "Groceries";
    assert Percentage(450.0, 500.0) == 90.0;
    CategoryRule(GROCERY_RULE, ctx);
  }

  /** A single alert passes de-duplication and sorting unchanged. */
  lemma SingleAlertSurvives(a: GeneratedAlert)
    ensures NewestFirst(Dedup([a])) == [a]
  {
    assert [a][..0] == [];
    assert Unique.DedupBy([a][..0], DedupKey) == [];
    assert !Unique.KeyPresent([], DedupKey, DedupKey(a));
    assert Dedup([a]) == [a];
    assert StableSort.SortDesc([a][..0], Timestamp) == [];
    assert StableSort.Insert(a, [], Timestamp) == [a];
  }

  /** Groceries: budget 500, spent 300 + 150, rule at 80% gives one warning at 90%. */
  lemma GroceriesScenario(clock: Clock)
    ensures var r := Engine(Reply(Some([GROCERY_RULE]), None), Reply(Some(GROCERY_BUDGETS), None),
                            Reply(Some(GROCERY_TXNS), None), Reply(Some(GROCERY_CATEGORIES), None), clock);
            |r| == 1 && r[0].severity == Warning && r[0].title == CATEGORY_TITLE &&
            r[0].message == CategoryExceeded(80.0, "Groceries", 90.0, 450.0, 500.0) &&
            r[0].settingId == Some("rule-1")
  {
    var ctx := ContextOf(GROCERY_BUDGETS, GROCERY_TXNS, GROCERY_CATEGORIES, clock);
    GroceryVerdict(clock);
    EngineOfOneRule(GROCERY_RULE, GROCERY_BUDGETS, GROCERY_TXNS, GROCERY_CATEGORIES, clock);
    SingleAlertSurvives(Evaluate(GROCERY_RULE, ctx).value);
  }

  /** With every reply carrying data and one rule, the engine evaluates that
      rule alone. */
  lemma EngineOfOneRule(rule: AlertSetting, budgets: seq<Budget>, txns: seq<Txn>, categories: seq<Category>, clock: Clock)
    ensures var ctx := ContextOf(budgets, txns, categories, clock);
            var v := Evaluate(rule, ctx);
            Engine(Reply(Some([rule]), None), Reply(Some(budgets), None), Reply(Some(txns), None),
                   Reply(Some(categories), None), clock) ==
            NewestFirst(Dedup(if v.Some? then [v.value] else []))
  {
    assert [rule][..0] == [];
  }

  /** Exactly at the threshold the rule fires; exactly at 100% it is an error. */
  lemma ThresholdBoundaries(rule: AlertSetting, ctx: Context)
    requires rule.kind == CategoryThreshold && rule.categoryId == Some("food") && rule.threshold == 80.0
    requires FindBudget(ctx.budgets, "food") == Some(Budget("b", "food", 500.0, "2024-05"))
    ensures Tally.Get(ctx.spending, "food") == 400.0 ==> Evaluate(rule, ctx).Some? && Evaluate(rule, ctx).value.severity == Warning
    ensures Tally.Get(ctx.spending, "food") == 500.0 ==> Evaluate(rule, ctx).Some? && Evaluate(rule, ctx).value.severity == Error
  {
    assert Percentage(400.0, 500.0) == 80.0;
    assert Percentage(500.0, 500.0) == 100.0;
  }

  /** Total budget 2000, spent 2100, rule at 90%: one error at 105%. */
  lemma TotalExceededScenario(ctx: Context)
    requires ctx.totalBudget == 2000.0 && ctx.totalSpending == 2100.0
    ensures var r := Evaluate(AlertSetting("rule-2", TotalBudgetThreshold, None, 90.0, true), ctx);
            r.Some? && r.value.severity == Error && r.value.message == TotalExceeded(90.0, 105.0, 2100.0, 2000.0)
  {
    assert Percentage(2100.0, 2000.0) == 105.0;
  }

  /** On the last day of the month, 800 spent of 1000: one success at 80%. */
  lemma CompletionScenario(ctx: Context)
    requires ctx.totalBudget == 1000.0 && ctx.totalSpending == 800.0
    requires ctx.clock.currentDay == 31 && ctx.clock.daysInMonth == 31
    ensures var r := Evaluate(AlertSetting("rule-3", MonthlyCompletion, None, 0.0, true), ctx);
            r.Some? && r.value.severity == Success && r.value.message == MonthWithinBudget(800.0, 1000.0, 80.0)
  {
    assert 800.0 / 1000.0 * 100.0 == 80.0;
  }

  /** The alert_settings table missing: no alerts, whatever else arrived. */
  lemma MissingTableScenario(budgetsReply: Reply<seq<Budget>>, txnsReply: Reply<seq<Txn>>,
                             categoriesReply: Reply<seq<Category>>, clock: Clock)
    ensures Engine(Reply(None, Some(DbError("PGRST204", Some("Could not find the table 'public.alert_settings'")))),
                   budgetsReply, txnsReply, categoriesReply, clock) == []
  {
  }
}
