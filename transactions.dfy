/** The transactions page: the five optional filters over the loaded list,
    clearing them, the "filters active" flag, and hiding the transaction
    whose deletion is pending. */
module TransactionsPage {
  import opened Common
  import Strings
  import Seqs

  datatype Transaction = Transaction(
    id: string, merchant: string, note: string, categoryId: string,
    paymentType: string, date: string, amount: real)

  /** The filter form; an empty field imposes nothing. */
  datatype Filters = Filters(search: string, categoryId: string, paymentType: string,
                             startDate: string, endDate: string)

  const NO_FILTERS: Filters := Filters("", "", "", "", "")

  /** The lower-cased merchant or note includes the lower-cased search. */
  predicate MatchesSearch(search: string, t: Transaction) {
    Strings.Contains(Strings.ToLower(t.merchant), Strings.ToLower(search)) ||
    Strings.Contains(Strings.ToLower(t.note), Strings.ToLower(search))
  }

  /** A transaction passes every filter whose field is set. */
  predicate Passes(f: Filters, t: Transaction) {
    (f.search == "" || MatchesSearch(f.search, t)) &&
    (f.categoryId == "" || t.categoryId == f.categoryId) &&
    (f.paymentType == "" || t.paymentType == f.paymentType) &&
    (f.startDate == "" || Strings.LessEq(f.startDate, t.date)) &&
    (f.endDate == "" || Strings.LessEq(t.date, f.endDate))
  }

  function Keeps(f: Filters): Transaction -> bool {
    (t: Transaction) => Passes(f, t)
  }

  /** `hasActiveFilters`: some field is set. */
  function HasActiveFilters(f: Filters): (r: bool)
    ensures r <==> f != NO_FILTERS
  {
    f.search != "" || f.categoryId != "" || f.paymentType != "" || f.startDate != "" || f.endDate != ""
  }

  // ---------------------------------------------------------------- steps

  /** The field of filter step `k` (1 to 5, in the order `applyFilters`
      applies them) and that step's test. */
  function Field(f: Filters, k: nat): string {
    if k == 1 then f.search else if k == 2 then f.categoryId else if k == 3 then f.paymentType
    else if k == 4 then f.startDate else f.endDate
  }

  predicate Test(f: Filters, k: nat, t: Transaction) {
    if k == 1 then MatchesSearch(f.search, t)
    else if k == 2 then t.categoryId == f.categoryId
    else if k == 3 then t.paymentType == f.paymentType
    else if k == 4 then Strings.LessEq(f.startDate, t.date)
    else Strings.LessEq(t.date, f.endDate)
  }

  /** Step `k` lets `t` through: its field is empty or its test holds. */
  predicate StepPasses(f: Filters, k: nat, t: Transaction) {
    Field(f, k) == "" || Test(f, k, t)
  }

  /** Passing the first `k` steps. */
  predicate Upto(f: Filters, k: nat, t: Transaction) {
    (k < 1 || StepPasses(f, 1, t)) && (k < 2 || StepPasses(f, 2, t)) && (k < 3 || StepPasses(f, 3, t)) &&
    (k < 4 || StepPasses(f, 4, t)) && (k < 5 || StepPasses(f, 5, t))
  }

  function Stage(f: Filters, k: nat): Transaction -> bool {
    (t: Transaction) => Upto(f, k, t)
  }

  /** A step whose field is set filters the previous stage by its test. */
  lemma StepTaken(s: seq<Transaction>, f: Filters, k: nat, test: Transaction -> bool)
    requires 1 <= k <= 5 && Field(f, k) != ""
    requires forall t :: test(t) == Test(f, k, t)
    ensures Seqs.Filter(Seqs.Filter(s, Stage(f, k - 1)), test) == Seqs.Filter(s, Stage(f, k))
  {
    Seqs.FilterTwice(s, Stage(f, k - 1), test, Stage(f, k));
  }

  /** A step whose field is empty leaves the previous stage as it is. */
  lemma StepSkipped(s: seq<Transaction>, f: Filters, k: nat)
    requires 1 <= k <= 5 && Field(f, k) == ""
    ensures Seqs.Filter(s, Stage(f, k - 1)) == Seqs.Filter(s, Stage(f, k))
  {
    Seqs.FilterCongruent(s, Stage(f, k - 1), Stage(f, k));
  }

  lemma StagesComplete(s: seq<Transaction>, f: Filters)
    ensures s == Seqs.Filter(s, Stage(f, 0))
    ensures Seqs.Filter(s, Stage(f, 5)) == Seqs.Filter(s, Keeps(f))
  {
    Seqs.FilterKeepsAll(s, Stage(f, 0));
    Seqs.FilterCongruent(s, Stage(f, 5), Keeps(f));
  }

  /** `applyFilters`: five filter passes, each only when its field is set,
      come to one filter by the conjunction of the set fields. */
  method ApplyFilters(transactions: seq<Transaction>, f: Filters) returns (filtered: seq<Transaction>)
    ensures filtered == Seqs.Filter(transactions, Keeps(f))
  {
    StagesComplete(transactions, f);
    filtered := transactions;
    if f.search != "" {
      StepTaken(transactions, f, 1, (t: Transaction) => MatchesSearch(f.search, t));
      filtered := Seqs.Filter(filtered, (t: Transaction) => MatchesSearch(f.search, t));
    } else {
      StepSkipped(transactions, f, 1);
    }
    if f.categoryId != "" {
      StepTaken(transactions, f, 2, (t: Transaction) => t.categoryId == f.categoryId);
      filtered := Seqs.Filter(filtered, (t: Transaction) => t.categoryId == f.categoryId);
    } else {
      StepSkipped(transactions, f, 2);
    }
    if f.paymentType != "" {
      StepTaken(transactions, f, 3, (t: Transaction) => t.paymentType == f.paymentType);
      filtered := Seqs.Filter(filtered, (t: Transaction) => t.paymentType == f.paymentType);
    } else {
      StepSkipped(transactions, f, 3);
    }
    if f.startDate != "" {
      StepTaken(transactions, f, 4, (t: Transaction) => Strings.LessEq(f.startDate, t.date));
      filtered := Seqs.Filter(filtered, (t: Transaction) => Strings.LessEq(f.startDate, t.date));
    } else {
      StepSkipped(transactions, f, 4);
    }
    if f.endDate != "" {
      StepTaken(transactions, f, 5, (t: Transaction) => Strings.LessEq(t.date, f.endDate));
      filtered := Seqs.Filter(filtered, (t: Transaction) => Strings.LessEq(t.date, f.endDate));
    } else {
      StepSkipped(transactions, f, 5);
    }
  }

  /** The filtered list keeps the loaded order, holds only transactions that
      pass every set filter, and holds every one that does. */
  lemma FilteredProperties(transactions: seq<Transaction>, f: Filters)
    ensures var r := Seqs.Filter(transactions, Keeps(f));
            Seqs.IsSubsequence(r, transactions) &&
            (forall i :: 0 <= i < |r| ==> Passes(f, r[i])) &&
            (forall i :: 0 <= i < |transactions| && Passes(f, transactions[i]) ==> transactions[i] in r)
  {
    Seqs.FilterIsSubsequence(transactions, Keeps(f));
  }

  /** With no filter set the whole list is shown. */
  lemma NoFiltersShowAll(transactions: seq<Transaction>)
    ensures Seqs.Filter(transactions, Keeps(NO_FILTERS)) == transactions
  {
    Seqs.FilterKeepsAll(transactions, Keeps(NO_FILTERS));
  }

  /** A search matches regardless of the case of its letters. */
  lemma SearchIgnoresCase(search: string, t: Transaction)
    ensures MatchesSearch(Strings.ToLower(search), t) == MatchesSearch(search, t)
  {
    Strings.ToLowerIdempotent(search);
  }

  // ---------------------------------------------------------------- pending delete

  /** `!deletingTransaction || t.id !== deletingTransaction.id`. */
  function NotPending(pendingId: string): Transaction -> bool {
    (t: Transaction) => t.id != pendingId
  }

  /** The list handed to the transaction list: with a deletion pending, the
      filtered list without that transaction's id. */
  function Displayed(filtered: seq<Transaction>, pendingId: Option<string>): seq<Transaction> {
    if pendingId.None? then filtered else Seqs.Filter(filtered, NotPending(pendingId.value))
  }

  /** It leaves out exactly the pending transaction's id and nothing else. */
  lemma DisplayedOmitsPending(filtered: seq<Transaction>, pendingId: string)
    ensures var r := Displayed(filtered, Some(pendingId));
            Seqs.IsSubsequence(r, filtered) &&
            (forall i :: 0 <= i < |r| ==> r[i].id != pendingId) &&
            (forall i :: 0 <= i < |filtered| && filtered[i].id != pendingId ==> filtered[i] in r)
  {
    Seqs.FilterIsSubsequence(filtered, NotPending(pendingId));
  }

  // ---------------------------------------------------------------- page

  class Page {
    var transactions: seq<Transaction>
    var filters: Filters
    var filtered: seq<Transaction>

    /** The filter effect has run since the last change. */
    ghost predicate Valid()
      reads this
    {
      filtered == Seqs.Filter(transactions, Keeps(filters))
    }

    constructor ()
      ensures Valid() && transactions == [] && filters == NO_FILTERS && filtered == []
    {
      transactions := [];
      filters := NO_FILTERS;
      filtered := [];
    }

    /** The transactions query; the list is replaced only when data came
        back, and the filters are re-applied. */
    method Load(data: Option<seq<Transaction>>)
      modifies this`transactions, this`filtered
      ensures Valid()
      ensures transactions == (if data.Some? then data.value else old(transactions))
    {
      if data.Some? {
        transactions := data.value;
      }
      filtered := ApplyFilters(transactions, filters);
    }

    method ChangeFilters(f: Filters)
      modifies this`filters, this`filtered
      ensures Valid() && filters == f
    {
      filters := f;
      filtered := ApplyFilters(transactions, filters);
    }

    /** `clearFilters`: every field empty, so the full list shows again. */
    method ClearFilters()
      modifies this`filters, this`filtered
      ensures Valid() && filters == NO_FILTERS && !HasActiveFilters(filters)
      ensures filtered == transactions
    {
      filters := NO_FILTERS;
      filtered := ApplyFilters(transactions, filters);
      NoFiltersShowAll(transactions);
    }
  }
}
