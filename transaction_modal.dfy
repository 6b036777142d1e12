/** The add/edit transaction dialog: its submit checks, the trimmed row it
    saves, the merchant suggestions, and the read-modify-write of the
    merchants table that every successful save performs. */
module TransactionModal {
  import opened Common
  import Strings
  import Seqs

  datatype PaymentType = Card | Upi | Cash

  datatype Category = Category(id: string, name: string)

  /** A stored transaction, as the dialog copies it into the form. */
  datatype Transaction = Transaction(
    id: string, amount: real, currency: string, date: string, merchant: string,
    categoryId: string, paymentType: PaymentType, note: string)

  datatype TxnForm = TxnForm(
    amount: AmountField, currency: string, date: string, merchant: string,
    categoryId: string, paymentType: PaymentType, note: string)

  datatype FormError = InvalidAmount | NoMerchant | NoCategory | SaveFailed(message: string)

  /** The row written to the transactions table. */
  datatype TxnRow = TxnRow(
    userId: string, amount: Option<real>, currency: string, date: string, merchant: string,
    categoryId: string, paymentType: PaymentType, note: string)

  datatype TxnWrite = InsertTxn(row: TxnRow) | UpdateTxn(id: string, row: TxnRow)

  /** A row of the merchants table. */
  datatype Merchant = Merchant(id: string, userId: string, name: string,
                               mostCommonCategoryId: string, transactionCount: int)

  const SAVE_FAILED: string := "Failed to save transaction"

  /** The three checks of `handleSubmit`, in order: amount, then a merchant
      that is not blank after trimming, then a category. At most one message
      results, and none exactly when all three pass. */
  function Check(form: TxnForm): (r: Option<FormError>)
    ensures r == Some(InvalidAmount) <==> AmountRejected(form.amount)
    ensures r == Some(NoMerchant) <==> !AmountRejected(form.amount) && Strings.Trim(form.merchant) == ""
    ensures r == Some(NoCategory) <==>
              !AmountRejected(form.amount) && Strings.Trim(form.merchant) != "" && form.categoryId == ""
    ensures r.None? <==>
              !AmountRejected(form.amount) && Strings.Trim(form.merchant) != "" && form.categoryId != ""
  {
    if AmountRejected(form.amount) then Some(InvalidAmount)
    else if Strings.Trim(form.merchant) == "" then Some(NoMerchant)
    else if form.categoryId == "" then Some(NoCategory)
    else None
  }

  /** The saved row: merchant and note trimmed, the amount parsed, the rest
      as entered. */
  function RowFor(userId: string, form: TxnForm): (r: TxnRow)
    ensures r.merchant == Strings.Trim(form.merchant) && r.note == Strings.Trim(form.note)
    ensures r.amount == form.amount.parsed && r.userId == userId
    ensures r.currency == form.currency && r.date == form.date
    ensures r.categoryId == form.categoryId && r.paymentType == form.paymentType
  {
    TxnRow(userId, form.amount.parsed, form.currency, form.date, Strings.Trim(form.merchant),
           form.categoryId, form.paymentType, Strings.Trim(form.note))
  }

  /** A saved merchant name is never empty and neither starts nor ends with
      white space, and it occurs inside what was typed. */
  lemma SavedMerchantClean(userId: string, form: TxnForm)
    requires Check(form).None?
    ensures var m := RowFor(userId, form).merchant;
            m != "" && !Strings.IsSpace(m[0]) && !Strings.IsSpace(m[|m| - 1]) &&
            exists i, j :: 0 <= i <= j <= |form.merchant| && m == form.merchant[i..j]
  {
    Strings.TrimIsInfix(form.merchant);
  }

  // ---------------------------------------------------------------- merchants

  /** The rows the lookup `.eq('user_id', u).eq('name', n)` selects. */
  predicate IsMatch(m: Merchant, userId: string, name: string) {
    m.userId == userId && m.name == name
  }

  function MatchCount(rows: seq<Merchant>, userId: string, name: string): (r: nat)
    ensures r <= |rows|
    ensures r == 0 <==> forall i :: 0 <= i < |rows| ==> !IsMatch(rows[i], userId, name)
  {
    if rows == [] then 0
    else MatchCount(rows[1..], userId, name) + (if IsMatch(rows[0], userId, name) then 1 else 0)
  }

  /** `.maybeSingle()`: the matching row when there is exactly one; no data
      when there is none, and an error with no data when there are several. */
  function MaybeSingle(rows: seq<Merchant>, userId: string, name: string): (r: Option<nat>)
    ensures r.Some? <==> MatchCount(rows, userId, name) == 1
    ensures r.Some? ==> r.value < |rows| && IsMatch(rows[r.value], userId, name)
    ensures r.Some? ==> forall i :: 0 <= i < |rows| && i != r.value ==> !IsMatch(rows[i], userId, name)
    decreases |rows|
  {
    if rows == [] then None
    else if IsMatch(rows[0], userId, name) then
      (if MatchCount(rows[1..], userId, name) == 0 then Some(0) else None)
    else
      match MaybeSingle(rows[1..], userId, name)
      case None => None
      case Some(i) => Some(i + 1)
  }

  /** The merchants table after a save: a single existing row for the name
      gets one more use and the category just chosen; otherwise a new row
      with one use is added. */
  function AfterUse(rows: seq<Merchant>, userId: string, name: string, categoryId: string, freshId: string): (r: seq<Merchant>)
    ensures MaybeSingle(rows, userId, name).Some? ==>
              var i := MaybeSingle(rows, userId, name).value;
              |r| == |rows| && r[i].transactionCount == rows[i].transactionCount + 1 &&
              r[i].mostCommonCategoryId == categoryId &&
              r[i].id == rows[i].id && r[i].name == rows[i].name && r[i].userId == rows[i].userId &&
              forall j :: 0 <= j < |rows| && j != i ==> r[j] == rows[j]
    ensures MaybeSingle(rows, userId, name).None? ==>
              r == rows + [Merchant(freshId, userId, name, categoryId, 1)]
  {
    match MaybeSingle(rows, userId, name)
    case Some(i) =>
      rows[i := rows[i].(transactionCount := rows[i].transactionCount + 1, mostCommonCategoryId := categoryId)]
    case None => rows + [Merchant(freshId, userId, name, categoryId, 1)]
  }

  /** The "most common" category is really the most recent one: after any
      save the merchant's single row carries the category just used. */
  lemma LastCategoryWins(rows: seq<Merchant>, userId: string, name: string, c1: string, c2: string, id1: string, id2: string)
    requires MatchCount(rows, userId, name) <= 1
    ensures var once := AfterUse(rows, userId, name, c1, id1);
            var twice := AfterUse(once, userId, name, c2, id2);
            MaybeSingle(twice, userId, name).Some? &&
            twice[MaybeSingle(twice, userId, name).value].mostCommonCategoryId == c2
  {
    var once := AfterUse(rows, userId, name, c1, id1);
    OneMatchAfterUse(rows, userId, name, c1, id1);
    OneMatchAfterUse(once, userId, name, c2, id2);
  }

  /** With at most one row for a name before, there is exactly one after. */
  lemma OneMatchAfterUse(rows: seq<Merchant>, userId: string, name: string, categoryId: string, freshId: string)
    requires MatchCount(rows, userId, name) <= 1
    ensures MatchCount(AfterUse(rows, userId, name, categoryId, freshId), userId, name) == 1
  {
    var r := AfterUse(rows, userId, name, categoryId, freshId);
    match MaybeSingle(rows, userId, name) {
      case Some(i) =>
        SameMatches(rows, r, userId, name);
      case None =>
        MatchCountAppend(rows, Merchant(freshId, userId, name, categoryId, 1), userId, name);
    }
  }

  lemma {:induction false} SameMatches(a: seq<Merchant>, b: seq<Merchant>, userId: string, name: string)
    requires |a| == |b|
    requires forall i :: 0 <= i < |a| ==> IsMatch(a[i], userId, name) == IsMatch(b[i], userId, name)
    ensures MatchCount(a, userId, name) == MatchCount(b, userId, name)
    decreases |a|
  {
    if a != [] {
      SameMatches(a[1..], b[1..], userId, name);
    }
  }

  lemma {:induction false} MatchCountAppend(rows: seq<Merchant>, m: Merchant, userId: string, name: string)
    ensures MatchCount(rows + [m], userId, name) ==
            MatchCount(rows, userId, name) + (if IsMatch(m, userId, name) then 1 else 0)
    decreases |rows|
  {
    if rows == [] {
      assert [m][1..] == [];
    } else {
      assert (rows + [m])[1..] == rows[1..] + [m];
      MatchCountAppend(rows[1..], m, userId, name);
    }
  }

  /** When the table already holds two rows for the name, the lookup yields
      nothing and a third row is inserted. */
  lemma DuplicateRowsGrow(a: Merchant, b: Merchant, categoryId: string, freshId: string)
    requires a.userId == b.userId && a.name == b.name
    ensures |AfterUse([a, b], a.userId, a.name, categoryId, freshId)| == 3
  {
    assert [a, b][1..] == [b];
    assert [b][1..] == [];
  }

  /** The replies to the merchant select and to the update or insert that
      follows it. The dialog reads neither error: a failed select comes back
      without data, and a failed write is ignored. */
  datatype MerchantReplies = MerchantReplies(selectError: Option<DbError>, writeError: Option<DbError>)

  /** The merchants table after a save whose merchant calls got these
      replies: a failed select reads as "no row" and leads to the insert, and
      a failed update or insert leaves the table as it was. */
  function AfterReplies(rows: seq<Merchant>, userId: string, name: string, categoryId: string, freshId: string,
                        replies: MerchantReplies): (r: seq<Merchant>)
    ensures replies.writeError.Some? ==> r == rows
    ensures replies.writeError.None? ==> exists i :: 0 <= i < |r| && IsMatch(r[i], userId, name)
    ensures replies.writeError.None? && replies.selectError.Some? ==>
              |r| == |rows| + 1 && r[..|rows|] == rows && IsMatch(r[|rows|], userId, name)
  {
    if replies.writeError.Some? then rows
    else if replies.selectError.Some? then
      var r := rows + [Merchant(freshId, userId, name, categoryId, 1)];
      assert IsMatch(r[|rows|], userId, name);
      r
    else
      var r := AfterUse(rows, userId, name, categoryId, freshId);
      var found := MaybeSingle(rows, userId, name);
      var w := if found.Some? then found.value else |rows|;
      assert IsMatch(r[w], userId, name);
      r
  }

  /** A failed select on a name that already has its one row inserts a
      second one; from then on the lookup finds no single row, so every
      later save inserts again and a selected suggestion brings no
      category. */
  lemma FailedSelectDuplicates(rows: seq<Merchant>, userId: string, name: string, categoryId: string, freshId: string,
                               selectError: DbError)
    requires MatchCount(rows, userId, name) == 1
    ensures var r := AfterReplies(rows, userId, name, categoryId, freshId, MerchantReplies(Some(selectError), None));
            MatchCount(r, userId, name) == 2 && MaybeSingle(r, userId, name).None?
  {
    MatchCountAppend(rows, Merchant(freshId, userId, name, categoryId, 1), userId, name);
  }

  /** The merchants table, which every successful save reads and then
      updates or extends. */
  class MerchantTable {
    var rows: seq<Merchant>

    constructor (initial: seq<Merchant>)
      ensures rows == initial
    {
      rows := initial;
    }

    /** The select by user and trimmed name, then the update of the one row
        found or the insert of a new one; with both replies clean the table
        is AfterUse of the old one. */
    method RecordUse(userId: string, name: string, categoryId: string, freshId: string, replies: MerchantReplies)
      modifies this
      ensures rows == AfterReplies(old(rows), userId, name, categoryId, freshId, replies)
      ensures replies == MerchantReplies(None, None) ==> rows == AfterUse(old(rows), userId, name, categoryId, freshId)
      ensures replies.writeError.Some? ==> rows == old(rows)
    {
      var existing := if replies.selectError.Some? then None else MaybeSingle(rows, userId, name);
      if replies.writeError.None? {
        if existing.Some? {
          var i := existing.value;
          rows := rows[i := rows[i].(transactionCount := rows[i].transactionCount + 1, mostCommonCategoryId := categoryId)];
        } else {
          rows := rows + [Merchant(freshId, userId, name, categoryId, 1)];
        }
      }
    }
  }

  // ---------------------------------------------------------------- suggestions

  /** The merchant names listed under the input: the loaded names that
      contain the input, ignoring case, in their loaded order. */
  function Suggestions(merchants: seq<string>, input: string): seq<string> {
    Seqs.Filter(merchants, (m: string) => Strings.ContainsIgnoringCase(m, input))
  }

  lemma SuggestionsExact(merchants: seq<string>, input: string)
    ensures var r := Suggestions(merchants, input);
            Seqs.IsSubsequence(r, merchants) &&
            (forall i :: 0 <= i < |r| ==> Strings.ContainsIgnoringCase(r[i], input)) &&
            (forall i :: 0 <= i < |merchants| && Strings.ContainsIgnoringCase(merchants[i], input) ==> merchants[i] in r)
  {
    Seqs.FilterIsSubsequence(merchants, (m: string) => Strings.ContainsIgnoringCase(m, input));
  }

  /** `showMerchants && merchants.length > 0`: whether the list is drawn. */
  predicate ListDrawn(showMerchants: bool, merchants: seq<string>) {
    showMerchants && |merchants| > 0
  }

  class Dialog {
    var form: TxnForm
    var error: Option<FormError>
    var merchants: seq<string>
    var showMerchants: bool
    var loading: bool

    constructor (currency: string, today: string)
      ensures form == TxnForm(AmountField(true, None), currency, today, "", "", Card, "")
      ensures error == None && merchants == [] && !showMerchants && !loading
    {
      form := TxnForm(AmountField(true, None), currency, today, "", "", Card, "");
      error := None;
      merchants := [];
      showMerchants := false;
      loading := false;
    }

    /** The form effect: editing copies the transaction; adding starts with
        the profile currency, today's date, the first category and a card
        payment. */
    method Open(editing: Option<Transaction>, categories: seq<Category>, currency: string, today: string)
      modifies this`form
      ensures editing.Some? ==>
                var t := editing.value;
                form == TxnForm(AmountText(t.amount), t.currency, t.date, t.merchant, t.categoryId, t.paymentType, t.note)
      ensures editing.None? ==>
                form == TxnForm(AmountField(true, None), currency, today, "",
                                if |categories| > 0 then categories[0].id else "", Card, "")
    {
      if editing.Some? {
        var t := editing.value;
        form := TxnForm(AmountText(t.amount), t.currency, t.date, t.merchant, t.categoryId, t.paymentType, t.note);
      } else {
        form := TxnForm(AmountField(true, None), currency, today, "",
                        if |categories| > 0 then categories[0].id else "", Card, "");
      }
    }

    /** `fetchMerchants`: the names of the reply, when it carries data. */
    method FetchMerchants(signedIn: bool, data: Option<seq<string>>)
      modifies this`merchants
      ensures merchants == (if signedIn && data.Some? then data.value else old(merchants))
    {
      if signedIn && data.Some? {
        merchants := data.value;
      }
    }

    /** `handleMerchantChange`: the list opens exactly for non-empty input. */
    method MerchantChange(value: string)
      modifies this`form, this`showMerchants
      ensures form == old(form).(merchant := value)
      ensures showMerchants <==> value != ""
    {
      form := form.(merchant := value);
      showMerchants := |value| > 0;
    }

    /** `handleMerchantSelect`, given the stored category the lookup found
        (absent when the lookup gave no data). */
    method MerchantSelect(name: string, stored: Option<string>)
      modifies this`form, this`showMerchants
      ensures !showMerchants && form.merchant == name
      ensures form.categoryId == (if stored.Some? && stored.value != "" then stored.value else old(form).categoryId)
      ensures form == old(form).(merchant := name, categoryId := form.categoryId)
    {
      form := form.(merchant := name);
      showMerchants := false;
      if stored.Some? && stored.value != "" {
        form := form.(merchant := name, categoryId := stored.value);
      }
    }

    /** `handleSubmit`. A failed check shows its message and saves nothing.
        Otherwise the row is written; a failed write shows the error and stops,
        a successful one records the merchant use, whatever the merchant calls
        reply, and closes the dialog. */
    method HandleSubmit(signedIn: bool, userId: string, editing: Option<string>, writeError: Option<DbError>,
                        table: MerchantTable, freshId: string, merchantReplies: MerchantReplies)
      returns (issued: Option<TxnWrite>, closed: bool)
      modifies this`error, this`loading, table
      ensures !signedIn ==>
                issued == None && !closed && error == None && table.rows == old(table.rows) && loading == old(loading)
      ensures signedIn && Check(form).Some? ==>
                issued == None && !closed && error == Check(form) && table.rows == old(table.rows) &&
                loading == old(loading)
      ensures signedIn && Check(form).None? ==>
                var row := RowFor(userId, form);
                issued == Some(if editing.Some? then UpdateTxn(editing.value, row) else InsertTxn(row)) &&
                closed == writeError.None? && !loading
      ensures signedIn && Check(form).None? && writeError.Some? ==>
                error == Some(SaveFailed(ErrorText(writeError.value, SAVE_FAILED))) && table.rows == old(table.rows)
      ensures signedIn && Check(form).None? && writeError.None? ==>
                error == None &&
                table.rows == AfterReplies(old(table.rows), userId, RowFor(userId, form).merchant, form.categoryId,
                                           freshId, merchantReplies)
    {
      issued, closed := None, false;
      error := None;
      if !signedIn {
        return;
      }
      var problem := Check(form);
      if problem.Some? {
        error := problem;
        return;
      }
      issued, closed := Save(userId, RowFor(userId, form), editing, writeError, table, freshId, merchantReplies);
    }

    /** The write of a checked row: a failed write shows the error, a
        successful one records the merchant use and closes the dialog even
        when a merchant call fails. */
    method Save(userId: string, row: TxnRow, editing: Option<string>, writeError: Option<DbError>,
                table: MerchantTable, freshId: string, merchantReplies: MerchantReplies)
      returns (issued: Option<TxnWrite>, closed: bool)
      modifies this`error, this`loading, table
      ensures issued == Some(if editing.Some? then UpdateTxn(editing.value, row) else InsertTxn(row))
      ensures closed == writeError.None? && !loading
      ensures writeError.Some? ==>
                error == Some(SaveFailed(ErrorText(writeError.value, SAVE_FAILED))) && table.rows == old(table.rows)
      ensures writeError.None? ==>
                error == old(error) &&
                table.rows == AfterReplies(old(table.rows), userId, row.merchant, row.categoryId, freshId, merchantReplies)
    {
      loading := true;
      issued := Some(if editing.Some? then UpdateTxn(editing.value, row) else InsertTxn(row));
      closed := false;
      if writeError.Some? {
        error := Some(SaveFailed(ErrorText(writeError.value, SAVE_FAILED)));
      } else {
        table.RecordUse(userId, row.merchant, row.categoryId, freshId, merchantReplies);
        closed := true;
      }
      loading := false;
    }
  }
}
