/** Values shared by every screen: optional values and what the hosted
    database client hands back (a `{ data, error }` pair, or a rejected
    promise). The database itself is not modelled; its replies are inputs. */
module Common {
  import Strings

  datatype Option<+T> = None | Some(value: T) {
    /** `x ?? d` / `x || d` for a value that is absent. */
    function GetOr(default: T): T {
      if Some? then value else default
    }
  }

  /** The error object of the database client: a code and, sometimes, a message. */
  datatype DbError = DbError(code: string, message: Option<string>)

  /** The `{ data, error }` pair every query resolves to. */
  datatype Reply<T> = Reply(data: Option<T>, error: Option<DbError>)

  /** An awaited call that either returned a value or threw. */
  datatype Outcome<T> = Returned(value: T) | Threw(error: DbError)

  /** `err.message || fallback`: the error's message, or the fallback when
      it has none or an empty one. */
  function ErrorText(e: DbError, fallback: string): (r: string)
    requires fallback != ""
    ensures r != ""
    ensures e.message.Some? && e.message.value != "" ==> r == e.message.value
    ensures (e.message.None? || e.message.value == "") ==> r == fallback
  {
    if e.message.Some? && e.message.value != "" then e.message.value else fallback
  }

  /** A number input: whether its text is empty, and what `parseFloat`
      makes of the text (`None` for NaN). */
  datatype AmountField = AmountField(empty: bool, parsed: Option<real>)

  /** The forms' amount check `!amount || parseFloat(amount) <= 0`. A text
      that parses to NaN is not caught, since `NaN <= 0` is false. */
  predicate AmountRejected(a: AmountField) {
    a.empty || (a.parsed.Some? && a.parsed.value <= 0.0)
  }

  /** A number's own text (`amount.toString()`) is never empty and parses
      back to the number. */
  function AmountText(amount: real): (r: AmountField)
    ensures !r.empty && r.parsed == Some(amount)
  {
    AmountField(false, Some(amount))
  }

  /** The test several screens use for "the alert_settings table has not
      been created yet": the PostgREST code PGRST204, or a message that
      mentions the table. An absent message never matches. */
  predicate IsMissingTable(e: DbError) {
    e.code == "PGRST204" || (e.message.Some? && Strings.Contains(e.message.value, "alert_settings"))
  }

  /** The same test applied to an optional error (`error && (...)`). */
  predicate HasMissingTable(e: Option<DbError>) {
    e.Some? && IsMissingTable(e.value)
  }

  lemma MissingTableByCode(msg: Option<string>)
    ensures IsMissingTable(DbError("PGRST204", msg))
  {
  }

  lemma MissingTableByMessage(code: string)
    ensures IsMissingTable(DbError(code, Some("alert_settings")))
  {
    Strings.ContainsSelf("alert_settings");
  }

  lemma OtherErrorIsNotMissingTable()
    ensures !IsMissingTable(DbError("42501", None))
  {
  }
}
