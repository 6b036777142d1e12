/** The alert-settings dialog: it lists the user's alert rules, adds a rule
    from a small form, deletes rules and switches them on and off. Each
    database call is issued as a `Write` value; its reply is a parameter. */
module AlertSettingsModal {
  import opened Common
  import Seqs
  import Alerts

  type AlertKind = Alerts.AlertKind
  type AlertSetting = Alerts.AlertSetting
  type Category = Alerts.Category

  /** The `newAlert` form state. */
  datatype AlertForm = AlertForm(kind: AlertKind, categoryId: string, threshold: real)

  const DEFAULT_FORM: AlertForm := AlertForm(Alerts.CategoryThreshold, "", 80.0)

  /** The row `handleAddAlert` inserts. */
  datatype NewRow = NewRow(userId: string, kind: AlertKind, categoryId: Option<string>, threshold: real, isEnabled: bool)

  /** A call to the alert_settings table. */
  datatype Write =
    | InsertRow(row: NewRow)
    | SetEnabled(id: string, enabled: bool)
    | DeleteRow(id: string)

  /** The browser `alert(...)` pop-ups the dialog can raise. */
  datatype Notice = SelectCategory | TableMissing | AddFailed | DeleteFailed

  /** Both replies `fetchData` awaits together. */
  datatype FetchResult = FetchResult(categories: Reply<seq<Category>>, settings: Reply<seq<AlertSetting>>)

  /** The form may be submitted unless a category rule has no category. */
  predicate FormAcceptable(form: AlertForm) {
    !(form.kind == Alerts.CategoryThreshold && form.categoryId == "")
  }

  /** The inserted row: always enabled, the threshold as entered, and a
      category only for a category rule. */
  function RowFor(userId: string, form: AlertForm): (r: NewRow)
    requires FormAcceptable(form)
    ensures r.isEnabled && r.userId == userId && r.kind == form.kind && r.threshold == form.threshold
    ensures r.categoryId.Some? <==> form.kind == Alerts.CategoryThreshold
    ensures r.categoryId.Some? ==> r.categoryId.value == form.categoryId && r.categoryId.value != ""
  {
    NewRow(userId, form.kind, if form.kind == Alerts.CategoryThreshold then Some(form.categoryId) else None,
           form.threshold, true)
  }

  /** `parseFloat(value) || 0`, given what `parseFloat` made of the text
      (`None` for NaN). No clamping to [0, 100] happens here. */
  function ThresholdInput(parsed: Option<real>): (r: real)
    ensures parsed.None? ==> r == 0.0
    ensures parsed.Some? ==> r == parsed.value
  {
    match parsed
    case None => 0.0
    case Some(v) => if v == 0.0 then 0.0 else v
  }

  /** What `.update({ is_enabled }).eq('id', id)` and `.delete().eq('id', id)`
      do to the table's rows. */
  function ApplyWrite(rows: seq<AlertSetting>, w: Write): (r: seq<AlertSetting>)
    requires !w.InsertRow?
  {
    match w
    case SetEnabled(id, enabled) =>
      seq(|rows|, i requires 0 <= i < |rows| =>
        if rows[i].id == id then rows[i].(isEnabled := enabled) else rows[i])
    case DeleteRow(id) => Seqs.Filter(rows, (s: AlertSetting) => s.id != id)
  }

  /** A toggle flips the flag of exactly the rows with the target id and
      changes nothing else. */
  lemma ToggleTouchesOnlyTarget(rows: seq<AlertSetting>, target: AlertSetting)
    ensures var r := ApplyWrite(rows, SetEnabled(target.id, !target.isEnabled));
            |r| == |rows| &&
            forall i :: 0 <= i < |rows| ==>
              (rows[i].id == target.id ==> r[i] == rows[i].(isEnabled := !target.isEnabled)) &&
              (rows[i].id != target.id ==> r[i] == rows[i])
  {
  }

  /** Toggling the same row twice restores the table. */
  lemma ToggleTwice(rows: seq<AlertSetting>, i: nat)
    requires i < |rows|
    requires forall j :: 0 <= j < |rows| && rows[j].id == rows[i].id ==> rows[j] == rows[i]
    ensures var once := ApplyWrite(rows, SetEnabled(rows[i].id, !rows[i].isEnabled));
            ApplyWrite(once, SetEnabled(once[i].id, !once[i].isEnabled)) == rows
  {
    var once := ApplyWrite(rows, SetEnabled(rows[i].id, !rows[i].isEnabled));
    var twice := ApplyWrite(once, SetEnabled(once[i].id, !once[i].isEnabled));
    assert |twice| == |rows|;
    forall j | 0 <= j < |rows| ensures twice[j] == rows[j] {
    }
  }

  /** A delete removes exactly the rows with the target id, the rest in order. */
  lemma DeleteRemovesOnlyTarget(rows: seq<AlertSetting>, id: string)
    ensures var r := ApplyWrite(rows, DeleteRow(id));
            (forall i :: 0 <= i < |r| ==> r[i].id != id) &&
            (forall i :: 0 <= i < |rows| && rows[i].id != id ==> rows[i] in r) &&
            Seqs.IsSubsequence(r, rows)
  {
    Seqs.FilterIsSubsequence(rows, (s: AlertSetting) => s.id != id);
  }

  /** The settings list after `fetchData`: unchanged when nobody is signed
      in, empty when the call threw or the table is missing, and otherwise
      the returned rows, or the old list when none came back. */
  function FetchedSettings(signedIn: bool, outcome: Outcome<FetchResult>, prev: seq<AlertSetting>): seq<AlertSetting> {
    if !signedIn then prev
    else match outcome
      case Threw(_) => []
      case Returned(res) =>
        if HasMissingTable(res.settings.error) then [] else res.settings.data.GetOr(prev)
  }

  /** The categories after `fetchData`: the returned rows, or the old list. */
  function FetchedCategories(signedIn: bool, outcome: Outcome<FetchResult>, prev: seq<Category>): seq<Category> {
    if signedIn && outcome.Returned? then outcome.value.categories.data.GetOr(prev) else prev
  }

  class Dialog {
    var categories: seq<Category>
    var settings: seq<AlertSetting>
    var form: AlertForm
    var showAddForm: bool
    var saving: bool
    var loading: bool

    constructor ()
      ensures categories == [] && settings == [] && form == DEFAULT_FORM
      ensures !showAddForm && !saving && loading
    {
      categories := [];
      settings := [];
      form := DEFAULT_FORM;
      showAddForm := false;
      saving := false;
      loading := true;
    }

    /** `fetchData`: categories are replaced only when data came back; the
        settings become empty on the missing-table error or when the call
        threw, and are replaced when data came back. */
    method FetchData(signedIn: bool, outcome: Outcome<FetchResult>)
      modifies this`categories, this`settings, this`loading
      ensures !signedIn ==> categories == old(categories) && settings == old(settings) && loading == old(loading)
      ensures signedIn ==> !loading
      ensures signedIn && outcome.Threw? ==> settings == [] && categories == old(categories)
      ensures signedIn && outcome.Returned? ==>
                var res := outcome.value;
                categories == res.categories.data.GetOr(old(categories)) &&
                settings == (if HasMissingTable(res.settings.error) then []
                             else res.settings.data.GetOr(old(settings)))
      ensures settings == FetchedSettings(signedIn, outcome, old(settings))
      ensures categories == FetchedCategories(signedIn, outcome, old(categories))
    {
      if !signedIn {
        return;
      }
      loading := true;
      match outcome {
        case Returned(res) =>
          if res.categories.data.Some? {
            categories := res.categories.data.value;
          }
          if HasMissingTable(res.settings.error) {
            settings := [];
          } else if res.settings.data.Some? {
            settings := res.settings.data.value;
          }
        case Threw(_) =>
          settings := [];
      }
      loading := false;
    }

    /** Changing the rule kind clears the chosen category. */
    method ChangeKind(kind: AlertKind)
      modifies this`form
      ensures form == AlertForm(kind, "", old(form).threshold)
    {
      form := form.(kind := kind, categoryId := "");
    }

    method ChangeCategory(categoryId: string)
      modifies this`form
      ensures form == old(form).(categoryId := categoryId)
    {
      form := form.(categoryId := categoryId);
    }

    method ChangeThreshold(parsed: Option<real>)
      modifies this`form
      ensures form == old(form).(threshold := ThresholdInput(parsed))
    {
      form := form.(threshold := ThresholdInput(parsed));
    }

    /** `handleAddAlert`. A rejected form issues nothing. An accepted form
        issues the insert; if the insert reports an error the dialog raises a
        notice and keeps its form, otherwise it reloads, hides the form and
        resets it to the defaults. */
    method HandleAddAlert(signedIn: bool, userId: string, insertError: Option<DbError>, refetch: Outcome<FetchResult>)
      returns (issued: Option<Write>, notice: Option<Notice>)
      modifies this
      ensures !signedIn || !FormAcceptable(old(form)) ==>
                issued == None && form == old(form) && settings == old(settings) &&
                categories == old(categories) && showAddForm == old(showAddForm) &&
                saving == old(saving) && loading == old(loading)
      ensures !signedIn ==> notice == None
      ensures signedIn && !FormAcceptable(old(form)) ==> notice == Some(SelectCategory)
      ensures signedIn && FormAcceptable(old(form)) ==>
                issued == Some(InsertRow(RowFor(userId, old(form)))) && !saving
      ensures signedIn && FormAcceptable(old(form)) && insertError.Some? ==>
                notice == Some(if IsMissingTable(insertError.value) then TableMissing else AddFailed) &&
                form == old(form) && showAddForm == old(showAddForm) && settings == old(settings) &&
                categories == old(categories) && loading == old(loading)
      ensures signedIn && FormAcceptable(old(form)) && insertError.None? ==>
                notice == None && form == DEFAULT_FORM && !showAddForm && !loading &&
                settings == FetchedSettings(signedIn, refetch, old(settings)) &&
                categories == FetchedCategories(signedIn, refetch, old(categories))
    {
      issued, notice := None, None;
      if !signedIn {
        return;
      }
      if !FormAcceptable(form) {
        notice := Some(SelectCategory);
        return;
      }
      saving := true;
      issued := Some(InsertRow(RowFor(userId, form)));
      if insertError.Some? {
        notice := Some(if IsMissingTable(insertError.value) then TableMissing else AddFailed);
      } else {
        FetchData(signedIn, refetch);
        showAddForm := false;
        form := DEFAULT_FORM;
      }
      saving := false;
    }

    /** `handleDeleteAlert`: nothing happens unless the user confirms. */
    method HandleDeleteAlert(signedIn: bool, confirmed: bool, id: string, deleteError: Option<DbError>, refetch: Outcome<FetchResult>)
      returns (issued: Option<Write>, notice: Option<Notice>)
      modifies this`categories, this`settings, this`loading
      ensures !confirmed ==> issued == None && notice == None
      ensures confirmed ==> issued == Some(DeleteRow(id))
      ensures confirmed && deleteError.Some? ==> notice == Some(DeleteFailed)
      ensures !confirmed || deleteError.Some? ==>
                settings == old(settings) && categories == old(categories) && loading == old(loading)
      ensures confirmed && deleteError.None? ==>
                notice == None &&
                settings == FetchedSettings(signedIn, refetch, old(settings)) &&
                categories == FetchedCategories(signedIn, refetch, old(categories)) &&
                loading == (if signedIn then false else old(loading))
    {
      issued, notice := None, None;
      if !confirmed {
        return;
      }
      issued := Some(DeleteRow(id));
      if deleteError.Some? {
        notice := Some(DeleteFailed);
      } else {
        FetchData(signedIn, refetch);
      }
    }

    /** `handleToggleEnabled`: asks for the opposite of the row's flag. */
    method HandleToggleEnabled(signedIn: bool, setting: AlertSetting, updateError: Option<DbError>, refetch: Outcome<FetchResult>)
      returns (issued: Write)
      modifies this`categories, this`settings, this`loading
      ensures issued == SetEnabled(setting.id, !setting.isEnabled)
      ensures updateError.Some? ==>
                settings == old(settings) && categories == old(categories) && loading == old(loading)
      ensures updateError.None? ==>
                settings == FetchedSettings(signedIn, refetch, old(settings)) &&
                categories == FetchedCategories(signedIn, refetch, old(categories)) &&
                loading == (if signedIn then false else old(loading))
    {
      issued := SetEnabled(setting.id, !setting.isEnabled);
      if updateError.None? {
        FetchData(signedIn, refetch);
      }
    }
  }
}
