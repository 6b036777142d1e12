/** The alerts panel: it loads the engine's alerts, de-duplicates them once
    more, hides the dismissed ones, lets the user dismiss an alert, and shows
    each alert's age. */
module AlertsPanel {
  import opened Common
  import Strings
  import Seqs
  import Unique
  import Alerts

  type GeneratedAlert = Alerts.GeneratedAlert

  /** `!dismissedIds.has(a.alert_setting_id || a.id)`. */
  function NotDismissed(dismissed: set<string>): GeneratedAlert -> bool {
    (a: GeneratedAlert) => Alerts.SettingKey(a) !in dismissed
  }

  /** `(alert.alert_setting_id || alert.id) !== key`. */
  function KeyIsNot(key: string): GeneratedAlert -> bool {
    (a: GeneratedAlert) => Alerts.SettingKey(a) != key
  }

  /** The alerts the panel shows for a freshly generated list. */
  function Shown(generated: seq<GeneratedAlert>, dismissed: set<string>): seq<GeneratedAlert> {
    Seqs.Filter(Alerts.Dedup(generated), NotDismissed(dismissed))
  }

  /** `settingId || id`: the key a dismissal records. */
  function DismissKey(id: string, settingId: Option<string>): string {
    if Alerts.Truthy(settingId) then settingId.value else id
  }

  class Panel {
    var alerts: seq<GeneratedAlert>
    var dismissedIds: set<string>
    var loading: bool
    /** The last count handed to `onAlertsLoaded`, if it has been called. */
    var reported: Option<nat>

    /** What the panel keeps true: nothing shown is dismissed, no two shown
        alerts share a de-duplication key, and the last count reported is
        the number shown. */
    ghost predicate Valid()
      reads this
    {
      (forall i :: 0 <= i < |alerts| ==> Alerts.SettingKey(alerts[i]) !in dismissedIds) &&
      Unique.DistinctKeys(alerts, Alerts.DedupKey) &&
      (reported.Some? ==> reported.value == |alerts|)
    }

    constructor ()
      ensures Valid()
      ensures alerts == [] && dismissedIds == {} && loading && reported == None
    {
      alerts := [];
      dismissedIds := {};
      loading := true;
      reported := None;
    }

    /** `fetchAlerts`, given whether a user is signed in and what the awaited
        `generateAlerts` call did. */
    method FetchAlerts(signedIn: bool, outcome: Outcome<seq<GeneratedAlert>>)
      requires Valid()
      modifies this
      ensures Valid()
      ensures dismissedIds == old(dismissedIds)
      ensures !signedIn ==> alerts == old(alerts) && reported == old(reported) && loading == old(loading)
      ensures signedIn ==> !loading
      ensures signedIn && outcome.Returned? ==>
                alerts == Shown(outcome.value, dismissedIds) && reported == Some(|alerts|)
      ensures signedIn && outcome.Threw? && IsMissingTable(outcome.error) ==>
                alerts == [] && reported == Some(0)
      ensures signedIn && outcome.Threw? && !IsMissingTable(outcome.error) ==>
                alerts == old(alerts) && reported == old(reported)
    {
      if !signedIn {
        return;
      }
      loading := true;
      match outcome {
        case Returned(generated) =>
          var unique := Alerts.DedupAlerts(generated);
          var filtered := Seqs.Filter(unique, NotDismissed(dismissedIds));
          Unique.DedupDistinct(generated, Alerts.DedupKey);
          Unique.FilterDistinct(unique, NotDismissed(dismissedIds), Alerts.DedupKey);
          alerts := filtered;
          reported := Some(|filtered|);
        case Threw(error) =>
          if IsMissingTable(error) {
            alerts := [];
            reported := Some(0);
          }
      }
      loading := false;
    }

    /** `removeAlert(id, settingId)`. */
    method RemoveAlert(id: string, settingId: Option<string>)
      requires Valid()
      modifies this
      ensures Valid()
      ensures dismissedIds == old(dismissedIds) + {DismissKey(id, settingId)}
      ensures alerts == Seqs.Filter(old(alerts), KeyIsNot(DismissKey(id, settingId)))
      ensures reported == Some(|alerts|)
      ensures loading == old(loading)
    {
      var key := DismissKey(id, settingId);
      dismissedIds := dismissedIds + {key};
      Unique.FilterDistinct(alerts, KeyIsNot(key), Alerts.DedupKey);
      alerts := Seqs.Filter(alerts, KeyIsNot(key));
      reported := Some(|alerts|);
    }
  }

  /** A fetch shows no dismissed alert and no two alerts with the same key,
      keeps the order of the de-duplicated list, and drops from it only
      dismissed alerts. */
  lemma ShownProperties(generated: seq<GeneratedAlert>, dismissed: set<string>)
    ensures var r := Shown(generated, dismissed);
            var u := Alerts.Dedup(generated);
            Unique.DistinctKeys(r, Alerts.DedupKey) &&
            (forall i :: 0 <= i < |r| ==> Alerts.SettingKey(r[i]) !in dismissed) &&
            Seqs.IsSubsequence(r, u) &&
            forall i :: 0 <= i < |u| && Alerts.SettingKey(u[i]) !in dismissed ==> u[i] in r
  {
    var u := Alerts.Dedup(generated);
    Unique.DedupDistinct(generated, Alerts.DedupKey);
    Unique.FilterDistinct(u, NotDismissed(dismissed), Alerts.DedupKey);
    Seqs.FilterIsSubsequence(u, NotDismissed(dismissed));
  }

  /** Dismissing removes exactly the alerts with that key and keeps the rest
      in order; the dismissed set only grows. */
  lemma RemoveProperties(alerts: seq<GeneratedAlert>, key: string)
    ensures var r := Seqs.Filter(alerts, KeyIsNot(key));
            Seqs.IsSubsequence(r, alerts) &&
            (forall i :: 0 <= i < |r| ==> Alerts.SettingKey(r[i]) != key) &&
            (forall i :: 0 <= i < |alerts| && Alerts.SettingKey(alerts[i]) != key ==> alerts[i] in r)
  {
    Seqs.FilterIsSubsequence(alerts, KeyIsNot(key));
  }

  // ---------------------------------------------------------------- age

  const HOUR_MS: int := 1000 * 60 * 60
  const MINUTE_MS: int := 1000 * 60

  /** JavaScript's `%`: the remainder takes the sign of the dividend. */
  function JsRem(a: int, b: int): (r: int)
    requires b > 0
    ensures a >= 0 ==> 0 <= r < b
    ensures a < 0 ==> -b < r <= 0
  {
    if a >= 0 then a % b else -((-a) % b)
  }

  datatype Age = DaysAgo(days: nat) | HoursAgo(hours: nat) | MinutesAgo(minutes: nat) | JustNow

  /** `formatTime`, given `now.getTime() - date.getTime()`. `Math.floor` of a
      quotient by a positive constant is Dafny's `/`. */
  function FormatTime(diff: int): (r: Age)
    ensures diff >= 25 * HOUR_MS ==> r == DaysAgo(diff / HOUR_MS / 24) && r.days >= 1
    ensures HOUR_MS <= diff < 25 * HOUR_MS ==> r == HoursAgo(diff / HOUR_MS) && 1 <= r.hours <= 24
    ensures MINUTE_MS <= diff < HOUR_MS ==> r == MinutesAgo(diff / MINUTE_MS) && 1 <= r.minutes <= 59
    ensures diff < MINUTE_MS ==> r == JustNow
  {
    var hours := diff / HOUR_MS;
    var minutes := JsRem(diff, HOUR_MS) / MINUTE_MS;
    if hours > 24 then DaysAgo(hours / 24)
    else if hours > 0 then HoursAgo(hours)
    else if minutes > 0 then MinutesAgo(minutes)
    else JustNow
  }

  /** The text shown. */
  function AgeText(a: Age): string {
    match a
    case DaysAgo(d) => Strings.NatToString(d) + "d ago"
    case HoursAgo(h) => Strings.NatToString(h) + "h ago"
    case MinutesAgo(m) => Strings.NatToString(m) + "m ago"
    case JustNow => "Just now"
  }

  /** Exactly one day shows as hours, not as a day. */
  lemma ExactlyOneDay()
    ensures AgeText(FormatTime(24 * HOUR_MS)) == "24h ago"
  {
    assert FormatTime(24 * HOUR_MS) == HoursAgo(24);
    assert Strings.NatToString(24) == "24";
  }
}
