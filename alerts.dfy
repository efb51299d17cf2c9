/** The alert store (`AlertHandler`): validated alerts, upserted by a deterministic id. */
module Alerts {
  import opened Wrappers
  import opened Json
  import Keyed

  datatype Alert = Alert(alertId: string, userId: string, timestamp: string, metadata: Doc)

  function AlertIdOf(a: Alert): string { a.alertId }

  function UserOf(a: Alert): string { a.userId }

  const AllowedTypes: seq<string> := ["health", "pharmacy", "restaurant", "gym", "location"]
  const AllowedSeverities: seq<string> := ["low", "medium", "high"]

  const TypeError := "Invalid alert type. Allowed types: ['health', 'pharmacy', 'restaurant', 'gym', 'location']"
  const SeverityError := "Invalid severity level. Allowed levels: ['low', 'medium', 'high']"
  const Added := "Alert added successfully"

  /** The id an alert is stored under. */
  function AlertId(userId: string, timestamp: string): (id: string)
    ensures |id| == 7 + |userId| + |timestamp|
    ensures id[..6] == "alert-" && id[6..6 + |userId|] == userId && id[6 + |userId|] == '-'
    ensures id[7 + |userId|..] == timestamp
  {
    "alert-" + userId + "-" + timestamp
  }

  /** `metadata.get(key) in allowed`: a missing key or a non-string value is never allowed. */
  predicate Allowed(metadata: Doc, key: string, allowed: seq<string>)
  {
    var v := Get(metadata, key);
    v.Some? && v.value.Str? && v.value.s in allowed
  }

  /**
   * `add_alert` on a store: the type is checked before the severity, a rejected alert
   * leaves the store as it was, and an accepted one replaces any alert with its id.
   */
  function AddAlertOn(alerts: seq<Alert>, userId: string, timestamp: string, metadata: Doc): (out: (Result<string>, seq<Alert>))
    ensures out.0.Ok? <==> Allowed(metadata, "type", AllowedTypes) && Allowed(metadata, "severity", AllowedSeverities)
    ensures !Allowed(metadata, "type", AllowedTypes) ==> out.0 == Err(TypeError)
    ensures Allowed(metadata, "type", AllowedTypes) && !Allowed(metadata, "severity", AllowedSeverities) ==> out.0 == Err(SeverityError)
    ensures out.0.Err? ==> out.1 == alerts
    ensures out.0.Ok? ==>
              out.0.value == Added &&
              out.1 == Keyed.Replace(alerts, AlertIdOf, Alert(AlertId(userId, timestamp), userId, timestamp, metadata))
  {
    if !Allowed(metadata, "type", AllowedTypes) then (Err(TypeError), alerts)
    else if !Allowed(metadata, "severity", AllowedSeverities) then (Err(SeverityError), alerts)
    else
      (Ok(Added), Keyed.Replace(alerts, AlertIdOf, Alert(AlertId(userId, timestamp), userId, timestamp, metadata)))
  }

  /**
   * On a store whose ids are unique, an accepted alert leaves exactly one alert under its
   * id, itself, and the ids stay unique; every other id keeps its alerts.
   */
  lemma AddAlertLeavesOne(alerts: seq<Alert>, userId: string, timestamp: string, metadata: Doc, id: string)
    requires Keyed.UniqueKeys(alerts, AlertIdOf)
    ensures var (r, after) := AddAlertOn(alerts, userId, timestamp, metadata);
      && Keyed.UniqueKeys(after, AlertIdOf)
      && (r.Ok? && id == AlertId(userId, timestamp) ==>
            Keyed.WithKey(after, AlertIdOf, id) == [Alert(AlertId(userId, timestamp), userId, timestamp, metadata)])
      && (id != AlertId(userId, timestamp) ==> Keyed.WithKey(after, AlertIdOf, id) == Keyed.WithKey(alerts, AlertIdOf, id))
  {
    var alert := Alert(AlertId(userId, timestamp), userId, timestamp, metadata);
    Keyed.UniqueKeysWithKey(alerts, AlertIdOf, id);
    Keyed.ReplaceSpec(alerts, AlertIdOf, alert, id);
    Keyed.ReplaceKeepsUnique(alerts, AlertIdOf, alert);
  }

  /** Adding the same alert twice leaves the store as adding it once. */
  lemma AddAlertIdempotent(alerts: seq<Alert>, userId: string, timestamp: string, metadata: Doc)
    requires Keyed.UniqueKeys(alerts, AlertIdOf)
    ensures var once := AddAlertOn(alerts, userId, timestamp, metadata).1;
      AddAlertOn(once, userId, timestamp, metadata).1 == once
  {
    var alert := Alert(AlertId(userId, timestamp), userId, timestamp, metadata);
    var once := AddAlertOn(alerts, userId, timestamp, metadata).1;
    if once != alerts {
      Keyed.ReplaceKeepsUnique(alerts, AlertIdOf, alert);
      var i := Keyed.FirstWithKey(once, AlertIdOf, alert.alertId);
      assert once[|once| - 1] == alert;
      assert i == |once| - 1;
      assert once[..i] + once[i + 1..] + [alert] == once;
    }
  }

  /** Ids are not injective: a dash in the user id can shift into the timestamp, so two users' alerts share an id. */
  lemma AlertIdShared()
    ensures AlertId("u-1", "t") == AlertId("u", "1-t")
  {
  }

  class AlertHandler {
    /** The `alerts` collection. */
    var alerts: seq<Alert>

    /** No two stored alerts share an id. */
    predicate Valid()
      reads this
    {
      Keyed.UniqueKeys(alerts, AlertIdOf)
    }

    constructor ()
      ensures alerts == [] && Valid()
    {
      alerts := [];
    }

    /** `add_alert`. */
    method AddAlert(userId: string, timestamp: string, metadata: Doc) returns (r: Result<string>)
      requires Valid()
      modifies this
      ensures (r, alerts) == AddAlertOn(old(alerts), userId, timestamp, metadata)
      ensures Valid()
    {
      var alert := Alert(AlertId(userId, timestamp), userId, timestamp, metadata);
      if !Allowed(metadata, "type", AllowedTypes) {
        return Err(TypeError);
      }
      if !Allowed(metadata, "severity", AllowedSeverities) {
        return Err(SeverityError);
      }
      Keyed.ReplaceKeepsUnique(alerts, AlertIdOf, alert);
      var i := Keyed.FirstWithKey(alerts, AlertIdOf, alert.alertId);
      if i >= 0 {
        alerts := alerts[..i] + alerts[i + 1..];
      }
      alerts := alerts + [alert];
      r := Ok(Added);
    }

    /** `get_by_user_id`: the user's alerts, in storage order, and no others. */
    method GetByUserId(userId: string) returns (r: seq<Alert>)
      ensures forall a :: a in r <==> a in alerts && a.userId == userId
      ensures r == Keyed.WithKey(alerts, UserOf, userId)
    {
      r := Keyed.WithKey(alerts, UserOf, userId);
      forall a | a in alerts && a.userId == userId ensures a in r {
        var i :| 0 <= i < |alerts| && alerts[i] == a;
      }
    }
  }
}
