/**
 * The health decision pipeline (`HealthAlertGenerator`): the user's baseline is matched
 * to the destination's conditions, summarised as text, assessed by a language model, and
 * turned into one health alert and up to two nearby-pharmacy alerts.
 */
module Health {
  import opened Wrappers
  import opened Json
  import Text
  import opened Telemetry
  import Alerts

  function FactorName(f: Factor): string
  {
    match f
    case Temperature => "temperature"
    case Altitude => "altitude"
    case SpeedXY => "speed_xy"
    case SpeedZ => "speed_z"
  }

  function MetricName(m: Metric): string
  {
    match m
    case HeartRate => "heart_rate"
    case CaloriesBurned => "calories_burned"
    case O2Saturation => "o2_saturation"
  }

  function Dist(b: int, target: int): nat
  {
    if b >= target then b - target else target - b
  }

  /** `np.argmin` of the distances: a nearest bucket, the first one on ties. */
  function ArgMin(bs: seq<int>, target: int): (i: nat)
    requires |bs| > 0
    ensures i < |bs|
    ensures forall j :: 0 <= j < |bs| ==> Dist(bs[i], target) <= Dist(bs[j], target)
    ensures forall j :: 0 <= j < i ==> Dist(bs[i], target) < Dist(bs[j], target)
  {
    if |bs| == 1 then 0
    else
      var k := ArgMin(bs[..|bs| - 1], target);
      if Dist(bs[|bs| - 1], target) < Dist(bs[k], target) then |bs| - 1 else k
  }

  /** The bucket chosen for one factor, with its statistics. */
  datatype Closest = Closest(bucket: int, stats: seq<(Metric, Option<Stats>)>)

  /** `closest`: factor to chosen bucket, in the order the factors were visited. */
  type ClosestMap = seq<(Factor, Closest)>

  /** Entry `i` is nearest to `target`, and no earlier entry is as near. */
  predicate NearestAt(bs: BucketStats, target: int, i: int)
    requires 0 <= i < |bs|
  {
    (forall j :: 0 <= j < |bs| ==> Dist(bs[i].0, target) <= Dist(bs[j].0, target))
    && (forall j :: 0 <= j < i ==> Dist(bs[i].0, target) < Dist(bs[j].0, target))
  }

  /**
   * One factor of `get_closest_health_data`: nothing when the factor is missing or has no
   * buckets, otherwise the first bucket nearest to the target and its statistics.
   */
  function ClosestFor(analysis: Analysis, f: Factor, target: int): (r: Option<Closest>)
    ensures r.Some? <==> f in analysis && |analysis[f]| > 0
    ensures r.Some? ==> exists i :: 0 <= i < |analysis[f]| && NearestAt(analysis[f], target, i)
                                  && analysis[f][i] == (r.value.bucket, r.value.stats)
  {
    if f !in analysis || |analysis[f]| == 0 then None
    else
      var bs := analysis[f];
      var i := ArgMin(BucketKeys(bs), target);
      assert NearestAt(bs, target, i);
      Some(Closest(bs[i].0, bs[i].1))
  }

  /** Only one entry can be nearest in that sense, so the choice is determined. */
  lemma NearestUnique(bs: BucketStats, target: int, i: int, k: int)
    requires 0 <= i < |bs| && 0 <= k < |bs|
    requires NearestAt(bs, target, i) && NearestAt(bs, target, k)
    ensures i == k
  {
    var di, dk := Dist(bs[i].0, target), Dist(bs[k].0, target);
  }

  function Entry(f: Factor, c: Option<Closest>): seq<(Factor, Closest)>
  {
    if c.Some? then [(f, c.value)] else []
  }

  /** `get_closest_health_data` on an analysis: temperature first, then altitude. */
  function ClosestOf(analysis: Analysis, temp: real, altitude: real): ClosestMap
  {
    Entry(Temperature, ClosestFor(analysis, Temperature, Bucketize(temp, 5.0)))
      + Entry(Altitude, ClosestFor(analysis, Altitude, Bucketize(altitude, 10.0)))
  }

  /**
   * Only temperature and altitude ever appear, temperature first; a factor appears exactly
   * when the analysis has buckets for it, and its bucket is the nearest to the target.
   */
  lemma ClosestOfSpec(analysis: Analysis, temp: real, altitude: real)
    ensures var r := ClosestOf(analysis, temp, altitude);
      && |r| <= 2
      && (forall k :: 0 <= k < |r| ==> r[k].0 == Temperature || r[k].0 == Altitude)
      && (|r| == 2 ==> r[0].0 == Temperature && r[1].0 == Altitude)
      && ((exists k :: 0 <= k < |r| && r[k].0 == Temperature) <==> Temperature in analysis && |analysis[Temperature]| > 0)
      && ((exists k :: 0 <= k < |r| && r[k].0 == Altitude) <==> Altitude in analysis && |analysis[Altitude]| > 0)
      && forall k :: 0 <= k < |r| ==>
           var target := if r[k].0 == Temperature then Bucketize(temp, 5.0) else Bucketize(altitude, 10.0);
           exists i :: 0 <= i < |analysis[r[k].0]| && NearestAt(analysis[r[k].0], target, i)
                     && analysis[r[k].0][i] == (r[k].1.bucket, r[k].1.stats)
  {
    var t := ClosestFor(analysis, Temperature, Bucketize(temp, 5.0));
    var a := ClosestFor(analysis, Altitude, Bucketize(altitude, 10.0));
    var r := ClosestOf(analysis, temp, altitude);
    assert r == Entry(Temperature, t) + Entry(Altitude, a);
    if t.Some? {
      assert r[0] == (Temperature, t.value);
    }
    if a.Some? {
      assert r[|r| - 1] == (Altitude, a.value);
    }
  }

  /** The dict `format_scenario_info` reads: its plain keys and, if present, `closest_health_data`. */
  datatype ScenarioInfo = ScenarioInfo(fields: Doc, closest: Option<ClosestMap>)

  predicate EmptyInfo(info: ScenarioInfo)
  {
    |info.fields| == 0 && info.closest.None?
  }

  const NoInfo := "No scenario information available."

  /** `info.get(k, 'Unknown')` inside an f-string. */
  function Shown(d: Doc, k: string, render: Value -> string): string
  {
    Display(GetOr(d, k, Str("Unknown")), render)
  }

  function HeaderLines(d: Doc, render: Value -> string): seq<string>
  {
    [ "Location: " + Shown(d, "address", render),
      "Latitude: " + Shown(d, "lat", render) + ", Longitude: " + Shown(d, "lon", render),
      "Altitude: " + Shown(d, "altitude_m", render) + " meters",
      "Estimated Temperature: " + Shown(d, "temperature_C", render) + " °C" ]
  }

  function Unit(f: Factor): (u: string)
    ensures u == "°C" <==> f == Temperature
  {
    if f == Temperature then "°C" else "meters"
  }

  /** A bucket is shown as the float it was converted to. */
  function BucketText(b: int): string
  {
    Text.IntToString(b) + ".0"
  }

  function MetricLine(m: Metric, s: Stats, render: Value -> string): string
  {
    "  " + MetricName(m) + "_stats: Mean=" + render(Real(s.mean)) + ", Max=" + render(Real(s.max))
      + ", Min=" + render(Real(s.min)) + ", Var=" + render(Real(s.variance))
  }

  /** One line per metric whose statistics exist; a None is skipped. */
  function MetricLines(stats: seq<(Metric, Option<Stats>)>, render: Value -> string): (r: seq<string>)
    ensures |r| <= |stats|
    ensures |r| == |stats| <==> forall i :: 0 <= i < |stats| ==> stats[i].1.Some?
    ensures forall i :: 0 <= i < |r| ==> Text.StartsWith(r[i], "  ")
  {
    if |stats| == 0 then []
    else
      var rest := MetricLines(stats[1..], render);
      if stats[0].1.Some? then
        var line := MetricLine(stats[0].0, stats[0].1.value, render);
        assert line[..2] == "  ";
        [line] + rest
      else
        assert !(forall i :: 0 <= i < |stats| ==> stats[i].1.Some?) by {
          assert stats[0].1.None?;
        }
        rest
  }

  function Heading(f: Factor, b: int): string
  {
    "\nHealth data closest to " + FactorName(f) + " bucket " + BucketText(b) + " " + Unit(f) + ":"
  }

  function FactorLines(c: ClosestMap, render: Value -> string): seq<string>
  {
    if |c| == 0 then []
    else [Heading(c[0].0, c[0].1.bucket)] + MetricLines(c[0].1.stats, render) + FactorLines(c[1..], render)
  }

  /** `format_scenario_info`. */
  function FormatScenarioInfo(info: ScenarioInfo, render: Value -> string): string
  {
    if EmptyInfo(info) then NoInfo
    else Text.Join("\n", HeaderLines(info.fields, render) + FactorLines(info.closest.GetOr([]), render))
  }

  /**
   * An empty dict gives the fixed message; any other starts with the location line,
   * so the two cases never produce the same text.
   */
  lemma FormatScenarioInfoShape(info: ScenarioInfo, render: Value -> string)
    ensures EmptyInfo(info) <==> FormatScenarioInfo(info, render) == NoInfo
    ensures !EmptyInfo(info) ==> Text.StartsWith(FormatScenarioInfo(info, render), "Location: " + Shown(info.fields, "address", render))
  {
    if !EmptyInfo(info) {
      var head := HeaderLines(info.fields, render);
      var lines := head + FactorLines(info.closest.GetOr([]), render);
      assert lines[0] == "Location: " + Shown(info.fields, "address", render);
      Text.JoinStartsWith("\n", lines);
      var s := Text.Join("\n", lines);
      assert s[0] == lines[0][0] == 'L';
      assert NoInfo[0] == 'N';
    }
  }

  /** Each factor contributes its heading and one line per metric with statistics. */
  lemma {:induction false} FactorLinesCount(c: ClosestMap, render: Value -> string)
    ensures |FactorLines(c, render)| <= |c| + SumStats(c)
    ensures (forall k, i :: 0 <= k < |c| && 0 <= i < |c[k].1.stats| ==> c[k].1.stats[i].1.Some?) ==>
              |FactorLines(c, render)| == |c| + SumStats(c)
  {
    if |c| > 0 {
      FactorLinesCount(c[1..], render);
      if forall k, i :: 0 <= k < |c| && 0 <= i < |c[k].1.stats| ==> c[k].1.stats[i].1.Some? {
        assert forall k, i :: 0 <= k < |c[1..]| && 0 <= i < |c[1..][k].1.stats| ==> c[1..][k].1.stats[i].1.Some? by {
          forall k, i | 0 <= k < |c[1..]| && 0 <= i < |c[1..][k].1.stats| ensures c[1..][k].1.stats[i].1.Some? {
            assert c[1..][k] == c[k + 1];
          }
        }
      }
    }
  }

  function SumStats(c: ClosestMap): nat
  {
    if |c| == 0 then 0 else |c[0].1.stats| + SumStats(c[1..])
  }

  /** The structured answer of the assessment model. */
  datatype HealthAlert = HealthAlert(
    isSevere: bool, alertTitle: string, severity: string, message: string, medicalAdvice: string, carryMedication: string)

  function HealthDescription(a: HealthAlert): string
  {
    a.message + "\n Advice: " + a.medicalAdvice + "\n\n Medication: " + a.carryMedication
  }

  /** The metadata `push_health_alert` stores. */
  function HealthAlertMetadata(a: HealthAlert): (d: Doc)
    ensures Get(d, "type") == Some(Str("health"))
    ensures Get(d, "title") == Some(Str(a.alertTitle))
    ensures Get(d, "description") == Some(Str(HealthDescription(a)))
    ensures Get(d, "severity") == Some(Str(Text.Lower(a.severity)))
    ensures Keys(d) == ["type", "title", "description", "severity"]
  {
    var d := [("type", Str("health")), ("title", Str(a.alertTitle)), ("description", Str(HealthDescription(a))),
              ("severity", Str(Text.Lower(a.severity)))];
    GetAt(d, 2, "description");
    GetAt(d, 3, "severity");
    KeysOfFour(d);
    d
  }

  /**
   * A health alert is stored exactly when its lowercased severity is low, medium or high;
   * otherwise the store's error is dropped and nothing is written.
   */
  lemma HealthAlertAccepted(alerts: seq<Alerts.Alert>, userId: string, timestamp: string, a: HealthAlert)
    ensures Alerts.AddAlertOn(alerts, userId, timestamp, HealthAlertMetadata(a)).0.Ok?
            <==> Text.Lower(a.severity) in Alerts.AllowedSeverities
    ensures !(Text.Lower(a.severity) in Alerts.AllowedSeverities) ==>
              Alerts.AddAlertOn(alerts, userId, timestamp, HealthAlertMetadata(a)).1 == alerts
  {
    var d := HealthAlertMetadata(a);
    assert Alerts.Allowed(d, "type", Alerts.AllowedTypes) by {
      assert "health" == Alerts.AllowedTypes[0];
    }
  }

  /** The outcome of the pharmacy search call: it raised, or it answered with a status and a body. */
  datatype Fetch = Failed | Fetched(status: int, body: Value)

  /** `data["results"][:2]`: empty unless the call answered 200 with an object holding a list of results. */
  function PharmacyItems(fetch: Fetch): (items: seq<Value>)
    ensures |items| <= 2
    ensures items != [] ==> fetch.Fetched? && fetch.status == 200
  {
    if fetch.Failed? || fetch.status != 200 || !fetch.body.Obj? then []
    else
      match Get(fetch.body.fields, "results")
      case Some(Arr(rs)) => if |rs| <= 2 then rs else rs[..2]
      case _ => []
  }

  /** The truthy location entries as `k: v`. */
  function LocationParts(loc: Doc, render: Value -> string): (r: seq<string>)
    ensures |r| <= |loc|
  {
    if |loc| == 0 then []
    else (if Truthy(loc[0].1) then [loc[0].0 + ": " + Display(loc[0].1, render)] else []) + LocationParts(loc[1..], render)
  }

  function PharmacyDescription(name: string, location: string, tel: string, website: string, alert: string): (s: string)
    ensures Text.EndsWith(s, "\n\nHealth Alert: " + alert)
    ensures Text.StartsWith(s, name + "\nLocation:\n" + location)
  {
    var s := name + "\nLocation:\n" + location + "\nContact: " + tel + "\nWebsite: " + website + "\n\nHealth Alert: " + alert;
    assert s[|s| - |"\n\nHealth Alert: " + alert|..] == "\n\nHealth Alert: " + alert;
    assert s[..|name + "\nLocation:\n" + location|] == name + "\nLocation:\n" + location;
    s
  }

  /** The metadata written for one pharmacy result. */
  function PharmacyMetadata(item: Doc, loc: Doc, alert: string, render: Value -> string): (d: Doc)
    ensures Get(d, "type") == Some(Str("pharmacy")) && Get(d, "severity") == Some(Str("medium"))
    ensures Get(d, "description").Some? && Get(d, "description").value.Str?
    ensures Text.EndsWith(Get(d, "description").value.s, "\n\nHealth Alert: " + alert)
  {
    var name := Display(GetOr(item, "name", Null), render);
    var description := PharmacyDescription(name, Text.Join(",\n", LocationParts(loc, render)),
                                           Display(GetOr(item, "tel", Str("N/A")), render),
                                           Display(GetOr(item, "website", Str("N/A")), render), alert);
    var d := [("type", Str("pharmacy")), ("title", Str("Nearby Pharmacy: " + name)), ("description", Str(description)),
              ("severity", Str("medium")), ("latitude", GetOr(item, "latitude", Null)), ("longitude", GetOr(item, "longitude", Null))];
    GetAt(d, 2, "description");
    GetAt(d, 3, "severity");
    d
  }

  /** One loop turn: the metadata to write, or None where `r.get` or `location.items()` raises. */
  function PharmacyStep(item: Value, alert: string, render: Value -> string): Option<Doc>
  {
    if !item.Obj? then None
    else
      var loc := GetOr(item.fields, "location", Obj([]));
      if !loc.Obj? then None else Some(PharmacyMetadata(item.fields, loc.fields, alert, render))
  }

  /** The store after the loop, from the `k`-th write on; a raising turn ends the loop. */
  function PharmacyWrites(alerts: seq<Alerts.Alert>, userId: string, items: seq<Value>, k: nat, alert: string,
                          render: Value -> string, clock: nat -> string): seq<Alerts.Alert>
    decreases |items|
  {
    if |items| == 0 then alerts
    else
      match PharmacyStep(items[0], alert, render)
      case None => alerts
      case Some(md) => PharmacyWrites(Alerts.AddAlertOn(alerts, userId, clock(k), md).1, userId, items[1..], k + 1, alert, render, clock)
  }

  /** Whether a stored alert is one of this user's pharmacy alerts about `alert`. */
  predicate PharmacyAlertFor(a: Alerts.Alert, userId: string, alert: string)
  {
    && a.userId == userId
    && Get(a.metadata, "type") == Some(Str("pharmacy"))
    && Get(a.metadata, "severity") == Some(Str("medium"))
    && Get(a.metadata, "description").Some? && Get(a.metadata, "description").value.Str?
    && Text.EndsWith(Get(a.metadata, "description").value.s, "\n\nHealth Alert: " + alert)
  }

  /** Storing pharmacy metadata always succeeds and adds at most one alert, a pharmacy alert for the user. */
  lemma AddPharmacyAlert(alerts: seq<Alerts.Alert>, userId: string, timestamp: string, md: Doc, alert: string)
    requires Get(md, "type") == Some(Str("pharmacy")) && Get(md, "severity") == Some(Str("medium"))
    requires Get(md, "description").Some? && Get(md, "description").value.Str?
    requires Text.EndsWith(Get(md, "description").value.s, "\n\nHealth Alert: " + alert)
    ensures Alerts.AddAlertOn(alerts, userId, timestamp, md).0.Ok?
    ensures |Alerts.AddAlertOn(alerts, userId, timestamp, md).1| <= |alerts| + 1
    ensures forall a :: a in Alerts.AddAlertOn(alerts, userId, timestamp, md).1 ==> a in alerts || PharmacyAlertFor(a, userId, alert)
  {
    PharmacyAllowed(md);
    var x := Alerts.Alert(Alerts.AlertId(userId, timestamp), userId, timestamp, md);
    assert PharmacyAlertFor(x, userId, alert);
    Keyed.ReplaceMembers(alerts, Alerts.AlertIdOf, x);
  }

  /** Pharmacy metadata passes both of the alert store's validations. */
  lemma PharmacyAllowed(md: Doc)
    requires Get(md, "type") == Some(Str("pharmacy")) && Get(md, "severity") == Some(Str("medium"))
    ensures Alerts.Allowed(md, "type", Alerts.AllowedTypes) && Alerts.Allowed(md, "severity", Alerts.AllowedSeverities)
  {
    assert "pharmacy" == Alerts.AllowedTypes[1];
    assert "medium" == Alerts.AllowedSeverities[1];
  }

  /** The pharmacy loop adds at most one alert per result. */
  lemma {:induction false} PharmacyWritesBound(alerts: seq<Alerts.Alert>, userId: string, items: seq<Value>, k: nat, alert: string,
                                               render: Value -> string, clock: nat -> string)
    ensures |PharmacyWrites(alerts, userId, items, k, alert, render, clock)| <= |alerts| + |items|
    decreases |items|
  {
    if |items| > 0 {
      var step := PharmacyStep(items[0], alert, render);
      if step.Some? {
        var next := Alerts.AddAlertOn(alerts, userId, clock(k), step.value).1;
        AddPharmacyAlert(alerts, userId, clock(k), step.value, alert);
        PharmacyWritesBound(next, userId, items[1..], k + 1, alert, render, clock);
        assert PharmacyWrites(alerts, userId, items, k, alert, render, clock)
            == PharmacyWrites(next, userId, items[1..], k + 1, alert, render, clock);
      }
    }
  }

  /**
   * The pharmacy loop adds at most one alert per result, and every alert it adds is a
   * medium pharmacy alert for the user ending with the health alert text.
   */
  lemma {:induction false} PharmacyWritesSpec(alerts: seq<Alerts.Alert>, userId: string, items: seq<Value>, k: nat, alert: string,
                                              render: Value -> string, clock: nat -> string)
    ensures |PharmacyWrites(alerts, userId, items, k, alert, render, clock)| <= |alerts| + |items|
    ensures forall a :: a in PharmacyWrites(alerts, userId, items, k, alert, render, clock) ==>
              a in alerts || PharmacyAlertFor(a, userId, alert)
    decreases |items|
  {
    PharmacyWritesBound(alerts, userId, items, k, alert, render, clock);
    if |items| > 0 {
      var step := PharmacyStep(items[0], alert, render);
      if step.Some? {
        var next := Alerts.AddAlertOn(alerts, userId, clock(k), step.value).1;
        AddPharmacyAlert(alerts, userId, clock(k), step.value, alert);
        PharmacyWritesSpec(next, userId, items[1..], k + 1, alert, render, clock);
        assert PharmacyWrites(alerts, userId, items, k, alert, render, clock)
            == PharmacyWrites(next, userId, items[1..], k + 1, alert, render, clock);
      }
    }
  }

  /** A turn that raises keeps the writes of the turns before it and makes no more. */
  lemma {:induction false} PharmacyStopsAt(alerts: seq<Alerts.Alert>, userId: string, items: seq<Value>, k: nat, alert: string,
                                           render: Value -> string, clock: nat -> string, j: nat)
    requires j < |items| && PharmacyStep(items[j], alert, render).None?
    ensures PharmacyWrites(alerts, userId, items, k, alert, render, clock) == PharmacyWrites(alerts, userId, items[..j], k, alert, render, clock)
    decreases j
  {
    if j > 0 {
      var step := PharmacyStep(items[0], alert, render);
      assert items[..j][0] == items[0] && items[..j][1..] == items[1..][..j - 1];
      if step.Some? {
        PharmacyStopsAt(Alerts.AddAlertOn(alerts, userId, clock(k), step.value).1, userId, items[1..], k + 1, alert, render, clock, j - 1);
      }
    }
  }

  /** What the extraction model reports about the user's message. */
  datatype Extraction = Extraction(isAddress: bool, destination: string)

  /** What the place lookup returns for a destination. */
  datatype Place = Place(lat: real, lon: real, address: string, altitudeM: real, temperatureC: real)

  /** The dict `run` returns when it does not abort. */
  datatype RunResult = RunResult(lat: real, lon: real, scenarioDetails: string, healthAlert: HealthAlert)

  function PlaceFields(p: Place): Doc
  {
    [("lat", Real(p.lat)), ("lon", Real(p.lon)), ("address", Str(p.address)),
     ("altitude_m", Real(p.altitudeM)), ("temperature_C", Real(p.temperatureC))]
  }

  const PromptHead: string := "Based on the following scenario details and user health data, generate any necessary health alerts with severity and medical advice.\nHealth metrics analysis report:\n"

  /** The prompt of the assessment model. */
  function AssessmentPrompt(details: string, userInput: string): string
  {
    PromptHead + details + "\n\nUser is saying: " + userInput + "\n        "
  }

  /** `run` gives up when no address is mentioned and the destination is empty, or the place is unknown. */
  predicate Aborts(ex: Extraction, lookup: string -> Option<Place>)
  {
    (!ex.isAddress && ex.destination == "") || lookup(ex.destination).None?
  }

  /** The scenario text `run` builds for a place: its fields and the closest baseline buckets. */
  function DetailsFor(p: Place, analysis: Analysis, render: Value -> string): string
  {
    FormatScenarioInfo(ScenarioInfo(PlaceFields(p), Some(ClosestOf(analysis, p.temperatureC, p.altitudeM))), render)
  }

  /** What `run` returns: None for `{}`. */
  function RunResultOn(userInput: string, ex: Extraction, lookup: string -> Option<Place>, analysis: Analysis,
                       assess: string -> HealthAlert, render: Value -> string): Option<RunResult>
  {
    if Aborts(ex, lookup) then None
    else
      var p := lookup(ex.destination).value;
      var details := DetailsFor(p, analysis, render);
      Some(RunResult(p.lat, p.lon, details, assess(AssessmentPrompt(details, userInput))))
  }

  /** The alert store after `run`: the health alert, then the pharmacy alerts at the place. */
  function RunAlertsOn(alerts: seq<Alerts.Alert>, userId: string, userInput: string, ex: Extraction,
                       lookup: string -> Option<Place>, analysis: Analysis, assess: string -> HealthAlert,
                       fetch: (real, real) -> Fetch, healthStamp: string, clock: nat -> string,
                       render: Value -> string): seq<Alerts.Alert>
  {
    match RunResultOn(userInput, ex, lookup, analysis, assess, render)
    case None => alerts
    case Some(res) =>
      var afterHealth := Alerts.AddAlertOn(alerts, userId, healthStamp, HealthAlertMetadata(res.healthAlert)).1;
      PharmacyWrites(afterHealth, userId, PharmacyItems(fetch(res.lat, res.lon)), 0, res.healthAlert.message, render, clock)
  }

  /** `run` returns nothing and writes nothing exactly when it aborts. */
  lemma RunAborts(alerts: seq<Alerts.Alert>, userId: string, userInput: string, ex: Extraction,
                  lookup: string -> Option<Place>, analysis: Analysis, assess: string -> HealthAlert,
                  fetch: (real, real) -> Fetch, healthStamp: string, clock: nat -> string, render: Value -> string)
    ensures RunResultOn(userInput, ex, lookup, analysis, assess, render).None? <==> Aborts(ex, lookup)
    ensures Aborts(ex, lookup) ==>
              RunAlertsOn(alerts, userId, userInput, ex, lookup, analysis, assess, fetch, healthStamp, clock, render) == alerts
  {
  }

  /**
   * Otherwise `run` reports the place's coordinates, a scenario text that starts with the
   * place's address, and the model's answer to the prompt built from that text.
   */
  lemma RunReports(userInput: string, ex: Extraction, lookup: string -> Option<Place>, analysis: Analysis,
                   assess: string -> HealthAlert, render: Value -> string)
    requires !Aborts(ex, lookup)
    ensures var p := lookup(ex.destination).value;
            var r := RunResultOn(userInput, ex, lookup, analysis, assess, render).value;
            && r.lat == p.lat && r.lon == p.lon
            && r.healthAlert == assess(AssessmentPrompt(r.scenarioDetails, userInput))
            && Text.StartsWith(r.scenarioDetails, "Location: " + p.address)
  {
    var p := lookup(ex.destination).value;
    PlaceShown(p, render);
    var info := ScenarioInfo(PlaceFields(p), Some(ClosestOf(analysis, p.temperatureC, p.altitudeM)));
    FormatScenarioInfoShape(info, render);
    assert DetailsFor(p, analysis, render) == FormatScenarioInfo(info, render);
  }

  lemma PlaceShown(p: Place, render: Value -> string)
    ensures Shown(PlaceFields(p), "address", render) == p.address
  {
    GetAt(PlaceFields(p), 2, "address");
  }

  /** A run adds at most three alerts: the health alert and two pharmacy alerts. */
  lemma RunAddsAtMostThree(alerts: seq<Alerts.Alert>, userId: string, userInput: string, ex: Extraction,
                           lookup: string -> Option<Place>, analysis: Analysis, assess: string -> HealthAlert,
                           fetch: (real, real) -> Fetch, healthStamp: string, clock: nat -> string, render: Value -> string)
    ensures |RunAlertsOn(alerts, userId, userInput, ex, lookup, analysis, assess, fetch, healthStamp, clock, render)| <= |alerts| + 3
  {
    var r := RunResultOn(userInput, ex, lookup, analysis, assess, render);
    if r.Some? {
      var a := r.value.healthAlert;
      var md := HealthAlertMetadata(a);
      var afterHealth := Alerts.AddAlertOn(alerts, userId, healthStamp, md).1;
      Keyed.ReplaceMembers(alerts, Alerts.AlertIdOf, Alerts.Alert(Alerts.AlertId(userId, healthStamp), userId, healthStamp, md));
      PharmacyWritesSpec(afterHealth, userId, PharmacyItems(fetch(r.value.lat, r.value.lon)), 0, a.message, render, clock);
      assert RunAlertsOn(alerts, userId, userInput, ex, lookup, analysis, assess, fetch, healthStamp, clock, render)
          == PharmacyWrites(afterHealth, userId, PharmacyItems(fetch(r.value.lat, r.value.lon)), 0, a.message, render, clock);
    }
  }

  /** Two assessments that differ only in `is_severe` leave the same alert store. */
  lemma RunIgnoresSeverity(alerts: seq<Alerts.Alert>, userId: string, userInput: string, ex: Extraction,
                           lookup: string -> Option<Place>, analysis: Analysis, assess: string -> HealthAlert,
                           assess': string -> HealthAlert, fetch: (real, real) -> Fetch, healthStamp: string,
                           clock: nat -> string, render: Value -> string)
    requires forall p :: assess'(p).(isSevere := false) == assess(p).(isSevere := false)
    ensures RunAlertsOn(alerts, userId, userInput, ex, lookup, analysis, assess, fetch, healthStamp, clock, render)
         == RunAlertsOn(alerts, userId, userInput, ex, lookup, analysis, assess', fetch, healthStamp, clock, render)
  {
    if !Aborts(ex, lookup) {
      var p := lookup(ex.destination).value;
      var prompt := AssessmentPrompt(DetailsFor(p, analysis, render), userInput);
      assert HealthAlertMetadata(assess(prompt)) == HealthAlertMetadata(assess'(prompt)) by {
        assert assess'(prompt).(isSevere := false) == assess(prompt).(isSevere := false);
      }
    }
  }

  class HealthAlertGenerator {
    const healthData: HealthDataHandler
    const alertStore: Alerts.AlertHandler

    constructor (healthData: HealthDataHandler, alertStore: Alerts.AlertHandler)
      ensures this.healthData == healthData && this.alertStore == alertStore
    {
      this.healthData := healthData;
      this.alertStore := alertStore;
    }

    /** `get_closest_health_data`: the baseline analysis of the sample, matched to the conditions. */
    method GetClosestHealthData(userId: string, temp: real, altitude: real, sample: seq<HealthRecord>, env: Env)
      returns (closest: ClosestMap)
      requires multiset(sample) <= multiset(Keyed.WithKey(healthData.records, UserOf, userId))
      requires |sample| == if |Keyed.WithKey(healthData.records, UserOf, userId)| < 10
                           then |Keyed.WithKey(healthData.records, UserOf, userId)| else 10
      ensures closest == ClosestOf(AnalysisOf(sample, env), temp, altitude)
    {
      var analysis := healthData.AnalyzeHealthData(userId, "2020-10-01 06:00:00", "2027-10-01 08:00:00", sample, env);
      closest := ClosestOf(analysis, temp, altitude);
    }

    /** `push_health_alert`: the store's answer is dropped. */
    method PushHealthAlert(userId: string, alert: HealthAlert, timestamp: string)
      requires alertStore.Valid()
      modifies alertStore
      ensures alertStore.alerts == Alerts.AddAlertOn(old(alertStore.alerts), userId, timestamp, HealthAlertMetadata(alert)).1
      ensures alertStore.Valid()
    {
      var _ := alertStore.AddAlert(userId, timestamp, HealthAlertMetadata(alert));
    }

    /** `push_pharmacy_alert`: failures end the loop quietly. */
    method PushPharmacyAlert(userId: string, lat: real, lon: real, alert: string, fetch: (real, real) -> Fetch,
                             clock: nat -> string, render: Value -> string)
      requires alertStore.Valid()
      modifies alertStore
      ensures alertStore.alerts == PharmacyWrites(old(alertStore.alerts), userId, PharmacyItems(fetch(lat, lon)), 0, alert, render, clock)
      ensures alertStore.Valid()
    {
      var items := PharmacyItems(fetch(lat, lon));
      var i := 0;
      while i < |items|
        invariant 0 <= i <= |items|
        invariant alertStore.Valid()
        invariant PharmacyWrites(old(alertStore.alerts), userId, items, 0, alert, render, clock)
               == PharmacyWrites(alertStore.alerts, userId, items[i..], i, alert, render, clock)
      {
        var md := PharmacyStep(items[i], alert, render);
        if md.None? {
          return;
        }
        assert items[i..][1..] == items[i + 1..];
        var _ := alertStore.AddAlert(userId, clock(i), md.value);
        i := i + 1;
      }
    }

    /** `run`. */
    method Run(userId: string, userInput: string, extract: string -> Extraction, lookup: string -> Option<Place>,
               sample: seq<HealthRecord>, env: Env, assess: string -> HealthAlert, fetch: (real, real) -> Fetch,
               healthStamp: string, clock: nat -> string, render: Value -> string)
      returns (r: Option<RunResult>)
      requires alertStore.Valid()
      requires multiset(sample) <= multiset(Keyed.WithKey(healthData.records, UserOf, userId))
      requires |sample| == if |Keyed.WithKey(healthData.records, UserOf, userId)| < 10
                           then |Keyed.WithKey(healthData.records, UserOf, userId)| else 10
      modifies alertStore
      ensures r == RunResultOn(userInput, extract(userInput), lookup, AnalysisOf(sample, env), assess, render)
      ensures alertStore.alerts == RunAlertsOn(old(alertStore.alerts), userId, userInput, extract(userInput), lookup,
                                               AnalysisOf(sample, env), assess, fetch, healthStamp, clock, render)
      ensures alertStore.Valid()
    {
      var ex := extract(userInput);
      if !ex.isAddress && ex.destination == "" {
        return None;
      }
      var place := lookup(ex.destination);
      if place.None? {
        return None;
      }
      var p := place.value;
      var closest := GetClosestHealthData(userId, p.temperatureC, p.altitudeM, sample, env);
      var details := FormatScenarioInfo(ScenarioInfo(PlaceFields(p), Some(closest)), render);
      assert details == DetailsFor(p, AnalysisOf(sample, env), render);
      var a := assess(AssessmentPrompt(details, userInput));
      ghost var res := RunResultOn(userInput, ex, lookup, AnalysisOf(sample, env), assess, render);
      assert res == Some(RunResult(p.lat, p.lon, details, a));
      PushHealthAlert(userId, a, healthStamp);
      PushPharmacyAlert(userId, p.lat, p.lon, a.message, fetch, clock, render);
      r := Some(RunResult(p.lat, p.lon, details, a));
    }
  }
}
