/**
 * The decision logic of the current dashboard (public/js/app.js): the issue list
 * behind the status card, the history table's "isOptimal" test, the save button's
 * validation, the dispatch on the `/api/check` answer and the manual random button.
 * DOM writes are reduced to the value the status card shows.
 */
module Dashboard {
  import opened JsValues
  import opened JsText
  import Server

  const OptimalHumidityLow := 50.0
  const OptimalHumidityHigh := 90.0
  const OptimalTempLow := 15.0
  const OptimalTempHigh := 30.0

  /** The history table's own copies of the bounds. */
  const HistoryTempMin := 15.0
  const HistoryTempMax := 30.0
  const HistoryHumMin := 50.0
  const HistoryHumMax := 90.0

  datatype Issue = HumidityLow | HumidityHigh | TemperatureLow | TemperatureHigh

  function Label(i: Issue): string {
    match i
    case HumidityLow => "Humedad baja"
    case HumidityHigh => "Humedad alta"
    case TemperatureLow => "Temperatura baja"
    case TemperatureHigh => "Temperatura alta"
  }

  /** The position of each check in `updateStatusCard`. */
  function Rank(i: Issue): nat {
    match i
    case HumidityLow => 0
    case HumidityHigh => 1
    case TemperatureLow => 2
    case TemperatureHigh => 3
  }

  predicate InCheckOrder(issues: seq<Issue>) {
    forall i, j :: 0 <= i < j < |issues| ==> Rank(issues[i]) < Rank(issues[j])
  }

  function Labels(issues: seq<Issue>): (r: seq<string>)
    ensures |r| == |issues|
    ensures forall i :: 0 <= i < |issues| ==> r[i] == Label(issues[i])
  {
    if issues == [] then [] else [Label(issues[0])] + Labels(issues[1..])
  }

  /**
   * The history row's `isOptimal`, over `parseFloat` of the stored values: every
   * comparison with NaN is false, so an unreadable row is never optimal.
   */
  predicate IsOptimalRow(temp: Number, hum: Number) {
    && temp.Real? && hum.Real?
    && temp.r >= HistoryTempMin && temp.r <= HistoryTempMax
    && hum.r >= HistoryHumMin && hum.r <= HistoryHumMax
  }

  /** NaN on either side is never optimal, and the four bounds themselves are optimal. */
  lemma OptimalRowBounds(temp: Number, hum: Number)
    ensures temp.NaN? || hum.NaN? ==> !IsOptimalRow(temp, hum)
    ensures IsOptimalRow(Real(HistoryTempMin), Real(HistoryHumMin))
    ensures IsOptimalRow(Real(HistoryTempMax), Real(HistoryHumMax))
  {
  }

  /**
   * The issue list `updateStatusCard` builds for readable values: each bound
   * checked strictly, in the fixed order humidity-low, humidity-high,
   * temperature-low, temperature-high.
   */
  method CollectIssues(h: real, t: real) returns (issues: seq<Issue>)
    ensures HumidityLow in issues <==> h < OptimalHumidityLow
    ensures HumidityHigh in issues <==> h > OptimalHumidityHigh
    ensures TemperatureLow in issues <==> t < OptimalTempLow
    ensures TemperatureHigh in issues <==> t > OptimalTempHigh
    ensures InCheckOrder(issues) && |issues| <= 2
    ensures issues == [] <==> IsOptimalRow(Real(t), Real(h))
  {
    issues := [];
    if h < OptimalHumidityLow {
      issues := issues + [HumidityLow];
    }
    if h > OptimalHumidityHigh {
      issues := issues + [HumidityHigh];
    }
    if t < OptimalTempLow {
      issues := issues + [TemperatureLow];
    }
    if t > OptimalTempHigh {
      issues := issues + [TemperatureHigh];
    }
  }

  /**
   * The issue list of a readable (h, t): each issue listed exactly when its bound is
   * crossed, in check order.
   */
  predicate IssuesOf(issues: seq<Issue>, h: real, t: real) {
    && (HumidityLow in issues <==> h < OptimalHumidityLow)
    && (HumidityHigh in issues <==> h > OptimalHumidityHigh)
    && (TemperatureLow in issues <==> t < OptimalTempLow)
    && (TemperatureHigh in issues <==> t > OptimalTempHigh)
    && InCheckOrder(issues)
  }

  /** What the status card shows. */
  datatype CardView =
    | Initial
    | AlertCard(issues: seq<Issue>, detail: string)
    | OptimalCard(h: real, t: real)

  /** `h !== null && t !== null && !isNaN(h) && !isNaN(t)` */
  predicate Readable(h: Option<Number>, t: Option<Number>) {
    h.Some? && t.Some? && h.value.Real? && t.value.Real?
  }

  class StatusCard {
    var view: CardView

    constructor ()
      ensures view == Initial
    {
      view := Initial;
    }

    /**
     * `updateStatusCard(h, t)`: with an unreadable value nothing changes; otherwise
     * the card is an alert, listing the issues joined by " | ", exactly when there
     * is an issue, and optimal otherwise.
     */
    method Update(h: Option<Number>, t: Option<Number>)
      modifies this
      ensures !Readable(h, t) ==> view == old(view)
      ensures Readable(h, t) ==> view != Initial
      ensures Readable(h, t) && view.AlertCard? ==>
        && view.issues != [] && InCheckOrder(view.issues)
        && IssuesOf(view.issues, h.value.r, t.value.r)
        && view.detail == Join(Labels(view.issues), " | ")
      ensures Readable(h, t) ==> (view.OptimalCard? <==> IsOptimalRow(t.value, h.value))
      ensures view.OptimalCard? && Readable(h, t) ==> view == OptimalCard(h.value.r, t.value.r)
    {
      if Readable(h, t) {
        var issues := CollectIssues(h.value.r, t.value.r);
        if |issues| > 0 {
          view := AlertCard(issues, Join(Labels(issues), " | "));
        } else {
          view := OptimalCard(h.value.r, t.value.r);
        }
      }
    }

    /**
     * `fetchAndUpdateData` on one answer of `/api/datos_actuales`: both fields go
     * through the null guard and `Number`, then on to the status card.
     */
    method FetchAndUpdate(data: Server.LatestData, textNumber: string -> Number)
      modifies this
      ensures var h := FieldReading(data.Humedad(), textNumber);
        var t := FieldReading(data.Temperatura(), textNumber);
        && (!Readable(h, t) ==> view == old(view))
        && (Readable(h, t) ==> view != Initial)
        && (Readable(h, t) ==> (view.OptimalCard? <==> IsOptimalRow(t.value, h.value)))
        && (Readable(h, t) && view.AlertCard? ==>
              && view.issues != [] && IssuesOf(view.issues, h.value.r, t.value.r)
              && view.detail == Join(Labels(view.issues), " | "))
        && (Readable(h, t) && view.OptimalCard? ==> view == OptimalCard(h.value.r, t.value.r))
    {
      Update(FieldReading(data.Humedad(), textNumber), FieldReading(data.Temperatura(), textNumber));
    }
  }

  /** A dry but warm reading (40 %, 20 degrees C) turns a fresh card into an alert with the one issue "Humedad baja". */
  method DryReadingAlert() returns (view: CardView)
    ensures view == AlertCard([HumidityLow], "Humedad baja")
  {
    var card := new StatusCard();
    card.Update(Some(Real(40.0)), Some(Real(20.0)));
    view := card.view;
    assert view.AlertCard? by {
      assert !IsOptimalRow(Real(20.0), Real(40.0));
    }
    var issues := view.issues;
    assert forall k :: 0 <= k < |issues| ==> issues[k] == HumidityLow by {
      forall k | 0 <= k < |issues|
        ensures issues[k] == HumidityLow
      {
        assert issues[k] in issues;
      }
    }
    assert issues == [HumidityLow];
  }

  // ------------------------------------------------------------ save button

  datatype SaveOutcome = InvalidValues(tempText: string, humText: string) | Post(temperature: real, humidity: real)

  /**
   * The save button: `parseFloat` of both displayed texts; a NaN on either side
   * shows the invalid-values message and posts nothing.
   */
  function SaveClick(tempText: string, humText: string): (r: SaveOutcome)
    ensures r.InvalidValues? <==> ParseFloatText(tempText).NaN? || ParseFloatText(humText).NaN?
    ensures r.Post? ==> ParseFloatText(tempText) == Real(r.temperature) && ParseFloatText(humText) == Real(r.humidity)
  {
    match (ParseFloatText(tempText), ParseFloatText(humText))
    case (Real(temperature), Real(humidity)) => Post(temperature, humidity)
    case _ => InvalidValues(tempText, humText)
  }

  // ------------------------------------------------------------ manual random button

  /** `randBetween(min, max)` for one draw d, as the hundredths `toFixed(2)` prints. */
  function RandUnits(lo: nat, hi: nat, d: real): (u: nat)
    requires lo <= hi && 0.0 <= d < 1.0
    ensures lo * 100 <= u <= hi * 100
  {
    var x := d * (hi - lo) as real + lo as real;
    DrawBetween(lo, hi, d);
    FixedUnitsBetween(x, 100, lo, hi);
    FixedUnits(x, 100)
  }

  /** `randBetween(min, max)`: a draw d scaled into [min, max) and printed with `toFixed(2)`. */
  function RandText(lo: nat, hi: nat, d: real): string
    requires lo <= hi && 0.0 <= d < 1.0
  {
    FixedText2(RandUnits(lo, hi, d))
  }

  /** Hundredths within [lo * 100, hi * 100] read back as a value within [lo, hi]. */
  lemma HundredthsBetween(u: nat, lo: nat, hi: nat)
    requires lo * 100 <= u <= hi * 100
    ensures lo as real <= u as real / 100.0 <= hi as real
  {
    assert (lo * 100) as real <= u as real <= (hi * 100) as real;
  }

  /** The text `randBetween` prints reads back as a number within the band. */
  lemma RandTextValue(lo: nat, hi: nat, d: real)
    requires lo <= hi && 0.0 <= d < 1.0
    ensures ParseFloatText(RandText(lo, hi, d)).Real?
    ensures lo as real <= ParseFloatText(RandText(lo, hi, d)).r <= hi as real
  {
    var u := RandUnits(lo, hi, d);
    ParseFloatOfFixedText2(u);
    HundredthsBetween(u, lo, hi);
  }

  /**
   * After the manual random button, the save button always posts: temperature
   * in [10, 40] and humidity in [20, 95].
   */
  lemma ManualValuesAlwaysPost(dTemp: real, dHum: real)
    requires 0.0 <= dTemp < 1.0 && 0.0 <= dHum < 1.0
    ensures var r := SaveClick(RandText(10, 40, dTemp), RandText(20, 95, dHum));
      && r.Post?
      && 10.0 <= r.temperature <= 40.0
      && 20.0 <= r.humidity <= 95.0
  {
    RandTextValue(10, 40, dTemp);
    RandTextValue(20, 95, dHum);
  }

  // ------------------------------------------------------------ /api/check answer

  /**
   * The `issues` field of the `/api/check` answer, as `check.issues.length > 0 ?
   * check.issues.join(', ') : …` sees it: missing or null, an array of texts, or
   * any other value, of which only whether its `length` is positive matters (a
   * non-empty text has one; numbers, booleans and objects without one do not).
   */
  datatype IssuesField = Absent | Issues(list: seq<string>) | NotArray(positiveLength: bool)

  /** The fields of the `/api/check` answer the page reads. */
  datatype CheckReply = CheckReply(status: Value, issues: IssuesField, message: Value)

  datatype Banner =
    | AlertBanner(text: string)
    | OptimalBanner(temperature: real, humidity: real)
    | InfoBanner(shown: Value)
      /** Reading `length` of a missing field, or calling `join` on a value without it, threw: the catch block shows the error instead. */
    | ErrorBanner

  /** The field makes the alert branch throw: no `length` to read, or a positive one and no `join`. */
  predicate Throws(issues: IssuesField) {
    issues.Absent? || (issues.NotArray? && issues.positiveLength)
  }

  /**
   * The banner for a `/api/check` answer after posting (temperature, humidity):
   * "alert" lists the issues joined by ", ", or says "Fuera de rango" when the
   * length test fails; "ok" shows the posted values; anything else shows
   * `message || status`.
   */
  function CheckBanner(check: CheckReply, temperature: real, humidity: real): (b: Banner)
    ensures b.AlertBanner? || b.ErrorBanner? <==> check.status == Str("alert")
    ensures b.ErrorBanner? <==> check.status == Str("alert") && Throws(check.issues)
    ensures b.AlertBanner? && check.issues.Issues? && check.issues.list != [] ==> b.text == Join(check.issues.list, ", ")
    ensures b.AlertBanner? && !(check.issues.Issues? && check.issues.list != []) ==> b.text == "Fuera de rango"
    ensures b.OptimalBanner? <==> check.status == Str("ok")
    ensures b.OptimalBanner? ==> b == OptimalBanner(temperature, humidity)
    ensures b.InfoBanner? ==> b.shown == (if Truthy(check.message) then check.message else check.status)
  {
    if check.status == Str("alert") then
      match check.issues
      case Absent => ErrorBanner
      case Issues(list) => AlertBanner(if |list| > 0 then Join(list, ", ") else "Fuera de rango")
      case NotArray(positiveLength) => if positiveLength then ErrorBanner else AlertBanner("Fuera de rango")
    else if check.status == Str("ok") then OptimalBanner(temperature, humidity)
    else InfoBanner(Or(check.message, check.status))
  }

  /** An alert whose `issues` is an empty text, a number or a boolean says "Fuera de rango". */
  lemma NonArrayIssuesOutOfRange(message: Value, temperature: real, humidity: real)
    ensures CheckBanner(CheckReply(Str("alert"), NotArray(false), message), temperature, humidity) == AlertBanner("Fuera de rango")
  {
  }
}
