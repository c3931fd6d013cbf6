/**
 * The older dashboard script (js/app.js): it reads `/api/datos_actuales`, turns the
 * two fields into numbers, and shows either placeholders, "¡ALERTA!" or "Óptimo"
 * against its own, narrower bands (humidity 75..85 %, temperature 18..24 degrees C).
 */
module LegacyDashboard {
  import opened JsValues
  import Server

  const HumidityLow := 75.0
  const HumidityHigh := 85.0
  const TempLow := 18.0
  const TempHigh := 24.0

  /** What the status text shows: "Cargando...", "¡ALERTA!" or "Óptimo", with the values read. */
  datatype Display = Loading | Alert(h: real, t: real) | Optimal(h: real, t: real)

  /** The strict alert test of the status logic. */
  predicate OutOfRange(h: real, t: real) {
    h < HumidityLow || h > HumidityHigh || t < TempLow || t > TempHigh
  }

  /**
   * The guard and the classification: a missing or NaN value shows the loading
   * placeholders; otherwise the reading is an alert exactly when a bound is crossed.
   */
  function Classify(h: Option<Number>, t: Option<Number>): (d: Display)
    ensures d.Loading? <==> h.None? || t.None? || h.value.NaN? || t.value.NaN?
    ensures d.Alert? <==> && h.Some? && t.Some? && h.value.Real? && t.value.Real?
                          && (h.value.r < 75.0 || h.value.r > 85.0 || t.value.r < 18.0 || t.value.r > 24.0)
    ensures !d.Loading? ==> d.h == h.value.r && d.t == t.value.r
  {
    if h.Some? && t.Some? && h.value.Real? && t.value.Real? then
      if OutOfRange(h.value.r, t.value.r) then Alert(h.value.r, t.value.r) else Optimal(h.value.r, t.value.r)
    else Loading
  }

  /** `fetchAndUpdateData` on one answer of `/api/datos_actuales`. */
  function Show(data: Server.LatestData, textNumber: string -> Number): Display {
    Classify(FieldReading(data.Humedad(), textNumber), FieldReading(data.Temperatura(), textNumber))
  }

  /** A readable pair is "Óptimo" exactly when both values lie in the closed bands. */
  lemma OptimalIffInside(h: real, t: real)
    ensures Classify(Some(Real(h)), Some(Real(t))).Optimal? <==> 75.0 <= h <= 85.0 && 18.0 <= t <= 24.0
    ensures Classify(Some(Real(h)), Some(Real(t))).Alert? <==> !(75.0 <= h <= 85.0 && 18.0 <= t <= 24.0)
  {
  }

  /** The four bounds themselves are optimal: every comparison is strict. */
  lemma BoundsAreOptimal(h: real, t: real)
    requires h == 75.0 || h == 85.0
    requires t == 18.0 || t == 24.0
    ensures Classify(Some(Real(h)), Some(Real(t))) == Optimal(h, t)
  {
  }

  /** A payload without numeric fields (a scalar, or missing fields) only shows the placeholders. */
  lemma NonObjectShowsLoading(v: Value, textNumber: string -> Number)
    ensures Show(Server.Scalar(v), textNumber) == Loading
  {
  }
}
