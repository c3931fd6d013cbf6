/**
 * The server's synthetic reading generator (server.js `generateSimulatedReading`)
 * and the choice of mode each simulation tick makes (the body of the interval
 * callback in `startSimulation`). `Math.random()` is a sequence of draws in [0, 1),
 * consumed from the front in the order the source calls it.
 */
module Simulator {
  import opened JsValues

  /** A generated reading: humidity in %, temperature in degrees C, both to one decimal. */
  datatype Sample = Sample(humedad: real, temperatura: real)

  /** The closed bands one mode draws humidity and temperature from. */
  datatype Band = Band(humLo: nat, humHi: nat, tempLo: nat, tempHi: nat)

  const OptimalBand := Band(77, 83, 19, 23)
  const AlertLowBand := Band(30, 60, 10, 17)
  const AlertHighBand := Band(86, 98, 25, 35)

  /** Every mode but these three behaves as "random". */
  predicate IsBandMode(mode: string) {
    mode == "optimal" || mode == "alert_low" || mode == "alert_high"
  }

  function BandOf(mode: string): Band
    requires IsBandMode(mode)
  {
    if mode == "optimal" then OptimalBand
    else if mode == "alert_low" then AlertLowBand
    else AlertHighBand
  }

  predicate InBand(s: Sample, b: Band) {
    b.humLo as real <= s.humedad <= b.humHi as real && b.tempLo as real <= s.temperatura <= b.tempHi as real
  }

  predicate InSomeBand(s: Sample) {
    InBand(s, OptimalBand) || InBand(s, AlertLowBand) || InBand(s, AlertHighBand)
  }

  predicate RandomDraws(draws: seq<real>) {
    forall i :: 0 <= i < |draws| ==> 0.0 <= draws[i] < 1.0
  }

  /** The most draws one call of `generateSimulatedReading` consumes. */
  const MaxDraws := 4

  function DrawsFor(mode: string): nat {
    if IsBandMode(mode) then 2 else MaxDraws
  }

  /** `randomBetween(min, max)` for one draw d. */
  function RandomBetween(lo: nat, hi: nat, d: real): (x: real)
    requires lo <= hi && 0.0 <= d < 1.0
    ensures lo as real <= x <= hi as real
  {
    DrawBetween(lo, hi, d);
    d * (hi - lo) as real + lo as real
  }

  /** `parseFloat(x.toFixed(1))` */
  function Tenths(x: real): real {
    FixedUnits(x, 10) as real / 10.0
  }

  /** A drawn value rounded to tenths stays inside its closed band. */
  lemma TenthsInBand(lo: nat, hi: nat, d: real)
    requires lo <= hi && 0.0 <= d < 1.0
    ensures lo as real <= Tenths(RandomBetween(lo, hi, d)) <= hi as real
  {
    var u := FixedUnits(RandomBetween(lo, hi, d), 10);
    FixedUnitsBetween(RandomBetween(lo, hi, d), 10, lo, hi);
    assert (lo * 10) as real <= u as real <= (hi * 10) as real;
  }

  /**
   * `generateSimulatedReading(mode)`: the sample and how many draws it used.
   * A band mode draws humidity then temperature from its band; any other mode
   * draws once to choose "optimal" (below 0.5), else once more to choose
   * "alert_low" (below 0.5) or "alert_high", and recurses exactly once.
   */
  function Generate(mode: string, draws: seq<real>): (r: (Sample, nat))
    requires RandomDraws(draws) && |draws| >= DrawsFor(mode)
    ensures r.1 <= DrawsFor(mode)
    ensures IsBandMode(mode) ==> InBand(r.0, BandOf(mode)) && r.1 == 2
    ensures !IsBandMode(mode) ==> InSomeBand(r.0)
    decreases if IsBandMode(mode) then 0 else 1
  {
    if IsBandMode(mode) then
      var b := BandOf(mode);
      TenthsInBand(b.humLo, b.humHi, draws[0]);
      TenthsInBand(b.tempLo, b.tempHi, draws[1]);
      (Sample(Tenths(RandomBetween(b.humLo, b.humHi, draws[0])), Tenths(RandomBetween(b.tempLo, b.tempHi, draws[1]))), 2)
    else if draws[0] < 0.5 then
      var r := Generate("optimal", draws[1..]);
      (r.0, 1 + r.1)
    else if draws[1] < 0.5 then
      var r := Generate("alert_low", draws[2..]);
      (r.0, 2 + r.1)
    else
      var r := Generate("alert_high", draws[2..]);
      (r.0, 2 + r.1)
  }

  /**
   * The mode one tick hands to the generator, and the draws it used to choose it,
   * for the pattern the timer was started with and the timer's alternation flag.
   */
  function TickMode(pattern: Value, toggle: bool, draws: seq<real>): (m: (string, nat))
    requires |draws| >= 1
    ensures m.1 <= 1
  {
    var alert := if draws[0] < 0.5 then "alert_low" else "alert_high";
    if pattern == Str("alternate") then (if toggle then ("optimal", 0) else (alert, 1))
    else if pattern == Str("random") then ("random", 0)
    else if pattern == Str("always_optimal") then ("optimal", 0)
    else if pattern == Str("always_alert") then (alert, 1)
    else ("random", 0)
  }

  /** The alternation flag after a tick: only "alternate" flips it. */
  function NextToggle(pattern: Value, toggle: bool): bool {
    if pattern == Str("alternate") then !toggle else toggle
  }

  /** One draw to choose an alert mode, then the generator's own. */
  const DrawsPerTick := 1 + MaxDraws

  /** The unrecognised modes all behave as "random". */
  lemma UnknownModeIsRandom(mode: string, draws: seq<real>)
    requires !IsBandMode(mode) && RandomDraws(draws) && |draws| >= MaxDraws
    ensures Generate(mode, draws) == Generate("random", draws)
  {
  }

  /**
   * A "random" reading comes from exactly one band: the optimal one when the first
   * draw is below 0.5, otherwise the low one when the second is below 0.5, otherwise
   * the high one.
   */
  lemma RandomModeBand(mode: string, draws: seq<real>)
    requires !IsBandMode(mode) && RandomDraws(draws) && |draws| >= MaxDraws
    ensures var s := Generate(mode, draws).0;
      && (InBand(s, OptimalBand) <==> draws[0] < 0.5)
      && (InBand(s, AlertLowBand) <==> draws[0] >= 0.5 && draws[1] < 0.5)
      && (InBand(s, AlertHighBand) <==> draws[0] >= 0.5 && draws[1] >= 0.5)
  {
  }

  /** The sample one tick generates. */
  function TickSample(pattern: Value, toggle: bool, draws: seq<real>): (s: Sample)
    requires RandomDraws(draws) && |draws| >= DrawsPerTick
    ensures InSomeBand(s)
  {
    var m := TickMode(pattern, toggle, draws);
    Generate(m.0, draws[m.1..]).0
  }

  /** The modes of successive ticks of one timer, each tick given its own draws. */
  function TickModes(pattern: Value, toggle: bool, ticks: seq<seq<real>>): (modes: seq<string>)
    requires forall i :: 0 <= i < |ticks| ==> |ticks[i]| >= 1
    ensures |modes| == |ticks|
    decreases |ticks|
  {
    if ticks == [] then []
    else [TickMode(pattern, toggle, ticks[0]).0] + TickModes(pattern, NextToggle(pattern, toggle), ticks[1..])
  }

  /** "always_optimal" ticks always produce an optimal-band reading. */
  lemma AlwaysOptimalTick(toggle: bool, draws: seq<real>)
    requires RandomDraws(draws) && |draws| >= DrawsPerTick
    ensures InBand(TickSample(Str("always_optimal"), toggle, draws), OptimalBand)
  {
  }

  /** "always_alert" ticks never choose "optimal" and always land in an alert band. */
  lemma AlwaysAlertTick(toggle: bool, draws: seq<real>)
    requires RandomDraws(draws) && |draws| >= DrawsPerTick
    ensures TickMode(Str("always_alert"), toggle, draws).0 != "optimal"
    ensures var s := TickSample(Str("always_alert"), toggle, draws);
      !InBand(s, OptimalBand) && (InBand(s, AlertLowBand) || InBand(s, AlertHighBand))
  {
  }

  /** A pattern outside the four names behaves exactly like "random". */
  lemma UnknownPatternIsRandom(pattern: Value, toggle: bool, draws: seq<real>)
    requires pattern !in {Str("alternate"), Str("random"), Str("always_optimal"), Str("always_alert")}
    requires RandomDraws(draws) && |draws| >= DrawsPerTick
    ensures TickSample(pattern, toggle, draws) == TickSample(Str("random"), toggle, draws)
    ensures NextToggle(pattern, toggle) == toggle
  {
  }

  /**
   * Under "alternate", the i-th tick (from 0) of a timer whose flag starts as
   * `toggle` chooses "optimal" exactly when i is even and the flag started true,
   * or i is odd and it started false; the other ticks choose an alert mode.
   */
  lemma {:induction false} AlternateModeAt(toggle: bool, ticks: seq<seq<real>>, i: nat)
    requires forall j :: 0 <= j < |ticks| ==> |ticks[j]| >= 1
    requires i < |ticks|
    decreases i
    ensures var mode := TickModes(Str("alternate"), toggle, ticks)[i];
      && (mode == "optimal" <==> (i % 2 == 0) == toggle)
      && (mode != "optimal" ==> mode == "alert_low" || mode == "alert_high")
  {
    if i > 0 {
      AlternateModeAt(!toggle, ticks[1..], i - 1);
    }
  }
}
