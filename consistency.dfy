/**
 * How the simulator's bands read on the two dashboards. The older page uses the
 * narrow bands 75..85 % and 18..24 degrees C, the current one 50..90 % and 15..30
 * degrees C; the simulator's optimal band lies inside both, its alert bands outside
 * the narrow one but partly inside the wide one.
 */
module Consistency {
  import opened JsValues
  import Simulator
  import Server
  import Dashboard
  import LegacyDashboard

  /** What both pages do with a stored simulator reading. */
  function LegacyView(s: Simulator.Sample, now: int, textNumber: string -> Number): LegacyDashboard.Display {
    LegacyDashboard.Show(Server.SimulatedData(s, now), textNumber)
  }

  /** An optimal-band reading is "Óptimo" on the older page and raises no issue on the current one. */
  lemma OptimalSampleShowsOptimal(s: Simulator.Sample, now: int, textNumber: string -> Number)
    requires Simulator.InBand(s, Simulator.OptimalBand)
    ensures LegacyView(s, now, textNumber) == LegacyDashboard.Optimal(s.humedad, s.temperatura)
    ensures Dashboard.IsOptimalRow(Real(s.temperatura), Real(s.humedad))
  {
  }

  /** An alert-band reading is "¡ALERTA!" on the older page. */
  lemma AlertSampleShowsAlert(s: Simulator.Sample, now: int, textNumber: string -> Number)
    requires Simulator.InBand(s, Simulator.AlertLowBand) || Simulator.InBand(s, Simulator.AlertHighBand)
    ensures LegacyView(s, now, textNumber) == LegacyDashboard.Alert(s.humedad, s.temperatura)
  {
  }

  /** Whatever the older page calls optimal, the current page does too. */
  lemma LegacyOptimalIsOptimal(h: real, t: real)
    requires LegacyDashboard.Classify(Some(Real(h)), Some(Real(t))).Optimal?
    ensures Dashboard.IsOptimalRow(Real(t), Real(h))
  {
    LegacyDashboard.OptimalIffInside(h, t);
  }

  /** The placeholder reading the server boots with is optimal on both pages. */
  lemma SeedShowsOptimal(bootTime: int, textNumber: string -> Number)
    ensures LegacyDashboard.Show(Server.SeedData(bootTime), textNumber) == LegacyDashboard.Optimal(81.5, 22.0)
    ensures Dashboard.IsOptimalRow(Real(22.0), Real(81.5))
  {
  }

  /**
   * The current page does not flag every alert reading: "alert_low" with draws 5/6
   * and 6/7 gives 55.0 % and 16.0 degrees C, inside its wide bands.
   */
  lemma AlertLowCanShowOptimal()
    ensures var s := Simulator.Generate("alert_low", [5.0 / 6.0, 6.0 / 7.0]).0;
      && s == Simulator.Sample(55.0, 16.0)
      && Simulator.InBand(s, Simulator.AlertLowBand)
      && Dashboard.IsOptimalRow(Real(s.temperatura), Real(s.humedad))
  {
    assert Simulator.RandomBetween(30, 60, 5.0 / 6.0) == 55.0;
    assert Simulator.RandomBetween(10, 17, 6.0 / 7.0) == 16.0;
    assert Simulator.Tenths(55.0) == 55.0;
    assert Simulator.Tenths(16.0) == 16.0;
  }

  /**
   * A server started with "always_optimal" whose timer fires once serves a reading
   * that both pages show as optimal.
   */
  method AlwaysOptimalShowsOptimal(bootTime: int, draws: seq<real>, now: int, textNumber: string -> Number)
    returns (legacy: LegacyDashboard.Display, card: Dashboard.CardView)
    requires Simulator.RandomDraws(draws) && |draws| >= Simulator.DrawsPerTick
    ensures legacy.Optimal?
    ensures card.OptimalCard?
  {
    var server := new Server.ServerState(bootTime);
    server.Start(Str("always_optimal"), Real(5000.0));
    var sample := server.Tick(0, draws, now);
    Simulator.AlwaysOptimalTick(true, draws);
    var data := server.DatosActuales();
    OptimalSampleShowsOptimal(sample, now, textNumber);
    legacy := LegacyDashboard.Show(data, textNumber);
    var status := new Dashboard.StatusCard();
    status.FetchAndUpdate(data, textNumber);
    card := status.view;
  }
}
