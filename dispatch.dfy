/**
 * Hour-by-hour dispatch simulator (`energy_balance`), shared by the three copies of the
 * sizing engine. Renewable supply (PV, plus hydro in the worker) charges the battery;
 * a deficit is met first by the battery, down to its reserve floor, then by diesel.
 *
 * The copies differ only in how the per-hour renewable supply is formed and where the
 * battery constants come from, so the simulator takes the supply series and a `Plant`.
 */
module Dispatch {
  import opened Numeric

  /** A residual deficit above `-DIESEL_EPSILON` is treated as floating-point noise. */
  const DIESEL_EPSILON: real := 0.0000001

  /**
   * Installed battery and diesel capacity and the battery parameters:
   * `initialSoc` and `maxDischarge` are fractions of the capacity, `efficiency` is
   * applied once on charge and once on discharge.
   */
  datatype Plant = Plant(
    batteryCapacity: real,
    dieselCapacity: real,
    initialSoc: real,
    maxDischarge: real,
    efficiency: real)

  /** The state of charge the battery may not be discharged below. */
  function ReserveFloor(p: Plant): real
  {
    (1.0 - p.maxDischarge) * p.batteryCapacity
  }

  function InitialCharge(p: Plant): real
  {
    p.initialSoc * p.batteryCapacity
  }

  /**
   * One simulated hour: the state of charge after it, the battery output recorded for
   * it, the surplus left after the battery acted, and the diesel output.
   */
  datatype Hour = Hour(soc: real, discharge: real, residual: real, diesel: real)

  /**
   * The battery's part of an hour: charge from a surplus, or discharge toward a deficit.
   * A surplus hour records no battery output and leaves the surplus untouched; in a deficit
   * hour the recorded output lies between zero and the deficit and the deficit is not
   * overturned. The battery never runs the diesel.
   */
  function BatteryHour(p: Plant, soc: real, surplus: real): (h: Hour)
    requires p.efficiency > 0.0
    ensures h.diesel == 0.0
    ensures surplus > 0.0 ==> h.discharge == 0.0 && h.residual == surplus && h.soc <= p.batteryCapacity
    ensures surplus <= 0.0 ==> 0.0 <= h.discharge <= -surplus && h.residual <= 0.0
  {
    if surplus > 0.0 then
      Hour(Min(soc + p.efficiency * surplus, p.batteryCapacity), 0.0, surplus, 0.0)
    else
      var discharged := Min(soc - ReserveFloor(p), -surplus / p.efficiency);
      DeliveredWithinDeficit(soc - ReserveFloor(p), -surplus, p.efficiency);
      Hour(if discharged > 0.0 then soc - discharged else soc,
           Max(discharged * p.efficiency, 0.0),
           surplus + discharged * p.efficiency,
           0.0)
  }

  /**
   * A whole hour: the battery's part, then diesel for what deficit is left. Diesel leaves
   * the battery's part unchanged, runs only for a deficit beyond the epsilon, never covers
   * more than that deficit, and stays within its capacity.
   */
  function DispatchHour(p: Plant, soc: real, surplus: real): (h: Hour)
    requires p.efficiency > 0.0
    ensures var b := BatteryHour(p, soc, surplus); h.soc == b.soc && h.discharge == b.discharge && h.residual == b.residual
    ensures h.diesel != 0.0 ==> h.residual < -DIESEL_EPSILON && h.diesel <= -h.residual
    ensures p.dieselCapacity >= 0.0 ==> 0.0 <= h.diesel <= p.dieselCapacity
  {
    var b := BatteryHour(p, soc, surplus);
    b.(diesel := if b.residual < -DIESEL_EPSILON then Min(-b.residual, p.dieselCapacity) else 0.0)
  }

  /** A surplus hour charges the battery by at most `efficiency * surplus` and runs neither battery nor diesel. */
  lemma SurplusHour(p: Plant, soc: real, surplus: real)
    requires p.efficiency > 0.0 && surplus > 0.0
    ensures DispatchHour(p, soc, surplus).discharge == 0.0
    ensures DispatchHour(p, soc, surplus).diesel == 0.0
    ensures DispatchHour(p, soc, surplus).soc <= soc + p.efficiency * surplus
    ensures DispatchHour(p, soc, surplus).soc <= p.batteryCapacity
    ensures soc <= p.batteryCapacity ==> soc <= DispatchHour(p, soc, surplus).soc
  {
  }

  /** `discharged * efficiency` never exceeds the deficit it was sized for. */
  lemma DeliveredWithinDeficit(available: real, deficit: real, efficiency: real)
    requires efficiency > 0.0 && deficit >= 0.0
    ensures Min(available, deficit / efficiency) * efficiency <= deficit
  {
    var d := Min(available, deficit / efficiency);
    assert d <= deficit / efficiency;
    assert (deficit / efficiency) * efficiency == deficit;
    assert d * efficiency <= (deficit / efficiency) * efficiency;
  }

  /** Above the floor, discharging keeps the charge between the floor and where it was. */
  lemma DeficitHourAboveFloor(p: Plant, soc: real, surplus: real)
    requires p.efficiency > 0.0 && surplus <= 0.0 && soc >= ReserveFloor(p)
    ensures ReserveFloor(p) <= DispatchHour(p, soc, surplus).soc <= soc
    ensures DispatchHour(p, soc, surplus).residual
         == surplus + DispatchHour(p, soc, surplus).discharge
  {
    var discharged := Min(soc - ReserveFloor(p), -surplus / p.efficiency);
    assert -surplus / p.efficiency >= 0.0;
    assert discharged >= 0.0;
    assert discharged * p.efficiency >= 0.0;
  }

  /**
   * Below the floor `available` is negative: the charge is left alone and nothing is
   * recorded for the battery, but the negative delivery still deepens the deficit that
   * is handed to diesel.
   */
  lemma DeficitHourBelowFloor(p: Plant, soc: real, surplus: real)
    requires p.efficiency > 0.0 && surplus <= 0.0 && soc < ReserveFloor(p)
    ensures DispatchHour(p, soc, surplus).soc == soc
    ensures DispatchHour(p, soc, surplus).discharge == 0.0
    ensures DispatchHour(p, soc, surplus).residual < surplus
  {
    var discharged := Min(soc - ReserveFloor(p), -surplus / p.efficiency);
    assert discharged < 0.0;
    assert discharged * p.efficiency < 0.0;
  }

  /** Diesel runs only for a residual deficit beyond the epsilon, and then within its capacity. */
  lemma DieselHour(p: Plant, soc: real, surplus: real)
    requires p.efficiency > 0.0 && p.dieselCapacity >= 0.0
    ensures var h := DispatchHour(p, soc, surplus);
      && 0.0 <= h.diesel <= p.dieselCapacity
      && (h.diesel != 0.0 ==> h.residual < -DIESEL_EPSILON)
      && (h.residual < -DIESEL_EPSILON ==> h.diesel == Min(-h.residual, p.dieselCapacity))
  {
  }

  /** State of charge before hour `t` (after hours `0 .. t-1`). */
  function SocBefore(p: Plant, supply: seq<real>, load: seq<real>, t: nat): real
    requires p.efficiency > 0.0 && |supply| == |load| && t <= |load|
  {
    if t == 0 then InitialCharge(p)
    else DispatchHour(p, SocBefore(p, supply, load, t - 1), supply[t - 1] - load[t - 1]).soc
  }

  function HourAt(p: Plant, supply: seq<real>, load: seq<real>, t: nat): Hour
    requires p.efficiency > 0.0 && |supply| == |load| && t < |load|
  {
    DispatchHour(p, SocBefore(p, supply, load, t), supply[t] - load[t])
  }

  /** The three series `energy_balance` returns: `E_batt`, `E_diesel` and `C_batt`. */
  datatype Trace = Trace(batt: seq<real>, diesel: seq<real>, soc: seq<real>)

  /** The dispatch trace of a whole horizon; `soc[t]` is the state of charge after hour `t`. */
  function Simulation(p: Plant, supply: seq<real>, load: seq<real>): (tr: Trace)
    requires p.efficiency > 0.0 && |supply| == |load|
    ensures |tr.batt| == |load| && |tr.diesel| == |load| && |tr.soc| == |load|
  {
    Trace(seq(|load|, t requires 0 <= t < |load| => HourAt(p, supply, load, t).discharge),
          seq(|load|, t requires 0 <= t < |load| => HourAt(p, supply, load, t).diesel),
          seq(|load|, t requires 0 <= t < |load| => HourAt(p, supply, load, t).soc))
  }

  /** Supply minus load after battery and diesel, for hour `t` of a simulated trace. */
  function Residual(p: Plant, supply: seq<real>, load: seq<real>, t: nat): real
    requires p.efficiency > 0.0 && |supply| == |load| && t < |load|
  {
    var tr := Simulation(p, supply, load);
    tr.batt[t] + tr.diesel[t] + supply[t] - load[t]
  }

  /**
   * The battery part of one hour of the simulator loop: charge from a surplus (capped at
   * the capacity), or discharge toward a deficit, never below `maxBatteryDischarge`.
   */
  method BatteryStep(p: Plant, maxBatteryDischarge: real, soc0: real, surplus0: real)
      returns (soc: real, discharge: real, surplus: real)
    requires p.efficiency > 0.0 && maxBatteryDischarge == ReserveFloor(p)
    ensures Hour(soc, discharge, surplus, 0.0) == BatteryHour(p, soc0, surplus0)
  {
    soc, discharge, surplus := soc0, 0.0, surplus0;
    if surplus > 0.0 {
      soc := soc + p.efficiency * surplus;
      soc := Min(soc, p.batteryCapacity);
    } else {
      var available := soc - maxBatteryDischarge;
      var discharged := Min(available, -surplus / p.efficiency);
      if discharged > 0.0 {
        soc := soc - discharged;
      }
      var finalDischarge := discharged * p.efficiency;
      discharge := Max(finalDischarge, 0.0);
      surplus := surplus + finalDischarge;
    }
  }

  /** One hour of the simulator loop: the battery step, then diesel for a deficit beyond the epsilon. */
  method DispatchStep(p: Plant, maxBatteryDischarge: real, soc0: real, surplus0: real)
      returns (soc: real, discharge: real, diesel: real)
    requires p.efficiency > 0.0 && maxBatteryDischarge == ReserveFloor(p)
    ensures var h := DispatchHour(p, soc0, surplus0); soc == h.soc && discharge == h.discharge && diesel == h.diesel
  {
    var surplus;
    soc, discharge, surplus := BatteryStep(p, maxBatteryDischarge, soc0, surplus0);
    diesel := 0.0;
    if surplus < -DIESEL_EPSILON {
      diesel := Min(-surplus, p.dieselCapacity);
    }
  }

  /**
   * `energy_balance`: three zero-initialised output arrays, filled hour by hour, returned
   * as the simulated trace.
   */
  method EnergyBalance(p: Plant, supply: seq<real>, load: seq<real>) returns (tr: Trace)
    requires p.efficiency > 0.0 && |supply| == |load|
    ensures tr == Simulation(p, supply, load)
  {
    var n := |load|;
    var eBatt := new real[n](_ => 0.0);
    var cBatt := new real[n](_ => 0.0);
    var eDiesel := new real[n](_ => 0.0);
    FillHours(p, supply, load, eBatt, eDiesel, cBatt);
    tr := Trace(eBatt[..], eDiesel[..], cBatt[..]);
    SimulationIs(p, supply, load, tr);
  }

  /**
   * The simulator loop: `soc` carried across hours, hour `t` of each output array written
   * in place. The source writes `E_diesel[t]` only when diesel runs; writing the zero of an
   * idle hour into the zero-initialised array leaves the same contents.
   */
  method FillHours(p: Plant, supply: seq<real>, load: seq<real>, eBatt: array<real>, eDiesel: array<real>, cBatt: array<real>)
    requires p.efficiency > 0.0 && |supply| == |load|
    requires eBatt.Length == eDiesel.Length == cBatt.Length == |load|
    requires eBatt != eDiesel && eBatt != cBatt && eDiesel != cBatt
    modifies eBatt, eDiesel, cBatt
    ensures forall t :: 0 <= t < |load| ==>
      var h := HourAt(p, supply, load, t); eBatt[t] == h.discharge && eDiesel[t] == h.diesel && cBatt[t] == h.soc
  {
    var soc := InitialCharge(p);
    var maxBatteryDischarge := ReserveFloor(p);
    var t := 0;
    while t < |load|
      invariant 0 <= t <= |load|
      invariant soc == SocBefore(p, supply, load, t)
      invariant forall k :: 0 <= k < t ==>
        var h := HourAt(p, supply, load, k); eBatt[k] == h.discharge && eDiesel[k] == h.diesel && cBatt[k] == h.soc
    {
      var discharge, diesel;
      soc, discharge, diesel := DispatchStep(p, maxBatteryDischarge, soc, supply[t] - load[t]);
      eBatt[t] := discharge;
      eDiesel[t] := diesel;
      cBatt[t] := soc;
      t := t + 1;
    }
  }

  /** A trace that agrees with every simulated hour is the simulated trace. */
  lemma SimulationIs(p: Plant, supply: seq<real>, load: seq<real>, tr: Trace)
    requires p.efficiency > 0.0 && |supply| == |load|
    requires |tr.batt| == |tr.diesel| == |tr.soc| == |load|
    requires forall t :: 0 <= t < |load| ==>
      var h := HourAt(p, supply, load, t); tr.batt[t] == h.discharge && tr.diesel[t] == h.diesel && tr.soc[t] == h.soc
    ensures tr == Simulation(p, supply, load)
  {
  }

  /** The battery parameters the invariants need: a start inside the band, a usable floor. */
  predicate BatteryInRange(p: Plant)
  {
    && p.efficiency > 0.0
    && p.batteryCapacity >= 0.0
    && 1.0 - p.maxDischarge <= p.initialSoc <= 1.0
  }

  /** The start of charge lies in the band and the band is not empty. */
  lemma StartInBand(p: Plant)
    requires BatteryInRange(p)
    ensures ReserveFloor(p) <= InitialCharge(p) <= p.batteryCapacity
    ensures ReserveFloor(p) <= p.batteryCapacity
  {
    var f, s, c := 1.0 - p.maxDischarge, p.initialSoc, p.batteryCapacity;
    MulMonotone(f, s, c);
    MulMonotone(s, 1.0, c);
    assert f * c <= s * c <= c;
  }

  /** One hour keeps the charge inside a non-empty band. */
  lemma HourKeepsBand(p: Plant, soc: real, surplus: real)
    requires p.efficiency > 0.0 && ReserveFloor(p) <= soc <= p.batteryCapacity
    ensures ReserveFloor(p) <= DispatchHour(p, soc, surplus).soc <= p.batteryCapacity
  {
    if surplus > 0.0 {
      SurplusHour(p, soc, surplus);
    } else {
      DeficitHourAboveFloor(p, soc, surplus);
    }
  }

  /** Every hour's state of charge stays between the reserve floor and the capacity. */
  lemma {:induction false} SocStaysInBand(p: Plant, supply: seq<real>, load: seq<real>, t: nat)
    requires BatteryInRange(p) && |supply| == |load| && t <= |load|
    ensures ReserveFloor(p) <= SocBefore(p, supply, load, t) <= p.batteryCapacity
  {
    StartInBand(p);
    if t > 0 {
      SocStaysInBand(p, supply, load, t - 1);
      HourKeepsBand(p, SocBefore(p, supply, load, t - 1), supply[t - 1] - load[t - 1]);
    }
  }

  /** The recorded charge trace respects the band in every hour. */
  lemma TraceSocInBand(p: Plant, supply: seq<real>, load: seq<real>)
    requires BatteryInRange(p) && |supply| == |load|
    ensures forall t :: 0 <= t < |load| ==>
      ReserveFloor(p) <= Simulation(p, supply, load).soc[t] <= p.batteryCapacity
  {
    forall t | 0 <= t < |load|
      ensures ReserveFloor(p) <= Simulation(p, supply, load).soc[t] <= p.batteryCapacity
    {
      SocStaysInBand(p, supply, load, t + 1);
    }
  }

  /** Battery output is never negative and never more than the hour's deficit; diesel stays within its capacity. */
  lemma TraceOutputsBounded(p: Plant, supply: seq<real>, load: seq<real>)
    requires p.efficiency > 0.0 && p.dieselCapacity >= 0.0 && |supply| == |load|
    ensures forall t :: 0 <= t < |load| ==> 0.0 <= Simulation(p, supply, load).batt[t]
    ensures forall t :: 0 <= t < |load| && supply[t] <= load[t] ==>
      Simulation(p, supply, load).batt[t] <= load[t] - supply[t]
    ensures forall t :: 0 <= t < |load| && supply[t] > load[t] ==>
      Simulation(p, supply, load).batt[t] == 0.0 && Simulation(p, supply, load).diesel[t] == 0.0
    ensures forall t :: 0 <= t < |load| ==>
      0.0 <= Simulation(p, supply, load).diesel[t] <= p.dieselCapacity
  {
    forall t | 0 <= t < |load|
      ensures 0.0 <= Simulation(p, supply, load).batt[t]
      ensures supply[t] <= load[t] ==> Simulation(p, supply, load).batt[t] <= load[t] - supply[t]
      ensures supply[t] > load[t] ==>
        Simulation(p, supply, load).batt[t] == 0.0 && Simulation(p, supply, load).diesel[t] == 0.0
      ensures 0.0 <= Simulation(p, supply, load).diesel[t] <= p.dieselCapacity
    {
      var soc := SocBefore(p, supply, load, t);
      var surplus := supply[t] - load[t];
      DieselHour(p, soc, surplus);
      if surplus > 0.0 {
        SurplusHour(p, soc, surplus);
      } else {
      }
    }
  }

  /**
   * With the charge at or above the floor, an hour's residual falls below `-tolerance`
   * (for a tolerance of at least the epsilon) exactly when the deficit left by the
   * battery exceeds the diesel capacity by more than the tolerance; an hour whose deficit
   * diesel can cover keeps a residual of at least `-DIESEL_EPSILON`.
   */
  lemma HourResidual(p: Plant, soc: real, surplus: real, tolerance: real)
    requires p.efficiency > 0.0 && p.dieselCapacity >= 0.0 && soc >= ReserveFloor(p)
    requires tolerance >= DIESEL_EPSILON
    ensures var h := DispatchHour(p, soc, surplus);
      && (h.discharge + h.diesel + surplus < -tolerance <==> h.residual < -(p.dieselCapacity + tolerance))
      && (h.residual >= -p.dieselCapacity ==> h.discharge + h.diesel + surplus >= -DIESEL_EPSILON)
  {
    if surplus <= 0.0 {
      DeficitHourAboveFloor(p, soc, surplus);
    }
  }

  /** `HourResidual` for every hour of a horizon that starts at or above the floor. */
  lemma {:induction false} TraceResidual(p: Plant, supply: seq<real>, load: seq<real>, t: nat, tolerance: real)
    requires BatteryInRange(p) && p.dieselCapacity >= 0.0 && |supply| == |load| && t < |load|
    requires tolerance >= DIESEL_EPSILON
    ensures Residual(p, supply, load, t) < -tolerance
       <==> HourAt(p, supply, load, t).residual < -(p.dieselCapacity + tolerance)
    ensures HourAt(p, supply, load, t).residual >= -p.dieselCapacity
        ==> Residual(p, supply, load, t) >= -DIESEL_EPSILON
  {
    SocStaysInBand(p, supply, load, t);
    HourResidual(p, SocBefore(p, supply, load, t), supply[t] - load[t], tolerance);
  }
}
