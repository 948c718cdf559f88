/**
 * The record shapes of the sizing engine's interface: the parameters the worker copy is
 * called with and the result every copy returns (the 3-d copies return the same record
 * without the hydro parts and without the cost).
 */
module Types {

  datatype BatteryOptions = BatteryOptions(initialSoc: real, maxDischarge: real, efficiency: real, capex: real)

  datatype DieselOptions = DieselOptions(capex: real, opex: real)

  datatype HydroOptions = HydroOptions(capex: real, max: real)

  /** `options`: project life in years and the per-technology cost and battery parameters. */
  datatype Options = Options(
    years: real,
    battery: BatteryOptions,
    diesel: DieselOptions,
    pvCapex: real,
    hydro: HydroOptions)

  /** `OptimizationParams`: hourly load, per-unit PV and hydro yield, and the options. */
  datatype OptimizationParams = OptimizationParams(load: seq<real>, pv: seq<real>, hydro: seq<real>, options: Options)

  /** Installed capacities; the 3-d copies have no hydro entry. */
  datatype Capacity = Capacity(pv: real, battery: real, diesel: real, hydro: real)

  datatype Capacity3 = Capacity3(pv: real, battery: real, diesel: real)

  /** `OptimizationResult`: the capacities, the traces at them and the levelized cost. */
  datatype OptimizationResult = OptimizationResult(
    capacity: Capacity,
    ePV: seq<real>,
    eHydro: seq<real>,
    eBatt: seq<real>,
    eDiesel: seq<real>,
    cBatt: seq<real>,
    eLoad: seq<real>,
    cost: real)

  /** The result of the 3-d copies. */
  datatype SizingResult = SizingResult(
    capacity: Capacity3,
    ePV: seq<real>,
    eBatt: seq<real>,
    eDiesel: seq<real>,
    cBatt: seq<real>,
    eLoad: seq<real>)
}
