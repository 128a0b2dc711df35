/**
 * The record types the statistics service consumes and produces
 * (services/statsService.ts, declared in types.ts). JavaScript's `number`
 * is modelled as an unbounded `real`; the three counts of a result, which the
 * service only ever fills with `Math.ceil` values, are `int`s.
 */
module Types {

  /** The design of a two-group comparison: `CalculationParams` in types.ts. */
  datatype CalculationParams = CalculationParams(
    effectSize: real,      // the minimum detectable difference between the groups
    stdDev: real,          // the common standard deviation
    alpha: real,           // the Type-I error budget
    power: real,           // the target power, 1 - beta
    isTwoSided: bool,      // whether alpha is split across both tails
    allocationRatio: real  // k = n2 / n1
  )

  /** The outcome of one sample-size computation: `CalculationResult` in types.ts. */
  datatype CalculationResult = CalculationResult(
    n1: int,
    n2: int,
    totalN: int,
    criticalValueAlpha: real,  // z-value of the significance level, at display precision
    criticalValueBeta: real    // z-value of the power, at display precision
  )

  /** One point of the sensitivity curve: `DataPoint` in types.ts. */
  datatype DataPoint = DataPoint(effectSize: real, sampleSize: int)
}
