/** The numeric primitives the analysis borrows from Python, numpy and scipy
    whose results are not rational functions of their inputs. The analysis
    receives them as values and never looks inside; the lemmas that need a
    fact about one of them take that fact as a hypothesis. */
module Numerics {

  datatype Primitives = Primitives(
    sqrt: real -> real,                  // `x ** 0.5`, and the root inside `std()`
    pow: (real, real) -> real,           // `x ** y`
    skew: seq<real> -> real,             // `Series.skew()`
    kurt: seq<real> -> real,             // `Series.kurt()`
    normFit: seq<real> -> (real, real),  // `stats.norm.fit`: (mu, sigma)
    normPpf: (real, real, real) -> real) // `norm.ppf(q, mu, sigma)`

  /** `x ** 1 == x` for every positive `x`. */
  ghost predicate PowIdentityAtOne(pow: (real, real) -> real)
  {
    forall x: real :: x > 0.0 ==> pow(x, 1.0) == x
  }
}
