/**
 * The floating-point side of the calculator. The component computes with
 * JavaScript doubles; this model keeps every numeric primitive abstract and
 * passes it in as a parameter, so that the engine's control structure is
 * proved for every choice of arithmetic.
 */
module Arithmetic {
  import opened Options

  /** The four operator keys (the component's `type Operation`). */
  datatype Op = Add | Sub | Mul | Div

  /** Longest result text stored as it is; longer results are shown with ten significant digits. */
  const MaxLength: nat := 15

  /**
   * The numeric primitives the engine calls, over an abstract number type `N`:
   *   parse          `parseFloat`, with `None` standing for NaN
   *   isZero         the comparison `=== 0`
   *   apply          the operator of an `Op` on two numbers
   *   toText         `Number.prototype.toString`
   *   toPrecision10  `Number.prototype.toPrecision(10)`
   */
  datatype Arith<!N> = Arith(
    parse: string -> Option<N>,
    isZero: N -> bool,
    apply: (Op, N, N) -> N,
    toText: N -> string,
    toPrecision10: N -> string)

  /** The text `compute` stores for a result: the natural text when it fits, otherwise the rounded one. */
  function Render<N>(num: Arith<N>, x: N): (t: string)
    ensures t == num.toText(x) || t == num.toPrecision10(x)
    ensures |num.toText(x)| <= MaxLength ==> t == num.toText(x)
    ensures |t| > MaxLength ==> t == num.toPrecision10(x)
  {
    var text := num.toText(x);
    if |text| > MaxLength then num.toPrecision10(x) else text
  }
}
