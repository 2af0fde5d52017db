/** Scaling: how a component's instance bounds are shared out over `indexed` numbered
    clones (`scale_min`, `scale_max`). Clone x gets one instance while it is below the last
    counted clone, the last counted clone gets the remainder, and any clone past it gets
    none. */
module Scaling {

  /** The minimum given to clone x (`scale_min`; its unused `maxi` argument is dropped). */
  function ScaleMin(x: int, indexed: int, mini: int): int {
    var last := (if mini < indexed then mini else indexed) - 1;
    if x < last then 1 else if x == last then mini - x else 0
  }

  /** The maximum given to clone x (`scale_max`; its unused `mini` argument is dropped). */
  function ScaleMax(x: int, indexed: int, maxi: int): int {
    var last := indexed - 1;
    if x < last then 1 else maxi - x
  }

  /** The sum of the minimums (and below, of the maximums) over the clones 0 .. n - 1. */
  function MinTotal(n: nat, indexed: int, mini: int): int {
    if n == 0 then 0 else MinTotal(n - 1, indexed, mini) + ScaleMin(n - 1, indexed, mini)
  }

  function MaxTotal(n: nat, indexed: int, maxi: int): int {
    if n == 0 then 0 else MaxTotal(n - 1, indexed, maxi) + ScaleMax(n - 1, indexed, maxi)
  }

  /** Below the last counted clone, every clone counts one. */
  lemma {:induction false} MinTotalPrefix(n: nat, indexed: int, mini: int)
    requires n <= (if mini < indexed then mini else indexed) - 1
    ensures MinTotal(n, indexed, mini) == n
  {
    if n > 0 {
      MinTotalPrefix(n - 1, indexed, mini);
    }
  }

  lemma {:induction false} MaxTotalPrefix(n: nat, indexed: int, maxi: int)
    requires n <= indexed - 1
    ensures MaxTotal(n, indexed, maxi) == n
  {
    if n > 0 {
      MaxTotalPrefix(n - 1, indexed, maxi);
    }
  }

  /** The clones past the last counted one add nothing. */
  lemma {:induction false} MinTotalTail(n: nat, indexed: int, mini: int)
    requires 0 <= (if mini < indexed then mini else indexed) <= n
    ensures MinTotal(n, indexed, mini) == MinTotal((if mini < indexed then mini else indexed) as nat, indexed, mini)
  {
    if n > (if mini < indexed then mini else indexed) {
      MinTotalTail(n - 1, indexed, mini);
    }
  }

  /** Over the `indexed` clones, the minimums add up to the component's minimum. */
  lemma MinimumsAddUp(indexed: nat, mini: nat)
    requires indexed >= 1
    ensures MinTotal(indexed, indexed, mini) == mini
  {
    var k := if mini < indexed then mini else indexed;
    MinTotalTail(indexed, indexed, mini);
    if k >= 1 {
      MinTotalPrefix(k - 1, indexed, mini);
    }
  }

  /** Over the `indexed` clones, the maximums add up to the component's maximum. */
  lemma MaximumsAddUp(indexed: nat, maxi: int)
    requires indexed >= 1
    ensures MaxTotal(indexed, indexed, maxi) == maxi
  {
    MaxTotalPrefix(indexed - 1, indexed, maxi);
  }

  /** No clone gets a negative minimum, and only the last counted clone can get more
      than one. */
  lemma CloneMinimum(x: int, indexed: int, mini: nat)
    ensures ScaleMin(x, indexed, mini) >= 0
    ensures ScaleMin(x, indexed, mini) > 1 ==> x == (if mini < indexed then mini else indexed) - 1
  {
  }
}
