/** The per-run budget of provider calls. */
module IterationBudget {
  class IterationBudget {
    const maxTotal: nat
    var usedTotal: nat

    ghost predicate Valid()
      reads this
    {
      usedTotal <= maxTotal
    }

    constructor (max: nat)
      requires max >= 1
      ensures Valid() && maxTotal == max && usedTotal == 0
    {
      maxTotal, usedTotal := max, 0;
    }

    /** Takes one call, unless all are used. */
    method Consume() returns (ok: bool)
      requires Valid()
      modifies this
      ensures Valid() && ok == (old(usedTotal) < maxTotal)
      ensures usedTotal == old(usedTotal) + if ok then 1 else 0
    {
      if usedTotal >= maxTotal { return false; }
      usedTotal := usedTotal + 1;
      ok := true;
    }

    /** Gives one call back; right after a successful consume this restores the budget. */
    method Refund()
      requires Valid()
      modifies this
      ensures Valid() && usedTotal == if old(usedTotal) == 0 then 0 else old(usedTotal) - 1
    {
      if usedTotal > 0 { usedTotal := usedTotal - 1; }
    }

    function Remaining(): (r: nat)
      reads this
      ensures Valid() ==> r + usedTotal == maxTotal
    {
      if maxTotal < usedTotal then 0 else maxTotal - usedTotal
    }
  }
}
