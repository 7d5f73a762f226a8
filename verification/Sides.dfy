/** The two sides of a ring.  Each has a head and a tail cursor of its own and
    may advance them up to a bound beyond the other side's tail. */
module Sides {
  datatype Side = Prod | Cons

  function Other(s: Side): Side { if s == Prod then Cons else Prod }

  /** How far a side may run ahead of the other's tail. */
  function Bound(s: Side, cap: nat): nat { if s == Prod then cap else 0 }

  function Min(a: nat, b: nat): nat { if a < b then a else b }

  function Max(a: nat, b: nat): nat { if a < b then b else a }
}
