/** Policy constants of the administrative API. */
module Api {
  import Bcrypt

  /** The recommended bcrypt cost; it only appears in the error text for a too-expensive hash. */
  const RecCost: int := 12

  /** The highest bcrypt cost a stored hash may have. */
  const UpBoundCost: int := 16

  /** The accepted cost range is non-empty and the recommended cost lies strictly inside it. */
  lemma CostBoundsOrdered()
    ensures Bcrypt.DefaultCost < RecCost < UpBoundCost
  {
  }
}
