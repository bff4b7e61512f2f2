/** Three-way comparisons and their lexicographic chaining. */
module Order {
  import opened Text

  datatype Ordering = LT | EQ | GT

  function Then(a: Ordering, b: Ordering): Ordering { if a == EQ then b else a }

  function Flip(a: Ordering): Ordering
  {
    match a
    case LT => GT
    case EQ => EQ
    case GT => LT
  }

  /** `ab`, `bc` and `ac` can be comparisons of three values of one total preorder. */
  predicate Consistent(ab: Ordering, bc: Ordering, ac: Ordering)
  {
    ab != GT && bc != GT ==> ac == if ab == EQ && bc == EQ then EQ else LT
  }

  lemma ThenConsistent(
    ab: Ordering, bc: Ordering, ac: Ordering, ab': Ordering, bc': Ordering, ac': Ordering)
    requires Consistent(ab, bc, ac) && Consistent(ab', bc', ac')
    ensures Consistent(Then(ab, ab'), Then(bc, bc'), Then(ac, ac'))
  {
  }

  function CompareNat(a: nat, b: nat): Ordering
  {
    if a < b then LT else if a == b then EQ else GT
  }

  function CompareText(a: string, b: string): Ordering
  {
    if a == b then EQ else if Less(a, b) then LT else GT
  }

  lemma CompareTextLaws(a: string, b: string, c: string)
    ensures CompareText(b, a) == Flip(CompareText(a, b))
    ensures Consistent(CompareText(a, b), CompareText(b, c), CompareText(a, c))
  {
    LessTotal(a, b);
    if Less(a, b) {
      LessAsymmetric(a, b);
      if Less(b, c) {
        LessTransitive(a, b, c);
        LessIrreflexive(a);
      }
    }
  }
}
