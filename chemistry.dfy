/**
 * The chemistry values the crosslinking and ion-mobility code passes around
 * without looking inside: adducts and molecular formulas. Their parsing and
 * mass arithmetic belong to other classes and are not part of this model.
 */
module Chemistry {

  /** An adduct, known only by its text form ("[M+H]", "+2", ...). */
  datatype Adduct = Adduct(text: string)

  /** Adduct.EMPTY. */
  const EMPTY_ADDUCT: Adduct := Adduct("")

  /** Adduct.IsEmpty: the adduct is the empty one. */
  predicate AdductIsEmpty(a: Adduct)
  {
    a == EMPTY_ADDUCT
  }

  /**
   * A molecular formula with a mass offset (MoleculeMassOffset), kept as the
   * multiset of its atoms: combining two formulas adds their atoms.
   */
  datatype Formula = Formula(atoms: multiset<string>)

  /** MoleculeMassOffset.EMPTY: no atoms. */
  const EMPTY_FORMULA: Formula := Formula(multiset{})

  /** MoleculeMassOffset.Plus. */
  function Plus(f: Formula, g: Formula): (r: Formula)
    ensures |r.atoms| == |f.atoms| + |g.atoms|
    ensures forall a :: r.atoms[a] == f.atoms[a] + g.atoms[a]
  {
    Formula(f.atoms + g.atoms)
  }

  /** EMPTY is the unit of Plus, on either side. */
  lemma PlusEmpty(f: Formula)
    ensures Plus(EMPTY_FORMULA, f) == f && Plus(f, EMPTY_FORMULA) == f
  {
    assert f.atoms + multiset{} == f.atoms;
    assert multiset{} + f.atoms == f.atoms;
  }
}
