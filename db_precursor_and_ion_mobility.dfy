/**
 * The entities of Skyline's ion-mobility library database (.imdb): a
 * molecule (peptide or small molecule), a precursor ion (molecule plus
 * adduct) and one ion-mobility value for that precursor.
 *
 * The entities are mutable objects in the source (NHibernate entities with
 * setters), so they are classes here; each has a Value() snapshot without
 * its database Id, and the pure getters and comparisons of the source are
 * functions of those snapshots. C# null is None; a C# double is a real.
 */
module IonMobility {
  import opened Wrappers
  import opened Text
  import opened Chemistry

  // ---------------------------------------------------------------------------
  // Opaque collaborators

  /**
   * SmallMoleculeLibraryAttributes, known by the four strings DbMolecule
   * stores (name, formula, InChIKey, other keys; each may be null).
   */
  datatype LibraryAttributes = LibraryAttributes(
    moleculeName: Option<string>,
    chemicalFormula: Option<string>,
    inChiKey: Option<string>,
    otherKeys: Option<string>)

  /**
   * Skyline's Target: a peptide with its modified sequence, or a small
   * molecule with the library attributes its molecule reports.
   */
  datatype Target = Peptide(sequence: string) | SmallMolecule(attributes: LibraryAttributes)
  {
    predicate IsProteomic() { Peptide? }
  }

  /**
   * The factories the entities call but that live elsewhere:
   * SmallMoleculeLibraryAttributes.Create (with both masses null) and
   * SmallMoleculeLibraryAttributes.EMPTY, and the two adduct parsers
   * Adduct.FromStringAssumeProtonated and
   * Adduct.FromStringAssumeProtonatedNonProteomic.
   */
  datatype Collaborators = Collaborators(
    createAttributes: (Option<string>, Option<string>, Option<string>, Option<string>) -> LibraryAttributes,
    emptyAttributes: LibraryAttributes,
    fromStringAssumeProtonated: string -> Adduct,
    fromStringAssumeProtonatedNonProteomic: string -> Adduct)

  /** eIonMobilityUnits, an enum compared by value. */
  datatype IonMobilityUnits = IonMobilityUnits(code: int)

  /** string.IsNullOrEmpty. */
  predicate IsNullOrEmpty(s: Option<string>)
  {
    s.None? || s.value == ""
  }

  // ---------------------------------------------------------------------------
  // Zero-as-null encoding of optional doubles

  /** The *Nullable getters: a stored 0 reads as null. */
  function ZeroAsNull(x: real): (r: Option<real>)
    ensures r.None? <==> x == 0.0
    ensures r.Some? ==> r.value == x
  {
    if x == 0.0 then None else Some(x)
  }

  /** The *Nullable setters and the constructor's `?? 0`: null is stored as 0. */
  function NullAsZero(v: Option<real>): (r: real)
    ensures v.None? ==> r == 0.0
    ensures v.Some? ==> r == v.value
  {
    match v
    case None => 0.0
    case Some(x) => x
  }

  /** Reading a stored value back through the nullable property loses nothing. */
  lemma StoredValueSurvives(x: real)
    ensures NullAsZero(ZeroAsNull(x)) == x
  {
  }

  /**
   * Setting a nullable property and reading it back gives the value set,
   * except that 0 comes back as null.
   */
  lemma NullableRoundTrip(v: Option<real>)
    ensures ZeroAsNull(NullAsZero(v)) == if v == Some(0.0) then None else v
  {
  }

  /** The encoding is lossy: 0 and null are stored alike. */
  lemma ZeroAndNullCollide()
    ensures NullAsZero(Some(0.0)) == NullAsZero(None)
    ensures ZeroAsNull(NullAsZero(Some(0.0))) == None
  {
  }

  // ---------------------------------------------------------------------------
  // DbMolecule

  /** The five strings a DbMolecule stores, without its Id. */
  datatype Molecule = Molecule(
    peptideModifiedSequence: Option<string>,
    moleculeName: Option<string>,
    chemicalFormula: Option<string>,
    inChiKey: Option<string>,
    otherKeys: Option<string>)

  /**
   * DbMolecule(Target): a peptide keeps its sequence and empty (not null)
   * small-molecule strings; a small molecule has an empty sequence and the
   * four strings of its library attributes.
   */
  function MoleculeOf(target: Target): (m: Molecule)
    ensures target.IsProteomic() ==>
      m.peptideModifiedSequence == Some(target.sequence) &&
      m.moleculeName == m.chemicalFormula == m.inChiKey == m.otherKeys == Some("")
    ensures !target.IsProteomic() ==>
      m.peptideModifiedSequence == Some("") &&
      LibraryAttributes(m.moleculeName, m.chemicalFormula, m.inChiKey, m.otherKeys) == target.attributes
  {
    match target
    case Peptide(sequence) => Molecule(Some(sequence), Some(""), Some(""), Some(""), Some(""))
    case SmallMolecule(a) => Molecule(Some(""), a.moleculeName, a.chemicalFormula, a.inChiKey, a.otherKeys)
  }

  /** The attributes a molecule's small-molecule strings describe. */
  function CreatedAttributes(m: Molecule, c: Collaborators): LibraryAttributes
  {
    c.createAttributes(m.moleculeName, m.chemicalFormula, m.inChiKey, m.otherKeys)
  }

  /**
   * DbMolecule.Target: a peptide exactly when the sequence is neither null
   * nor empty, and then that sequence; otherwise a small molecule built from
   * the other four strings.
   */
  function TargetOf(m: Molecule, c: Collaborators): (t: Target)
    ensures t.IsProteomic() <==> !IsNullOrEmpty(m.peptideModifiedSequence)
    ensures t.IsProteomic() ==> Some(t.sequence) == m.peptideModifiedSequence
    ensures !t.IsProteomic() ==> t.attributes == CreatedAttributes(m, c)
  {
    if IsNullOrEmpty(m.peptideModifiedSequence) then SmallMolecule(CreatedAttributes(m, c))
    else Peptide(m.peptideModifiedSequence.value)
  }

  /**
   * DbMolecule.SmallMoleculeLibraryAttributes: the attributes built from the
   * four strings when the sequence is null or empty, EMPTY otherwise.
   */
  function LibraryAttributesOf(m: Molecule, c: Collaborators): (a: LibraryAttributes)
    ensures IsNullOrEmpty(m.peptideModifiedSequence) ==> a == CreatedAttributes(m, c)
    ensures !IsNullOrEmpty(m.peptideModifiedSequence) ==> a == c.emptyAttributes
  {
    if IsNullOrEmpty(m.peptideModifiedSequence) then CreatedAttributes(m, c) else c.emptyAttributes
  }

  /**
   * Target and SmallMoleculeLibraryAttributes decide alike: a molecule is a
   * small-molecule target exactly when it has library attributes of its own,
   * and those are the target's.
   */
  lemma TargetAgreesWithAttributes(m: Molecule, c: Collaborators)
    ensures TargetOf(m, c) == if IsNullOrEmpty(m.peptideModifiedSequence)
      then SmallMolecule(LibraryAttributesOf(m, c))
      else Peptide(m.peptideModifiedSequence.value)
    ensures TargetOf(m, c).IsProteomic() ==> LibraryAttributesOf(m, c) == c.emptyAttributes
  {
  }

  /** DbMolecule.IsEmpty: all five strings are null or empty. */
  predicate MoleculeIsEmpty(m: Molecule)
  {
    IsNullOrEmpty(m.peptideModifiedSequence) &&
    IsNullOrEmpty(m.moleculeName) &&
    IsNullOrEmpty(m.chemicalFormula) &&
    IsNullOrEmpty(m.inChiKey) &&
    IsNullOrEmpty(m.otherKeys)
  }

  /**
   * DbMolecule.EqualsIgnoreId: string equality (null equals only null) on the
   * five strings; it tells molecules apart exactly when their strings differ.
   */
  function MoleculeEqualsIgnoreId(a: Molecule, b: Molecule): (r: bool)
    ensures r <==> a == b
  {
    a.peptideModifiedSequence == b.peptideModifiedSequence &&
    a.moleculeName == b.moleculeName &&
    a.chemicalFormula == b.chemicalFormula &&
    a.inChiKey == b.inChiKey &&
    a.otherKeys == b.otherKeys
  }

  /** A peptide with a sequence comes back from Target as the same peptide. */
  lemma PeptideRoundTrip(sequence: string, c: Collaborators)
    requires sequence != ""
    ensures TargetOf(MoleculeOf(Peptide(sequence)), c) == Peptide(sequence)
  {
  }

  /** A peptide with an empty sequence comes back as a small molecule. */
  lemma EmptyPeptideBecomesSmallMolecule(c: Collaborators)
    ensures TargetOf(MoleculeOf(Peptide("")), c) == SmallMolecule(c.createAttributes(Some(""), Some(""), Some(""), Some("")))
  {
  }

  /**
   * A small molecule comes back as the small molecule Create builds from its
   * four strings.
   */
  lemma SmallMoleculeRoundTrip(a: LibraryAttributes, c: Collaborators)
    ensures TargetOf(MoleculeOf(SmallMolecule(a)), c)
      == SmallMolecule(c.createAttributes(a.moleculeName, a.chemicalFormula, a.inChiKey, a.otherKeys))
    ensures LibraryAttributesOf(MoleculeOf(SmallMolecule(a)), c) == TargetOf(MoleculeOf(SmallMolecule(a)), c).attributes
  {
  }

  /**
   * A molecule built from a target is empty exactly when the target carries
   * no text: an empty peptide sequence, or four null-or-empty attributes.
   */
  lemma MoleculeOfTargetIsEmpty(target: Target)
    ensures MoleculeIsEmpty(MoleculeOf(target)) <==>
      match target
      case Peptide(sequence) => sequence == ""
      case SmallMolecule(a) =>
        IsNullOrEmpty(a.moleculeName) && IsNullOrEmpty(a.chemicalFormula) &&
        IsNullOrEmpty(a.inChiKey) && IsNullOrEmpty(a.otherKeys)
  {
  }

  /** An empty molecule is always read back as a small-molecule target. */
  lemma EmptyMoleculeIsSmallMolecule(m: Molecule, c: Collaborators)
    requires MoleculeIsEmpty(m)
    ensures !TargetOf(m, c).IsProteomic()
    ensures LibraryAttributesOf(m, c) == TargetOf(m, c).attributes
  {
  }

  /** Molecules that are equal ignoring Id are empty or not together. */
  lemma EqualMoleculesAgreeOnEmptiness(a: Molecule, b: Molecule)
    requires MoleculeEqualsIgnoreId(a, b)
    ensures MoleculeIsEmpty(a) <==> MoleculeIsEmpty(b)
  {
  }

  /**
   * The converse fails: IsEmpty does not tell null from "", while
   * EqualsIgnoreId does, so two empty molecules can still differ.
   */
  lemma EmptyMoleculesCanDiffer()
    ensures MoleculeIsEmpty(Molecule(None, None, None, None, None))
    ensures MoleculeIsEmpty(Molecule(Some(""), Some(""), Some(""), Some(""), Some("")))
    ensures !MoleculeEqualsIgnoreId(Molecule(None, None, None, None, None),
                                    Molecule(Some(""), Some(""), Some(""), Some(""), Some("")))
  {
  }

  /**
   * The copy constructor goes through Target, so a peptide keeps its sequence
   * and has its small-molecule strings reset to empty: a copy of a peptide
   * whose other strings are null is not equal to the original, ignoring Id.
   */
  lemma CopiedPeptideResetsOtherStrings(m: Molecule, c: Collaborators)
    requires !IsNullOrEmpty(m.peptideModifiedSequence)
    ensures MoleculeOf(TargetOf(m, c))
      == m.(moleculeName := Some(""), chemicalFormula := Some(""), inChiKey := Some(""), otherKeys := Some(""))
    ensures m.moleculeName.None? ==> !MoleculeEqualsIgnoreId(MoleculeOf(TargetOf(m, c)), m)
  {
  }

  /** A DbMolecule: five strings and a database Id (None until saved). */
  class DbMolecule {
    var id: Option<int>
    var peptideModifiedSequence: Option<string>
    var moleculeName: Option<string>
    var chemicalFormula: Option<string>
    var inChiKey: Option<string>
    var otherKeys: Option<string>

    function Value(): Molecule
      reads this
    {
      Molecule(peptideModifiedSequence, moleculeName, chemicalFormula, inChiKey, otherKeys)
    }

    /** DbMolecule(Target). */
    constructor FromTarget(target: Target)
      ensures id == None && Value() == MoleculeOf(target)
    {
      var m := MoleculeOf(target);
      id := None;
      peptideModifiedSequence, moleculeName, chemicalFormula, inChiKey, otherKeys :=
        m.peptideModifiedSequence, m.moleculeName, m.chemicalFormula, m.inChiKey, m.otherKeys;
    }

    /** DbMolecule(SmallMoleculeLibraryAttributes): through a small-molecule Target. */
    constructor FromAttributes(attributes: LibraryAttributes)
      ensures id == None && Value() == MoleculeOf(SmallMolecule(attributes))
      ensures Value().peptideModifiedSequence == Some("")
    {
      var m := MoleculeOf(SmallMolecule(attributes));
      id := None;
      peptideModifiedSequence, moleculeName, chemicalFormula, inChiKey, otherKeys :=
        m.peptideModifiedSequence, m.moleculeName, m.chemicalFormula, m.inChiKey, m.otherKeys;
    }

    /**
     * DbMolecule(DbMolecule): the Id is copied, the strings are rebuilt from
     * the other molecule's Target, so a peptide copy reads back the same
     * Target.
     */
    constructor Copy(other: DbMolecule, c: Collaborators)
      ensures id == other.id
      ensures Value() == MoleculeOf(TargetOf(other.Value(), c))
      ensures !IsNullOrEmpty(other.Value().peptideModifiedSequence) ==>
        TargetOf(Value(), c) == TargetOf(other.Value(), c)
    {
      var m := MoleculeOf(TargetOf(other.Value(), c));
      id := other.id;
      peptideModifiedSequence, moleculeName, chemicalFormula, inChiKey, otherKeys :=
        m.peptideModifiedSequence, m.moleculeName, m.chemicalFormula, m.inChiKey, m.otherKeys;
    }
  }

  // ---------------------------------------------------------------------------
  // DbPrecursorIon

  /** A precursor ion without its Id: the molecule's strings and the adduct. */
  datatype PrecursorIon = PrecursorIon(molecule: Molecule, adduct: Adduct)

  /**
   * The PrecursorAdduct setter: null or empty text is the empty adduct, text
   * int.TryParse accepts is parsed as a protonated charge, anything else as a
   * non-proteomic adduct.
   */
  function ParsedAdduct(value: Option<string>, c: Collaborators): (a: Adduct)
    ensures IsNullOrEmpty(value) ==> a == EMPTY_ADDUCT
    ensures !IsNullOrEmpty(value) && TryParseInt32(value.value).Some? ==>
      a == c.fromStringAssumeProtonated(value.value)
    ensures !IsNullOrEmpty(value) && TryParseInt32(value.value).None? ==>
      a == c.fromStringAssumeProtonatedNonProteomic(value.value)
  {
    if IsNullOrEmpty(value) then EMPTY_ADDUCT
    else if TryParseInt32(value.value).Some? then c.fromStringAssumeProtonated(value.value)
    else c.fromStringAssumeProtonatedNonProteomic(value.value)
  }

  /**
   * A charge written as an int, with white space on either side, takes the
   * protonated branch, and the text is handed to the parser untrimmed.
   */
  lemma ChargeTextIsProtonated(left: string, charge: int, right: string, c: Collaborators)
    requires AllNetWhiteSpace(left) && AllNetWhiteSpace(right)
    requires InInt32(charge)
    ensures ParsedAdduct(Some(left + SignedDecimal(charge) + right), c)
      == c.fromStringAssumeProtonated(left + SignedDecimal(charge) + right)
  {
    TryParseInt32Padded(left, charge, right);
  }

  /**
   * A signed decimal too large for an int, with or without white space
   * around it, takes the non-proteomic branch.
   */
  lemma OversizedChargeIsNonProteomic(left: string, t: string, right: string, c: Collaborators)
    requires AllNetWhiteSpace(left) && AllNetWhiteSpace(right)
    requires ParseSignedDecimal(t).Some? && !InInt32(ParseSignedDecimal(t).value)
    ensures ParsedAdduct(Some(left + t + right), c) == c.fromStringAssumeProtonatedNonProteomic(left + t + right)
  {
    TryParseInt32Overflow(left, t, right);
  }

  /**
   * Text holding any character other than a sign, a digit or white space (a
   * formula-style adduct, say) takes the non-proteomic branch.
   */
  lemma NonNumericAdductIsNonProteomic(text: string, i: int, c: Collaborators)
    requires 0 <= i < |text| && !IsNumberChar(text[i])
    ensures ParsedAdduct(Some(text), c) == c.fromStringAssumeProtonatedNonProteomic(text)
  {
    TryParseInt32Refuses(text, i);
  }

  /** "[M+H]" is such a text. */
  lemma FormulaAdductIsNonProteomic(c: Collaborators)
    ensures ParsedAdduct(Some("[M+H]"), c) == c.fromStringAssumeProtonatedNonProteomic("[M+H]")
  {
    NonNumericAdductIsNonProteomic("[M+H]", 0, c);
  }

  /** DbPrecursorIon.IsEmpty: the adduct and the molecule are both empty. */
  predicate PrecursorIsEmpty(p: PrecursorIon)
  {
    AdductIsEmpty(p.adduct) && MoleculeIsEmpty(p.molecule)
  }

  /**
   * DbPrecursorIon.EqualsIgnoreId: equal adducts and molecules equal ignoring
   * Id; nothing else is compared.
   */
  function PrecursorEqualsIgnoreId(a: PrecursorIon, b: PrecursorIon): (r: bool)
    ensures r <==> a == b
  {
    a.adduct == b.adduct && MoleculeEqualsIgnoreId(a.molecule, b.molecule)
  }

  /**
   * Clearing the adduct text leaves a precursor that is empty exactly when
   * its molecule is.
   */
  lemma ClearedAdductLeavesMolecule(p: PrecursorIon, value: Option<string>, c: Collaborators)
    requires IsNullOrEmpty(value)
    ensures PrecursorIsEmpty(p.(adduct := ParsedAdduct(value, c))) <==> MoleculeIsEmpty(p.molecule)
  {
  }

  /**
   * A DbPrecursorIon: a reference to a DbMolecule (which several precursors
   * may share), an adduct and a database Id.
   */
  class DbPrecursorIon {
    var id: Option<int>
    var dbMolecule: DbMolecule
    var adduct: Adduct

    function Value(): PrecursorIon
      reads this, dbMolecule
    {
      PrecursorIon(dbMolecule.Value(), adduct)
    }

    /** DbPrecursorIon(DbMolecule, Adduct): the molecule is shared, not copied. */
    constructor (molecule: DbMolecule, precursorAdduct: Adduct)
      ensures id == None && dbMolecule == molecule && adduct == precursorAdduct
    {
      id := None;
      dbMolecule := molecule;
      adduct := precursorAdduct;
    }

    /** DbPrecursorIon(Target, Adduct): a new molecule for the target. */
    constructor FromTarget(target: Target, precursorAdduct: Adduct)
      ensures id == None && fresh(dbMolecule) && dbMolecule.id == None
      ensures Value() == PrecursorIon(MoleculeOf(target), precursorAdduct)
    {
      var molecule := new DbMolecule.FromTarget(target);
      id := None;
      dbMolecule := molecule;
      adduct := precursorAdduct;
    }

    /** DbPrecursorIon(SmallMoleculeLibraryAttributes, Adduct): through a small-molecule Target. */
    constructor FromAttributes(attributes: LibraryAttributes, precursorAdduct: Adduct)
      ensures id == None && fresh(dbMolecule) && dbMolecule.id == None
      ensures Value() == PrecursorIon(MoleculeOf(SmallMolecule(attributes)), precursorAdduct)
    {
      var molecule := new DbMolecule.FromTarget(SmallMolecule(attributes));
      id := None;
      dbMolecule := molecule;
      adduct := precursorAdduct;
    }

    /**
     * DbPrecursorIon(DbPrecursorIon): same Id, same adduct and the same
     * molecule object, so the copy equals the original ignoring Id.
     */
    constructor Copy(other: DbPrecursorIon)
      ensures id == other.id && dbMolecule == other.dbMolecule && adduct == other.adduct
      ensures PrecursorEqualsIgnoreId(Value(), other.Value())
    {
      id := other.id;
      dbMolecule := other.dbMolecule;
      adduct := other.adduct;
    }

    /** The PrecursorAdduct setter; it changes the adduct and nothing else. */
    method SetPrecursorAdduct(value: Option<string>, c: Collaborators)
      modifies this`adduct
      ensures adduct == ParsedAdduct(value, c)
      ensures Value() == old(Value()).(adduct := ParsedAdduct(value, c))
    {
      if IsNullOrEmpty(value) {
        adduct := EMPTY_ADDUCT;
      } else if TryParseInt32(value.value).Some? {
        adduct := c.fromStringAssumeProtonated(value.value);
      } else {
        adduct := c.fromStringAssumeProtonatedNonProteomic(value.value);
      }
    }
  }

  // ---------------------------------------------------------------------------
  // DbPrecursorAndIonMobility

  /** One ion-mobility value for a precursor, without its Id. */
  datatype PrecursorAndIonMobility = PrecursorAndIonMobility(
    precursor: PrecursorIon,
    collisionalCrossSectionSqA: real,
    ionMobility: real,
    units: IonMobilityUnits,
    highEnergyIonMobilityOffset: real)

  /**
   * DbPrecursorAndIonMobility.EqualsIgnoreId: precursors equal ignoring Id,
   * equal cross section, ion mobility and high-energy offset, and the same
   * units; nothing else is compared.
   */
  function EqualsIgnoreId(a: PrecursorAndIonMobility, b: PrecursorAndIonMobility): (r: bool)
    ensures r <==> a == b
  {
    PrecursorEqualsIgnoreId(a.precursor, b.precursor) &&
    a.collisionalCrossSectionSqA == b.collisionalCrossSectionSqA &&
    a.ionMobility == b.ionMobility &&
    a.highEnergyIonMobilityOffset == b.highEnergyIonMobilityOffset &&
    a.units == b.units
  }

  /** Each EqualsIgnoreId is reflexive. */
  lemma EqualsIgnoreIdReflexive(v: PrecursorAndIonMobility)
    ensures EqualsIgnoreId(v, v)
    ensures PrecursorEqualsIgnoreId(v.precursor, v.precursor)
    ensures MoleculeEqualsIgnoreId(v.precursor.molecule, v.precursor.molecule)
  {
  }

  /**
   * A DbPrecursorAndIonMobility: a reference to its precursor ion, the three
   * stored doubles (0 standing for "none"), the units and a database Id.
   */
  class DbPrecursorAndIonMobility {
    var id: Option<int>
    var dbPrecursorIon: DbPrecursorIon
    var collisionalCrossSectionSqA: real
    var ionMobility: real
    var ionMobilityUnits: IonMobilityUnits
    var highEnergyIonMobilityOffset: real

    function Value(): PrecursorAndIonMobility
      reads this, dbPrecursorIon, dbPrecursorIon.dbMolecule
    {
      PrecursorAndIonMobility(dbPrecursorIon.Value(), collisionalCrossSectionSqA, ionMobility,
        ionMobilityUnits, highEnergyIonMobilityOffset)
    }

    function CollisionalCrossSectionNullable(): Option<real>
      reads this
    {
      ZeroAsNull(collisionalCrossSectionSqA)
    }

    function IonMobilityNullable(): Option<real>
      reads this
    {
      ZeroAsNull(ionMobility)
    }

    function HighEnergyIonMobilityOffsetNullable(): Option<real>
      reads this
    {
      ZeroAsNull(highEnergyIonMobilityOffset)
    }

    /** The five-argument constructor: each null double is stored as 0. */
    constructor (precursor: DbPrecursorIon, collisionalCrossSection: Option<real>,
                 ionMobilityValue: Option<real>, units: IonMobilityUnits, highEnergyOffset: Option<real>)
      ensures id == None && dbPrecursorIon == precursor && ionMobilityUnits == units
      ensures collisionalCrossSectionSqA == NullAsZero(collisionalCrossSection)
      ensures ionMobility == NullAsZero(ionMobilityValue)
      ensures highEnergyIonMobilityOffset == NullAsZero(highEnergyOffset)
    {
      id := None;
      dbPrecursorIon := precursor;
      collisionalCrossSectionSqA := NullAsZero(collisionalCrossSection);
      ionMobility := NullAsZero(ionMobilityValue);
      ionMobilityUnits := units;
      highEnergyIonMobilityOffset := NullAsZero(highEnergyOffset);
    }

    /**
     * The copy constructor passes the ion mobility through its nullable
     * property and the other doubles as they are; every field and the Id
     * come through unchanged, and the precursor object is shared.
     */
    constructor Copy(other: DbPrecursorAndIonMobility)
      ensures id == other.id && dbPrecursorIon == other.dbPrecursorIon
      ensures collisionalCrossSectionSqA == other.collisionalCrossSectionSqA
      ensures ionMobility == other.ionMobility
      ensures ionMobilityUnits == other.ionMobilityUnits
      ensures highEnergyIonMobilityOffset == other.highEnergyIonMobilityOffset
      ensures EqualsIgnoreId(Value(), other.Value())
    {
      dbPrecursorIon := other.dbPrecursorIon;
      collisionalCrossSectionSqA := NullAsZero(Some(other.collisionalCrossSectionSqA));
      ionMobility := NullAsZero(other.IonMobilityNullable());
      ionMobilityUnits := other.ionMobilityUnits;
      highEnergyIonMobilityOffset := NullAsZero(Some(other.highEnergyIonMobilityOffset));
      id := other.id;
    }

    /** The CollisionalCrossSectionNullable setter. */
    method SetCollisionalCrossSectionNullable(v: Option<real>)
      modifies this`collisionalCrossSectionSqA
      ensures collisionalCrossSectionSqA == NullAsZero(v)
      ensures CollisionalCrossSectionNullable() == if v == Some(0.0) then None else v
    {
      collisionalCrossSectionSqA := NullAsZero(v);
    }

    /** The IonMobilityNullable setter. */
    method SetIonMobilityNullable(v: Option<real>)
      modifies this`ionMobility
      ensures ionMobility == NullAsZero(v)
      ensures IonMobilityNullable() == if v == Some(0.0) then None else v
    {
      ionMobility := NullAsZero(v);
    }

    /** The HighEnergyIonMobilityOffsetNullable setter. */
    method SetHighEnergyIonMobilityOffsetNullable(v: Option<real>)
      modifies this`highEnergyIonMobilityOffset
      ensures highEnergyIonMobilityOffset == NullAsZero(v)
      ensures HighEnergyIonMobilityOffsetNullable() == if v == Some(0.0) then None else v
    {
      highEnergyIonMobilityOffset := NullAsZero(v);
    }
  }
}
