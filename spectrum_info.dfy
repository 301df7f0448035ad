/**
 * The spectrum summary: a SpectrumInfo record that update fills from a
 * Spectrum by picking controlled-vocabulary parameters out of its nested
 * description, plus the accessors that read the record back.
 *
 * The vocabulary ontology (is-a), parameter lookup, value coercion, unit
 * conversion, peak extraction and floating-point parsing belong to the rest
 * of the data model; they reach the record through a Collaborators value of
 * functions. Doubles are reals.
 */
module MsData {
  import opened Wrappers
  import opened Text

  /** The controlled-vocabulary terms the summary refers to by name; any other term by its accession. */
  datatype CVID =
    | Unknown
    | MassAnalyzerType
    | IonTrap
    | FtIcr
    | Orbitrap
    | PresetScanConfiguration
    | MsLevel
    | ScanTime
    | FilterString
    | LowestMz
    | HighestMz
    | BasePeakMz
    | BasePeakIntensity
    | TotalIonCurrent
    | Mz
    | ChargeState
    | Intensity
    | Term(accession: nat)

  datatype CVParam = CVParam(cvid: CVID, value: CppString, units: CVID)
  datatype UserParam = UserParam(name: string, value: string, kind: string, units: CVID)
  datatype ParamContainer = ParamContainer(cvParams: seq<CVParam>, userParams: seq<UserParam>)

  datatype InstrumentConfiguration = InstrumentConfiguration(id: string, componentList: seq<ParamContainer>)
  datatype Scan = Scan(params: ParamContainer, instrumentConfiguration: Option<InstrumentConfiguration>)
  datatype Precursor = Precursor(selectedIons: seq<ParamContainer>)
  datatype SpectrumDescription = SpectrumDescription(params: ParamContainer, scan: Scan, precursors: seq<Precursor>)
  datatype BinaryDataArray = BinaryDataArray(params: ParamContainer, data: seq<real>)
  datatype Spectrum = Spectrum(
    index: nat,
    id: string,
    nativeID: CppString,
    params: ParamContainer,
    description: SpectrumDescription,
    binaryDataArrays: seq<BinaryDataArray>)

  datatype MZIntensityPair = MZIntensityPair(mz: real, intensity: real)

  /** boost::bad_lexical_cast. */
  datatype CastError = BadLexicalCast

  /**
   * What the rest of the data model provides: cvIsA, ParamContainer::cvParam,
   * cvParamChild and userParam lookups, the first analyzer of a component
   * list, CVParam::valueAs<int>/<double>, timeInSeconds, UserParam::valueAs<double>,
   * Spectrum::getMZIntensityPairs and lexical_cast<double>.
   */
  datatype Collaborators = Collaborators(
    isA: (CVID, CVID) -> bool,
    cvParam: (ParamContainer, CVID) -> CVParam,
    cvParamChild: (ParamContainer, CVID) -> CVParam,
    userParam: (ParamContainer, string) -> UserParam,
    firstAnalyzer: InstrumentConfiguration -> ParamContainer,
    intValue: CVParam -> int,
    realValue: CVParam -> real,
    timeInSeconds: CVParam -> real,
    userRealValue: UserParam -> real,
    mzIntensityPairs: Spectrum -> seq<MZIntensityPair>,
    castReal: string -> Option<real>)

  /** The user parameter Thermo's reader stores the monoisotopic m/z under. */
  const THERMO_MONOISOTOPIC_MZ := "[Thermo Trailer Extra]Monoisotopic M/Z:"

  /** (size_t)-1: the index of a record that has not been filled. */
  const NO_INDEX: nat := NPOS

  datatype PrecursorInfo = PrecursorInfo(index: nat, mz: real, charge: int, intensity: real)

  /** A PrecursorInfo as constructed, before any field is set. */
  const EMPTY_PRECURSOR_INFO := PrecursorInfo(0, 0.0, 0, 0.0)

  /** Every field of a SpectrumInfo, as one value. */
  datatype Summary = Summary(
    id: string,
    nativeID: CppString,
    index: nat,
    scanNumber: int,
    massAnalyzerType: CVID,
    scanEvent: int,
    msLevel: int,
    retentionTime: real,
    filterString: CppString,
    mzLow: real,
    mzHigh: real,
    basePeakMZ: real,
    basePeakIntensity: real,
    totalIonCurrent: real,
    thermoMonoisotopicMZ: real,
    precursors: seq<PrecursorInfo>,
    data: seq<MZIntensityPair>)

  /** The record both constructors start from. */
  function Default(): (d: Summary)
  {
    Summary("", "", NO_INDEX, 0, Unknown, 0, 0, 0.0, "", 0.0, 0.0, 0.0, 0.0, 0.0, 0.0, [], [])
  }

  // ---------------------------------------------------------------------------
  // What update computes, stated on values

  // The collaborators' lookups as the record uses them: cvParam(term).valueAs<T>() and friends.

  function CvInt(c: Collaborators, pc: ParamContainer, term: CVID): int
  {
    c.intValue(c.cvParam(pc, term))
  }

  function CvReal(c: Collaborators, pc: ParamContainer, term: CVID): real
  {
    c.realValue(c.cvParam(pc, term))
  }

  function CvSeconds(c: Collaborators, pc: ParamContainer, term: CVID): real
  {
    c.timeInSeconds(c.cvParam(pc, term))
  }

  function CvText(c: Collaborators, pc: ParamContainer, term: CVID): CppString
  {
    c.cvParam(pc, term).value
  }

  function UserParamNamed(c: Collaborators, pc: ParamContainer, name: string): UserParam
  {
    c.userParam(pc, name)
  }

  function UserReal(c: Collaborators, up: UserParam): real
  {
    c.userRealValue(up)
  }

  /** componentList.analyzer(0).cvParamChild(MS_mass_analyzer_type).cvid */
  function FirstAnalyzerType(c: Collaborators, config: InstrumentConfiguration): CVID
  {
    c.cvParamChild(c.firstAnalyzer(config), MassAnalyzerType).cvid
  }

  function PeaksOf(c: Collaborators, s: Spectrum): seq<MZIntensityPair>
  {
    c.mzIntensityPairs(s)
  }

  /** nativeIDToScanNumber: the native id read as an int, or 0 when it is not one. */
  function NativeIdToScanNumber(nativeID: string): (n: int)
    ensures InInt32(n)
    ensures LexicalCastInt(nativeID).Some? ==> n == LexicalCastInt(nativeID).value
    ensures LexicalCastInt(nativeID).None? ==> n == 0
  {
    match LexicalCastInt(nativeID)
    case Some(v) => v
    case None => 0
  }

  /** The analyzer type: the mass-analyzer-type child term of the first analyzer, or Unknown without an instrument configuration. */
  function AnalyzerTypeOf(scan: Scan, c: Collaborators): CVID
  {
    match scan.instrumentConfiguration
    case Some(config) => FirstAnalyzerType(c, config)
    case None => Unknown
  }

  /** The summary of one precursor: index 0, and m/z, charge and intensity of its first selected ion if it has one. */
  function PrecursorInfoOf(p: Precursor, c: Collaborators): PrecursorInfo
  {
    if p.selectedIons == [] then EMPTY_PRECURSOR_INFO
    else
      var ion := p.selectedIons[0];
      EMPTY_PRECURSOR_INFO.(
        mz := CvReal(c, ion, Mz),
        charge := CvInt(c, ion, ChargeState),
        intensity := CvReal(c, ion, Intensity))
  }

  function PrecursorInfos(ps: seq<Precursor>, c: Collaborators): (infos: seq<PrecursorInfo>)
    ensures |infos| == |ps|
    ensures forall k :: 0 <= k < |ps| ==> infos[k] == PrecursorInfoOf(ps[k], c)
  {
    seq(|ps|, k requires 0 <= k < |ps| => PrecursorInfoOf(ps[k], c))
  }

  // update, section by section: each step gives the record some of its new fields.

  /** Identity copied verbatim; the scan number parsed from the native id. */
  function WithIdentity(info: Summary, s: Spectrum): Summary
  {
    info.(id := s.id, nativeID := s.nativeID, index := s.index, scanNumber := NativeIdToScanNumber(s.nativeID))
  }

  /** Analyzer type, preset scan configuration, MS level, scan time and filter string from the scan and the spectrum. */
  function WithScan(info: Summary, s: Spectrum, c: Collaborators): Summary
  {
    var scan := s.description.scan;
    info.(
      massAnalyzerType := AnalyzerTypeOf(scan, c),
      scanEvent := CvInt(c, scan.params, PresetScanConfiguration),
      msLevel := CvInt(c, s.params, MsLevel),
      retentionTime := CvSeconds(c, scan.params, ScanTime),
      filterString := CvText(c, scan.params, FilterString))
  }

  /** m/z range, base peak and total ion current from the spectrum description. */
  function WithDescription(info: Summary, sd: SpectrumDescription, c: Collaborators): Summary
  {
    info.(
      mzLow := CvReal(c, sd.params, LowestMz),
      mzHigh := CvReal(c, sd.params, HighestMz),
      basePeakMZ := CvReal(c, sd.params, BasePeakMz),
      basePeakIntensity := CvReal(c, sd.params, BasePeakIntensity),
      totalIonCurrent := CvReal(c, sd.params, TotalIonCurrent))
  }

  /** The Thermo monoisotopic m/z, only when the scan has that user parameter (one with a non-empty name). */
  function WithThermo(info: Summary, scan: Scan, c: Collaborators): Summary
  {
    var mono := UserParamNamed(c, scan.params, THERMO_MONOISOTOPIC_MZ);
    if mono.name != "" then info.(thermoMonoisotopicMZ := UserReal(c, mono)) else info
  }

  /** One precursor summary appended per precursor, after those already there. */
  function WithPrecursors(info: Summary, ps: seq<Precursor>, c: Collaborators): Summary
  {
    info.(precursors := info.precursors + PrecursorInfos(ps, c))
  }

  /** The peaks, only when the spectrum has binary data arrays. */
  function WithPeaks(info: Summary, s: Spectrum, c: Collaborators): Summary
  {
    if s.binaryDataArrays != [] then info.(data := PeaksOf(c, s)) else info
  }

  /** The record update leaves behind: every section applied in the order of the source. */
  function Updated(info: Summary, s: Spectrum, c: Collaborators): Summary
  {
    var sd := s.description;
    WithPeaks(WithPrecursors(WithThermo(WithDescription(WithScan(WithIdentity(info, s), s, c), sd, c), sd.scan, c), sd.precursors, c), s, c)
  }

  // ---------------------------------------------------------------------------
  // Properties of update

  /** Identity fields are copied verbatim and the scan number comes from the native id. */
  lemma UpdateCopiesIdentity(info: Summary, s: Spectrum, c: Collaborators)
    ensures var r := Updated(info, s, c);
      r.id == s.id && r.nativeID == s.nativeID && r.index == s.index
      && r.scanNumber == NativeIdToScanNumber(s.nativeID)
  {
  }

  lemma NoInstrumentConfigurationMeansUnknown(info: Summary, s: Spectrum, c: Collaborators)
    requires s.description.scan.instrumentConfiguration.None?
    ensures Updated(info, s, c).massAnalyzerType == Unknown
  {
  }

  /**
   * update keeps the precursor summaries it had and appends one per source
   * precursor, in order, each with index 0 and values from the first selected
   * ion only, or all zero when the precursor has no selected ion.
   */
  lemma {:induction false} UpdateAppendsPrecursors(info: Summary, s: Spectrum, c: Collaborators)
    ensures var r := Updated(info, s, c);
      var ps := s.description.precursors;
      && |r.precursors| == |info.precursors| + |ps|
      && r.precursors[..|info.precursors|] == info.precursors
      && forall k :: 0 <= k < |ps| ==>
        var p := r.precursors[|info.precursors| + k];
        && p.index == 0
        && (ps[k].selectedIons == [] ==> p == EMPTY_PRECURSOR_INFO)
        && (ps[k].selectedIons != [] ==>
          p.mz == CvReal(c, ps[k].selectedIons[0], Mz)
          && p.charge == CvInt(c, ps[k].selectedIons[0], ChargeState)
          && p.intensity == CvReal(c, ps[k].selectedIons[0], Intensity))
  {
    var r := Updated(info, s, c);
    var ps := s.description.precursors;
    assert r.precursors == info.precursors + PrecursorInfos(ps, c);
    forall k | 0 <= k < |ps|
      ensures r.precursors[|info.precursors| + k] == PrecursorInfoOf(ps[k], c)
    {
    }
  }

  /** Selected ions after the first are never looked at. */
  lemma OnlyFirstSelectedIonCounts(ion: ParamContainer, rest1: seq<ParamContainer>, rest2: seq<ParamContainer>, c: Collaborators)
    ensures PrecursorInfoOf(Precursor([ion] + rest1), c) == PrecursorInfoOf(Precursor([ion] + rest2), c)
  {
  }

  /** When the Thermo user parameter is missing and the spectrum has no binary data, update leaves those two fields alone. */
  lemma UpdateKeepsWhatIsMissing(info: Summary, s: Spectrum, c: Collaborators)
    ensures UserParamNamed(c, s.description.scan.params, THERMO_MONOISOTOPIC_MZ).name == "" ==>
      Updated(info, s, c).thermoMonoisotopicMZ == info.thermoMonoisotopicMZ
    ensures s.binaryDataArrays == [] ==> Updated(info, s, c).data == info.data
  {
  }

  /** The old record matters to update only through its precursors, Thermo monoisotopic m/z and peaks. */
  lemma UpdateForgetsTheRest(a: Summary, b: Summary, s: Spectrum, c: Collaborators)
    requires a.precursors == b.precursors && a.thermoMonoisotopicMZ == b.thermoMonoisotopicMZ && a.data == b.data
    ensures Updated(a, s, c) == Updated(b, s, c)
  {
  }

  /** Running update twice with the same spectrum gives the same record exactly when the spectrum has no precursors. */
  lemma UpdateTwiceIffNoPrecursors(info: Summary, s: Spectrum, c: Collaborators)
    ensures Updated(Updated(info, s, c), s, c) == Updated(info, s, c) <==> s.description.precursors == []
  {
    var once := Updated(info, s, c);
    var twice := Updated(once, s, c);
    if s.description.precursors == [] {
      assert once.precursors == info.precursors;
      assert twice.precursors == once.precursors;
    } else {
      assert |twice.precursors| == |once.precursors| + |s.description.precursors|;
    }
  }

  /** A record built from a spectrum has exactly its precursors' summaries, and zero or no peaks where the sources are missing. */
  lemma FromSpectrumFields(s: Spectrum, c: Collaborators)
    ensures var r := Updated(Default(), s, c);
      && r.precursors == PrecursorInfos(s.description.precursors, c)
      && (UserParamNamed(c, s.description.scan.params, THERMO_MONOISOTOPIC_MZ).name == "" ==> r.thermoMonoisotopicMZ == 0.0)
      && (s.binaryDataArrays == [] ==> r.data == [])
  {
    assert [] + PrecursorInfos(s.description.precursors, c) == PrecursorInfos(s.description.precursors, c);
  }

  lemma ScanNumberExamples()
    ensures NativeIdToScanNumber("4231") == 4231
    ensures NativeIdToScanNumber("scan=4231") == 0
    ensures NativeIdToScanNumber(" 4231") == 0
    ensures NativeIdToScanNumber("-17") == -17
  {
    LexicalCastSignedDecimal(4231);
    assert SignedDecimal(4231) == "4231";
    LexicalCastSignedDecimal(-17);
    assert SignedDecimal(-17) == "-17";
  }

  /** Every int written in decimal is read back as the scan number. */
  lemma ScanNumberRoundTrip(n: int)
    requires InInt32(n)
    ensures NativeIdToScanNumber(SignedDecimal(n)) == n
  {
    LexicalCastSignedDecimal(n);
  }

  // ---------------------------------------------------------------------------
  // Reading the filter string

  /** The index of the first word holding '@', if any. */
  function FirstAtToken(ts: seq<string>): (r: Option<nat>)
    ensures r.Some? ==> r.value < |ts| && '@' in ts[r.value]
    ensures r.Some? ==> forall j :: 0 <= j < r.value ==> '@' !in ts[j]
    ensures r.None? ==> forall j :: 0 <= j < |ts| ==> '@' !in ts[j]
  {
    if ts == [] then None
    else if '@' in ts[0] then Some(0)
    else match FirstAtToken(ts[1..])
      case Some(k) => Some(k + 1)
      case None => None
  }

  /** lexical_cast<double> of the text in front of the first '@' of a word. */
  function CastBeforeAt(word: CppString, castReal: string -> Option<real>): Result<real, CastError>
    requires '@' in word
  {
    var at := Find(word, '@', 0);
    match castReal(word[..at])
    case Some(v) => Ok(v)
    case None => Err(BadLexicalCast)
  }

  /**
   * What mzFromFilterString returns: the text before the first '@' of the
   * first whitespace-separated word holding one, cast to a double (an error
   * when that text is not a number), or 0 when no word holds '@'.
   */
  function FilterStringMz(filterString: CppString, castReal: string -> Option<real>): Result<real, CastError>
  {
    var ts := Tokens(filterString, ASCII_WHITESPACE);
    match FirstAtToken(ts)
    case None => Ok(0.0)
    case Some(k) => CastBeforeAt(ts[k], castReal)
  }

  lemma {:induction false} FirstAtTokenOfPrefix(ts: seq<string>, more: seq<string>)
    requires FirstAtToken(ts).Some?
    ensures FirstAtToken(ts + more) == FirstAtToken(ts)
  {
    if '@' !in ts[0] {
      assert (ts + more)[1..] == ts[1..] + more;
      FirstAtTokenOfPrefix(ts[1..], more);
    }
  }

  lemma {:induction false} FirstAtTokenAfter(ts: seq<string>, more: seq<string>)
    requires FirstAtToken(ts).None? && FirstAtToken(more).Some?
    ensures FirstAtToken(ts + more) == Some(|ts| + FirstAtToken(more).value)
  {
    if ts != [] {
      assert (ts + more)[1..] == ts[1..] + more;
      FirstAtTokenAfter(ts[1..], more);
    } else {
      assert ts + more == more;
    }
  }

  /** Once a word with '@' has been read, nothing after it changes the result. */
  lemma LaterWordsIgnored(a: CppString, sep: char, b: CppString, castReal: string -> Option<real>)
    requires sep in ASCII_WHITESPACE && |a + [sep] + b| < NPOS
    requires FirstAtToken(Tokens(a, ASCII_WHITESPACE)).Some?
    ensures FilterStringMz(a + [sep] + b, castReal) == FilterStringMz(a, castReal)
  {
    TokensSplit(a, sep, b, ASCII_WHITESPACE);
    FirstAtTokenOfPrefix(Tokens(a, ASCII_WHITESPACE), Tokens(b, ASCII_WHITESPACE));
  }

  /** No word with '@' gives 0, whatever the cast would do. */
  lemma NoAtGivesZero(filterString: CppString, castReal: string -> Option<real>)
    requires '@' !in filterString
    ensures FilterStringMz(filterString, castReal) == Ok(0.0)
  {
    var ts := Tokens(filterString, ASCII_WHITESPACE);
    if FirstAtToken(ts).Some? {
      var k := FirstAtToken(ts).value;
      var i :| 0 <= i < |ts[k]| && ts[k][i] == '@';
      TokensAreSubstrings(filterString, ASCII_WHITESPACE, k, i);
    }
  }

  /** After a stretch without '@', the first word with '@' decides the result. */
  lemma FirstWordWithAtDecides(a: CppString, sep: char, word: CppString, castReal: string -> Option<real>)
    requires sep in ASCII_WHITESPACE && |a + [sep] + word| < NPOS
    requires '@' !in a && '@' in word && Free(word, ASCII_WHITESPACE)
    ensures FilterStringMz(a + [sep] + word, castReal) == CastBeforeAt(word, castReal)
  {
    TokensSplit(a, sep, word, ASCII_WHITESPACE);
    TokensOfWord(word, ASCII_WHITESPACE);
    var ta := Tokens(a, ASCII_WHITESPACE);
    if FirstAtToken(ta).Some? {
      var k := FirstAtToken(ta).value;
      var i :| 0 <= i < |ta[k]| && ta[k][i] == '@';
      TokensAreSubstrings(a, ASCII_WHITESPACE, k, i);
    }
    FirstAtTokenAfter(ta, [word]);
  }

  /** The words of a Thermo filter string in front of its precursor word: no '@' among them. */
  const EXAMPLE_SCAN_WORDS: CppString := "FTMS + p NSI Full ms2"
  /** A precursor word of a Thermo filter string: m/z, '@', activation and energy. */
  const EXAMPLE_PRECURSOR_WORD: CppString := "810.4132@hcd27.00"

  lemma ExampleScanWordsHaveNoAt()
    ensures '@' !in EXAMPLE_SCAN_WORDS
  {
  }

  lemma ExamplePrecursorWordIsOneWord()
    ensures Free(EXAMPLE_PRECURSOR_WORD, ASCII_WHITESPACE)
  {
    var w := EXAMPLE_PRECURSOR_WORD;
    assert forall ch | ch in w :: ' ' < ch;
  }

  lemma ExamplePrecursorWordCast(castReal: string -> Option<real>)
    ensures '@' in EXAMPLE_PRECURSOR_WORD
    ensures CastBeforeAt(EXAMPLE_PRECURSOR_WORD, castReal)
      == match castReal("810.4132") case Some(v) => Ok(v) case None => Err(BadLexicalCast)
  {
    var w := EXAMPLE_PRECURSOR_WORD;
    assert w[8] == '@';
    FindIs(w, '@', 0, 8);
    assert w[..8] == "810.4132";
  }

  /**
   * The filter string "FTMS + p NSI Full ms2 810.4132@hcd27.00" gives whatever
   * the cast makes of "810.4132".
   */
  lemma FilterStringExample(castReal: string -> Option<real>)
    ensures FilterStringMz(EXAMPLE_SCAN_WORDS + " " + EXAMPLE_PRECURSOR_WORD, castReal)
      == match castReal("810.4132") case Some(v) => Ok(v) case None => Err(BadLexicalCast)
  {
    ExampleScanWordsHaveNoAt();
    ExamplePrecursorWordIsOneWord();
    ExamplePrecursorWordCast(castReal);
    FirstWordWithAtDecides(EXAMPLE_SCAN_WORDS, ' ', EXAMPLE_PRECURSOR_WORD, castReal);
  }

  /** The empty filter string gives 0. */
  lemma EmptyFilterStringExample(castReal: string -> Option<real>)
    ensures FilterStringMz("", castReal) == Ok(0.0)
  {
    NoAtGivesZero("", castReal);
  }

  // ---------------------------------------------------------------------------
  // The record

  class SpectrumInfo {
    var id: string
    var nativeID: CppString
    var index: nat
    var scanNumber: int
    var massAnalyzerType: CVID
    var scanEvent: int
    var msLevel: int
    var retentionTime: real
    var filterString: CppString
    var mzLow: real
    var mzHigh: real
    var basePeakMZ: real
    var basePeakIntensity: real
    var totalIonCurrent: real
    var thermoMonoisotopicMZ: real
    var precursors: seq<PrecursorInfo>
    var data: seq<MZIntensityPair>

    function Value(): Summary
      reads this
    {
      Summary(id, nativeID, index, scanNumber, massAnalyzerType, scanEvent, msLevel, retentionTime,
        filterString, mzLow, mzHigh, basePeakMZ, basePeakIntensity, totalIonCurrent,
        thermoMonoisotopicMZ, precursors, data)
    }

    /** An empty record: index (size_t)-1, analyzer Unknown, every number 0. */
    constructor ()
      ensures Value() == Default()
    {
      id, nativeID, index, scanNumber := "", "", NO_INDEX, 0;
      massAnalyzerType := Unknown;
      scanEvent, msLevel, retentionTime, filterString := 0, 0, 0.0, "";
      mzLow, mzHigh, basePeakMZ, basePeakIntensity := 0.0, 0.0, 0.0, 0.0;
      totalIonCurrent, thermoMonoisotopicMZ := 0.0, 0.0;
      precursors, data := [], [];
    }

    /** The same defaults, then update from the spectrum. */
    constructor FromSpectrum(s: Spectrum, c: Collaborators)
      ensures Value() == Updated(Default(), s, c)
    {
      id, nativeID, index, scanNumber := "", "", NO_INDEX, 0;
      massAnalyzerType := Unknown;
      scanEvent, msLevel, retentionTime, filterString := 0, 0, 0.0, "";
      mzLow, mzHigh, basePeakMZ, basePeakIntensity := 0.0, 0.0, 0.0, 0.0;
      totalIonCurrent, thermoMonoisotopicMZ := 0.0, 0.0;
      precursors, data := [], [];
      new;
      Update(s, c);
    }

    method Update(s: Spectrum, c: Collaborators)
      modifies this
      ensures Value() == Updated(old(Value()), s, c)
    {
      CopyIdentity(s);
      ReadScan(s, c);
      ReadDescription(s.description, c);
      ReadThermoMonoisotopicMz(s.description.scan, c);
      AppendPrecursors(s.description.precursors, c);
      if s.binaryDataArrays != [] {
        data := PeaksOf(c, s);
      }
    }

    method CopyIdentity(s: Spectrum)
      modifies this`id, this`nativeID, this`index, this`scanNumber
      ensures Value() == WithIdentity(old(Value()), s)
    {
      id := s.id;
      nativeID := s.nativeID;
      index := s.index;
      scanNumber := NativeIdToScanNumber(s.nativeID);
    }

    method ReadScan(s: Spectrum, c: Collaborators)
      modifies this`massAnalyzerType, this`scanEvent, this`msLevel, this`retentionTime, this`filterString
      ensures Value() == WithScan(old(Value()), s, c)
    {
      var scan := s.description.scan;
      var analyzer := AnalyzerTypeOf(scan, c);
      var event := CvInt(c, scan.params, PresetScanConfiguration);
      var level := CvInt(c, s.params, MsLevel);
      var time := CvSeconds(c, scan.params, ScanTime);
      var filter := CvText(c, scan.params, FilterString);
      massAnalyzerType, scanEvent, msLevel, retentionTime, filterString := analyzer, event, level, time, filter;
    }

    method ReadDescription(sd: SpectrumDescription, c: Collaborators)
      modifies this`mzLow, this`mzHigh, this`basePeakMZ, this`basePeakIntensity, this`totalIonCurrent
      ensures Value() == WithDescription(old(Value()), sd, c)
    {
      var low := CvReal(c, sd.params, LowestMz);
      var high := CvReal(c, sd.params, HighestMz);
      var peakMz := CvReal(c, sd.params, BasePeakMz);
      var peakIntensity := CvReal(c, sd.params, BasePeakIntensity);
      var tic := CvReal(c, sd.params, TotalIonCurrent);
      mzLow, mzHigh, basePeakMZ, basePeakIntensity, totalIonCurrent := low, high, peakMz, peakIntensity, tic;
    }

    method ReadThermoMonoisotopicMz(scan: Scan, c: Collaborators)
      modifies this`thermoMonoisotopicMZ
      ensures Value() == WithThermo(old(Value()), scan, c)
    {
      var mono := UserParamNamed(c, scan.params, THERMO_MONOISOTOPIC_MZ);
      if mono.name != "" {
        thermoMonoisotopicMZ := UserReal(c, mono);
      }
    }

    /** The precursor loop of update: one summary pushed back per precursor, from its first selected ion. */
    method AppendPrecursors(ps: seq<Precursor>, c: Collaborators)
      modifies this`precursors
      ensures precursors == old(precursors) + PrecursorInfos(ps, c)
    {
      var i := 0;
      while i < |ps|
        invariant 0 <= i <= |ps|
        invariant precursors == old(precursors) + PrecursorInfos(ps[..i], c)
      {
        var p := ps[i];
        var info := EMPTY_PRECURSOR_INFO;
        if p.selectedIons != [] {
          info := info.(
            mz := CvReal(c, p.selectedIons[0], Mz),
            charge := CvInt(c, p.selectedIons[0], ChargeState),
            intensity := CvReal(c, p.selectedIons[0], Intensity));
        }
        assert PrecursorInfos(ps[..i + 1], c) == PrecursorInfos(ps[..i], c) + [info];
        precursors := precursors + [info];
        i := i + 1;
      }
      assert ps[..i] == ps;
    }

    method ClearBinaryData()
      modifies this`data
      ensures data == [] && Value() == old(Value()).(data := [])
    {
      data := [];
    }

    /** massAnalyzerTypeAbbreviation: ion trap (by is-a) first, then FT-ICR, then Orbitrap (by equality), else "Unknown". */
    function MassAnalyzerTypeAbbreviation(isA: (CVID, CVID) -> bool): (r: string)
      reads this
      ensures r in {"IonTrap", "FT", "Orbitrap", "Unknown"}
      ensures r == "IonTrap" <==> isA(massAnalyzerType, IonTrap)
      ensures r == "FT" <==> !isA(massAnalyzerType, IonTrap) && massAnalyzerType == FtIcr
      ensures r == "Orbitrap" <==> !isA(massAnalyzerType, IonTrap) && massAnalyzerType == Orbitrap
    {
      if isA(massAnalyzerType, IonTrap) then "IonTrap"
      else if massAnalyzerType == FtIcr then "FT"
      else if massAnalyzerType == Orbitrap then "Orbitrap"
      else "Unknown"
    }

    /** mzFromFilterString: scans the words of the filter string and parses the m/z in front of the first '@'. */
    method MzFromFilterString(castReal: string -> Option<real>) returns (r: Result<real, CastError>)
      ensures r == FilterStringMz(filterString, castReal)
    {
      var tokens := Tokens(filterString, ASCII_WHITESPACE);
      var k := 0;
      while k < |tokens|
        invariant 0 <= k <= |tokens|
        invariant forall j :: 0 <= j < k ==> '@' !in tokens[j]
      {
        var at := Find(tokens[k], '@', 0);
        if at != NPOS {
          var v := castReal(tokens[k][..at]);
          assert FirstAtToken(tokens) == Some(k) by {
            assert tokens[k][at] == '@';
          }
          if v.None? {
            return Err(BadLexicalCast);
          }
          return Ok(v.value);
        }
        k := k + 1;
      }
      return Ok(0.0);
    }
  }

  /** With the analyzer unresolved, the abbreviation is "Unknown", provided Unknown is not filed under ion trap. */
  lemma UnknownAnalyzerAbbreviation(info: SpectrumInfo, isA: (CVID, CVID) -> bool)
    requires info.massAnalyzerType == Unknown && !isA(Unknown, IonTrap)
    ensures info.MassAnalyzerTypeAbbreviation(isA) == "Unknown"
  {
  }
}
