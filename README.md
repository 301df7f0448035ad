# Four pieces of ProteoWizard and Skyline, modelled in Dafny

This project models four self-contained pieces of the ProteoWizard / Skyline
code base and proves properties about them.

- **Spectrum summary** (`MsData`, `spectrum_info.dfy`). `SpectrumInfo` is a
  record of a mass spectrum's identity, scan fields, precursors and peaks.
  `update` copies a spectrum's identity and derives the scan number from the
  native id (0 when it is not an int). It reads scan-level and
  spectrum-level controlled-vocabulary values and appends one precursor
  summary per source precursor. It fills the Thermo monoisotopic m/z and the
  peak list only when their sources are present. `clearBinaryData` empties
  the peaks. `massAnalyzerTypeAbbreviation` names the analyzer by precedence.
  `mzFromFilterString` casts the text before the `@` of the first filter
  word that has one.
- **Delimited-text reader** (`TabReading`, `tab_reader.dfy`). `getFields`
  splits a line into fields with `std::string::find`, including the size_t
  wrap of `npos + 1`. It is proved equal to a declarative definition:
  - the first field runs up to the first delimiter at index 1 or later;
  - then come the maximal runs of non-delimiters.

  `process` drops the first line, skips comment lines and hands every other
  line and its fields to the handler. `DefaultTabHandler` keeps the records
  and looks up headers.
- **Crosslinked fragment ions** (`Crosslinking`, `complex_fragment_ion.dfy`).
  `ComplexFragmentIon` is an immutable tree. `AddChild` refuses a second
  child on an orphan and keeps the children sorted by modification site. The
  model also covers:
  - the recursive fragmentation-event count;
  - `IncludesAaIndex`;
  - the neutral and crosslink formulas, which are zero, one or an error
    depending on how many children sit at a site;
  - `GetName`.
- **Ion-mobility library entities** (`IonMobility`,
  `db_precursor_and_ion_mobility.dfy`). The three NHibernate entities are
  `DbMolecule`, `DbPrecursorIon` and `DbPrecursorAndIonMobility`. The model
  covers:
  - their constructors and copy constructors;
  - the zero-as-null `*Nullable` properties;
  - `EqualsIgnoreId`;
  - the peptide / small-molecule split of `DbMolecule` and `IsEmpty`;
  - the three-way `PrecursorAdduct` setter.

Shared modules:

- `Text` (`text.dfy`) models:
  - `std::string::find` and `find_first_not_of` with `npos`;
  - word splitting as an istream performs it;
  - `boost::lexical_cast<int>`;
  - .NET `int.TryParse`.
- `Chemistry` (`chemistry.dfy`) holds adducts and formulas as opaque values.
- `Wrappers` (`wrappers.dfy`) holds `Option` and `Result`.

Code that changes state in place is written as classes with `modifies`
clauses. This covers `SpectrumInfo`, `TabReader`, `DefaultTabHandler` and the
three ion-mobility entities. Each class method is proved against a pure
function of the old state. Code that is pure in the source is functions and
lemmas: the fragment-ion tree, the field splitting and the filter-string
parse. The loops of `getFields`, `process`, `GetName` and `GetNeutralFormula`
are methods proved equal to those functions.

Collaborators outside these files are parameters:

- the PSI-MS ontology and `cvParam` lookups;
- `lexical_cast<double>`;
- `Transition.Ordinal` and the fragment-formula calculator;
- `SmallMoleculeLibraryAttributes.Create` and the `Adduct` parsers.

### Where the documentation and the code differ

The model follows the code in both cases below.

- **`update` and idempotence.** The design notes call `update` idempotent.
  The code appends to `precursors` and never clears it
  (`pwiz/data/msdata/SpectrumInfo.cpp:99-110`). `MsData.UpdateTwiceIffNoPrecursors`
  proves that a second `update` changes nothing exactly when the spectrum
  has no precursors.
- **Malformed filter strings.** The design notes say a malformed filter
  string yields 0. The code lets `lexical_cast<double>` throw
  (`pwiz/data/msdata/SpectrumInfo.cpp:148`), so `FilterStringMz` returns
  `Err(BadLexicalCast)` there. It returns 0 only when no word has an `@`.

## Model

| member | source | states |
|---|---|---|
| MsData.NativeIdToScanNumber | pwiz/data/msdata/SpectrumInfo.cpp:57-67 | the scan number is the int lexical_cast reads from the whole native id, and 0 when the cast fails; it is always an int |
| MsData.ScanNumberExamples | pwiz/data/msdata/SpectrumInfo.cpp:57-67 | "4231" gives 4231, "-17" gives -17, "scan=4231" and " 4231" give 0 |
| MsData.ScanNumberRoundTrip | pwiz/data/msdata/SpectrumInfo.cpp:57-67 | every int written in decimal is read back as itself |
| MsData.SpectrumInfo.constructor | pwiz/data/msdata/SpectrumInfo.cpp:40-44 | a new record holds the sentinel defaults (index npos, analyzer Unknown, zeros, empty lists) |
| MsData.SpectrumInfo.FromSpectrum | pwiz/data/msdata/SpectrumInfo.cpp:47-53 | constructing from a spectrum is update applied to the default record |
| MsData.FromSpectrumFields | pwiz/data/msdata/SpectrumInfo.cpp:47-53 | a record built from a spectrum holds exactly that spectrum's precursor summaries, and 0 / no peaks when those sources are missing |
| MsData.SpectrumInfo.Update | pwiz/data/msdata/SpectrumInfo.cpp:71-114 | the new record is Updated(old record, spectrum): the six stages in source order |
| MsData.Updated | pwiz/data/msdata/SpectrumInfo.cpp:71-114 | the record update leaves: the six stages below applied in source order, each reading only its own part of the spectrum |
| MsData.WithIdentity | pwiz/data/msdata/SpectrumInfo.cpp:75-78 | id, native id and index copied from the spectrum, the scan number derived from the native id; every other field kept |
| MsData.WithScan | pwiz/data/msdata/SpectrumInfo.cpp:80-88 | analyzer type, preset scan configuration, MS level, retention time in seconds and filter string replaced; every other field kept |
| MsData.AnalyzerTypeOf | pwiz/data/msdata/SpectrumInfo.cpp:80-83 | the mass-analyzer-type child of the first analyzer of the instrument configuration, Unknown when there is none |
| MsData.WithDescription | pwiz/data/msdata/SpectrumInfo.cpp:89-93 | low and high m/z, base peak m/z and intensity, total ion current replaced from the description; every other field kept |
| MsData.WithThermo | pwiz/data/msdata/SpectrumInfo.cpp:95-97 | the Thermo monoisotopic m/z replaced only when the user parameter has a non-empty name |
| MsData.WithPrecursors | pwiz/data/msdata/SpectrumInfo.cpp:99-110 | the old precursor list followed by one summary per precursor |
| MsData.PrecursorInfoOf | pwiz/data/msdata/SpectrumInfo.cpp:101-109 | index 0; the empty summary without selected ions; otherwise m/z, charge and intensity of the first selected ion |
| MsData.WithPeaks | pwiz/data/msdata/SpectrumInfo.cpp:112-113 | the peaks replaced only when the spectrum has binary data arrays |
| MsData.SpectrumInfo.CopyIdentity | pwiz/data/msdata/SpectrumInfo.cpp:75-78 | id, native id and index are copied and the scan number derived; nothing else changes |
| MsData.SpectrumInfo.ReadScan | pwiz/data/msdata/SpectrumInfo.cpp:80-88 | analyzer type (Unknown without an instrument configuration), scan event, MS level, retention time in seconds and filter string come from the scan; nothing else changes |
| MsData.SpectrumInfo.ReadDescription | pwiz/data/msdata/SpectrumInfo.cpp:89-93 | the five spectrum-level values come from the description's CV parameters; nothing else changes |
| MsData.SpectrumInfo.ReadThermoMonoisotopicMz | pwiz/data/msdata/SpectrumInfo.cpp:95-97 | the Thermo monoisotopic m/z is set only when the user parameter exists |
| MsData.SpectrumInfo.AppendPrecursors | pwiz/data/msdata/SpectrumInfo.cpp:99-110 | the precursor list becomes the old list followed by one summary per source precursor |
| MsData.PrecursorInfos | pwiz/data/msdata/SpectrumInfo.cpp:99-110 | one summary per precursor, in order, each the summary of that precursor |
| MsData.UpdateCopiesIdentity | pwiz/data/msdata/SpectrumInfo.cpp:75-78 | after update the identity fields are the spectrum's and the scan number is derived from its native id |
| MsData.NoInstrumentConfigurationMeansUnknown | pwiz/data/msdata/SpectrumInfo.cpp:80-83 | without an instrument configuration the analyzer type is Unknown |
| MsData.UpdateAppendsPrecursors | pwiz/data/msdata/SpectrumInfo.cpp:99-110 | update keeps the old precursors as a prefix and appends one summary per precursor: index 0, the empty summary when it has no selected ion, else m/z, charge and intensity of the first selected ion |
| MsData.OnlyFirstSelectedIonCounts | pwiz/data/msdata/SpectrumInfo.cpp:103-108 | selected ions after the first do not affect a precursor's summary |
| MsData.UpdateKeepsWhatIsMissing | pwiz/data/msdata/SpectrumInfo.cpp:95-113 | a missing Thermo user parameter leaves thermoMonoisotopicMZ as it was; no binary arrays leaves the peaks as they were |
| MsData.UpdateForgetsTheRest | pwiz/data/msdata/SpectrumInfo.cpp:71-114 | the result of update depends on the old record only through precursors, thermoMonoisotopicMZ and data |
| MsData.UpdateTwiceIffNoPrecursors | pwiz/data/msdata/SpectrumInfo.cpp:99-110 | updating twice with the same spectrum equals updating once exactly when the spectrum has no precursors |
| MsData.SpectrumInfo.ClearBinaryData | pwiz/data/msdata/SpectrumInfo.cpp:117-121 | the peak list is emptied and every other field kept |
| MsData.SpectrumInfo.MassAnalyzerTypeAbbreviation | pwiz/data/msdata/SpectrumInfo.cpp:124-136 | "IonTrap" iff the analyzer is an ion trap; else "FT" iff FT-ICR; else "Orbitrap" iff orbitrap; otherwise "Unknown" |
| MsData.UnknownAnalyzerAbbreviation | pwiz/data/msdata/SpectrumInfo.cpp:124-136 | an Unknown analyzer that is not an ion trap is abbreviated "Unknown" |
| MsData.FirstAtToken | pwiz/data/msdata/SpectrumInfo.cpp:144-149 | the index of the first word containing '@', with no earlier word containing it; None when no word does |
| MsData.FirstAtTokenOfPrefix | pwiz/data/msdata/SpectrumInfo.cpp:144-149 | words after the first '@' word do not change which word is found |
| MsData.FirstAtTokenAfter | pwiz/data/msdata/SpectrumInfo.cpp:144-149 | when the first words have no '@', the search continues in the later ones |
| MsData.SpectrumInfo.MzFromFilterString | pwiz/data/msdata/SpectrumInfo.cpp:138-152 | the method's word loop returns FilterStringMz of the filter string |
| MsData.FilterStringMz | pwiz/data/msdata/SpectrumInfo.cpp:138-152 | 0 when no word of the filter string holds '@'; otherwise the cast of the text before '@' in the first word that does, a failed cast being an error |
| MsData.CastBeforeAt | pwiz/data/msdata/SpectrumInfo.cpp:146-148 | lexical_cast<double> of the word up to its first '@', bad_lexical_cast when the cast fails |
| MsData.LaterWordsIgnored | pwiz/data/msdata/SpectrumInfo.cpp:144-149 | once a word with '@' has been read, whatever follows it does not change the result |
| MsData.NoAtGivesZero | pwiz/data/msdata/SpectrumInfo.cpp:146-151 | a filter string without '@' gives 0 |
| MsData.FirstWordWithAtDecides | pwiz/data/msdata/SpectrumInfo.cpp:140-148 | the result is the cast of the text before '@' in the first word containing it, a cast failure included |
| MsData.ExamplePrecursorWordCast | pwiz/data/msdata/SpectrumInfo.cpp:146-148 | in "810.4132@hcd27.00" the text cast is "810.4132" |
| MsData.FilterStringExample | pwiz/data/msdata/SpectrumInfo.cpp:138-152 | "FTMS + p NSI Full ms2 810.4132@hcd27.00" gives the cast of "810.4132" |
| MsData.EmptyFilterStringExample | pwiz/data/msdata/SpectrumInfo.cpp:138-152 | an empty filter string gives 0 |
| Text.Tokens | pwiz/data/msdata/SpectrumInfo.cpp:140-142 | the words an istream reads: non-empty, separator-free substrings of the input |
| Text.TokensAreSubstrings | pwiz/data/msdata/SpectrumInfo.cpp:140-142 | every character of every word comes from the input |
| Text.TokensSplit | pwiz/data/msdata/SpectrumInfo.cpp:140-142 | a separator splits the words of a text into the words before it and the words after it |
| Text.TokensOfJoin | pwiz/data/msdata/SpectrumInfo.cpp:140-142 | separator-free words joined by one separator are read back as the same words |
| Text.LexicalCastInt | pwiz/data/msdata/SpectrumInfo.cpp:61 | lexical_cast<int> succeeds exactly on an optionally signed run of digits whose value fits an int, and yields that value |
| Text.LexicalCastSignedDecimal | pwiz/data/msdata/SpectrumInfo.cpp:61 | every int written in decimal casts back to itself |
| Text.SizeSucc | pwiz/utility/misc/TabReader.cpp:273 | f_pos+1 in size_t: one more, except that npos wraps to 0 |
| Text.Find | pwiz/utility/misc/TabReader.cpp:273 | std::string::find: the first index at or after pos holding the character, or npos when there is none |
| Text.FindFirstNotOf | pwiz/utility/misc/TabReader.cpp:284 | std::string::find_first_not_of: the first index at or after pos not holding the character, or npos |
| TabReading.FieldsOf | pwiz/utility/misc/TabReader.cpp:264-290 | no field for lines shorter than 2; otherwise a non-empty prefix first field with no delimiter after index 0, then non-empty delimiter-free fields |
| TabReading.TabReader.GetFields | pwiz/utility/misc/TabReader.cpp:264-290 | the index-walking loop appends exactly FieldsOf(line) to the caller's fields, and reports success iff it appended one |
| TabReading.NextField | pwiz/utility/misc/TabReader.cpp:269-284 | one loop step cuts off exactly the next field of the declarative split, whatever find returned |
| TabReading.NoFieldLeft | pwiz/utility/misc/TabReader.cpp:284 | when find_first_not_of finds nothing, no field is left |
| TabReading.FirstField | pwiz/utility/misc/TabReader.cpp:273-282 | the first field ends at the first delimiter at index 1 or later, and the rest is split into maximal runs |
| TabReading.FieldsOfFieldThenRest | pwiz/utility/misc/TabReader.cpp:273-284 | a first field followed by a delimiter gives that field, then the runs of the rest |
| TabReading.FieldsOfJoin | pwiz/utility/misc/TabReader.cpp:264-290 | fields joined by one delimiter are split back into the same fields |
| TabReading.FieldsOfDoubleDelimiter | pwiz/utility/misc/TabReader.cpp:269-284 | two delimiters in a row after a non-empty start split like one |
| TabReading.FieldsOfLeadingDelimiter | pwiz/utility/misc/TabReader.cpp:273 | a leading delimiter stays in the first field |
| TabReading.FieldsOfTrailingDelimiter | pwiz/utility/misc/TabReader.cpp:269-275 | a trailing delimiter adds no field |
| TabReading.FieldsExamples | pwiz/utility/misc/TabReader.cpp:264-290 | "C\t\tD" gives C, D; "\tA" gives "\tA"; "A\t" gives A; "A" and "" give nothing |
| TabReading.TwoFieldExamples | pwiz/utility/misc/TabReader.cpp:264-290 | "A\tB" gives A, B and "E\tF" gives E, F |
| TabReading.TabReader.DispatchLine | pwiz/utility/misc/TabReader.cpp:240-248 | a comment line changes nothing; any other line adds updateLine then updateRecord with its fields |
| TabReading.TabReader.DispatchLines | pwiz/utility/misc/TabReader.cpp:238-250 | the loop over the body adds exactly Records(body) to the handler and LineCalls(body) to its calls |
| TabReading.DispatchStep | pwiz/utility/misc/TabReader.cpp:240-248 | one more line adds nothing when it is a comment, and its fields and the two calls otherwise |
| TabReading.ExtendDispatch | pwiz/utility/misc/TabReader.cpp:238-250 | the records and calls so far stay equal to those of the lines read so far after one more line |
| TabReading.RecordsGrowUnlessComment | pwiz/utility/misc/TabReader.cpp:240-248 | the records are unchanged by one more line exactly when that line is a comment |
| TabReading.RecordsAreUpdateRecordCalls | pwiz/utility/misc/TabReader.cpp:244-247 | the handler sees exactly two calls per record, updateLine then updateRecord with that record |
| TabReading.RecordsAroundComment | pwiz/utility/misc/TabReader.cpp:238-250 | a comment between three data lines drops out of the records |
| TabReading.ExampleRecords | pwiz/utility/misc/TabReader.cpp:238-250 | the lines "A\tB", "C\t\tD", "#comment", "E\tF" give the records [A,B], [C,D], [E,F] |
| TabReading.TabReader.Process | pwiz/utility/misc/TabReader.cpp:217-257 | a null file name or handler throws; otherwise it returns false, drops the first line and dispatches the rest, and open and close wrap the calls when the file opens |
| TabReading.Records | pwiz/utility/misc/TabReader.cpp:238-250 | the fields of every line that is not a comment, in line order |
| TabReading.LineCalls | pwiz/utility/misc/TabReader.cpp:238-250 | updateLine then updateRecord with its fields, for every line that is not a comment, in line order |
| TabReading.ProcessCalls | pwiz/utility/misc/TabReader.cpp:217-257 | close alone when the file does not open; otherwise open, the calls of every line after the first, and close |
| TabReading.ProcessExample | pwiz/utility/misc/TabReader.cpp:217-257 | any header line followed by the four example lines gives the three example records |
| TabReading.DefaultTabHandler.constructor | pwiz/utility/misc/TabReader.cpp:43-46 | a new handler keeps its two arguments and has no headers and no records |
| TabReading.DefaultTabHandler.GetHeaders | pwiz/utility/misc/TabReader.cpp:81-84 | returns need_headers |
| TabReading.DefaultTabHandler.UseComment | pwiz/utility/misc/TabReader.cpp:86-89 | returns the comment character |
| TabReading.DefaultTabHandler.Open | pwiz/utility/misc/TabReader.cpp:91-94 | returns true and changes no record |
| TabReading.DefaultTabHandler.UpdateLine | pwiz/utility/misc/TabReader.cpp:96-99 | returns true and changes no record |
| TabReading.DefaultTabHandler.UpdateRecord | pwiz/utility/misc/TabReader.cpp:101-105 | appends the fields as a record and returns true |
| TabReading.DefaultTabHandler.Close | pwiz/utility/misc/TabReader.cpp:140-143 | returns true and changes no record |
| TabReading.DefaultTabHandler.GetHeader | pwiz/utility/misc/TabReader.cpp:107-126 | the index of the first header equal to the name; runtime_error("blah") iff there is none |
| TabReading.DefaultTabHandler.GetHeaderAt | pwiz/utility/misc/TabReader.cpp:128-138 | as written: never returns a name (out_of_range when the index is past the end, runtime_error otherwise) |
| TabReading.DefaultTabHandler.GetHeaderAtIntended | pwiz/utility/misc/TabReader.cpp:128-138 | corrected: the header at the index exactly when the index is in range |
| TabReading.GetHeaderAtDiscrepancy | pwiz/utility/misc/TabReader.cpp:128-138 | with headers ["scan"], index 0 throws as written and gives "scan" as intended |
| TabReading.At | pwiz/utility/misc/TabReader.cpp:133 | vector::at: the element when the index is in range, out_of_range otherwise |
| TabReading.TabReader.constructor | pwiz/utility/misc/TabReader.cpp:166-170 | comment '#', delimiter tab and a fresh default handler |
| TabReading.TabReader.SetHandler | pwiz/utility/misc/TabReader.cpp:297-300 | the public setHandler replaces the handler only |
| TabReading.TabReader.SetHandlerAndComment | pwiz/utility/misc/TabReader.cpp:192-196 | the inner setHandler also takes the handler's comment character |
| TabReading.PublicSetHandlerKeepsComment | pwiz/utility/misc/TabReader.cpp:297-300 | after the public setHandler the reader still uses '#', whatever the handler's comment character |
| TabReading.TabReader.GetHandler | pwiz/utility/misc/TabReader.cpp:302-305 | returns the current handler |
| TabReading.IsCommentLine | pwiz/utility/misc/TabReader.cpp:259-262 | a line is a comment exactly when it is non-empty and starts with the comment character |
| TabReading.TabReader.IsComment | pwiz/utility/misc/TabReader.cpp:259-262 | isComment uses the reader's current comment character |
| Crosslinking.NewComplexFragmentIon | pwiz_tools/Skyline/Model/Crosslinking/ComplexFragmentIon.cs:18-24 | a new ion has the given transition, losses and orphan flag and no children |
| Crosslinking.NewOrphanFragmentIon | pwiz_tools/Skyline/Model/Crosslinking/ComplexFragmentIon.cs:26-31 | an orphan is a childless precursor ion of the group, at offset length-1, mass index 0, with the group's adduct and no losses |
| Crosslinking.NewIonsAreEmpty | pwiz_tools/Skyline/Model/Crosslinking/ComplexFragmentIon.cs:37-40 | a new orphan is an empty orphan; a new ion is an empty orphan iff it is an orphan |
| Crosslinking.IsEmptyOrphan | pwiz_tools/Skyline/Model/Crosslinking/ComplexFragmentIon.cs:37-40 | an orphan with no children |
| Crosslinking.SiteOrder | pwiz_tools/Skyline/Model/Crosslinking/ComplexFragmentIon.cs:44 | the order children are kept in is total, transitive and antisymmetric |
| Crosslinking.InsertBySite | pwiz_tools/Skyline/Model/Crosslinking/ComplexFragmentIon.cs:63-66 | inserting adds exactly the new entry |
| Crosslinking.InsertKeepsSorted | pwiz_tools/Skyline/Model/Crosslinking/ComplexFragmentIon.cs:63-66 | inserting into a sorted list keeps it sorted |
| Crosslinking.SortBySite | pwiz_tools/Skyline/Model/Crosslinking/ComplexFragmentIon.cs:53 | sorting keeps exactly the given entries |
| Crosslinking.SortBySiteSorts | pwiz_tools/Skyline/Model/Crosslinking/ComplexFragmentIon.cs:63-66 | the sorted list is sorted by site and a permutation of the input |
| Crosslinking.SortSortedIsIdentity | pwiz_tools/Skyline/Model/Crosslinking/ComplexFragmentIon.cs:63-66 | sorting an already sorted list changes nothing |
| Crosslinking.ChangeChildren | pwiz_tools/Skyline/Model/Crosslinking/ComplexFragmentIon.cs:51-54 | the copy's children are the given entries, sorted by site; the rest of the ion is kept |
| Crosslinking.AddChild | pwiz_tools/Skyline/Model/Crosslinking/ComplexFragmentIon.cs:56-68 | fails with InvalidOperation iff the ion is an orphan that already has a child; otherwise a copy whose children are the old ones plus the new entry, sorted |
| Crosslinking.AddChildSorts | pwiz_tools/Skyline/Model/Crosslinking/ComplexFragmentIon.cs:63-66 | after AddChild the children are sorted, are the old ones plus the new entry, and the rest of the ion is unchanged |
| Crosslinking.AddChildInserts | pwiz_tools/Skyline/Model/Crosslinking/ComplexFragmentIon.cs:63-66 | on sorted children AddChild inserts the entry after every entry at a site not after its own |
| Crosslinking.OrphanTakesOneChild | pwiz_tools/Skyline/Model/Crosslinking/ComplexFragmentIon.cs:58-61 | an orphan accepts a first child and refuses a second |
| Crosslinking.ChildrenAtSite | pwiz_tools/Skyline/Model/Crosslinking/ComplexFragmentIon.cs:169-172 | an ion is returned iff some child entry pairs it with that site, never more ions than entries |
| Crosslinking.ChildrenAtSiteCounts | pwiz_tools/Skyline/Model/Crosslinking/ComplexFragmentIon.cs:169-172 | each ion is returned exactly as many times as there are entries pairing it with the site |
| Crosslinking.ChildrenAtSiteOfJoin | pwiz_tools/Skyline/Model/Crosslinking/ComplexFragmentIon.cs:169-172 | list order is kept: the ions at a site of two lists joined are those of the first followed by those of the second |
| Crosslinking.ChildrenAtSiteOfOne | pwiz_tools/Skyline/Model/Crosslinking/ComplexFragmentIon.cs:169-172 | one entry gives its ion when it is at the site and nothing otherwise |
| Crosslinking.ChildrenAtSiteStep | pwiz_tools/Skyline/Model/Crosslinking/ComplexFragmentIon.cs:169-172 | the first entry contributes its ion in front exactly when it is at the site |
| Crosslinking.NoEntryAtSite | pwiz_tools/Skyline/Model/Crosslinking/ComplexFragmentIon.cs:169-172 | no entry at the site gives no ion |
| Crosslinking.EntryAtSite | pwiz_tools/Skyline/Model/Crosslinking/ComplexFragmentIon.cs:169-172 | an entry at the site gives at least one ion |
| Crosslinking.OneEntryAtSite | pwiz_tools/Skyline/Model/Crosslinking/ComplexFragmentIon.cs:169-172 | exactly one entry at the site gives exactly its ion |
| Crosslinking.TwoEntriesAtSite | pwiz_tools/Skyline/Model/Crosslinking/ComplexFragmentIon.cs:169-172 | two entries at the same site give at least two ions |
| Crosslinking.ChildrenAtSiteAreSmaller | pwiz_tools/Skyline/Model/Crosslinking/ComplexFragmentIon.cs:169-172 | the children at a site are sub-trees of the ion |
| Crosslinking.EventCount | pwiz_tools/Skyline/Model/Crosslinking/ComplexFragmentIon.cs:70-84 | the count is at least the ion's own events (cleavage unless orphan or precursor, plus losses) |
| Crosslinking.OwnEvents | pwiz_tools/Skyline/Model/Crosslinking/ComplexFragmentIon.cs:70-84 | one cleavage event unless the ion is an orphan or a precursor ion, plus one per neutral loss |
| Crosslinking.EventCountOfChildren | pwiz_tools/Skyline/Model/Crosslinking/ComplexFragmentIon.cs:70-84 | the count is the own events plus the sum of the children's counts |
| Crosslinking.InsertAddsCount | pwiz_tools/Skyline/Model/Crosslinking/ComplexFragmentIon.cs:82 | inserting an entry adds its count to the sum |
| Crosslinking.SortKeepsCount | pwiz_tools/Skyline/Model/Crosslinking/ComplexFragmentIon.cs:82 | sorting the children does not change the sum of their counts |
| Crosslinking.AddChildAddsEvents | pwiz_tools/Skyline/Model/Crosslinking/ComplexFragmentIon.cs:56-84 | adding a child adds exactly the child's count |
| Crosslinking.EventCountOfNewOrphan | pwiz_tools/Skyline/Model/Crosslinking/ComplexFragmentIon.cs:70-84 | a new orphan has no fragmentation events |
| Crosslinking.IncludesAaIndex | pwiz_tools/Skyline/Model/Crosslinking/ComplexFragmentIon.cs:86-103 | a, b, c ions include residues up to the cleavage offset; x, y, z ions include those after it; precursor and other ions include every residue |
| Crosslinking.ComplementaryFragments | pwiz_tools/Skyline/Model/Crosslinking/ComplexFragmentIon.cs:86-103 | an N-terminal and a C-terminal ion cleaved at the same offset include complementary residues |
| Crosslinking.SimpleFragmentFormula | pwiz_tools/Skyline/Model/Crosslinking/ComplexFragmentIon.cs:122-137 | an orphan's simple formula is empty; otherwise it is the fragment formula of its transition and losses |
| Crosslinking.CrosslinkFormulaCases | pwiz_tools/Skyline/Model/Crosslinking/ComplexFragmentIon.cs:141-162 | no child at the site gives the empty formula, more than one gives ArgumentException, one child gives the child's neutral formula (a missing linked peptide a null dereference) |
| Crosslinking.CrosslinkFormulaByEntries | pwiz_tools/Skyline/Model/Crosslinking/ComplexFragmentIon.cs:141-172 | over the children list itself: no entry at the site gives the empty formula, two entries give ArgumentException, exactly one gives the neutral formula of its ion with the linked peptide's modifications |
| Crosslinking.CrosslinkFormula | pwiz_tools/Skyline/Model/Crosslinking/ComplexFragmentIon.cs:141-162 | by the number of ions at the site: 0 gives the empty formula, more than 1 ArgumentException, one with no linked peptide a null dereference, else the child's neutral formula plus the empty one |
| Crosslinking.NeutralFormula | pwiz_tools/Skyline/Model/Crosslinking/ComplexFragmentIon.cs:105-120 | the simple fragment formula, plus the crosslink formula of every static modification with a linked peptide, in order; null modifications add nothing |
| Crosslinking.LinkedFormulas | pwiz_tools/Skyline/Model/Crosslinking/ComplexFragmentIon.cs:108-117 | the loop over static modifications: skip those without a linked peptide, add the crosslink formula of the others, stop at the first error |
| Crosslinking.UnlinkedModsAddNothing | pwiz_tools/Skyline/Model/Crosslinking/ComplexFragmentIon.cs:108-117 | modifications without a linked peptide add nothing to the formula |
| Crosslinking.OrphanFormulaIsEmpty | pwiz_tools/Skyline/Model/Crosslinking/ComplexFragmentIon.cs:105-137 | an orphan without linked modifications has the empty neutral formula |
| Crosslinking.GetNeutralFormula | pwiz_tools/Skyline/Model/Crosslinking/ComplexFragmentIon.cs:105-120 | the loop over the static modifications returns NeutralFormula |
| Crosslinking.GetCrosslinkFormula | pwiz_tools/Skyline/Model/Crosslinking/ComplexFragmentIon.cs:141-162 | the method returns CrosslinkFormula |
| Crosslinking.AddChildName | pwiz_tools/Skyline/Model/Crosslinking/ComplexFragmentIon.cs:249 | a name with one more child appended and the rest kept |
| Crosslinking.AddLossName | pwiz_tools/Skyline/Model/Crosslinking/ComplexFragmentIon.cs:256 | a name with one more loss appended and the rest kept |
| Crosslinking.LossTexts | pwiz_tools/Skyline/Model/Crosslinking/ComplexFragmentIon.cs:252-258 | the loss texts in order, none when there are no losses |
| Crosslinking.NameOf | pwiz_tools/Skyline/Model/Crosslinking/ComplexFragmentIon.cs:235-261 | the name is the orphan name iff the ion is an orphan, has one entry per child at that child's site, and lists the losses in order |
| Crosslinking.HeadOf | pwiz_tools/Skyline/Model/Crosslinking/ComplexFragmentIon.cs:238-245 | ORPHAN for an orphan, otherwise the ion type and ordinal of the transition |
| Crosslinking.ChildNames | pwiz_tools/Skyline/Model/Crosslinking/ComplexFragmentIon.cs:247-250 | each child entry is named by its site and the child's own name |
| Crosslinking.NameOfNewOrphan | pwiz_tools/Skyline/Model/Crosslinking/ComplexFragmentIon.cs:238-241 | a new orphan is named ORPHAN |
| Crosslinking.ChildIsNamed | pwiz_tools/Skyline/Model/Crosslinking/ComplexFragmentIon.cs:247-250 | every child appears in the name |
| Crosslinking.NamedIsChild | pwiz_tools/Skyline/Model/Crosslinking/ComplexFragmentIon.cs:247-250 | every child in the name is a child of the ion |
| Crosslinking.NameOfAddChild | pwiz_tools/Skyline/Model/Crosslinking/ComplexFragmentIon.cs:235-261 | after AddChild the name keeps its head, losses and child names, and gains the new child's name |
| Crosslinking.GetName | pwiz_tools/Skyline/Model/Crosslinking/ComplexFragmentIon.cs:235-261 | the loops over children and losses build NameOf |
| Chemistry.Plus | pwiz_tools/Skyline/Model/Crosslinking/ComplexFragmentIon.cs:114 | combining formulas adds their atoms |
| Chemistry.PlusEmpty | pwiz_tools/Skyline/Model/Crosslinking/ComplexFragmentIon.cs:153-160 | the empty formula is the unit of Plus |
| IonMobility.ZeroAsNull | pwiz_tools/Skyline/Model/IonMobility/DbPrecursorAndIonMobility.cs:77-96 | a nullable getter reads null exactly when the stored value is 0, and the stored value otherwise |
| IonMobility.NullAsZero | pwiz_tools/Skyline/Model/IonMobility/DbPrecursorAndIonMobility.cs:57-65 | `?? 0`: null is stored as 0, any value as itself |
| IonMobility.StoredValueSurvives | pwiz_tools/Skyline/Model/IonMobility/DbPrecursorAndIonMobility.cs:50-52 | any stored value passed through a nullable property is stored back unchanged |
| IonMobility.NullableRoundTrip | pwiz_tools/Skyline/Model/IonMobility/DbPrecursorAndIonMobility.cs:77-96 | setting a nullable property and reading it gives the value set, except that 0 reads as null |
| IonMobility.ZeroAndNullCollide | pwiz_tools/Skyline/Model/IonMobility/DbPrecursorAndIonMobility.cs:77-96 | 0 and null are stored alike, and 0 reads back as null |
| IonMobility.DbPrecursorAndIonMobility.CollisionalCrossSectionNullable | pwiz_tools/Skyline/Model/IonMobility/DbPrecursorAndIonMobility.cs:77-81 | the stored cross section, null when it is 0 |
| IonMobility.DbPrecursorAndIonMobility.IonMobilityNullable | pwiz_tools/Skyline/Model/IonMobility/DbPrecursorAndIonMobility.cs:84-88 | the stored ion mobility, null when it is 0 |
| IonMobility.DbPrecursorAndIonMobility.HighEnergyIonMobilityOffsetNullable | pwiz_tools/Skyline/Model/IonMobility/DbPrecursorAndIonMobility.cs:92-96 | the stored high-energy offset, null when it is 0 |
| IonMobility.DbPrecursorAndIonMobility.constructor | pwiz_tools/Skyline/Model/IonMobility/DbPrecursorAndIonMobility.cs:57-65 | each null double is stored as 0; precursor and units are kept |
| IonMobility.DbPrecursorAndIonMobility.Copy | pwiz_tools/Skyline/Model/IonMobility/DbPrecursorAndIonMobility.cs:50-55 | the copy has the same Id, shares the precursor and keeps all four values, so it equals the original ignoring Id |
| IonMobility.DbPrecursorAndIonMobility.SetCollisionalCrossSectionNullable | pwiz_tools/Skyline/Model/IonMobility/DbPrecursorAndIonMobility.cs:77-81 | null stores 0, and the property then reads the value set, 0 reading as null |
| IonMobility.DbPrecursorAndIonMobility.SetIonMobilityNullable | pwiz_tools/Skyline/Model/IonMobility/DbPrecursorAndIonMobility.cs:84-88 | null stores 0, and the property then reads the value set, 0 reading as null |
| IonMobility.DbPrecursorAndIonMobility.SetHighEnergyIonMobilityOffsetNullable | pwiz_tools/Skyline/Model/IonMobility/DbPrecursorAndIonMobility.cs:92-96 | null stores 0, and the property then reads the value set, 0 reading as null |
| IonMobility.EqualsIgnoreId | pwiz_tools/Skyline/Model/IonMobility/DbPrecursorAndIonMobility.cs:106-113 | true exactly when precursor, cross section, ion mobility, offset and units all agree |
| IonMobility.EqualsIgnoreIdReflexive | pwiz_tools/Skyline/Model/IonMobility/DbPrecursorAndIonMobility.cs:106-113 | every entity equals itself ignoring Id |
| IonMobility.MoleculeOf | pwiz_tools/Skyline/Model/IonMobility/DbPrecursorAndIonMobility.cs:174-193 | a peptide keeps its sequence with four empty strings; a small molecule gets an empty sequence and its attributes' four strings |
| IonMobility.DbMolecule.FromTarget | pwiz_tools/Skyline/Model/IonMobility/DbPrecursorAndIonMobility.cs:174-193 | a new molecule holds MoleculeOf(target) and no Id |
| IonMobility.DbMolecule.FromAttributes | pwiz_tools/Skyline/Model/IonMobility/DbPrecursorAndIonMobility.cs:170-172 | a molecule from attributes is the small-molecule target's, with an empty sequence |
| IonMobility.DbMolecule.Copy | pwiz_tools/Skyline/Model/IonMobility/DbPrecursorAndIonMobility.cs:164-168 | the copy has the same Id, is rebuilt from the other's Target, and a peptide copy reads back the same Target |
| IonMobility.TargetOf | pwiz_tools/Skyline/Model/IonMobility/DbPrecursorAndIonMobility.cs:195-203 | a peptide exactly when the sequence is neither null nor empty, and then that sequence; else the small molecule Create builds from the four strings |
| IonMobility.LibraryAttributesOf | pwiz_tools/Skyline/Model/IonMobility/DbPrecursorAndIonMobility.cs:205-213 | the created attributes when the sequence is null or empty, EMPTY otherwise |
| IonMobility.TargetAgreesWithAttributes | pwiz_tools/Skyline/Model/IonMobility/DbPrecursorAndIonMobility.cs:195-213 | Target and SmallMoleculeLibraryAttributes split on the same test, and agree on the attributes |
| IonMobility.PeptideRoundTrip | pwiz_tools/Skyline/Model/IonMobility/DbPrecursorAndIonMobility.cs:174-203 | a peptide with a non-empty sequence comes back as the same peptide |
| IonMobility.EmptyPeptideBecomesSmallMolecule | pwiz_tools/Skyline/Model/IonMobility/DbPrecursorAndIonMobility.cs:174-203 | a peptide with an empty sequence comes back as a small molecule |
| IonMobility.SmallMoleculeRoundTrip | pwiz_tools/Skyline/Model/IonMobility/DbPrecursorAndIonMobility.cs:174-213 | a small molecule comes back as the molecule Create builds from its four strings |
| IonMobility.MoleculeOfTargetIsEmpty | pwiz_tools/Skyline/Model/IonMobility/DbPrecursorAndIonMobility.cs:174-243 | a molecule from a target is empty exactly when the peptide sequence is empty, or all four attributes are null or empty |
| IonMobility.EmptyMoleculeIsSmallMolecule | pwiz_tools/Skyline/Model/IonMobility/DbPrecursorAndIonMobility.cs:195-243 | an empty molecule reads as a small-molecule target |
| IonMobility.MoleculeEqualsIgnoreId | pwiz_tools/Skyline/Model/IonMobility/DbPrecursorAndIonMobility.cs:224-231 | true exactly when the five strings agree, null matching only null |
| IonMobility.MoleculeIsEmpty | pwiz_tools/Skyline/Model/IonMobility/DbPrecursorAndIonMobility.cs:233-243 | all five strings are null or empty |
| IonMobility.EqualMoleculesAgreeOnEmptiness | pwiz_tools/Skyline/Model/IonMobility/DbPrecursorAndIonMobility.cs:224-243 | molecules equal ignoring Id are empty or not together |
| IonMobility.EmptyMoleculesCanDiffer | pwiz_tools/Skyline/Model/IonMobility/DbPrecursorAndIonMobility.cs:224-243 | an all-null and an all-empty molecule are both empty but not equal |
| IonMobility.CopiedPeptideResetsOtherStrings | pwiz_tools/Skyline/Model/IonMobility/DbPrecursorAndIonMobility.cs:164-193 | copying a peptide molecule sets its four small-molecule strings to empty, so a copy of one with null strings differs from it |
| IonMobility.ParsedAdduct | pwiz_tools/Skyline/Model/IonMobility/DbPrecursorAndIonMobility.cs:298-312 | null or empty gives the empty adduct; text int.TryParse accepts goes to the protonated parser; any other text goes to the non-proteomic parser |
| IonMobility.DbPrecursorIon.SetPrecursorAdduct | pwiz_tools/Skyline/Model/IonMobility/DbPrecursorAndIonMobility.cs:298-312 | the setter stores ParsedAdduct and changes nothing else |
| IonMobility.ChargeTextIsProtonated | pwiz_tools/Skyline/Model/IonMobility/DbPrecursorAndIonMobility.cs:304-306 | an int charge, with white space around it, goes untrimmed to the protonated parser |
| IonMobility.OversizedChargeIsNonProteomic | pwiz_tools/Skyline/Model/IonMobility/DbPrecursorAndIonMobility.cs:304-311 | a signed decimal outside the int range, with any white space around it, goes to the non-proteomic parser |
| IonMobility.NonNumericAdductIsNonProteomic | pwiz_tools/Skyline/Model/IonMobility/DbPrecursorAndIonMobility.cs:304-311 | any text holding a character other than a sign, a digit or white space goes to the non-proteomic parser |
| IonMobility.FormulaAdductIsNonProteomic | pwiz_tools/Skyline/Model/IonMobility/DbPrecursorAndIonMobility.cs:304-311 | "[M+H]" goes to the non-proteomic parser |
| Text.TryParseInt32 | pwiz_tools/Skyline/Model/IonMobility/DbPrecursorAndIonMobility.cs:304 | int.TryParse yields only ints; which texts it accepts, and with what value, is TryParseInt32OfPadded and TryParseInt32Accepted |
| Text.TryParseInt32Padded | pwiz_tools/Skyline/Model/IonMobility/DbPrecursorAndIonMobility.cs:304 | any int in decimal, with white space on either side, parses to itself |
| Text.TryParseInt32Overflow | pwiz_tools/Skyline/Model/IonMobility/DbPrecursorAndIonMobility.cs:304 | a signed decimal outside the int range does not parse, with or without white space around it |
| Text.TryParseInt32OfPadded | pwiz_tools/Skyline/Model/IonMobility/DbPrecursorAndIonMobility.cs:304 | a signed decimal with white space on either side parses exactly as lexical_cast<int> reads the decimal alone: its value when in range, nothing otherwise |
| Text.TryParseInt32Accepted | pwiz_tools/Skyline/Model/IonMobility/DbPrecursorAndIonMobility.cs:304 | conversely, every accepted text is white space, a signed decimal whose value is the result, and white space |
| Text.SignedDecimalShape | pwiz_tools/Skyline/Model/IonMobility/DbPrecursorAndIonMobility.cs:304 | a signed decimal is non-empty, made of signs and digits, with no white space at either end |
| Text.TryParseInt32Characters | pwiz_tools/Skyline/Model/IonMobility/DbPrecursorAndIonMobility.cs:304 | an accepted text holds only signs, digits and white space |
| Text.TryParseInt32Refuses | pwiz_tools/Skyline/Model/IonMobility/DbPrecursorAndIonMobility.cs:304 | a text holding any other character is refused |
| IonMobility.PrecursorEqualsIgnoreId | pwiz_tools/Skyline/Model/IonMobility/DbPrecursorAndIonMobility.cs:379-383 | true exactly when adducts are equal and molecules equal ignoring Id |
| IonMobility.PrecursorIsEmpty | pwiz_tools/Skyline/Model/IonMobility/DbPrecursorAndIonMobility.cs:314-317 | the adduct is empty and the molecule is empty |
| IonMobility.ClearedAdductLeavesMolecule | pwiz_tools/Skyline/Model/IonMobility/DbPrecursorAndIonMobility.cs:298-318 | after setting a null or empty adduct text, the precursor is empty exactly when its molecule is |
| IonMobility.DbPrecursorIon.constructor | pwiz_tools/Skyline/Model/IonMobility/DbPrecursorAndIonMobility.cs:352-357 | the molecule object is shared, the adduct kept, no Id |
| IonMobility.DbPrecursorIon.FromTarget | pwiz_tools/Skyline/Model/IonMobility/DbPrecursorAndIonMobility.cs:345-350 | a fresh molecule for the target, and the adduct |
| IonMobility.DbPrecursorIon.FromAttributes | pwiz_tools/Skyline/Model/IonMobility/DbPrecursorAndIonMobility.cs:333-337 | a fresh molecule for the small-molecule target, and the adduct |
| IonMobility.DbPrecursorIon.Copy | pwiz_tools/Skyline/Model/IonMobility/DbPrecursorAndIonMobility.cs:327-331 | same Id, same molecule object and adduct, so it equals the original ignoring Id |

## Left out

- File and stream I/O. `TabReader::process` takes the file as its lines, with None when it cannot be opened. `getcwd` and `dump`, including its stray `cout`, are not modelled.
- The `DefaultTabHandler::Impl` copy constructor is not modelled. It assigns `comment_char` to itself (`pwiz/utility/misc/TabReader.cpp:52`), so the copy's comment character is undefined.
- Handlers other than `DefaultTabHandler` are not modelled. The calls `process` makes are logged instead, which is what any handler would see.
- The PSI-MS ontology (`cvIsA`, `cvParamChild`) is a parameter. So are `cvParam(...).valueAs<T>()`, `timeInSeconds`, `getMZIntensityPairs`, `ComponentList::analyzer` and `lexical_cast<double>`.
- Floating point is not modelled: doubles are reals. For the nullable properties this hides -0.0, which C# also reads as null, and NaN, which C# `Equals` treats as equal to itself.
- `Transition.Ordinal` and the fragment-formula calculator (`ModifiedSequence`, `FragmentedMolecule`) are parameters. `MoleculeMassOffset` is kept as a multiset of atoms with `EMPTY` and `Plus`; its mass offset is not modelled.
- `GetFragmentMass`, `GetMassDistribution`, `GetMzDistribution`, `MakeTransitionDocNode`, `LabelType` and `ToString` are not modelled. They are floating-point chemistry or document-model code.
- The order of `ModificationSite` is assumed, because `ModificationSite` is not part of this model: residue index first, then the modification name by ordinal string order.
- `ImmutableSortedList.FromValues` is assumed to be a stable sort, because `ImmutableSortedList` is not part of this model.
- `ComplexFragmentIonName` is assumed to be a record that `AddChild` and `AddLoss` append to. Its other behaviour is not part of this model.
- Crosslinking.NameOf: the head of a non-orphan name is not stated in the contract. It is (ion type, ordinal) by its definition.
- `Target`, `SmallMoleculeLibraryAttributes` and `Adduct` are opaque:
  - `SmallMoleculeLibraryAttributes.Create` and the two `Adduct` parsers are parameters;
  - a small-molecule `Target` is assumed to report the attributes it was made from;
  - `Adduct.IsEmpty` is taken to mean equal to `Adduct.EMPTY`;
  - adduct equality is value equality.
- `GetHashCode`, `Equals(object)` and the NHibernate `DbEntity` base (`EntityClass`, the base `Equals` on `Id`) are not modelled. `Id` is a field that is None until saved.
- These are not modelled:
  - `DisplayUnits`, which is localisation;
  - `GetIonMobilityAndCCS`, an external factory;
  - `GetLibKey` and the `DbPrecursorIon(LibKey)` constructor, since `LibKey` is not part of this model;
  - the `PrecursorAdduct` getter, since `Adduct.AsFormulaOrSignedInt` is not part of this model.
- `GetPrecursorAdduct` and `GetTarget` are plain reads: the adduct field, and `TargetOf` of the molecule.
- `eIonMobilityUnits` is kept as its integer value.
- The argument defaults of `DefaultTabHandler`'s constructor are assumed: `need_headers` true and comment character `#` (`TabReading.DEFAULT_NEED_HEADERS`, `TabReading.DEFAULT_COMMENT_CHAR`). `TabReader.hpp`, which declares them, is not part of this model.
- The public no-argument `DbPrecursorAndIonMobility()` constructor, kept for NHibernate, is not modelled. It leaves the precursor null, whereas the model's `dbPrecursorIon` field is never null.
- Text.TryParseInt32: trailing `'\0'` characters, which .NET accepts after the number and its trailing white space, are not modelled. So "5\0" is refused here and accepted by .NET.
- Text.TryParseInt32: the sign strings are fixed to `+` and `-`. .NET takes them from the current culture's `NumberFormatInfo`.
- `SpectrumInfo`'s precursor `index` is always 0, as in the source.
- The C++/CLI Bruker PRM scheduler bindings are not modelled; they are foreign calls with no logic of their own.
- The vendor RAW reader declarations are not modelled, for the same reason.
- Topograph's `DbTracerDef` is not modelled; it is an NHibernate property bag.

## Findings

| source | as written | input that shows it | evidently intended | confidence | as-written member | corrected member |
|---|---|---|---|---|---|---|
| pwiz/utility/misc/TabReader.cpp:132 | `getHeader(size_t index)` reads the header only when `headers.size() < index`. That index is always out of range, so the call throws `out_of_range` there and `runtime_error` everywhere else. | headers ["scan"], index 0: throws instead of returning "scan" | return `headers[index]` when `index < headers.size()`, and throw otherwise | not executed | TabReading.DefaultTabHandler.GetHeaderAt | TabReading.DefaultTabHandler.GetHeaderAtIntended |
