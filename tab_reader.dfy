/**
 * The delimited-text reader: a TabReader walks the lines of a file, drops the
 * first one, skips comment lines, splits every other line into fields and
 * hands line and fields to a handler; DefaultTabHandler is the handler that
 * keeps every field list it is given as a record.
 *
 * The file is given as the sequence of lines std::getline would return
 * (None when the file cannot be opened). The handler is always a
 * DefaultTabHandler here; the calls TabReader makes on it are also recorded
 * in a ghost log, which is what any other handler would see.
 */
module TabReading {
  import opened Wrappers
  import opened Text

  /** The exceptions of this file: std::runtime_error with its message, std::out_of_range from vector::at. */
  datatype TabError = RuntimeError(message: string) | OutOfRange

  /** A call TabReader::process makes on its handler. */
  datatype HandlerCall = Open | UpdateLine(line: string) | UpdateRecord(fields: seq<string>) | Close

  /**
   * Assumed argument defaults of DefaultTabHandler's constructor, used when
   * TabReader builds its own handler; the header declaring them is not part
   * of this model.
   */
  const DEFAULT_NEED_HEADERS := true
  const DEFAULT_COMMENT_CHAR := '#'

  // ---------------------------------------------------------------------------
  // What the reader produces, stated on values

  /**
   * The fields getFields splits a line into: nothing for a line shorter than
   * two characters; otherwise a first field running from index 0 up to the
   * first delimiter at index 1 or later, then every maximal run of
   * non-delimiters after it. Runs of delimiters separate like one delimiter,
   * a leading delimiter belongs to the first field and trailing delimiters
   * give no field.
   */
  function FieldsOf(line: string, delim: char): (fields: seq<string>)
    ensures |line| <= 1 ==> fields == []
    ensures |line| >= 2 ==> fields != [] && 1 <= |fields[0]| <= |line| && line[..|fields[0]|] == fields[0]
    ensures |line| >= 2 ==> Free(fields[0][1..], {delim})
    ensures forall k :: 0 <= k < |fields| ==> fields[k] != []
    ensures forall k :: 1 <= k < |fields| ==> Free(fields[k], {delim})
  {
    if |line| <= 1 then []
    else
      var e := 1 + RunLength(line[1..], {delim});
      assert line[..e][1..] == line[1..][..e - 1];
      [line[..e]] + Tokens(line[e..], {delim})
  }

  predicate IsCommentLine(line: string, commentChar: char)
  {
    |line| > 0 && line[0] == commentChar
  }

  /** The records the lines after the first give: one per non-comment line, in order. */
  function Records(lines: seq<string>, commentChar: char, delim: char): seq<seq<string>>
  {
    if lines == [] then []
    else
      var last := lines[|lines| - 1];
      Records(lines[..|lines| - 1], commentChar, delim)
      + (if IsCommentLine(last, commentChar) then [] else [FieldsOf(last, delim)])
  }

  /** The handler calls the non-comment lines give rise to: UpdateLine then UpdateRecord for each. */
  function LineCalls(lines: seq<string>, commentChar: char, delim: char): seq<HandlerCall>
  {
    if lines == [] then []
    else
      var last := lines[|lines| - 1];
      LineCalls(lines[..|lines| - 1], commentChar, delim)
      + (if IsCommentLine(last, commentChar) then [] else [UpdateLine(last), UpdateRecord(FieldsOf(last, delim))])
  }

  /** The lines process looks at: all but the first. */
  function Body(lines: seq<string>): seq<string>
  {
    if lines == [] then [] else lines[1..]
  }

  function ProcessedRecords(file: Option<seq<string>>, commentChar: char, delim: char): seq<seq<string>>
  {
    if file.None? then [] else Records(Body(file.value), commentChar, delim)
  }

  /** Everything process says to its handler: open, the line calls and close if the file opens, close alone if not. */
  function ProcessCalls(file: Option<seq<string>>, commentChar: char, delim: char): seq<HandlerCall>
  {
    if file.None? then [Close]
    else [Open] + LineCalls(Body(file.value), commentChar, delim) + [Close]
  }

  // ---------------------------------------------------------------------------
  // Properties of the field splitting

  /** The first field ends at l when no delimiter sits in line[1..l] and a delimiter (or the end) sits at l. */
  lemma FirstField(line: string, delim: char, l: nat)
    requires |line| >= 2 && 1 <= l <= |line|
    requires Free(line[1..l], {delim})
    requires l < |line| ==> line[l] == delim
    ensures FieldsOf(line, delim) == [line[..l]] + Tokens(line[l..], {delim})
  {
    assert line[1..][..l - 1] == line[1..l];
    RunLengthIs(line[1..], {delim}, l - 1);
  }

  /** A first field followed by the delimiter: the rest of the line is read as delimiter-free runs. */
  lemma {:induction false} FieldsOfFieldThenRest(line: string, w: string, delim: char, rest: string)
    requires line == w + [delim] + rest
    requires w != [] && Free(w[1..], {delim})
    ensures FieldsOf(line, delim) == [w] + Tokens(rest, {delim})
  {
    assert line[1..|w|] == w[1..];
    FirstField(line, delim, |w|);
    assert line[..|w|] == w;
    var tail := line[|w|..];
    assert tail == [delim] + rest;
    assert tail[0] == delim && tail[1..] == rest;
  }

  /** Splitting undoes joining with the delimiter, for non-empty delimiter-free words making at least two characters. */
  lemma {:induction false} FieldsOfJoin(ws: seq<string>, delim: char)
    requires forall k :: 0 <= k < |ws| ==> ws[k] != [] && Free(ws[k], {delim})
    requires |Join(ws, delim)| >= 2
    ensures FieldsOf(Join(ws, delim), delim) == ws
  {
    var w := ws[0];
    assert Free(w[1..], {delim}) by {
      assert forall i | 0 <= i < |w[1..]| :: w[1..][i] == w[i + 1];
    }
    if |ws| == 1 {
      assert Join(ws, delim) == w;
      assert w[1..|w|] == w[1..];
      FirstField(w, delim, |w|);
      assert w[..|w|] == w && w[|w|..] == [];
    } else {
      var rest := Join(ws[1..], delim);
      FieldsOfFieldThenRest(Join(ws, delim), w, delim, rest);
      TokensOfJoin(ws[1..], delim, {delim});
      assert ws == [w] + ws[1..];
    }
  }

  /** Two delimiters in a row split a line exactly as one does. */
  lemma {:induction false} FieldsOfDoubleDelimiter(a: string, delim: char, b: string)
    requires a != []
    ensures FieldsOf(a + [delim, delim] + b, delim) == FieldsOf(a + [delim] + b, delim)
  {
    var t2, t1 := [delim, delim] + b, [delim] + b;
    var l2, l1 := a + t2, a + t1;
    assert a + [delim, delim] + b == l2 && a + [delim] + b == l1;
    var l := 1 + RunLength(a[1..], {delim});
    assert Free(a[1..l], {delim}) by {
      assert a[1..][..l - 1] == a[1..l];
    }
    assert l2[l] == delim && l1[l] == delim by {
      if l < |a| {
        assert a[1..][l - 1] == a[l];
      }
    }
    SlicesOfConcat(a, t2, l);
    SlicesOfConcat(a, t1, l);
    assert l2[1..l] == a[1..l] == l1[1..l];
    FirstField(l2, delim, l);
    FirstField(l1, delim, l);
    TokensDoubleSeparator(a[l..], delim, b, {delim});
  }

  /** A delimiter at the start of a line stays inside the first field. */
  lemma FieldsOfLeadingDelimiter(delim: char, w: string)
    requires w != [] && Free(w, {delim})
    ensures FieldsOf([delim] + w, delim) == [[delim] + w]
  {
    var line := [delim] + w;
    assert line[1..|line|] == w;
    FirstField(line, delim, |line|);
    assert line[..|line|] == line;
  }

  /** A delimiter at the end of a line of two or more characters adds no field. */
  lemma FieldsOfTrailingDelimiter(line: string, delim: char)
    requires |line| >= 2
    ensures FieldsOf(line + [delim], delim) == FieldsOf(line, delim)
  {
    var longer := line + [delim];
    var l := 1 + RunLength(line[1..], {delim});
    assert line[1..][..l - 1] == line[1..l] == longer[1..l];
    FirstField(line, delim, l);
    FirstField(longer, delim, l);
    assert longer[..l] == line[..l];
    assert longer[l..] == line[l..] + [delim] + [];
    TokensSplit(line[l..], delim, [], {delim});
  }

  lemma FieldsExamples()
    ensures FieldsOf("C\t\tD", '\t') == ["C", "D"]
    ensures FieldsOf("\tA", '\t') == ["\tA"]
    ensures FieldsOf("A\t", '\t') == ["A"]
    ensures FieldsOf("A", '\t') == [] && FieldsOf("", '\t') == []
  {
    FieldsOfDoubleDelimiter("C", '\t', "D");
    FieldsOfJoin(["C", "D"], '\t');
    assert Join(["C", "D"], '\t') == "C\tD";
    assert "C" + ['\t', '\t'] + "D" == "C\t\tD";
    assert "C" + ['\t'] + "D" == "C\tD";
    FieldsOfLeadingDelimiter('\t', "A");
    assert ['\t'] + "A" == "\tA";
    FirstField("A\t", '\t', 1);
    assert "A\t"[..1] == "A" && "A\t"[1..] == "\t";
    TokensOfSeparators("\t", {'\t'});
  }

  // ---------------------------------------------------------------------------
  // Properties of line dispatch

  /** What one more line does to the records and to the handler calls. */
  lemma DispatchStep(lines: seq<string>, line: string, commentChar: char, delim: char)
    ensures IsCommentLine(line, commentChar) ==>
      && Records(lines + [line], commentChar, delim) == Records(lines, commentChar, delim)
      && LineCalls(lines + [line], commentChar, delim) == LineCalls(lines, commentChar, delim)
    ensures !IsCommentLine(line, commentChar) ==>
      && Records(lines + [line], commentChar, delim) == Records(lines, commentChar, delim) + [FieldsOf(line, delim)]
      && LineCalls(lines + [line], commentChar, delim)
         == LineCalls(lines, commentChar, delim) + [UpdateLine(line), UpdateRecord(FieldsOf(line, delim))]
  {
    assert (lines + [line])[..|lines|] == lines;
  }

  /** Carries "records and calls so far are those of the lines read" over one more line. */
  lemma ExtendDispatch(
    records0: seq<seq<string>>, calls0: seq<HandlerCall>, lines: seq<string>, line: string, commentChar: char, delim: char,
    records: seq<seq<string>>, calls: seq<HandlerCall>, records': seq<seq<string>>, calls': seq<HandlerCall>)
    requires records == records0 + Records(lines, commentChar, delim)
    requires calls == calls0 + LineCalls(lines, commentChar, delim)
    requires IsCommentLine(line, commentChar) ==> records' == records && calls' == calls
    requires !IsCommentLine(line, commentChar) ==>
      records' == records + [FieldsOf(line, delim)] && calls' == calls + [UpdateLine(line), UpdateRecord(FieldsOf(line, delim))]
    ensures records' == records0 + Records(lines + [line], commentChar, delim)
    ensures calls' == calls0 + LineCalls(lines + [line], commentChar, delim)
  {
    DispatchStep(lines, line, commentChar, delim);
  }

  /** A line adds a record exactly when it is not a comment; every other line adds one, blank lines included. */
  lemma RecordsGrowUnlessComment(lines: seq<string>, line: string, commentChar: char, delim: char)
    ensures Records(lines + [line], commentChar, delim) == Records(lines, commentChar, delim)
      <==> IsCommentLine(line, commentChar)
    ensures !IsCommentLine(line, commentChar) ==>
      Records(lines + [line], commentChar, delim) == Records(lines, commentChar, delim) + [FieldsOf(line, delim)]
  {
    assert (lines + [line])[..|lines|] == lines;
  }

  /** The record list mirrors the UpdateRecord calls: one record per call, in the same order. */
  lemma {:induction false} RecordsAreUpdateRecordCalls(lines: seq<string>, commentChar: char, delim: char)
    ensures |LineCalls(lines, commentChar, delim)| == 2 * |Records(lines, commentChar, delim)|
    ensures forall k :: 0 <= k < |Records(lines, commentChar, delim)| ==>
      LineCalls(lines, commentChar, delim)[2 * k + 1] == UpdateRecord(Records(lines, commentChar, delim)[k])
      && LineCalls(lines, commentChar, delim)[2 * k].UpdateLine?
  {
    if lines != [] {
      RecordsAreUpdateRecordCalls(lines[..|lines| - 1], commentChar, delim);
    }
  }

  lemma TwoFieldExamples()
    ensures FieldsOf("A\tB", '\t') == ["A", "B"]
    ensures FieldsOf("E\tF", '\t') == ["E", "F"]
  {
    FieldsOfJoin(["A", "B"], '\t');
    assert Join(["A", "B"], '\t') == "A\tB";
    FieldsOfJoin(["E", "F"], '\t');
    assert Join(["E", "F"], '\t') == "E\tF";
  }

  /** Three data lines around one comment line: the comment gives no record, the others one each, in order. */
  lemma {:induction false} RecordsAroundComment(l1: string, l2: string, comment: string, l3: string, commentChar: char, delim: char)
    requires !IsCommentLine(l1, commentChar) && !IsCommentLine(l2, commentChar) && !IsCommentLine(l3, commentChar)
    requires IsCommentLine(comment, commentChar)
    ensures Records([l1, l2, comment, l3], commentChar, delim)
      == [FieldsOf(l1, delim), FieldsOf(l2, delim), FieldsOf(l3, delim)]
  {
    RecordsGrowUnlessComment([], l1, commentChar, delim);
    RecordsGrowUnlessComment([l1], l2, commentChar, delim);
    assert [l1] + [l2] == [l1, l2];
    RecordsGrowUnlessComment([l1, l2], comment, commentChar, delim);
    assert [l1, l2] + [comment] == [l1, l2, comment];
    RecordsGrowUnlessComment([l1, l2, comment], l3, commentChar, delim);
    assert [l1, l2, comment] + [l3] == [l1, l2, comment, l3];
  }

  /** The lines after the header in the delimited-file scenario: two data lines, a comment and one more data line. */
  lemma ExampleRecords()
    ensures Records(["A\tB", "C\t\tD", "#comment", "E\tF"], '#', '\t') == [["A", "B"], ["C", "D"], ["E", "F"]]
  {
    TwoFieldExamples();
    FieldsExamples();
    RecordsAroundComment("A\tB", "C\t\tD", "#comment", "E\tF", '#', '\t');
  }

  /** Whatever the header line, the scenario file gives the records [A, B], [C, D] and [E, F]. */
  lemma ProcessExample(header: string)
    ensures ProcessedRecords(Some([header] + ["A\tB", "C\t\tD", "#comment", "E\tF"]), '#', '\t')
      == [["A", "B"], ["C", "D"], ["E", "F"]]
  {
    ExampleRecords();
    assert Body([header] + ["A\tB", "C\t\tD", "#comment", "E\tF"]) == ["A\tB", "C\t\tD", "#comment", "E\tF"];
  }

  // ---------------------------------------------------------------------------
  // The handler

  class DefaultTabHandler {
    var gotHeaders: bool
    var needHeaders: bool
    var commentChar: char
    var headers: seq<string>
    var records: seq<seq<string>>
    /** Every call made on this handler, in order. */
    ghost var calls: seq<HandlerCall>

    constructor (needHeaders: bool, commentChar: char)
      ensures this.needHeaders == needHeaders && this.commentChar == commentChar
      ensures !gotHeaders && headers == [] && records == [] && calls == []
    {
      this.gotHeaders := false;
      this.needHeaders := needHeaders;
      this.commentChar := commentChar;
      this.headers := [];
      this.records := [];
      this.calls := [];
    }

    /** getHeaders: whether the handler wants a header row. */
    function GetHeaders(): (b: bool)
      reads this
      ensures b == needHeaders
    {
      needHeaders
    }

    /** useComment: the comment character the handler was built with. */
    function UseComment(): (c: char)
      reads this
      ensures c == commentChar
    {
      commentChar
    }

    method Open() returns (ok: bool)
      modifies this`calls
      ensures ok && calls == old(calls) + [HandlerCall.Open]
    {
      calls := calls + [HandlerCall.Open];
      ok := true;
    }

    method UpdateLine(line: string) returns (ok: bool)
      modifies this`calls
      ensures ok && calls == old(calls) + [HandlerCall.UpdateLine(line)]
    {
      calls := calls + [HandlerCall.UpdateLine(line)];
      ok := true;
    }

    method UpdateRecord(fields: seq<string>) returns (ok: bool)
      modifies this`records, this`calls
      ensures ok && records == old(records) + [fields]
      ensures calls == old(calls) + [HandlerCall.UpdateRecord(fields)]
    {
      records := records + [fields];
      calls := calls + [HandlerCall.UpdateRecord(fields)];
      ok := true;
    }

    method Close() returns (ok: bool)
      modifies this`calls
      ensures ok && calls == old(calls) + [HandlerCall.Close]
    {
      calls := calls + [HandlerCall.Close];
      ok := true;
    }

    /** getHeader(name): the index of the first header equal to name; an exception when there is none. */
    method GetHeader(name: string) returns (r: Result<nat, TabError>)
      ensures r.Ok? <==> name in headers
      ensures r.Ok? ==> r.value < |headers| && headers[r.value] == name
      ensures r.Ok? ==> forall j :: 0 <= j < r.value ==> headers[j] != name
      ensures r.Err? ==> r.error == RuntimeError("blah")
    {
      var idx := 0;
      var found := false;
      var i := 0;
      while i < |headers|
        invariant 0 <= i <= |headers|
        invariant !found
        invariant forall j :: 0 <= j < i ==> headers[j] != name
      {
        if headers[i] == name {
          idx := i;
          found := true;
          break;
        }
        i := i + 1;
      }
      if !found {
        return Err(RuntimeError("blah"));
      }
      return Ok(idx);
    }

    /**
     * getHeader(index) as written: the guard is `size < index`, under which
     * headers.at(index) is out of range, and every other index throws
     * runtime_error; no index ever yields a header.
     */
    function GetHeaderAt(index: nat): (r: Result<string, TabError>)
      reads this
      ensures r.Err?
      ensures r == if |headers| < index then Err(OutOfRange) else Err(RuntimeError("blah"))
    {
      if |headers| < index then At(headers, index) else Err(RuntimeError("blah"))
    }

    /** getHeader(index) with the guard the message evidently intends: the header at that index, when there is one. */
    function GetHeaderAtIntended(index: nat): (r: Result<string, TabError>)
      reads this
      ensures r.Ok? <==> index < |headers|
      ensures r.Ok? ==> r.value == headers[index]
    {
      if index < |headers| then At(headers, index) else Err(RuntimeError("blah"))
    }
  }

  /** vector::at: the element, or std::out_of_range. */
  function At(s: seq<string>, i: nat): (r: Result<string, TabError>)
    ensures r.Ok? <==> i < |s|
    ensures r.Ok? ==> r.value == s[i]
    ensures r.Err? ==> r.error == OutOfRange
  {
    if i < |s| then Ok(s[i]) else Err(OutOfRange)
  }

  /** The as-written getHeader(index) turns down index 0 of a one-header handler, which the intended one returns. */
  lemma GetHeaderAtDiscrepancy(h: DefaultTabHandler)
    requires h.headers == ["scan"]
    ensures h.GetHeaderAt(0).Err? && h.GetHeaderAtIntended(0) == Ok("scan")
  {
  }

  /** After find_first_not_of from prev came back npos, no field is left. */
  lemma NoFieldLeft(line: CppString, delim: char, prev: nat)
    requires prev <= |line| && FindFirstNotOf(line, delim, prev) == NPOS
    ensures Tokens(line[prev..], {delim}) == []
  {
    SeparatorSlice(line, delim, prev, |line|);
    assert line[prev..|line|] == line[prev..];
    TokensOfSeparators(line[prev..], {delim});
  }

  /**
   * One step of getFields: with f_pos where the field starts (0 for the first
   * one, else the first non-delimiter at or after the previous end prev) and
   * l_pos where find puts its end, line[f_pos..l_pos] is the next field.
   */
  lemma NextField(line: CppString, delim: char, prev: nat, fPos: nat, lPos: nat)
    requires prev == 0 ==> fPos == 0 && |line| >= 2
    requires 0 < prev < |line| ==> fPos == FindFirstNotOf(line, delim, prev)
    requires prev < |line| && fPos < lPos <= |line| && fPos <= NPOS
    requires lPos == var found := Find(line, delim, SizeSucc(fPos)); if found == NPOS then |line| else found
    ensures prev == 0 ==> FieldsOf(line, delim) == [line[fPos..lPos]] + Tokens(line[lPos..], {delim})
    ensures prev > 0 ==> Tokens(line[prev..], {delim}) == [line[fPos..lPos]] + Tokens(line[lPos..], {delim})
    ensures lPos < |line| ==> line[lPos] == delim
    ensures lPos == |line| - 1 ==> Tokens(line[lPos..], {delim}) == []
  {
    if prev == 0 {
      FreeSlice(line, delim, 1, lPos);
      FirstField(line, delim, lPos);
      assert line[fPos..lPos] == line[..lPos];
    } else {
      SeparatorSlice(line, delim, prev, fPos);
      FreeSlice(line, delim, fPos, lPos);
      TokensFrom(line, {delim}, prev, fPos, lPos);
    }
    if lPos == |line| - 1 {
      TokensOfSeparators(line[lPos..], {delim});
    }
  }

  // ---------------------------------------------------------------------------
  // The reader

  class TabReader {
    var handler: DefaultTabHandler?
    var commentChar: char
    var delim: char

    /** A reader with its own default handler, '#' as comment character and tab as delimiter. */
    constructor ()
      ensures commentChar == '#' && delim == '\t'
      ensures handler != null && fresh(handler)
      ensures handler.needHeaders == DEFAULT_NEED_HEADERS && handler.commentChar == DEFAULT_COMMENT_CHAR
      ensures handler.records == [] && handler.calls == []
    {
      handler := new DefaultTabHandler(DEFAULT_NEED_HEADERS, DEFAULT_COMMENT_CHAR);
      commentChar := '#';
      delim := '\t';
    }

    /** TabReader::setHandler: replaces the handler only; the comment character stays what it was. */
    method SetHandler(h: DefaultTabHandler?)
      modifies this`handler
      ensures handler == h
    {
      handler := h;
    }

    /** The reader-internal setHandler, which also adopts the handler's comment character. */
    method SetHandlerAndComment(h: DefaultTabHandler)
      modifies this`handler, this`commentChar
      ensures handler == h && commentChar == h.commentChar
    {
      handler := h;
      commentChar := h.UseComment();
    }

    function GetHandler(): (h: DefaultTabHandler?)
      reads this
      ensures h == handler
    {
      handler
    }

    /** isComment: the line is non-empty and starts with the comment character. */
    predicate IsComment(line: string)
      reads this
    {
      IsCommentLine(line, commentChar)
    }

    /**
     * getFields: appends the fields of line to fields, walking f_pos (start of
     * a field) and l_pos (its end) with string::find and find_first_not_of,
     * and reports whether it appended any.
     */
    method GetFields(line: CppString, fields: seq<string>) returns (result: seq<string>, success: bool)
      ensures result == fields + FieldsOf(line, delim)
      ensures success <==> |result| > |fields|
    {
      success := false;
      result := fields;
      var fPos: nat, lPos: nat := 0, 0;
      while |line| > 0 && lPos < |line| - 1
        invariant lPos <= |line|
        invariant success <==> lPos > 0
        invariant lPos > 0 ==> |result| > |fields|
        invariant lPos == 0 ==> fPos == 0 && result == fields
        invariant lPos > 0 ==> fPos == FindFirstNotOf(line, delim, lPos)
        invariant fPos <= NPOS
        invariant 0 < lPos < |line| ==> line[lPos] == delim
        invariant lPos > 0 ==> result + Tokens(line[lPos..], {delim}) == fields + FieldsOf(line, delim)
        invariant lPos > 0 && lPos >= |line| - 1 ==> Tokens(line[lPos..], {delim}) == []
        decreases |line| - lPos
      {
        ghost var prev := lPos;
        lPos := Find(line, delim, SizeSucc(fPos));
        if lPos == NPOS || lPos >= |line| {
          lPos := |line|;
        }
        if fPos >= lPos {
          // only reachable once f_pos is npos: nothing but delimiters is left after prev
          NoFieldLeft(line, delim, prev);
          break;
        }
        ghost var before := result;
        var field := line[fPos..lPos];
        result := result + [field];
        NextField(line, delim, prev, fPos, lPos);
        ghost var rest := Tokens(line[lPos..], {delim});
        if prev == 0 {
          assert result + rest == fields + ([field] + rest);
        } else {
          assert result + rest == before + ([field] + rest);
        }
        fPos := FindFirstNotOf(line, delim, lPos);
        success := true;
      }
    }

    /** The getline loop of process: every line not a comment goes to the handler with its fields. */
    method DispatchLines(h: DefaultTabHandler, body: seq<CppString>)
      modifies h`records, h`calls
      ensures h.records == old(h.records) + Records(body, commentChar, delim)
      ensures h.calls == old(h.calls) + LineCalls(body, commentChar, delim)
    {
      var i := 0;
      while i < |body|
        invariant 0 <= i <= |body|
        invariant h.records == old(h.records) + Records(body[..i], commentChar, delim)
        invariant h.calls == old(h.calls) + LineCalls(body[..i], commentChar, delim)
      {
        var line := body[i];
        assert body[..i + 1] == body[..i] + [line];
        ghost var records, calls := h.records, h.calls;
        DispatchLine(h, line);
        ExtendDispatch(old(h.records), old(h.calls), body[..i], line, commentChar, delim, records, calls, h.records, h.calls);
        i := i + 1;
      }
      assert body[..i] == body;
    }

    /** One line of the body: a comment is skipped, any other line goes to updateLine and its fields to updateRecord. */
    method DispatchLine(h: DefaultTabHandler, line: CppString)
      modifies h`records, h`calls
      ensures IsCommentLine(line, commentChar) ==> h.records == old(h.records) && h.calls == old(h.calls)
      ensures !IsCommentLine(line, commentChar) ==>
        && h.records == old(h.records) + [FieldsOf(line, delim)]
        && h.calls == old(h.calls) + [UpdateLine(line), UpdateRecord(FieldsOf(line, delim))]
    {
      if !IsComment(line) {
        var _ := h.UpdateLine(line);
        var fields, _ := GetFields(line, []);
        ghost var calls := h.calls;
        var _ := h.UpdateRecord(fields);
        assert [] + FieldsOf(line, delim) == FieldsOf(line, delim);
        assert calls + [UpdateRecord(fields)] == old(h.calls) + [UpdateLine(line), UpdateRecord(fields)];
      }
    }

    /**
     * process: refuses a null file name or a missing handler; otherwise opens
     * the handler, drops the first line, and for every later line that is not
     * a comment calls updateLine and then updateRecord with its fields; then
     * closes the handler (also when the file did not open) and returns false.
     */
    method Process(filename: Option<string>, file: Option<seq<CppString>>) returns (r: Result<bool, TabError>)
      modifies handler
      ensures filename.None? ==> r == Err(RuntimeError("NULL pointer in filename"))
      ensures filename.Some? && handler == null ==> r == Err(RuntimeError("No handler assigned"))
      ensures r.Err? && handler != null ==> unchanged(handler)
      ensures filename.Some? && handler != null ==>
        && r == Ok(false)
        && handler.records == old(handler.records) + ProcessedRecords(file, commentChar, delim)
        && handler.calls == old(handler.calls) + ProcessCalls(file, commentChar, delim)
        && handler.headers == old(handler.headers)
        && handler.commentChar == old(handler.commentChar)
        && handler.needHeaders == old(handler.needHeaders)
    {
      if filename.None? {
        return Err(RuntimeError("NULL pointer in filename"));
      } else if handler == null {
        return Err(RuntimeError("No handler assigned"));
      }
      var h := handler;
      if file.Some? {
        var _ := h.Open();
        var lines := file.value;
        if |lines| > 0 {
          // the first getline discards the first line
          assert Body(lines) == lines[1..];
          DispatchLines(h, lines[1..]);
        }
      }
      var _ := h.Close();
      return Ok(false);
    }
  }

  /** A reader set up through the public setHandler keeps '#' as its comment character, whatever the handler's. */
  method PublicSetHandlerKeepsComment(h: DefaultTabHandler) returns (reader: TabReader)
    ensures reader.handler == h && reader.commentChar == '#'
  {
    reader := new TabReader();
    reader.SetHandler(h);
  }
}
