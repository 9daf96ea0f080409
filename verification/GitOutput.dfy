/** Reading Git's NUL-separated output: the raw diff and the porcelain status. */
module GitOutput {
  import opened Outcomes

  // ----- splitting -----

  /** All fields between separators; one more than there are separators. */
  function Split(text: string, separator: char): (fields: seq<string>)
    ensures fields != []
  {
    if text == "" then [""]
    else if text[0] == separator then [""] + Split(text[1..], separator)
    else
      var rest := Split(text[1..], separator);
      [[text[0]] + rest[0]] + rest[1..]
  }

  lemma {:induction false} SplitField(field: string, rest: string, separator: char)
    requires separator !in field
    ensures Split(field + [separator] + rest, separator) == [field] + Split(rest, separator)
    decreases |field|
  {
    var text := field + [separator] + rest;
    if field == "" {
      assert text[1..] == rest;
    } else {
      assert text[1..] == field[1..] + [separator] + rest;
      SplitField(field[1..], rest, separator);
      assert [field[0]] + field[1..] == field;
    }
  }

  lemma {:induction false} SplitLast(field: string, separator: char)
    requires separator !in field
    ensures Split(field, separator) == [field]
    decreases |field|
  {
    if field != "" {
      SplitLast(field[1..], separator);
      assert [field[0]] + field[1..] == field;
    }
  }

  // ----- paths and headers -----

  /** A relative path that stays inside the repository, as pure path arithmetic sees it. */
  predicate IsRelativePath(path: string) {
    && path != "" && '\0' !in path && path[0] != '/'
    && ".." !in Split(path, '/')
    && exists part <- Split(path, '/') :: part != "" && part != "."
  }

  predicate IsOctal(c: char) { '0' <= c <= '7' }

  predicate IsHex(c: char) { '0' <= c <= '9' || 'a' <= c <= 'f' }

  predicate IsDigit(c: char) { '0' <= c <= '9' }

  predicate IsMode(text: string) {
    |text| == 6 && forall c <- text :: IsOctal(c)
  }

  predicate IsObject(text: string) {
    40 <= |text| <= 64 && forall c <- text :: IsHex(c)
  }

  predicate IsStatus(text: string) {
    |text| >= 1 && 'A' <= text[0] <= 'Z' && forall c <- text[1..] :: IsDigit(c)
  }

  datatype Header = Header(oldMode: string, newMode: string, oldObject: string, newObject: string, status: string)

  predicate IsHeader(h: Header) {
    IsMode(h.oldMode) && IsMode(h.newMode) && IsObject(h.oldObject) && IsObject(h.newObject) && IsStatus(h.status)
  }

  function RenderHeader(h: Header): string {
    ":" + h.oldMode + " " + h.newMode + " " + h.oldObject + " " + h.newObject + " " + h.status
  }

  /** The header expression, matched against a whole field. */
  function ParseHeader(field: string): Option<Header> {
    var parts := Split(field, ' ');
    if |parts| != 5 || |parts[0]| == 0 || parts[0][0] != ':' then None
    else
      var h := Header(parts[0][1..], parts[1], parts[2], parts[3], parts[4]);
      if IsHeader(h) then Some(h) else None
  }

  predicate IsPlain(text: string) {
    ' ' !in text && '\t' !in text && '\0' !in text
  }

  lemma HeaderPartsArePlain(h: Header)
    requires IsHeader(h)
    ensures IsPlain(h.oldMode) && IsPlain(h.newMode) && IsPlain(h.oldObject) && IsPlain(h.newObject) && IsPlain(h.status)
  {
    assert forall c <- h.status :: c == h.status[0] || c in h.status[1..];
  }

  lemma HeaderRoundTrip(h: Header)
    requires IsHeader(h)
    ensures ParseHeader(RenderHeader(h)) == Some(h)
    ensures '\t' !in RenderHeader(h) && '\0' !in RenderHeader(h) && RenderHeader(h) != ""
  {
    HeaderPartsArePlain(h);
    var text := RenderHeader(h);
    var tail4 := h.status;
    var tail3 := h.newObject + [' '] + tail4;
    var tail2 := h.oldObject + [' '] + tail3;
    var tail1 := h.newMode + [' '] + tail2;
    var first := ":" + h.oldMode;
    assert text == first + [' '] + tail1;
    SplitField(first, tail1, ' ');
    SplitField(h.newMode, tail2, ' ');
    SplitField(h.oldObject, tail3, ' ');
    SplitField(h.newObject, tail4, ' ');
    SplitLast(tail4, ' ');
    assert Split(text, ' ') == [first, h.newMode, h.oldObject, h.newObject, h.status];
    assert first[1..] == h.oldMode;
  }

  // ----- the raw diff -----

  datatype RawRecord = RawRecord(header: Header, oldPath: Option<string>, path: string)

  predicate HasTwoPaths(status: string) {
    status != "" && status[0] in {'R', 'C'}
  }

  /** A record Git prints: a well-formed header, valid paths, and two of them exactly for renames and copies. */
  predicate IsRecord(r: RawRecord) {
    && IsHeader(r.header) && IsRelativePath(r.path)
    && (HasTwoPaths(r.header.status) <==> r.oldPath.Some?)
    && (r.oldPath.Some? ==> IsRelativePath(r.oldPath.value))
  }

  function RenderRecord(r: RawRecord): string {
    RenderHeader(r.header) + "\0" + (if r.oldPath.Some? then r.oldPath.value + "\0" else "") + r.path + "\0"
  }

  function RenderRaw(records: seq<RawRecord>): string {
    if records == [] then "" else RenderRecord(records[0]) + RenderRaw(records[1..])
  }

  datatype ParseError = MalformedHeader | MissingPath | MissingRenamePath | InvalidPath | MalformedStatus

  /** The path a header carries after a tab, if it does. */
  function SplitInline(field: string): (string, Option<string>) {
    if '\t' !in field then (field, None)
    else
      var parts := Split(field, '\t');
      FirstPartIsShorter(field, '\t');
      (parts[0], Some(field[|parts[0]| + 1..]))
  }

  lemma {:induction false} FirstPartIsShorter(text: string, separator: char)
    requires separator in text
    ensures |Split(text, separator)[0]| < |text|
    decreases |text|
  {
    if text[0] != separator {
      assert text == [text[0]] + text[1..];
      FirstPartIsShorter(text[1..], separator);
    }
  }

  /** The first record of a non-empty list of fields, and the fields after it. */
  function NextRecord(fields: seq<string>): (r: Result<(RawRecord, seq<string>), ParseError>)
    requires fields != []
    ensures r.Ok? ==> |r.value.1| < |fields| && IsRecord(r.value.0)
  {
    var (text, inline) := SplitInline(fields[0]);
    var header := ParseHeader(text);
    if header == None then Err(MalformedHeader)
    else if inline == None && |fields| == 1 then Err(MissingPath)
    else
      var first := if inline.Some? then inline.value else fields[1];
      var rest := if inline.Some? then fields[1..] else fields[2..];
      if !IsRelativePath(first) then Err(InvalidPath)
      else if !HasTwoPaths(header.value.status) then Ok((RawRecord(header.value, None, first), rest))
      else if rest == [] then Err(MissingRenamePath)
      else if !IsRelativePath(rest[0]) then Err(InvalidPath)
      else Ok((RawRecord(header.value, Some(first), rest[0]), rest[1..]))
  }

  function ParseFields(fields: seq<string>): Result<seq<RawRecord>, ParseError>
    decreases |fields|
  {
    if fields == [] then Ok([])
    else if fields[0] == "" then ParseFields(fields[1..])
    else
      match NextRecord(fields)
      case Err(error) => Err(error)
      case Ok((record, rest)) =>
        match ParseFields(rest)
        case Err(error) => Err(error)
        case Ok(more) => Ok([record] + more)
  }

  function Prepend(records: seq<RawRecord>, result: Result<seq<RawRecord>, ParseError>): Result<seq<RawRecord>, ParseError> {
    match result
    case Ok(more) => Ok(records + more)
    case Err(error) => Err(error)
  }

  lemma PrependNothing(records: seq<RawRecord>, result: Result<seq<RawRecord>, ParseError>)
    ensures Prepend([], result) == result
    ensures Prepend(records, Ok([])) == Ok(records)
  {
    if result.Ok? {
      assert [] + result.value == result.value;
    }
    assert records + [] == records;
  }

  lemma PrependTwice(records: seq<RawRecord>, record: RawRecord, result: Result<seq<RawRecord>, ParseError>)
    ensures Prepend(records, Prepend([record], result)) == Prepend(records + [record], result)
  {
    if result.Ok? {
      assert records + ([record] + result.value) == records + [record] + result.value;
    }
  }

  /** The parsing loop, reading one header and one or two paths at a time. */
  method ParseRawDiff(output: string) returns (r: Result<seq<RawRecord>, ParseError>)
    ensures r == ParseFields(Split(output, '\0'))
  {
    hide Split, ParseHeader, IsRelativePath, SplitInline, IsRecord;
    var fields := Split(output, '\0');
    var records: seq<RawRecord> := [];
    var index := 0;
    assert fields[0..] == fields;
    PrependNothing(records, ParseFields(fields));
    while index < |fields|
      invariant 0 <= index <= |fields|
      invariant ParseFields(fields) == Prepend(records, ParseFields(fields[index..]))
    {
      ghost var start := index;
      var field := fields[index];
      index := index + 1;
      assert fields[start..][1..] == fields[index..];
      if field == "" {
        continue;
      }
      var (text, inline) := SplitInline(field);
      var header := ParseHeader(text);
      if header == None {
        return Err(MalformedHeader);
      }
      var first;
      if inline == None {
        if index >= |fields| {
          return Err(MissingPath);
        }
        first := fields[index];
        index := index + 1;
        assert fields[start..][1] == first && fields[start..][2..] == fields[index..];
      } else {
        first := inline.value;
      }
      if !IsRelativePath(first) {
        return Err(InvalidPath);
      }
      var record := RawRecord(header.value, None, first);
      if HasTwoPaths(header.value.status) {
        if index >= |fields| {
          return Err(MissingRenamePath);
        }
        if !IsRelativePath(fields[index]) {
          return Err(InvalidPath);
        }
        record := RawRecord(header.value, Some(first), fields[index]);
        index := index + 1;
        assert fields[index - 1..][1..] == fields[index..];
      }
      assert NextRecord(fields[start..]) == Ok((record, fields[index..]));
      PrependTwice(records, record, ParseFields(fields[index..]));
      records := records + [record];
    }
    PrependNothing(records, Ok([]));
    r := Ok(records);
  }

  lemma RecordFields(r: RawRecord, rest: string)
    requires IsRecord(r)
    ensures var fields := Split(RenderRecord(r) + rest, '\0');
      && fields[0] != "" && NextRecord(fields) == Ok((r, Split(rest, '\0')))
  {
    hide IsRelativePath, ParseHeader, RenderHeader, Split;
    HeaderRoundTrip(r.header);
    PathsHaveNoSeparator(r);
    var header := RenderHeader(r.header);
    var text := RenderRecord(r) + rest;
    var zero: string := ['\0'];
    if r.oldPath.Some? {
      var tail2 := r.path + zero + rest;
      var tail1 := r.oldPath.value + zero + tail2;
      assert text == header + zero + tail1;
      SplitField(header, tail1, '\0');
      SplitField(r.oldPath.value, tail2, '\0');
      SplitField(r.path, rest, '\0');
      var fields := [header] + ([r.oldPath.value] + ([r.path] + Split(rest, '\0')));
      assert fields[2..] == [r.path] + Split(rest, '\0');
      assert ([r.path] + Split(rest, '\0'))[1..] == Split(rest, '\0');
    } else {
      var tail1 := r.path + zero + rest;
      assert text == header + zero + tail1;
      SplitField(header, tail1, '\0');
      SplitField(r.path, rest, '\0');
      assert ([header] + ([r.path] + Split(rest, '\0')))[2..] == Split(rest, '\0');
    }
  }

  lemma PathsHaveNoSeparator(r: RawRecord)
    requires IsRecord(r)
    ensures '\0' !in r.path && (r.oldPath.Some? ==> '\0' !in r.oldPath.value)
  {
  }

  /** Parsing what Git prints gives back exactly the records, one-path and two-path records mixed in any order. */
  lemma {:induction false} RawRoundTrip(records: seq<RawRecord>)
    requires forall r <- records :: IsRecord(r)
    ensures ParseFields(Split(RenderRaw(records), '\0')) == Ok(records)
    decreases |records|
  {
    hide NextRecord, IsRecord, RenderRecord;
    if records == [] {
      assert Split("", '\0') == [""];
      assert [""][1..] == [];
    } else {
      RawRoundTrip(records[1..]);
      RecordFields(records[0], RenderRaw(records[1..]));
      assert [records[0]] + records[1..] == records;
    }
  }

  /** Nothing malformed gets through: every record that is read is one Git could have printed. */
  lemma {:induction false} ParsedRecordsAreValid(fields: seq<string>)
    requires ParseFields(fields).Ok?
    ensures forall r <- ParseFields(fields).value :: IsRecord(r)
    decreases |fields|
  {
    hide IsRecord, Split;
    if fields != [] {
      if fields[0] == "" {
        ParsedRecordsAreValid(fields[1..]);
      } else {
        ParsedRecordsAreValid(NextRecord(fields).value.1);
      }
    }
  }

  // ----- the porcelain status -----

  datatype StatusRecord = StatusRecord(code: string, path: string, original: Option<string>)

  predicate IsMoved(code: string) {
    'R' in code || 'C' in code
  }

  predicate IsStatusRecord(r: StatusRecord) {
    && |r.code| == 2 && '\0' !in r.code
    && IsRelativePath(r.path)
    && (IsMoved(r.code) <==> r.original.Some?)
    && (r.original.Some? ==> IsRelativePath(r.original.value))
  }

  function RenderStatusRecord(r: StatusRecord): string {
    r.code + " " + r.path + "\0" + if r.original.Some? then r.original.value + "\0" else ""
  }

  function RenderStatus(records: seq<StatusRecord>): string {
    if records == [] then "" else RenderStatusRecord(records[0]) + RenderStatus(records[1..])
  }

  function NonEmpty(fields: seq<string>): seq<string> {
    if fields == [] then []
    else if fields[0] == "" then NonEmpty(fields[1..])
    else [fields[0]] + NonEmpty(fields[1..])
  }

  function NextStatus(fields: seq<string>): (r: Result<(StatusRecord, seq<string>), ParseError>)
    requires fields != []
    ensures r.Ok? ==> |r.value.1| < |fields|
  {
    if |fields[0]| < 4 then Err(MalformedStatus)
    else
      var code, path := fields[0][..2], fields[0][3..];
      if !IsRelativePath(path) then Err(InvalidPath)
      else if !IsMoved(code) then Ok((StatusRecord(code, path, None), fields[1..]))
      else if |fields| == 1 then Err(MissingRenamePath)
      else if !IsRelativePath(fields[1]) then Err(InvalidPath)
      else Ok((StatusRecord(code, path, Some(fields[1])), fields[2..]))
  }

  function ParseStatusFields(fields: seq<string>): Result<seq<StatusRecord>, ParseError>
    decreases |fields|
  {
    if fields == [] then Ok([])
    else
      match NextStatus(fields)
      case Err(error) => Err(error)
      case Ok((record, rest)) =>
        match ParseStatusFields(rest)
        case Err(error) => Err(error)
        case Ok(more) => Ok([record] + more)
  }

  function PrependStatus(records: seq<StatusRecord>, result: Result<seq<StatusRecord>, ParseError>): Result<seq<StatusRecord>, ParseError> {
    match result
    case Ok(more) => Ok(records + more)
    case Err(error) => Err(error)
  }

  lemma PrependNoStatus(records: seq<StatusRecord>, result: Result<seq<StatusRecord>, ParseError>)
    ensures PrependStatus([], result) == result
    ensures PrependStatus(records, Ok([])) == Ok(records)
  {
    if result.Ok? {
      assert [] + result.value == result.value;
    }
    assert records + [] == records;
  }

  method ParseStatus(output: string) returns (r: Result<seq<StatusRecord>, ParseError>)
    ensures r == ParseStatusFields(NonEmpty(Split(output, '\0')))
  {
    hide Split, NonEmpty, IsRelativePath;
    var fields := NonEmpty(Split(output, '\0'));
    var records: seq<StatusRecord> := [];
    var index := 0;
    assert fields[0..] == fields;
    PrependNoStatus(records, ParseStatusFields(fields));
    while index < |fields|
      invariant 0 <= index <= |fields|
      invariant ParseStatusFields(fields) == PrependStatus(records, ParseStatusFields(fields[index..]))
    {
      ghost var start := index;
      var field := fields[index];
      index := index + 1;
      assert fields[start..][1..] == fields[index..];
      if |field| < 4 {
        return Err(MalformedStatus);
      }
      var code, path := field[..2], field[3..];
      if !IsRelativePath(path) {
        return Err(InvalidPath);
      }
      var record := StatusRecord(code, path, None);
      if IsMoved(code) {
        if index >= |fields| {
          return Err(MissingRenamePath);
        }
        if !IsRelativePath(fields[index]) {
          return Err(InvalidPath);
        }
        record := StatusRecord(code, path, Some(fields[index]));
        index := index + 1;
        assert fields[start..][2..] == fields[index..];
      }
      assert NextStatus(fields[start..]) == Ok((record, fields[index..]));
      if ParseStatusFields(fields[index..]).Ok? {
        var more := ParseStatusFields(fields[index..]).value;
        assert records + ([record] + more) == records + [record] + more;
      }
      records := records + [record];
    }
    PrependNoStatus(records, Ok([]));
    r := Ok(records);
  }

  lemma StatusFields(r: StatusRecord, rest: string)
    requires IsStatusRecord(r)
    ensures var fields := NonEmpty(Split(RenderStatusRecord(r) + rest, '\0'));
      fields != [] && NextStatus(fields) == Ok((r, NonEmpty(Split(rest, '\0'))))
  {
    hide IsRelativePath, Split;
    StatusPathsHaveNoSeparator(r);
    var first := r.code + " " + r.path;
    var text := RenderStatusRecord(r) + rest;
    var zero: string := ['\0'];
    assert '\0' !in first && first[..2] == r.code && first[3..] == r.path;
    if r.original.Some? {
      var tail := r.original.value + zero + rest;
      assert text == first + zero + tail;
      SplitField(first, tail, '\0');
      SplitField(r.original.value, rest, '\0');
      var fields := [first] + ([r.original.value] + Split(rest, '\0'));
      assert fields[1..] == [r.original.value] + Split(rest, '\0');
      assert ([r.original.value] + Split(rest, '\0'))[1..] == Split(rest, '\0');
      assert NonEmpty(fields) == [first] + ([r.original.value] + NonEmpty(Split(rest, '\0')));
      assert ([first] + ([r.original.value] + NonEmpty(Split(rest, '\0'))))[2..] == NonEmpty(Split(rest, '\0'));
    } else {
      assert text == first + zero + rest;
      SplitField(first, rest, '\0');
      assert ([first] + Split(rest, '\0'))[1..] == Split(rest, '\0');
      assert NonEmpty([first] + Split(rest, '\0')) == [first] + NonEmpty(Split(rest, '\0'));
      assert ([first] + NonEmpty(Split(rest, '\0')))[1..] == NonEmpty(Split(rest, '\0'));
    }
  }

  lemma StatusPathsHaveNoSeparator(r: StatusRecord)
    requires IsStatusRecord(r)
    ensures '\0' !in r.path && r.path != ""
    ensures r.original.Some? ==> '\0' !in r.original.value && r.original.value != ""
  {
  }

  /** Parsing a printed status gives back exactly its entries, moved and unmoved ones mixed in any order. */
  lemma {:induction false} StatusRoundTrip(records: seq<StatusRecord>)
    requires forall r <- records :: IsStatusRecord(r)
    ensures ParseStatusFields(NonEmpty(Split(RenderStatus(records), '\0'))) == Ok(records)
    decreases |records|
  {
    hide NextStatus, IsStatusRecord, RenderStatusRecord;
    if records == [] {
      assert Split("", '\0') == [""];
      assert NonEmpty([""]) == NonEmpty([""][1..]);
    } else {
      StatusRoundTrip(records[1..]);
      StatusFields(records[0], RenderStatus(records[1..]));
      assert [records[0]] + records[1..] == records;
    }
  }

  /** No field of a split text holds the separator. */
  lemma {:induction false} FieldsHaveNoSeparator(text: string, separator: char)
    ensures forall field <- Split(text, separator) :: separator !in field
    decreases |text|
  {
    if text != "" {
      FieldsHaveNoSeparator(text[1..], separator);
    }
  }

  lemma {:induction false} NonEmptyAreFields(fields: seq<string>)
    ensures forall field <- NonEmpty(fields) :: field in fields
  {
    if fields != [] {
      NonEmptyAreFields(fields[1..]);
    }
  }

  lemma {:induction false} ParsedFieldsAreValid(fields: seq<string>)
    requires ParseStatusFields(fields).Ok? && forall field <- fields :: '\0' !in field
    ensures forall r <- ParseStatusFields(fields).value :: IsStatusRecord(r)
    decreases |fields|
  {
    hide Split, NonEmpty, IsRelativePath;
    if fields != [] {
      assert fields[0] in fields;
      ParsedFieldsAreValid(NextStatus(fields).value.1);
    }
  }

  /** Nothing malformed gets through: every entry that is read is one Git could have printed. */
  lemma ParsedStatusIsValid(output: string)
    requires ParseStatusFields(NonEmpty(Split(output, '\0'))).Ok?
    ensures forall r <- ParseStatusFields(NonEmpty(Split(output, '\0'))).value :: IsStatusRecord(r)
  {
    hide Split, NonEmpty, IsStatusRecord;
    FieldsHaveNoSeparator(output, '\0');
    NonEmptyAreFields(Split(output, '\0'));
    ParsedFieldsAreValid(NonEmpty(Split(output, '\0')));
  }
}
