/**
  The row scanner shared by every lookup: the exported tables as sequences of
  raw lines, the conversion of a failed read into a `CodeQLError` message, the
  decision each lookup takes on one raw line, and the scan that stops at the
  first line that decides.
 */
module Rows {
  import opened Wrappers
  import opened PyText

  /** A parsed row: the mapping `parse_csv_row` builds from a raw line. */
  type Row = map<string, string>

  /**
    `parse_csv_row(line, keys)`, which is not part of this model: a row, or
    `None` for a line it cannot parse.
   */
  type Parser = (string, seq<string>) -> Option<Row>

  const FunctionKeys: seq<string> := ["function_name", "file", "start_line", "function_id", "end_line", "caller_id"]
  const MacroKeys: seq<string> := ["macro_name", "body"]
  const GlobalVarKeys: seq<string> := ["global_var_name", "file", "start_line", "end_line"]
  const ClassKeys: seq<string> := ["type", "class_name", "file", "start_line", "end_line", "simple_name"]

  /**
    The exceptions `_convert_csv_file_error` distinguishes: the three `OSError`
    kinds, and any other exception, for which it keeps a fallback message.
   */
  datatype IoError = FileNotFound | PermissionDenied | OtherOsError | Unexpected

  /**
    The failures a table read can end with. The readers catch only `OSError`
    and its subclasses, so the fallback kind never reaches the conversion from
    a read.
   */
  type ReadFailure = e: IoError | !e.Unexpected? witness FileNotFound

  /**
    What reading one table file yields: the lines `readline()` returned, each
    with its line terminator, and the failure that ended the read early, if
    any. A file that cannot be opened is `Table([], Some(kind))`.
   */
  datatype Table = Table(lines: seq<string>, failure: Option<ReadFailure>)

  /** The tables and files of the databases, by path. They do not change between reads. */
  type FileSystem = string -> Table

  /** The exceptions a lookup can raise. */
  datatype Error =
    | CodeQLError(message: string)
    | KeyError(key: string)
    | ValueError(literal: string)

  /** A lookup either returns a value or raises. */
  datatype Result<+T> = Ok(value: T) | Err(error: Error)

  /**
    `str(Path(dir) / name)` for a plain file name: `Path("")` stands for the
    current directory, and a trailing separator is not doubled.
   */
  function JoinPath(dir: string, name: string): (path: string)
    ensures dir == [] ==> path == name
    ensures dir != [] && dir[|dir| - 1] == '/' ==> path == dir + name
    ensures dir != [] && dir[|dir| - 1] != '/' ==> path == dir + "/" + name
  {
    if dir == [] then name
    else if dir[|dir| - 1] == '/' then dir + name
    else dir + "/" + name
  }

  /** `_convert_csv_file_error`: the message of the `CodeQLError` a failed read becomes. */
  function ConvertCsvFileError(error: IoError, path: string, fileType: string): (message: string)
    ensures |message| >= |path| + 2 && message[|message| - |path| - 2..] == ": " + path
  {
    match error
    case FileNotFound => fileType + " not found: " + path
    case PermissionDenied => "Permission denied reading " + fileType + ": " + path
    case OtherOsError => "OS error while reading " + fileType + ": " + path
    case Unexpected => "Error reading " + fileType + ": " + path
  }

  /** Every conversion names the file type and the path. */
  lemma ConvertCsvFileErrorNamesFile(error: IoError, path: string, fileType: string)
    ensures Contains(ConvertCsvFileError(error, path, fileType), fileType)
    ensures Contains(ConvertCsvFileError(error, path, fileType), path)
  {
    var m := ConvertCsvFileError(error, path, fileType);
    var before := match error
      case FileNotFound => ""
      case PermissionDenied => "Permission denied reading "
      case OtherOsError => "OS error while reading "
      case Unexpected => "Error reading ";
    var between := if error.FileNotFound? then " not found: " else ": ";
    assert m == before + fileType + (between + path);
    ContainsInfix(before, fileType, between + path);
    assert m == (before + fileType + between) + path + [];
    ContainsInfix(before + fileType + between, path, []);
  }

  /** The four kinds of failure give four different messages for the same file. */
  lemma ConvertCsvFileErrorDistinguishesKinds(e1: IoError, e2: IoError, path: string, fileType: string)
    requires e1 != e2
    ensures ConvertCsvFileError(e1, path, fileType) != ConvertCsvFileError(e2, path, fileType)
  {
    // The four texts around the file type and the path have different lengths.
    assert |ConvertCsvFileError(e1, path, fileType)| != |ConvertCsvFileError(e2, path, fileType)|;
  }

  // ---------------------------------------------------------------------------
  // What a lookup does with one raw line
  // ---------------------------------------------------------------------------

  /** A line either is passed over, is the answer, or raises. */
  datatype Step = Skip | Hit(row: Row) | Fail(error: Error)

  /** Python truthiness of `parse_csv_row`'s result: `None` and the empty dict are false. */
  predicate Truthy(parsed: Option<Row>)
  {
    parsed.Some? && |parsed.value| > 0
  }

  /** The condition one scan applies to each line. */
  datatype Query =
      /** `get_function_by_line`: the line mentions `file` and the row's range covers `line`. */
    | Covering(file: string, line: int)
      /**
        `get_macro`, `get_global_var`, `get_class`: the line mentions `needle` and
        one of `fields`, quotes removed, equals `term` (or contains it, when
        `lessStrict`).
       */
    | Named(needle: string, keys: seq<string>, fields: seq<string>, term: string, lessStrict: bool)
      /**
        `get_function_by_name` for one known function: the line mentions that
        function's id and the row's name, quotes removed, equals or contains `term`.
       */
    | ViaKnown(known: Row, term: string, lessStrict: bool)
      /** `get_caller_function`: the row's `function_id`, quotes and blanks removed, is `id`. */
    | WithId(id: string)

  /** The first of `fields` the row lacks, the key whose lookup raises `KeyError`. */
  function MissingField(row: Row, fields: seq<string>): (missing: Option<string>)
    ensures missing.None? <==> forall i :: 0 <= i < |fields| ==> fields[i] in row
    ensures missing.Some? ==> missing.value in fields && missing.value !in row
    ensures missing.Some? ==> exists i :: 0 <= i < |fields| && fields[i] == missing.value &&
                                         forall j :: 0 <= j < i ==> fields[j] in row
  {
    if fields == [] then None
    else if fields[0] !in row then Some(fields[0])
    else MissingField(row, fields[1..])
  }

  /** One of `fields`, quotes removed, equals `term`, or contains it in the lenient pass. */
  predicate NameMatches(row: Row, fields: seq<string>, term: string, lessStrict: bool)
    requires forall i :: 0 <= i < |fields| ==> fields[i] in row
  {
    exists i :: 0 <= i < |fields| &&
      (RemoveQuotes(row[fields[i]]) == term || (lessStrict && Contains(RemoveQuotes(row[fields[i]]), term)))
  }

  /**
    The name lookups' decision on one line: a line that mentions the needle and
    parses is the answer when a name field matches, raises `KeyError` for the
    first name field it lacks, and is passed over otherwise.
   */
  function NamedStep(parse: Parser, needle: string, keys: seq<string>, fields: seq<string>,
                     term: string, lessStrict: bool, raw: string): (step: Step)
    ensures step.Hit? <==>
            && Contains(raw, needle) && Truthy(parse(raw, keys))
            && MissingField(parse(raw, keys).value, fields).None?
            && NameMatches(parse(raw, keys).value, fields, term, lessStrict)
    ensures step.Hit? ==> step.row == parse(raw, keys).value
    ensures step.Fail? <==>
            Contains(raw, needle) && Truthy(parse(raw, keys)) && MissingField(parse(raw, keys).value, fields).Some?
    ensures step.Fail? ==> step.error == KeyError(MissingField(parse(raw, keys).value, fields).value)
  {
    if !Contains(raw, needle) then Skip
    else
      var parsed := parse(raw, keys);
      if !Truthy(parsed) then Skip
      else match MissingField(parsed.value, fields)
        case Some(key) => Fail(KeyError(key))
        case None => if NameMatches(parsed.value, fields, term, lessStrict) then Hit(parsed.value) else Skip
  }

  /** Both range fields hold integers and the range contains `line`. */
  predicate Covers(row: Row, line: int)
  {
    && "start_line" in row && "end_line" in row
    && ParseInt(row["start_line"]).Some? && ParseInt(row["end_line"]).Some?
    && ParseInt(row["start_line"]).value <= line <= ParseInt(row["end_line"]).value
  }

  /**
    The line lookup's decision on one line: a line that mentions the file and
    parses to a row whose range covers the line is the answer; a row with an
    empty range field is passed over; a missing field or a range that is not an
    integer raises.
   */
  function CoveringStep(parse: Parser, file: string, line: int, raw: string): (step: Step)
    ensures step.Hit? <==> Contains(raw, file) && Truthy(parse(raw, FunctionKeys)) && Covers(parse(raw, FunctionKeys).value, line)
    ensures step.Hit? ==> step.row == parse(raw, FunctionKeys).value
    ensures step.Fail? ==> Contains(raw, file) && Truthy(parse(raw, FunctionKeys))
    ensures step.Fail? ==> step.error == KeyError("start_line") || step.error == KeyError("end_line") || step.error.ValueError?
  {
    if !Contains(raw, file) then Skip
    else
      var parsed := parse(raw, FunctionKeys);
      if !Truthy(parsed) then Skip
      else
        var row := parsed.value;
        if "start_line" !in row then Fail(KeyError("start_line"))
        else if row["start_line"] == "" then Skip
        else if "end_line" !in row then Fail(KeyError("end_line"))
        else if row["end_line"] == "" then Skip
        else match ParseInt(row["start_line"])
          case None => Fail(ValueError(row["start_line"]))
          case Some(start) =>
            match ParseInt(row["end_line"])
            case None => Fail(ValueError(row["end_line"]))
            case Some(end) => if start <= line <= end then Hit(row) else Skip
  }

  /**
    The caller lookup's decision on one line: a line that mentions the id and
    parses to a row whose `function_id`, quotes and blanks removed, is the id.
   */
  function IdStep(parse: Parser, id: string, raw: string): (step: Step)
    ensures step.Hit? <==>
            && Contains(raw, id) && Truthy(parse(raw, FunctionKeys))
            && "function_id" in parse(raw, FunctionKeys).value
            && Strip(RemoveQuotes(parse(raw, FunctionKeys).value["function_id"])) == id
    ensures step.Hit? ==> step.row == parse(raw, FunctionKeys).value
    ensures step.Fail? ==> step.error == KeyError("function_id")
  {
    if !Contains(raw, id) then Skip
    else
      var parsed := parse(raw, FunctionKeys);
      if !Truthy(parsed) then Skip
      else if "function_id" !in parsed.value then Fail(KeyError("function_id"))
      else if Strip(RemoveQuotes(parsed.value["function_id"])) == id then Hit(parsed.value)
      else Skip
  }

  /** The decision the scan of query `q` takes on the raw line `raw`. */
  function RowStep(q: Query, parse: Parser, raw: string): (step: Step)
  {
    match q
    case Covering(file, line) => CoveringStep(parse, file, line, raw)
    case Named(needle, keys, fields, term, lessStrict) =>
      NamedStep(parse, needle, keys, fields, term, lessStrict, raw)
    case ViaKnown(known, term, lessStrict) =>
      if "function_id" !in known then Fail(KeyError("function_id"))
      else NamedStep(parse, known["function_id"], FunctionKeys, ["function_name"], term, lessStrict, raw)
    case WithId(id) => IdStep(parse, id, raw)
  }

  // ---------------------------------------------------------------------------
  // The scan
  // ---------------------------------------------------------------------------

  /** The decision of the first line, in file order, that is not passed over. */
  function Scan(q: Query, parse: Parser, lines: seq<string>): (step: Step)
    decreases |lines|
  {
    if lines == [] then Skip
    else
      var step := RowStep(q, parse, lines[0]);
      if step.Skip? then Scan(q, parse, lines[1..]) else step
  }

  /**
    A whole pass over one table: the first deciding line's row or exception;
    otherwise the read failure converted to a `CodeQLError`; otherwise nothing.
   */
  function TableScan(table: Table, q: Query, parse: Parser, path: string, fileType: string): (r: Result<Option<Row>>)
  {
    match Scan(q, parse, table.lines)
    case Hit(row) => Ok(Some(row))
    case Fail(error) => Err(error)
    case Skip =>
      if table.failure.Some? then Err(CodeQLError(ConvertCsvFileError(table.failure.value, path, fileType)))
      else Ok(None)
  }

  /** The scan passes over everything exactly when every line is passed over. */
  lemma {:induction false} ScanAllSkip(q: Query, parse: Parser, lines: seq<string>)
    ensures Scan(q, parse, lines).Skip? <==> forall i :: 0 <= i < |lines| ==> RowStep(q, parse, lines[i]).Skip?
    decreases |lines|
  {
    if lines != [] {
      ScanAllSkip(q, parse, lines[1..]);
      assert forall i :: 1 <= i < |lines| ==> lines[i] == lines[1..][i - 1];
    }
  }

  /** A line that decides, after lines that are all passed over, decides the scan. */
  lemma {:induction false} ScanAt(q: Query, parse: Parser, lines: seq<string>, k: nat)
    requires k < |lines|
    requires !RowStep(q, parse, lines[k]).Skip?
    requires forall j :: 0 <= j < k ==> RowStep(q, parse, lines[j]).Skip?
    ensures Scan(q, parse, lines) == RowStep(q, parse, lines[k])
    decreases k
  {
    if k > 0 {
      assert forall j :: 0 <= j < k - 1 ==> lines[1..][j] == lines[j + 1];
      ScanAt(q, parse, lines[1..], k - 1);
    }
  }

  /** A scan that decides was decided by a line after which nothing earlier decided. */
  lemma {:induction false} ScanWitness(q: Query, parse: Parser, lines: seq<string>)
    requires !Scan(q, parse, lines).Skip?
    ensures exists k :: 0 <= k < |lines| && RowStep(q, parse, lines[k]) == Scan(q, parse, lines) &&
              forall j :: 0 <= j < k ==> RowStep(q, parse, lines[j]).Skip?
    decreases |lines|
  {
    if RowStep(q, parse, lines[0]).Skip? {
      ScanWitness(q, parse, lines[1..]);
      var k :| 0 <= k < |lines[1..]| && RowStep(q, parse, lines[1..][k]) == Scan(q, parse, lines[1..]) &&
                forall j :: 0 <= j < k ==> RowStep(q, parse, lines[1..][j]).Skip?;
      assert forall j :: 1 <= j < k + 1 ==> lines[j] == lines[1..][j - 1];
      assert RowStep(q, parse, lines[k + 1]) == Scan(q, parse, lines);
    } else {
      assert RowStep(q, parse, lines[0]) == Scan(q, parse, lines);
    }
  }

  /**
    `_iter_csv_lines` together with the loop each lookup runs over it: lines
    are read in file order, the first that decides ends the scan, and a read
    that fails is reported once the lines before the failure are used up.
   */
  method ScanTable(table: Table, q: Query, parse: Parser, path: string, fileType: string)
    returns (r: Result<Option<Row>>)
    ensures r == TableScan(table, q, parse, path, fileType)
  {
    var i := 0;
    while i < |table.lines|
      invariant 0 <= i <= |table.lines|
      invariant Scan(q, parse, table.lines) == Scan(q, parse, table.lines[i..])
    {
      var step := RowStep(q, parse, table.lines[i]);
      match step {
        case Hit(row) =>
          return Ok(Some(row));
        case Fail(error) =>
          return Err(error);
        case Skip =>
      }
      assert table.lines[i..][1..] == table.lines[i + 1..];
      i := i + 1;
    }
    if table.failure.Some? {
      return Err(CodeQLError(ConvertCsvFileError(table.failure.value, path, fileType)));
    }
    return Ok(None);
  }
}
