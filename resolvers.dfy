/**
  The symbol resolvers: the function whose line range covers a line, and the
  two-pass name lookups of functions, macros, global variables and classes.
  Each public operation is a method proved equal to a specification function;
  the lemmas state, against independent descriptions of a matching row, which
  row each lookup returns.
 */
module Resolvers {
  import opened Wrappers
  import opened PyText
  import opened Rows

  const FunctionTreeType: string := "Function tree file"

  /** The two kinds of value a name lookup returns: the row found, or a message for the caller. */
  datatype Answer = Record(row: Row) | Message(text: string)

  /** The outcome of one pass, or `otherwise` when that pass found nothing. */
  function Settle(pass: Result<Option<Row>>, otherwise: Result<Answer>): (r: Result<Answer>)
  {
    match pass
    case Err(error) => Err(error)
    case Ok(Some(row)) => Ok(Record(row))
    case Ok(None) => otherwise
  }

  // ===========================================================================
  // get_function_by_line
  // ===========================================================================

  /** The first function row that mentions `file` and whose range covers `line`. */
  function FunctionByLine(fs: FileSystem, parse: Parser, treeFile: string, file: string, line: int)
    : (r: Result<Option<Row>>)
  {
    TableScan(fs(treeFile), Covering(file, line), parse, treeFile, FunctionTreeType)
  }

  method GetFunctionByLine(fs: FileSystem, parse: Parser, treeFile: string, file: string, line: int)
    returns (r: Result<Option<Row>>)
    ensures r == FunctionByLine(fs, parse, treeFile, file, line)
  {
    r := ScanTable(fs(treeFile), Covering(file, line), parse, treeFile, FunctionTreeType);
  }

  /** The raw line mentions `file` and parses to a row that covers `line`. */
  predicate CoveringLine(parse: Parser, file: string, line: int, raw: string)
  {
    Contains(raw, file) && Truthy(parse(raw, FunctionKeys)) && Covers(parse(raw, FunctionKeys).value, line)
  }

  /** A function row whose range fields are present and each empty or an integer. */
  predicate RangeReadable(row: Row)
  {
    && "start_line" in row && "end_line" in row
    && (row["start_line"] == "" || ParseInt(row["start_line"]).Some?)
    && (row["end_line"] == "" || ParseInt(row["end_line"]).Some?)
  }

  /** Every row of the function table that parses has readable range fields. */
  ghost predicate RangesReadable(parse: Parser, lines: seq<string>)
  {
    forall i :: 0 <= i < |lines| && Truthy(parse(lines[i], FunctionKeys)) ==>
      RangeReadable(parse(lines[i], FunctionKeys).value)
  }

  /** A covering line is always a hit; on a readable row, anything else is passed over. */
  lemma CoveringStepDecision(parse: Parser, file: string, line: int, raw: string)
    ensures CoveringLine(parse, file, line, raw) ==>
              CoveringStep(parse, file, line, raw) == Hit(parse(raw, FunctionKeys).value)
    ensures CoveringStep(parse, file, line, raw).Hit? ==> CoveringLine(parse, file, line, raw)
    ensures (Truthy(parse(raw, FunctionKeys)) && RangeReadable(parse(raw, FunctionKeys).value) &&
             !CoveringLine(parse, file, line, raw)) ==> CoveringStep(parse, file, line, raw) == Skip
    ensures !Truthy(parse(raw, FunctionKeys)) ==> CoveringStep(parse, file, line, raw) == Skip
  {
  }

  /**
    On a readable table the lookup returns the row of the first line, in file
    order, that mentions `file` and covers `line`, whatever later lines hold.
   */
  lemma FunctionByLineFirstCovering(fs: FileSystem, parse: Parser, treeFile: string, file: string, line: int, k: nat)
    requires RangesReadable(parse, fs(treeFile).lines)
    requires k < |fs(treeFile).lines| && CoveringLine(parse, file, line, fs(treeFile).lines[k])
    requires forall j :: 0 <= j < k ==> !CoveringLine(parse, file, line, fs(treeFile).lines[j])
    ensures FunctionByLine(fs, parse, treeFile, file, line) == Ok(Some(parse(fs(treeFile).lines[k], FunctionKeys).value))
  {
    var lines := fs(treeFile).lines;
    forall j | 0 <= j < k
      ensures RowStep(Covering(file, line), parse, lines[j]).Skip?
    {
      CoveringStepDecision(parse, file, line, lines[j]);
    }
    CoveringStepDecision(parse, file, line, lines[k]);
    ScanAt(Covering(file, line), parse, lines, k);
  }

  /**
    On a readable table with no covering line the lookup finds nothing: `None`
    when the whole file was read, the converted read failure otherwise.
   */
  lemma FunctionByLineNoneCovering(fs: FileSystem, parse: Parser, treeFile: string, file: string, line: int)
    requires RangesReadable(parse, fs(treeFile).lines)
    requires forall i :: 0 <= i < |fs(treeFile).lines| ==> !CoveringLine(parse, file, line, fs(treeFile).lines[i])
    ensures fs(treeFile).failure.None? ==> FunctionByLine(fs, parse, treeFile, file, line) == Ok(None)
    ensures fs(treeFile).failure.Some? ==>
              FunctionByLine(fs, parse, treeFile, file, line) ==
              Err(CodeQLError(ConvertCsvFileError(fs(treeFile).failure.value, treeFile, FunctionTreeType)))
  {
    var lines := fs(treeFile).lines;
    forall i | 0 <= i < |lines|
      ensures RowStep(Covering(file, line), parse, lines[i]).Skip?
    {
      CoveringStepDecision(parse, file, line, lines[i]);
    }
    ScanAllSkip(Covering(file, line), parse, lines);
  }

  /**
    Whatever the table holds, a row the lookup returns is the parse of a line
    that mentions `file` and covers `line`, and no earlier line was one.
   */
  lemma FunctionByLineFound(fs: FileSystem, parse: Parser, treeFile: string, file: string, line: int)
    requires FunctionByLine(fs, parse, treeFile, file, line).Ok?
    requires FunctionByLine(fs, parse, treeFile, file, line).value.Some?
    ensures exists k :: 0 <= k < |fs(treeFile).lines| &&
              CoveringLine(parse, file, line, fs(treeFile).lines[k]) &&
              parse(fs(treeFile).lines[k], FunctionKeys).value == FunctionByLine(fs, parse, treeFile, file, line).value.value &&
              forall j :: 0 <= j < k ==> !CoveringLine(parse, file, line, fs(treeFile).lines[j])
  {
    var lines := fs(treeFile).lines;
    var q := Covering(file, line);
    ScanWitness(q, parse, lines);
    var k :| 0 <= k < |lines| && RowStep(q, parse, lines[k]) == Scan(q, parse, lines) &&
              forall j :: 0 <= j < k ==> RowStep(q, parse, lines[j]).Skip?;
    CoveringStepDecision(parse, file, line, lines[k]);
    forall j | 0 <= j < k
      ensures !CoveringLine(parse, file, line, lines[j])
    {
      CoveringStepDecision(parse, file, line, lines[j]);
    }
  }

  // ===========================================================================
  // get_macro, get_global_var, get_class
  // ===========================================================================

  /** The three tables searched by name alone. */
  datatype Symbol = Macro | GlobalVar | Class

  function TableName(s: Symbol): string
  {
    match s
    case Macro => "Macros.csv"
    case GlobalVar => "GlobalVars.csv"
    case Class => "Classes.csv"
  }

  function FileType(s: Symbol): string
  {
    match s
    case Macro => "Macros CSV"
    case GlobalVar => "GlobalVars CSV"
    case Class => "Classes CSV"
  }

  function Keys(s: Symbol): seq<string>
  {
    match s
    case Macro => MacroKeys
    case GlobalVar => GlobalVarKeys
    case Class => ClassKeys
  }

  /** The fields compared with the search term. */
  function NameFields(s: Symbol): seq<string>
  {
    match s
    case Macro => ["macro_name"]
    case GlobalVar => ["global_var_name"]
    case Class => ["class_name", "simple_name"]
  }

  /** Globals and classes are searched by the last segment of a qualified name; macros by the name as given. */
  function SearchTerm(s: Symbol, name: string): string
  {
    if s.Macro? then name else LastSegment(name)
  }

  function SymbolKind(s: Symbol): string
  {
    match s
    case Macro => "Macro"
    case GlobalVar => "Global var"
    case Class => "Class"
  }

  function NotFoundAdvice(s: Symbol): string
  {
    match s
    case Macro => " Make sure you're using the correct tool with correct args."
    case GlobalVar => " Could it be a macro or should you use another tool?"
    case Class => " Could it be a Namespace?"
  }

  /** The message returned when neither pass finds the symbol; it quotes the name as given. */
  function NotFoundMessage(s: Symbol, name: string): string
  {
    SymbolKind(s) + " '" + name + "'" + " not found." + NotFoundAdvice(s)
  }

  function SymbolPath(s: Symbol, currDb: string): string
  {
    JoinPath(currDb, TableName(s))
  }

  function SymbolQuery(s: Symbol, name: string, lessStrict: bool): Query
  {
    Named(SearchTerm(s, name), Keys(s), NameFields(s), SearchTerm(s, name), lessStrict)
  }

  /** One scan of the symbol's table. */
  function SymbolPass(fs: FileSystem, parse: Parser, s: Symbol, currDb: string, name: string, lessStrict: bool)
    : (r: Result<Option<Row>>)
  {
    var path := SymbolPath(s, currDb);
    TableScan(fs(path), SymbolQuery(s, name, lessStrict), parse, path, FileType(s))
  }

  /**
    The two-pass policy: the requested pass; when it is the strict one and
    finds nothing, the lenient pass; when that finds nothing, the message.
   */
  function SymbolLookup(fs: FileSystem, parse: Parser, s: Symbol, currDb: string, name: string, lessStrict: bool)
    : (r: Result<Answer>)
  {
    var notFound := Ok(Message(NotFoundMessage(s, name)));
    Settle(SymbolPass(fs, parse, s, currDb, name, lessStrict),
           if lessStrict then notFound
           else Settle(SymbolPass(fs, parse, s, currDb, name, true), notFound))
  }

  /** The body shared by `get_macro`, `get_global_var` and `get_class`, with its one-level recursion. */
  method LookupSymbol(fs: FileSystem, parse: Parser, s: Symbol, currDb: string, name: string, lessStrict: bool)
    returns (r: Result<Answer>)
    ensures r == SymbolLookup(fs, parse, s, currDb, name, lessStrict)
    decreases if lessStrict then 0 else 1
  {
    var path := SymbolPath(s, currDb);
    var found := ScanTable(fs(path), SymbolQuery(s, name, lessStrict), parse, path, FileType(s));
    match found {
      case Err(error) =>
        return Err(error);
      case Ok(Some(row)) =>
        return Ok(Record(row));
      case Ok(None) =>
    }
    if !lessStrict {
      r := LookupSymbol(fs, parse, s, currDb, name, true);
    } else {
      r := Ok(Message(NotFoundMessage(s, name)));
    }
  }

  method GetMacro(fs: FileSystem, parse: Parser, currDb: string, macroName: string, lessStrict: bool)
    returns (r: Result<Answer>)
    ensures r == SymbolLookup(fs, parse, Macro, currDb, macroName, lessStrict)
  {
    r := LookupSymbol(fs, parse, Macro, currDb, macroName, lessStrict);
  }

  method GetGlobalVar(fs: FileSystem, parse: Parser, currDb: string, globalVarName: string, lessStrict: bool)
    returns (r: Result<Answer>)
    ensures r == SymbolLookup(fs, parse, GlobalVar, currDb, globalVarName, lessStrict)
  {
    r := LookupSymbol(fs, parse, GlobalVar, currDb, globalVarName, lessStrict);
  }

  method GetClass(fs: FileSystem, parse: Parser, currDb: string, className: string, lessStrict: bool)
    returns (r: Result<Answer>)
    ensures r == SymbolLookup(fs, parse, Class, currDb, className, lessStrict)
  {
    r := LookupSymbol(fs, parse, Class, currDb, className, lessStrict);
  }

  /**
    A raw line that mentions the term and parses to a row one of whose name
    fields, quotes removed, equals the term (or, leniently, contains it).
   */
  predicate SymbolLine(parse: Parser, s: Symbol, term: string, lessStrict: bool, raw: string)
  {
    && Contains(raw, term)
    && Truthy(parse(raw, Keys(s)))
    && MissingField(parse(raw, Keys(s)).value, NameFields(s)).None?
    && NameMatches(parse(raw, Keys(s)).value, NameFields(s), term, lessStrict)
  }

  /** Every row of the symbol's table that parses has the name fields compared. */
  ghost predicate NamesReadable(parse: Parser, s: Symbol, lines: seq<string>)
  {
    forall i :: 0 <= i < |lines| && Truthy(parse(lines[i], Keys(s))) ==>
      MissingField(parse(lines[i], Keys(s)).value, NameFields(s)).None?
  }

  /** On a readable row the scan step is a hit exactly on a matching line and a pass otherwise. */
  lemma SymbolStepDecision(parse: Parser, s: Symbol, name: string, lessStrict: bool, raw: string)
    requires Truthy(parse(raw, Keys(s))) ==> MissingField(parse(raw, Keys(s)).value, NameFields(s)).None?
    ensures RowStep(SymbolQuery(s, name, lessStrict), parse, raw) ==
            if SymbolLine(parse, s, SearchTerm(s, name), lessStrict, raw) then Hit(parse(raw, Keys(s)).value) else Skip
  {
  }

  /** A line that matches exactly also matches leniently. */
  lemma StrictLineIsLenient(parse: Parser, s: Symbol, term: string, raw: string)
    ensures SymbolLine(parse, s, term, false, raw) ==> SymbolLine(parse, s, term, true, raw)
  {
  }

  /**
    Exact match precedes fallback: the first exact line is returned by the
    strict pass, even when earlier lines would have matched leniently.
   */
  lemma SymbolExactMatchWins(fs: FileSystem, parse: Parser, s: Symbol, currDb: string, name: string, k: nat)
    requires NamesReadable(parse, s, fs(SymbolPath(s, currDb)).lines)
    requires k < |fs(SymbolPath(s, currDb)).lines|
    requires SymbolLine(parse, s, SearchTerm(s, name), false, fs(SymbolPath(s, currDb)).lines[k])
    requires forall j :: 0 <= j < k ==> !SymbolLine(parse, s, SearchTerm(s, name), false, fs(SymbolPath(s, currDb)).lines[j])
    ensures SymbolLookup(fs, parse, s, currDb, name, false) ==
            Ok(Record(parse(fs(SymbolPath(s, currDb)).lines[k], Keys(s)).value))
  {
    var lines := fs(SymbolPath(s, currDb)).lines;
    var q := SymbolQuery(s, name, false);
    forall j | 0 <= j < k
      ensures RowStep(q, parse, lines[j]).Skip?
    {
      SymbolStepDecision(parse, s, name, false, lines[j]);
    }
    SymbolStepDecision(parse, s, name, false, lines[k]);
    ScanAt(q, parse, lines, k);
  }

  /**
    The fallback: when no line matches exactly and the table is read to its
    end, the first line that matches leniently is returned.
   */
  lemma SymbolFallbackMatch(fs: FileSystem, parse: Parser, s: Symbol, currDb: string, name: string, k: nat)
    requires fs(SymbolPath(s, currDb)).failure.None?
    requires NamesReadable(parse, s, fs(SymbolPath(s, currDb)).lines)
    requires forall i :: 0 <= i < |fs(SymbolPath(s, currDb)).lines| ==>
               !SymbolLine(parse, s, SearchTerm(s, name), false, fs(SymbolPath(s, currDb)).lines[i])
    requires k < |fs(SymbolPath(s, currDb)).lines|
    requires SymbolLine(parse, s, SearchTerm(s, name), true, fs(SymbolPath(s, currDb)).lines[k])
    requires forall j :: 0 <= j < k ==> !SymbolLine(parse, s, SearchTerm(s, name), true, fs(SymbolPath(s, currDb)).lines[j])
    ensures SymbolLookup(fs, parse, s, currDb, name, false) ==
            Ok(Record(parse(fs(SymbolPath(s, currDb)).lines[k], Keys(s)).value))
  {
    var lines := fs(SymbolPath(s, currDb)).lines;
    forall i | 0 <= i < |lines|
      ensures RowStep(SymbolQuery(s, name, false), parse, lines[i]).Skip?
    {
      SymbolStepDecision(parse, s, name, false, lines[i]);
    }
    ScanAllSkip(SymbolQuery(s, name, false), parse, lines);
    forall j | 0 <= j < k
      ensures RowStep(SymbolQuery(s, name, true), parse, lines[j]).Skip?
    {
      SymbolStepDecision(parse, s, name, true, lines[j]);
    }
    SymbolStepDecision(parse, s, name, true, lines[k]);
    ScanAt(SymbolQuery(s, name, true), parse, lines, k);
  }

  /**
    When no line matches even leniently and the table is read to its end, the
    lookup returns the not-found message, which quotes the name as given.
   */
  lemma SymbolNotFound(fs: FileSystem, parse: Parser, s: Symbol, currDb: string, name: string)
    requires fs(SymbolPath(s, currDb)).failure.None?
    requires NamesReadable(parse, s, fs(SymbolPath(s, currDb)).lines)
    requires forall i :: 0 <= i < |fs(SymbolPath(s, currDb)).lines| ==>
               !SymbolLine(parse, s, SearchTerm(s, name), true, fs(SymbolPath(s, currDb)).lines[i])
    ensures SymbolLookup(fs, parse, s, currDb, name, false) == Ok(Message(NotFoundMessage(s, name)))
    ensures Contains(NotFoundMessage(s, name), name)
    ensures Contains(NotFoundMessage(s, name), " not found.")
  {
    var lines := fs(SymbolPath(s, currDb)).lines;
    forall i | 0 <= i < |lines|
      ensures RowStep(SymbolQuery(s, name, false), parse, lines[i]).Skip?
      ensures RowStep(SymbolQuery(s, name, true), parse, lines[i]).Skip?
    {
      StrictLineIsLenient(parse, s, SearchTerm(s, name), lines[i]);
      SymbolStepDecision(parse, s, name, false, lines[i]);
      SymbolStepDecision(parse, s, name, true, lines[i]);
    }
    ScanAllSkip(SymbolQuery(s, name, false), parse, lines);
    ScanAllSkip(SymbolQuery(s, name, true), parse, lines);
    NotFoundMessageQuotesName(s, name);
  }

  lemma NotFoundMessageQuotesName(s: Symbol, name: string)
    ensures Contains(NotFoundMessage(s, name), name)
    ensures Contains(NotFoundMessage(s, name), " not found.")
  {
    var kind, advice := SymbolKind(s), NotFoundAdvice(s);
    assert NotFoundMessage(s, name) == (kind + " '") + name + ("'" + " not found." + advice);
    ContainsInfix(kind + " '", name, "'" + " not found." + advice);
    assert NotFoundMessage(s, name) == (kind + " '" + name + "'") + " not found." + advice;
    ContainsInfix(kind + " '" + name + "'", " not found.", advice);
  }

  /**
    A failed read is raised, not reported as not found: when no line before
    the failure matches exactly, the strict pass raises the converted error.
   */
  lemma SymbolReadFailure(fs: FileSystem, parse: Parser, s: Symbol, currDb: string, name: string)
    requires fs(SymbolPath(s, currDb)).failure.Some?
    requires NamesReadable(parse, s, fs(SymbolPath(s, currDb)).lines)
    requires forall i :: 0 <= i < |fs(SymbolPath(s, currDb)).lines| ==>
               !SymbolLine(parse, s, SearchTerm(s, name), false, fs(SymbolPath(s, currDb)).lines[i])
    ensures SymbolLookup(fs, parse, s, currDb, name, false) ==
            Err(CodeQLError(ConvertCsvFileError(fs(SymbolPath(s, currDb)).failure.value, SymbolPath(s, currDb), FileType(s))))
  {
    var lines := fs(SymbolPath(s, currDb)).lines;
    forall i | 0 <= i < |lines|
      ensures RowStep(SymbolQuery(s, name, false), parse, lines[i]).Skip?
    {
      SymbolStepDecision(parse, s, name, false, lines[i]);
    }
    ScanAllSkip(SymbolQuery(s, name, false), parse, lines);
  }

  /**
    Namespace stripping: a search for `q::x` finds, in the strict pass, the
    first global variable row named `x`.
   */
  lemma GlobalVarQualifiedName(fs: FileSystem, parse: Parser, currDb: string, q: string, x: string, k: nat)
    requires ':' !in q && ':' !in x
    requires NamesReadable(parse, GlobalVar, fs(SymbolPath(GlobalVar, currDb)).lines)
    requires k < |fs(SymbolPath(GlobalVar, currDb)).lines|
    requires SymbolLine(parse, GlobalVar, x, false, fs(SymbolPath(GlobalVar, currDb)).lines[k])
    requires forall j :: 0 <= j < k ==> !SymbolLine(parse, GlobalVar, x, false, fs(SymbolPath(GlobalVar, currDb)).lines[j])
    ensures SymbolLookup(fs, parse, GlobalVar, currDb, q + "::" + x, false) ==
            Ok(Record(parse(fs(SymbolPath(GlobalVar, currDb)).lines[k], GlobalVarKeys).value))
  {
    LastSegmentOfQualified(q, x);
    SymbolExactMatchWins(fs, parse, GlobalVar, currDb, q + "::" + x, k);
  }

  /** A class row matches when either its qualified name or its simple name matches. */
  lemma ClassMatchesEitherName(row: Row, term: string, lessStrict: bool)
    requires "class_name" in row && "simple_name" in row
    ensures NameMatches(row, NameFields(Class), term, lessStrict) <==>
            (|| RemoveQuotes(row["class_name"]) == term
             || RemoveQuotes(row["simple_name"]) == term
             || (lessStrict && Contains(RemoveQuotes(row["class_name"]), term))
             || (lessStrict && Contains(RemoveQuotes(row["simple_name"]), term)))
  {
    var fields := NameFields(Class);
    assert fields[0] == "class_name" && fields[1] == "simple_name";
    if RemoveQuotes(row["class_name"]) == term || (lessStrict && Contains(RemoveQuotes(row["class_name"]), term)) {
      assert NameMatches(row, fields, term, lessStrict) by {
        assert 0 < |fields|;
      }
    }
    if RemoveQuotes(row["simple_name"]) == term || (lessStrict && Contains(RemoveQuotes(row["simple_name"]), term)) {
      assert NameMatches(row, fields, term, lessStrict) by {
        assert 1 < |fields|;
      }
    }
  }

  /**
    Quotes are removed only for the comparison: a macro stored as `"NAME"`
    (with its quote characters) is found by `NAME`, and the record returned
    still holds the quoted text.
   */
  lemma MacroQuotedNameKept(fs: FileSystem, parse: Parser, currDb: string, name: string, k: nat)
    requires '"' !in name
    requires NamesReadable(parse, Macro, fs(SymbolPath(Macro, currDb)).lines)
    requires k < |fs(SymbolPath(Macro, currDb)).lines|
    requires Contains(fs(SymbolPath(Macro, currDb)).lines[k], name)
    requires Truthy(parse(fs(SymbolPath(Macro, currDb)).lines[k], MacroKeys))
    requires "macro_name" in parse(fs(SymbolPath(Macro, currDb)).lines[k], MacroKeys).value
    requires parse(fs(SymbolPath(Macro, currDb)).lines[k], MacroKeys).value["macro_name"] == "\"" + name + "\""
    requires forall j :: 0 <= j < k ==> !SymbolLine(parse, Macro, name, false, fs(SymbolPath(Macro, currDb)).lines[j])
    ensures SymbolLookup(fs, parse, Macro, currDb, name, false) ==
            Ok(Record(parse(fs(SymbolPath(Macro, currDb)).lines[k], MacroKeys).value))
    ensures SymbolLookup(fs, parse, Macro, currDb, name, false).value.row["macro_name"] == "\"" + name + "\""
  {
    var row := parse(fs(SymbolPath(Macro, currDb)).lines[k], MacroKeys).value;
    RemoveQuotesConcat("\"" + name, "\"");
    RemoveQuotesConcat("\"", name);
    assert RemoveQuotes(row["macro_name"]) == name;
    assert NameFields(Macro)[0] == "macro_name";
    assert NameMatches(row, NameFields(Macro), name, false);
    SymbolExactMatchWins(fs, parse, Macro, currDb, name, k);
  }

  // ===========================================================================
  // get_function_by_name
  // ===========================================================================

  function FunctionNotFoundMessage(functionName: string): string
  {
    "Function '" + functionName + "' not found. Make sure you're using the correct tool and args."
  }

  /**
    One pass of the by-name lookup: the known functions in list order, the
    whole function table scanned for each; the first row found, paired with
    the known function whose id led to it.
   */
  function KnownPass(fs: FileSystem, parse: Parser, treeFile: string, term: string, known: seq<Row>, lessStrict: bool)
    : (r: Result<Option<(Row, Row)>>)
    decreases |known|
  {
    if known == [] then Ok(None)
    else match TableScan(fs(treeFile), ViaKnown(known[0], term, lessStrict), parse, treeFile, FunctionTreeType)
      case Err(error) => Err(error)
      case Ok(Some(row)) => Ok(Some((row, known[0])))
      case Ok(None) => KnownPass(fs, parse, treeFile, term, known[1..], lessStrict)
  }

  /** The outcome of one by-name pass, or `otherwise` when that pass found nothing. */
  function SettlePair(pass: Result<Option<(Row, Row)>>, otherwise: Result<(Answer, Option<Row>)>)
    : (r: Result<(Answer, Option<Row>)>)
  {
    match pass
    case Err(error) => Err(error)
    case Ok(Some((row, parent))) => Ok((Record(row), Some(parent)))
    case Ok(None) => otherwise
  }

  /** The by-name lookup with its two passes: the found row and its parent, or the message and `None`. */
  function FunctionByName(fs: FileSystem, parse: Parser, treeFile: string, functionName: string,
                          known: seq<Row>, lessStrict: bool): (r: Result<(Answer, Option<Row>)>)
  {
    var term := LastSegment(functionName);
    var notFound := Ok((Message(FunctionNotFoundMessage(functionName)), None));
    SettlePair(KnownPass(fs, parse, treeFile, term, known, lessStrict),
               if lessStrict then notFound
               else SettlePair(KnownPass(fs, parse, treeFile, term, known, true), notFound))
  }

  method GetFunctionByName(fs: FileSystem, parse: Parser, treeFile: string, functionName: string,
                           known: seq<Row>, lessStrict: bool)
    returns (r: Result<(Answer, Option<Row>)>)
    ensures r == FunctionByName(fs, parse, treeFile, functionName, known, lessStrict)
    decreases if lessStrict then 0 else 1
  {
    var term := LastSegment(functionName);
    var i := 0;
    while i < |known|
      invariant 0 <= i <= |known|
      invariant KnownPass(fs, parse, treeFile, term, known, lessStrict) ==
                KnownPass(fs, parse, treeFile, term, known[i..], lessStrict)
    {
      var found := ScanTable(fs(treeFile), ViaKnown(known[i], term, lessStrict), parse, treeFile, FunctionTreeType);
      match found {
        case Err(error) =>
          return Err(error);
        case Ok(Some(row)) =>
          return Ok((Record(row), Some(known[i])));
        case Ok(None) =>
      }
      assert known[i..][1..] == known[i + 1..];
      i := i + 1;
    }
    if !lessStrict {
      r := GetFunctionByName(fs, parse, treeFile, functionName, known, true);
    } else {
      r := Ok((Message(FunctionNotFoundMessage(functionName)), None));
    }
  }

  /**
    A line of the function table that mentions the known function's id and
    names the function sought (exactly, or leniently by substring).
   */
  predicate NamedViaLine(parse: Parser, known: Row, term: string, lessStrict: bool, raw: string)
  {
    && "function_id" in known
    && Contains(raw, known["function_id"])
    && Truthy(parse(raw, FunctionKeys))
    && "function_name" in parse(raw, FunctionKeys).value
    && (|| RemoveQuotes(parse(raw, FunctionKeys).value["function_name"]) == term
        || (lessStrict && Contains(RemoveQuotes(parse(raw, FunctionKeys).value["function_name"]), term)))
  }

  lemma ViaKnownHit(parse: Parser, known: Row, term: string, lessStrict: bool, raw: string)
    requires RowStep(ViaKnown(known, term, lessStrict), parse, raw).Hit?
    ensures NamedViaLine(parse, known, term, lessStrict, raw)
    ensures RowStep(ViaKnown(known, term, lessStrict), parse, raw).row == parse(raw, FunctionKeys).value
  {
    var row := parse(raw, FunctionKeys).value;
    var fields: seq<string> := ["function_name"];
    assert NameMatches(row, fields, term, lessStrict);
    var i :| 0 <= i < |fields| &&
      (RemoveQuotes(row[fields[i]]) == term || (lessStrict && Contains(RemoveQuotes(row[fields[i]]), term)));
    assert i == 0;
  }

  /** Every row of the function table that parses has a `function_name`. */
  ghost predicate FunctionNamesReadable(parse: Parser, lines: seq<string>)
  {
    forall i :: 0 <= i < |lines| && Truthy(parse(lines[i], FunctionKeys)) ==>
      "function_name" in parse(lines[i], FunctionKeys).value
  }

  /** A line that names the function is never passed over. */
  lemma ViaKnownSkip(parse: Parser, known: Row, term: string, lessStrict: bool, raw: string)
    requires RowStep(ViaKnown(known, term, lessStrict), parse, raw).Skip?
    ensures !NamedViaLine(parse, known, term, lessStrict, raw)
  {
    if NamedViaLine(parse, known, term, lessStrict, raw) {
      var fields: seq<string> := ["function_name"];
      assert fields[0] == "function_name";
      assert NameMatches(parse(raw, FunctionKeys).value, fields, term, lessStrict);
    }
  }

  /** On a readable row, with a known id, the step is a hit exactly on a naming line and a pass otherwise. */
  lemma ViaKnownStepDecision(parse: Parser, known: Row, term: string, lessStrict: bool, raw: string)
    requires "function_id" in known
    requires Truthy(parse(raw, FunctionKeys)) ==> "function_name" in parse(raw, FunctionKeys).value
    ensures RowStep(ViaKnown(known, term, lessStrict), parse, raw) ==
            if NamedViaLine(parse, known, term, lessStrict, raw) then Hit(parse(raw, FunctionKeys).value) else Skip
  {
    var step := RowStep(ViaKnown(known, term, lessStrict), parse, raw);
    if step.Hit? {
      ViaKnownHit(parse, known, term, lessStrict, raw);
    } else if step.Skip? {
      ViaKnownSkip(parse, known, term, lessStrict, raw);
    }
  }

  /**
    Whatever the table holds, a found row comes with a parent from the known
    functions, and the row is the parse of a table line that mentions the
    parent's id and names the function sought, the name stripped of its
    namespace.
   */
  lemma FunctionByNameFound(fs: FileSystem, parse: Parser, treeFile: string, functionName: string,
                            known: seq<Row>, lessStrict: bool)
    requires FunctionByName(fs, parse, treeFile, functionName, known, lessStrict).Ok?
    requires FunctionByName(fs, parse, treeFile, functionName, known, lessStrict).value.0.Record?
    ensures FunctionByName(fs, parse, treeFile, functionName, known, lessStrict).value.1.Some?
    ensures FunctionByName(fs, parse, treeFile, functionName, known, lessStrict).value.1.value in known
    ensures exists k :: 0 <= k < |fs(treeFile).lines| &&
              NamedViaLine(parse, FunctionByName(fs, parse, treeFile, functionName, known, lessStrict).value.1.value,
                           LastSegment(functionName), true, fs(treeFile).lines[k]) &&
              parse(fs(treeFile).lines[k], FunctionKeys).value ==
              FunctionByName(fs, parse, treeFile, functionName, known, lessStrict).value.0.row
  {
    var term := LastSegment(functionName);
    var ls := if KnownPass(fs, parse, treeFile, term, known, lessStrict).Ok? &&
                 KnownPass(fs, parse, treeFile, term, known, lessStrict).value.Some?
              then lessStrict else true;
    KnownPassFound(fs, parse, treeFile, term, known, ls);
    var parent := KnownPass(fs, parse, treeFile, term, known, ls).value.value.1;
    var k :| 0 <= k < |fs(treeFile).lines| && NamedViaLine(parse, parent, term, ls, fs(treeFile).lines[k]) &&
             parse(fs(treeFile).lines[k], FunctionKeys).value == KnownPass(fs, parse, treeFile, term, known, ls).value.value.0;
    assert NamedViaLine(parse, parent, term, true, fs(treeFile).lines[k]);
  }

  /**
    A pass that finds a row found it through the first known function, in list
    order, whose scan did not come back empty; the row is the parse of the
    first line that mentions that function's id and names the function in
    this pass's sense (equal in the strict pass, containing in the lenient one).
   */
  lemma {:induction false} KnownPassFound(fs: FileSystem, parse: Parser, treeFile: string, term: string,
                                          known: seq<Row>, lessStrict: bool)
    requires KnownPass(fs, parse, treeFile, term, known, lessStrict).Ok?
    requires KnownPass(fs, parse, treeFile, term, known, lessStrict).value.Some?
    ensures KnownPass(fs, parse, treeFile, term, known, lessStrict).value.value.1 in known
    ensures exists i :: 0 <= i < |known| && known[i] == KnownPass(fs, parse, treeFile, term, known, lessStrict).value.value.1 &&
              forall j :: 0 <= j < i ==>
                TableScan(fs(treeFile), ViaKnown(known[j], term, lessStrict), parse, treeFile, FunctionTreeType) == Ok(None)
    ensures exists k :: 0 <= k < |fs(treeFile).lines| &&
              NamedViaLine(parse, KnownPass(fs, parse, treeFile, term, known, lessStrict).value.value.1,
                           term, lessStrict, fs(treeFile).lines[k]) &&
              parse(fs(treeFile).lines[k], FunctionKeys).value ==
              KnownPass(fs, parse, treeFile, term, known, lessStrict).value.value.0 &&
              forall j :: 0 <= j < k ==>
                !NamedViaLine(parse, KnownPass(fs, parse, treeFile, term, known, lessStrict).value.value.1,
                              term, lessStrict, fs(treeFile).lines[j])
    decreases |known|
  {
    var lines := fs(treeFile).lines;
    var q := ViaKnown(known[0], term, lessStrict);
    match TableScan(fs(treeFile), q, parse, treeFile, FunctionTreeType)
    case Ok(Some(row)) =>
      assert known[0] == KnownPass(fs, parse, treeFile, term, known, lessStrict).value.value.1;
      ScanWitness(q, parse, lines);
      var k :| 0 <= k < |lines| && RowStep(q, parse, lines[k]) == Scan(q, parse, lines) &&
                forall j :: 0 <= j < k ==> RowStep(q, parse, lines[j]).Skip?;
      ViaKnownHit(parse, known[0], term, lessStrict, lines[k]);
      forall j | 0 <= j < k
        ensures !NamedViaLine(parse, known[0], term, lessStrict, lines[j])
      {
        ViaKnownSkip(parse, known[0], term, lessStrict, lines[j]);
      }
    case Ok(None) =>
      var rest := known[1..];
      assert KnownPass(fs, parse, treeFile, term, known, lessStrict) == KnownPass(fs, parse, treeFile, term, rest, lessStrict);
      KnownPassFound(fs, parse, treeFile, term, rest, lessStrict);
      var parent := KnownPass(fs, parse, treeFile, term, rest, lessStrict).value.value.1;
      var i :| 0 <= i < |rest| && rest[i] == parent &&
               forall j :: 0 <= j < i ==>
                 TableScan(fs(treeFile), ViaKnown(rest[j], term, lessStrict), parse, treeFile, FunctionTreeType) == Ok(None);
      assert known[i + 1] == parent;
      forall j | 0 <= j < i + 1
        ensures TableScan(fs(treeFile), ViaKnown(known[j], term, lessStrict), parse, treeFile, FunctionTreeType) == Ok(None)
      {
        if j > 0 {
          assert known[j] == rest[j - 1];
        }
      }
    case Err(_) =>
  }

  /**
    Exact match precedes fallback: in the strict pass, when the known
    functions before the `i`-th lead to no exactly named line and line `k` is
    the first that mentions the `i`-th's id and names the function exactly,
    that line's row and that known function are the answer, even when earlier
    lines would have matched as substrings.
   */
  lemma FunctionByNameExactWins(fs: FileSystem, parse: Parser, treeFile: string, functionName: string,
                                known: seq<Row>, i: nat, k: nat)
    requires FunctionNamesReadable(parse, fs(treeFile).lines)
    requires i < |known| && k < |fs(treeFile).lines|
    requires forall j :: 0 <= j < i ==> "function_id" in known[j]
    requires i > 0 ==> fs(treeFile).failure.None?
    requires forall j, l :: 0 <= j < i && 0 <= l < |fs(treeFile).lines| ==>
               !NamedViaLine(parse, known[j], LastSegment(functionName), false, fs(treeFile).lines[l])
    requires NamedViaLine(parse, known[i], LastSegment(functionName), false, fs(treeFile).lines[k])
    requires forall l :: 0 <= l < k ==> !NamedViaLine(parse, known[i], LastSegment(functionName), false, fs(treeFile).lines[l])
    ensures FunctionByName(fs, parse, treeFile, functionName, known, false) ==
            Ok((Record(parse(fs(treeFile).lines[k], FunctionKeys).value), Some(known[i])))
  {
    var lines := fs(treeFile).lines;
    var term := LastSegment(functionName);
    forall j | 0 <= j < i
      ensures TableScan(fs(treeFile), ViaKnown(known[j], term, false), parse, treeFile, FunctionTreeType) == Ok(None)
    {
      forall l | 0 <= l < |lines|
        ensures RowStep(ViaKnown(known[j], term, false), parse, lines[l]).Skip?
      {
        ViaKnownStepDecision(parse, known[j], term, false, lines[l]);
      }
      ScanAllSkip(ViaKnown(known[j], term, false), parse, lines);
    }
    forall l | 0 <= l < k
      ensures RowStep(ViaKnown(known[i], term, false), parse, lines[l]).Skip?
    {
      ViaKnownStepDecision(parse, known[i], term, false, lines[l]);
    }
    ViaKnownStepDecision(parse, known[i], term, false, lines[k]);
    ScanAt(ViaKnown(known[i], term, false), parse, lines, k);
    KnownPassListOrder(fs, parse, treeFile, term, known, false, i, parse(lines[k], FunctionKeys).value);
  }

  /**
    The fallback: when no known function leads to an exactly naming line and
    the table is read to its end, the lenient pass runs. Its answer is the
    first leniently naming line reached through the first known function that
    leads to one, with that function as parent.
   */
  lemma FunctionByNameFallbackMatch(fs: FileSystem, parse: Parser, treeFile: string, functionName: string,
                                    known: seq<Row>, i: nat, k: nat)
    requires fs(treeFile).failure.None?
    requires FunctionNamesReadable(parse, fs(treeFile).lines)
    requires forall j :: 0 <= j < |known| ==> "function_id" in known[j]
    requires forall j, l :: 0 <= j < |known| && 0 <= l < |fs(treeFile).lines| ==>
               !NamedViaLine(parse, known[j], LastSegment(functionName), false, fs(treeFile).lines[l])
    requires i < |known| && k < |fs(treeFile).lines|
    requires forall j, l :: 0 <= j < i && 0 <= l < |fs(treeFile).lines| ==>
               !NamedViaLine(parse, known[j], LastSegment(functionName), true, fs(treeFile).lines[l])
    requires NamedViaLine(parse, known[i], LastSegment(functionName), true, fs(treeFile).lines[k])
    requires forall l :: 0 <= l < k ==> !NamedViaLine(parse, known[i], LastSegment(functionName), true, fs(treeFile).lines[l])
    ensures FunctionByName(fs, parse, treeFile, functionName, known, false) ==
            Ok((Record(parse(fs(treeFile).lines[k], FunctionKeys).value), Some(known[i])))
  {
    var lines := fs(treeFile).lines;
    var term := LastSegment(functionName);
    KnownPassNone(fs, parse, treeFile, term, known, false);
    forall j | 0 <= j < i
      ensures TableScan(fs(treeFile), ViaKnown(known[j], term, true), parse, treeFile, FunctionTreeType) == Ok(None)
    {
      forall l | 0 <= l < |lines|
        ensures RowStep(ViaKnown(known[j], term, true), parse, lines[l]).Skip?
      {
        ViaKnownStepDecision(parse, known[j], term, true, lines[l]);
      }
      ScanAllSkip(ViaKnown(known[j], term, true), parse, lines);
    }
    forall l | 0 <= l < k
      ensures RowStep(ViaKnown(known[i], term, true), parse, lines[l]).Skip?
    {
      ViaKnownStepDecision(parse, known[i], term, true, lines[l]);
    }
    ViaKnownStepDecision(parse, known[i], term, true, lines[k]);
    ScanAt(ViaKnown(known[i], term, true), parse, lines, k);
    KnownPassListOrder(fs, parse, treeFile, term, known, true, i, parse(lines[k], FunctionKeys).value);
  }

  /** A fully read, readable table in which no known function leads to a naming line gives an empty pass. */
  lemma {:induction false} KnownPassNone(fs: FileSystem, parse: Parser, treeFile: string, term: string,
                                         known: seq<Row>, lessStrict: bool)
    requires fs(treeFile).failure.None?
    requires FunctionNamesReadable(parse, fs(treeFile).lines)
    requires forall j :: 0 <= j < |known| ==> "function_id" in known[j]
    requires forall j, l :: 0 <= j < |known| && 0 <= l < |fs(treeFile).lines| ==>
               !NamedViaLine(parse, known[j], term, lessStrict, fs(treeFile).lines[l])
    ensures KnownPass(fs, parse, treeFile, term, known, lessStrict) == Ok(None)
    decreases |known|
  {
    if known != [] {
      var lines := fs(treeFile).lines;
      forall l | 0 <= l < |lines|
        ensures RowStep(ViaKnown(known[0], term, lessStrict), parse, lines[l]).Skip?
      {
        ViaKnownStepDecision(parse, known[0], term, lessStrict, lines[l]);
      }
      ScanAllSkip(ViaKnown(known[0], term, lessStrict), parse, lines);
      assert forall j :: 0 <= j < |known[1..]| ==> known[1..][j] == known[j + 1];
      KnownPassNone(fs, parse, treeFile, term, known[1..], lessStrict);
    }
  }

  /**
    The not-found outcome for any list of known functions: when the table is
    read to its end and no known function leads to a line that names the
    function even as a substring, both passes find nothing and the answer is
    the message, naming the function, paired with `None`.
   */
  lemma FunctionByNameNotFound(fs: FileSystem, parse: Parser, treeFile: string, functionName: string,
                               known: seq<Row>, lessStrict: bool)
    requires fs(treeFile).failure.None?
    requires FunctionNamesReadable(parse, fs(treeFile).lines)
    requires forall j :: 0 <= j < |known| ==> "function_id" in known[j]
    requires forall j, l :: 0 <= j < |known| && 0 <= l < |fs(treeFile).lines| ==>
               !NamedViaLine(parse, known[j], LastSegment(functionName), true, fs(treeFile).lines[l])
    ensures FunctionByName(fs, parse, treeFile, functionName, known, lessStrict) ==
            Ok((Message(FunctionNotFoundMessage(functionName)), None))
    ensures Contains(FunctionNotFoundMessage(functionName), functionName)
  {
    var term := LastSegment(functionName);
    forall j, l | 0 <= j < |known| && 0 <= l < |fs(treeFile).lines|
      ensures !NamedViaLine(parse, known[j], term, lessStrict, fs(treeFile).lines[l])
    {
      assert !NamedViaLine(parse, known[j], term, true, fs(treeFile).lines[l]);
    }
    KnownPassNone(fs, parse, treeFile, term, known, lessStrict);
    KnownPassNone(fs, parse, treeFile, term, known, true);
    ContainsInfix("Function '", functionName, "' not found. Make sure you're using the correct tool and args.");
  }

  /**
    With no known functions no table is opened: both passes find nothing and
    the message comes back, even when the table cannot be read.
   */
  lemma FunctionByNameNoKnownFunctions(fs: FileSystem, parse: Parser, treeFile: string, functionName: string,
                                       lessStrict: bool)
    ensures FunctionByName(fs, parse, treeFile, functionName, [], lessStrict) ==
            Ok((Message(FunctionNotFoundMessage(functionName)), None))
    ensures Contains(FunctionNotFoundMessage(functionName), functionName)
  {
    ContainsInfix("Function '", functionName, "' not found. Make sure you're using the correct tool and args.");
  }

  /**
    The known functions are tried in list order: when every earlier one leads
    to nothing and the `i`-th leads to a row, that row and that known function
    are the answer of the pass.
   */
  lemma {:induction false} KnownPassListOrder(fs: FileSystem, parse: Parser, treeFile: string, term: string,
                                              known: seq<Row>, lessStrict: bool, i: nat, row: Row)
    requires i < |known|
    requires forall j :: 0 <= j < i ==>
               TableScan(fs(treeFile), ViaKnown(known[j], term, lessStrict), parse, treeFile, FunctionTreeType) == Ok(None)
    requires TableScan(fs(treeFile), ViaKnown(known[i], term, lessStrict), parse, treeFile, FunctionTreeType) == Ok(Some(row))
    ensures KnownPass(fs, parse, treeFile, term, known, lessStrict) == Ok(Some((row, known[i])))
    decreases i
  {
    if i > 0 {
      assert forall j :: 0 <= j < i - 1 ==> known[1..][j] == known[j + 1];
      KnownPassListOrder(fs, parse, treeFile, term, known[1..], lessStrict, i - 1, row);
    }
  }
}
