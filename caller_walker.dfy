/**
  The caller-chain walker: the function that calls a given function, found by
  the caller's id or, failing that, by decoding the caller id as `file:line`
  and asking for the function that covers that line.
 */
module CallerWalker {
  import opened Wrappers
  import opened PyText
  import opened Rows
  import opened Resolvers

  const CallerNotFoundMessage: string :=
    "Caller function was not found. Make sure you are using the correct tool with the correct args."

  /**
    The `file:line` reading of a caller id: when the id has exactly one colon,
    the text before it without its first character, and the text after it.
   */
  function CallerLocation(callerId: string): (location: Option<(string, string)>)
    ensures location.Some? <==> |SplitOn(callerId, ":")| == 2
    ensures location.Some? ==> exists filePart :: callerId == filePart + ":" + location.value.1 &&
                                                 location.value.0 == DropFirst(filePart)
  {
    var parts := SplitOn(callerId, ":");
    if |parts| == 2 then
      JoinSplit(callerId, ":");
      assert parts[1..] == [parts[1]];
      Some((DropFirst(parts[0]), parts[1]))
    else None
  }

  /** A row found by line, as the answer of the caller lookup. */
  function ByLineAnswer(found: Result<Option<Row>>): (r: Result<Answer>)
  {
    match found
    case Err(error) => Err(error)
    case Ok(Some(row)) => Ok(Record(row))
    case Ok(None) => Ok(Message(CallerNotFoundMessage))
  }

  /** `get_caller_function`: by id first, then by the decoded location, then the message. */
  function CallerFunction(fs: FileSystem, parse: Parser, treeFile: string, current: Row): (r: Result<Answer>)
  {
    if "caller_id" !in current then Err(KeyError("caller_id"))
    else
      var callerId := CleanCallerId(current);
      match TableScan(fs(treeFile), WithId(callerId), parse, treeFile, FunctionTreeType)
      case Err(error) => Err(error)
      case Ok(Some(row)) => Ok(Record(row))
      case Ok(None) =>
        match CallerLocation(callerId)
        case None => Ok(Message(CallerNotFoundMessage))
        case Some((file, linePart)) =>
          match ParseInt(linePart)
          case None => Err(ValueError(linePart))
          case Some(line) => ByLineAnswer(FunctionByLine(fs, parse, treeFile, file, line))
  }

  method GetCallerFunction(fs: FileSystem, parse: Parser, treeFile: string, current: Row)
    returns (r: Result<Answer>)
    ensures r == CallerFunction(fs, parse, treeFile, current)
  {
    if "caller_id" !in current {
      return Err(KeyError("caller_id"));
    }
    var callerId := CleanCallerId(current);
    var found := ScanTable(fs(treeFile), WithId(callerId), parse, treeFile, FunctionTreeType);
    match found {
      case Err(error) =>
        return Err(error);
      case Ok(Some(row)) =>
        return Ok(Record(row));
      case Ok(None) =>
    }
    var maybeLine := SplitOn(callerId, ":");
    if |maybeLine| == 2 {
      var filePart, linePart := maybeLine[0], maybeLine[1];
      var line := ParseInt(linePart);
      if line.None? {
        return Err(ValueError(linePart));
      }
      var byLine := GetFunctionByLine(fs, parse, treeFile, DropFirst(filePart), line.value);
      match byLine {
        case Err(error) =>
          return Err(error);
        case Ok(Some(row)) =>
          return Ok(Record(row));
        case Ok(None) =>
      }
    }
    return Ok(Message(CallerNotFoundMessage));
  }

  /** The caller id, quotes and surrounding blanks removed, as the lookup compares it. */
  function CleanCallerId(current: Row): string
    requires "caller_id" in current
  {
    Strip(RemoveQuotes(current["caller_id"]))
  }

  /** A raw line that mentions `id` and parses to a row whose cleaned `function_id` is `id`. */
  predicate IdLine(parse: Parser, id: string, raw: string)
  {
    && Contains(raw, id)
    && Truthy(parse(raw, FunctionKeys))
    && "function_id" in parse(raw, FunctionKeys).value
    && Strip(RemoveQuotes(parse(raw, FunctionKeys).value["function_id"])) == id
  }

  /** Every row of the function table that parses has a `function_id`. */
  ghost predicate IdsReadable(parse: Parser, lines: seq<string>)
  {
    forall i :: 0 <= i < |lines| && Truthy(parse(lines[i], FunctionKeys)) ==>
      "function_id" in parse(lines[i], FunctionKeys).value
  }

  lemma IdStepDecision(parse: Parser, id: string, raw: string)
    requires Truthy(parse(raw, FunctionKeys)) ==> "function_id" in parse(raw, FunctionKeys).value
    ensures RowStep(WithId(id), parse, raw) == if IdLine(parse, id, raw) then Hit(parse(raw, FunctionKeys).value) else Skip
  {
  }

  /** First outcome: the first row whose cleaned id is the caller id is the caller. */
  lemma CallerById(fs: FileSystem, parse: Parser, treeFile: string, current: Row, k: nat)
    requires "caller_id" in current
    requires IdsReadable(parse, fs(treeFile).lines)
    requires k < |fs(treeFile).lines| && IdLine(parse, CleanCallerId(current), fs(treeFile).lines[k])
    requires forall j :: 0 <= j < k ==> !IdLine(parse, CleanCallerId(current), fs(treeFile).lines[j])
    ensures CallerFunction(fs, parse, treeFile, current) == Ok(Record(parse(fs(treeFile).lines[k], FunctionKeys).value))
  {
    var lines := fs(treeFile).lines;
    var q := WithId(CleanCallerId(current));
    forall j | 0 <= j < k
      ensures RowStep(q, parse, lines[j]).Skip?
    {
      IdStepDecision(parse, CleanCallerId(current), lines[j]);
    }
    IdStepDecision(parse, CleanCallerId(current), lines[k]);
    ScanAt(q, parse, lines, k);
  }

  /** No row of a fully read, readable table carries the caller id. */
  ghost predicate NoIdMatch(fs: FileSystem, parse: Parser, treeFile: string, id: string)
  {
    && fs(treeFile).failure.None?
    && IdsReadable(parse, fs(treeFile).lines)
    && forall i :: 0 <= i < |fs(treeFile).lines| ==> !IdLine(parse, id, fs(treeFile).lines[i])
  }

  lemma NoIdMatchScansToNothing(fs: FileSystem, parse: Parser, treeFile: string, id: string)
    requires NoIdMatch(fs, parse, treeFile, id)
    ensures TableScan(fs(treeFile), WithId(id), parse, treeFile, FunctionTreeType) == Ok(None)
  {
    var lines := fs(treeFile).lines;
    forall i | 0 <= i < |lines|
      ensures RowStep(WithId(id), parse, lines[i]).Skip?
    {
      IdStepDecision(parse, id, lines[i]);
    }
    ScanAllSkip(WithId(id), parse, lines);
  }

  /**
    Second outcome: when no row carries the id and the id reads `file:n`, the
    answer is the line lookup for `file` without its first character at line
    `int(n)`: its row, or the not-found message when it finds none.
   */
  lemma CallerByLocation(fs: FileSystem, parse: Parser, treeFile: string, current: Row, file: string, n: string)
    requires "caller_id" in current
    requires NoIdMatch(fs, parse, treeFile, CleanCallerId(current))
    requires CleanCallerId(current) == file + ":" + n
    requires ':' !in file && ':' !in n
    requires ParseInt(n).Some?
    ensures CallerFunction(fs, parse, treeFile, current) ==
            ByLineAnswer(FunctionByLine(fs, parse, treeFile, DropFirst(file), ParseInt(n).value))
  {
    NoIdMatchScansToNothing(fs, parse, treeFile, CleanCallerId(current));
    SplitOnUncut(n, ":");
    SplitOnFirst(file, ":", n);
  }

  /**
    When no row carries the id and the id reads `file:n` but `n` is not an
    integer, `int(n)` raises `ValueError` before any line lookup.
   */
  lemma CallerBadLine(fs: FileSystem, parse: Parser, treeFile: string, current: Row, file: string, n: string)
    requires "caller_id" in current
    requires NoIdMatch(fs, parse, treeFile, CleanCallerId(current))
    requires CleanCallerId(current) == file + ":" + n
    requires ':' !in file && ':' !in n
    requires ParseInt(n).None?
    ensures CallerFunction(fs, parse, treeFile, current) == Err(ValueError(n))
  {
    NoIdMatchScansToNothing(fs, parse, treeFile, CleanCallerId(current));
    SplitOnUncut(n, ":");
    SplitOnFirst(file, ":", n);
  }

  /**
    Third outcome: when no row carries the id and the id does not split on
    `:` into exactly two parts (no colon, or two or more), the caller is not
    found and the message says so.
   */
  lemma CallerNotFound(fs: FileSystem, parse: Parser, treeFile: string, current: Row)
    requires "caller_id" in current
    requires NoIdMatch(fs, parse, treeFile, CleanCallerId(current))
    requires |SplitOn(CleanCallerId(current), ":")| != 2
    ensures CallerFunction(fs, parse, treeFile, current) == Ok(Message(CallerNotFoundMessage))
  {
    NoIdMatchScansToNothing(fs, parse, treeFile, CleanCallerId(current));
  }

  /** An id without a colon is one part, so it takes the third outcome. */
  lemma CallerIdWithoutColon(current: Row)
    requires "caller_id" in current
    requires ':' !in CleanCallerId(current)
    ensures |SplitOn(CleanCallerId(current), ":")| == 1
  {
    SplitOnUncut(CleanCallerId(current), ":");
  }

  lemma UnquotedPath(path: string)
    requires '"' !in path
    ensures RemoveQuotes("\"" + path + "\"") == path
  {
    RemoveQuotesConcat("\"", path);
    RemoveQuotesConcat("\"" + path, "\"");
  }

  lemma UnquotedLocation(quoted: string, rest: string, path: string, number: string)
    requires '"' !in path && '"' !in number
    requires quoted == "\"" + path + "\"" && rest == ":" + number
    ensures RemoveQuotes(quoted + rest) == path + rest
  {
    UnquotedPath(path);
    RemoveQuotesConcat(quoted, rest);
  }

  /** A `file:line` id whose ends are not blanks is its own strip. */
  lemma LocationUnstripped(path: string, number: string)
    requires path == [] || !IsSpace(path[0])
    requires number == [] || !IsSpace(number[|number| - 1])
    ensures Strip(path + ":" + number) == path + ":" + number
  {
    var id := path + ":" + number;
    assert !IsSpace(':');
    assert id[0] == if path == [] then ':' else path[0];
    assert id[|id| - 1] == if number == [] then ':' else number[|number| - 1];
    StripUnchanged(id);
  }

  lemma CleanLocation(raw: string, quoted: string, rest: string, path: string, number: string)
    requires '"' !in path && '"' !in number
    requires quoted == "\"" + path + "\"" && rest == ":" + number && raw == quoted + rest
    requires path == [] || !IsSpace(path[0])
    requires number == [] || !IsSpace(number[|number| - 1])
    ensures Strip(RemoveQuotes(raw)) == path + ":" + number
  {
    var id := path + ":" + number;
    assert path + rest == id;
    UnquotedLocation(quoted, rest, path, number);
    assert RemoveQuotes(raw) == id;
    LocationUnstripped(path, number);
  }

  /** The quoted id `"path":n` is compared as `path:n`. */
  lemma CleanQuotedId(current: Row, path: string, number: string)
    requires "caller_id" in current
    requires current["caller_id"] == ("\"" + path + "\"") + (":" + number)
    requires '"' !in path && '"' !in number
    requires path == [] || !IsSpace(path[0])
    requires number == [] || !IsSpace(number[|number| - 1])
    ensures CleanCallerId(current) == path + ":" + number
  {
    CleanLocation(current["caller_id"], "\"" + path + "\"", ":" + number, path, number);
  }

  /** An id `path:n` with one colon reads as the path without its first character and `n`. */
  lemma LocationOfId(path: string, number: string)
    requires ':' !in path && ':' !in number
    ensures CallerLocation(path + ":" + number) == Some((DropFirst(path), number))
  {
    SplitOnUncut(number, ":");
    SplitOnFirst(path, ":", number);
  }

  /**
    The quotes are removed before the id is split, so the character the file
    part loses is the first character of the path, not the opening quote: the
    id `"/src/foo.c":42` is compared as `/src/foo.c:42` and, when no row carries
    it, read as file `src/foo.c` at line 42.
   */
  lemma QuotedCallerId(current: Row, path: string, number: string)
    requires "caller_id" in current
    requires current["caller_id"] == ("\"" + path + "\"") + (":" + number)
    requires '"' !in path && ':' !in path && '"' !in number && ':' !in number
    requires path == [] || !IsSpace(path[0])
    requires number == [] || !IsSpace(number[|number| - 1])
    ensures CleanCallerId(current) == path + ":" + number
    ensures CallerLocation(CleanCallerId(current)) == Some((DropFirst(path), number))
  {
    CleanQuotedId(current, path, number);
    LocationOfId(path, number);
  }
}
