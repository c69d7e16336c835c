/**
  The snippet extractor: the source file of a function read from the
  database's source archive and split into lines, and the numbered rendering
  of a run of lines.
 */
module Snippets {
  import opened Wrappers
  import opened PyText
  import opened Rows

  /**
    `read_file_lines_from_zip(archive, entry)`, which is not part of this
    model: the text of one entry of the archive.
   */
  type Archive = (string, string) -> string

  /** What the extractor returns: the entry path, the function's range and every line of the file. */
  datatype Extracted = Extracted(filePath: string, startLine: int, endLine: int, lines: seq<string>)

  /** The source archive of a database, `Path(db_path) / "src.zip"`. */
  function ArchivePath(dbPath: string): string
  {
    JoinPath(dbPath, "src.zip")
  }

  /**
    `extract_function_lines_from_db`: the archive entry is the function's
    `file` field with quotes removed and its first character dropped; the whole
    entry is split on line feeds, not cut to the function's range.
   */
  function ExtractFunctionLines(read: Archive, dbPath: string, current: Row): (r: Result<Extracted>)
    ensures "file" !in current ==> r == Err(KeyError("file"))
    ensures r.Ok? ==> |r.value.lines| >= 1 && Join(r.value.lines, "\n") == read(ArchivePath(dbPath), r.value.filePath)
  {
    if "file" !in current then Err(KeyError("file"))
    else
      var filePath := DropFirst(RemoveQuotes(current["file"]));
      var lines := SplitOn(read(ArchivePath(dbPath), filePath), "\n");
      JoinSplit(read(ArchivePath(dbPath), filePath), "\n");
      if "start_line" !in current then Err(KeyError("start_line"))
      else match ParseInt(current["start_line"])
        case None => Err(ValueError(current["start_line"]))
        case Some(startLine) =>
          if "end_line" !in current then Err(KeyError("end_line"))
          else match ParseInt(current["end_line"])
            case None => Err(ValueError(current["end_line"]))
            case Some(endLine) => Ok(Extracted(filePath, startLine, endLine, lines))
  }

  /**
    The extractor succeeds exactly when the three fields are present and both
    range fields are integers; it then returns the entry named by the `file`
    field, the two integers, and lines that join back to the entry's whole text.
   */
  lemma ExtractReturnsWholeFile(read: Archive, dbPath: string, current: Row)
    ensures ExtractFunctionLines(read, dbPath, current).Ok? <==>
            && "file" in current && "start_line" in current && "end_line" in current
            && ParseInt(current["start_line"]).Some? && ParseInt(current["end_line"]).Some?
    ensures ExtractFunctionLines(read, dbPath, current).Ok? ==>
            var x := ExtractFunctionLines(read, dbPath, current).value;
            && x.filePath == DropFirst(RemoveQuotes(current["file"]))
            && Some(x.startLine) == ParseInt(current["start_line"])
            && Some(x.endLine) == ParseInt(current["end_line"])
            && |x.lines| >= 1
            && Join(x.lines, "\n") == read(ArchivePath(dbPath), x.filePath)
  {
    if "file" in current {
      var filePath := DropFirst(RemoveQuotes(current["file"]));
      JoinSplit(read(ArchivePath(dbPath), filePath), "\n");
    }
  }

  /** The entries `str(start_line + i) + ": " + text` of the snippet, in order. */
  function NumberedLines(startLine: int, snippetLines: seq<string>): (numbered: seq<string>)
  {
    seq(|snippetLines|, i requires 0 <= i < |snippetLines| => IntToString(startLine + i) + ": " + snippetLines[i])
  }

  /** `format_numbered_snippet`: a `file:` header line, then the numbered lines joined by line feeds. */
  function FormatNumberedSnippet(filePath: string, startLine: int, snippetLines: seq<string>): (r: string)
    ensures "file: " + filePath + "\n" <= r
    ensures snippetLines == [] ==> r == "file: " + filePath + "\n"
  {
    "file: " + filePath + "\n" + Join(NumberedLines(startLine, snippetLines), "\n")
  }

  /** Three numbered lines, each carrying its own absolute line number. */
  lemma NumberedThree(startLine: int, a: string, b: string, c: string)
    ensures NumberedLines(startLine, [a, b, c]) ==
            [IntToString(startLine) + ": " + a, IntToString(startLine + 1) + ": " + b, IntToString(startLine + 2) + ": " + c]
  {
  }

  lemma JoinThree(a: string, b: string, c: string)
    ensures Join([a, b, c], "\n") == a + "\n" + b + "\n" + c
  {
    assert [a, b, c][1..] == [b, c];
    assert [b, c][1..] == [c];
    assert Join([b, c], "\n") == b + "\n" + c;
    assert Join([a, b, c], "\n") == a + "\n" + (b + "\n" + c);
  }

  lemma TwoDigitNumbers()
    ensures IntToString(10) == "10" && IntToString(11) == "11" && IntToString(12) == "12"
  {
    assert NatToString(1) == ['1'];
    assert NatToString(10) == NatToString(1) + [DigitChar(0)];
    assert NatToString(11) == NatToString(1) + [DigitChar(1)];
    assert NatToString(12) == NatToString(1) + [DigitChar(2)];
  }

  /** The rendering of three lines from line 10 of `a.c`. */
  lemma FormatNumberedSnippetExample()
    ensures FormatNumberedSnippet("a.c", 10, ["x", "y", "z"]) == "file: a.c\n10: x\n11: y\n12: z"
  {
    TwoDigitNumbers();
    NumberedThree(10, "x", "y", "z");
    JoinThree("10: x", "11: y", "12: z");
  }

  /** A rendered integer holds no line feed. */
  lemma NoLineFeedInNumber(n: int)
    ensures '\n' !in IntToString(n)
  {
    var digits := NatToString(if n < 0 then -n else n);
    assert forall i :: 0 <= i < |digits| ==> digits[i] != '\n';
    if n < 0 {
      assert IntToString(n) == "-" + digits;
      assert forall i :: 0 <= i < |IntToString(n)| ==> IntToString(n)[i] != '\n' by {
        forall i | 0 <= i < |IntToString(n)|
          ensures IntToString(n)[i] != '\n'
        {
          if i > 0 {
            assert IntToString(n)[i] == digits[i - 1];
          }
        }
      }
    }
  }

  /**
    Splitting a rendered snippet on line feeds gives back its structure: the
    header naming the file, then, for each input line, that line prefixed by
    its absolute number `startLine + i` (when no input holds a line feed).
   */
  lemma FormatNumberedSnippetLines(filePath: string, startLine: int, snippetLines: seq<string>)
    requires '\n' !in filePath
    requires forall i :: 0 <= i < |snippetLines| ==> '\n' !in snippetLines[i]
    ensures |SplitOn(FormatNumberedSnippet(filePath, startLine, snippetLines), "\n")| ==
            if snippetLines == [] then 2 else |snippetLines| + 1
    ensures snippetLines == [] ==> SplitOn(FormatNumberedSnippet(filePath, startLine, snippetLines), "\n")[1] == ""
    ensures SplitOn(FormatNumberedSnippet(filePath, startLine, snippetLines), "\n")[0] == "file: " + filePath
    ensures forall i :: 0 <= i < |snippetLines| ==>
              SplitOn(FormatNumberedSnippet(filePath, startLine, snippetLines), "\n")[i + 1] ==
              IntToString(startLine + i) + ": " + snippetLines[i]
  {
    var header := "file: " + filePath;
    var numbered := NumberedLines(startLine, snippetLines);
    var parts := [header] + (if snippetLines == [] then [""] else numbered);
    assert parts[1..] == if snippetLines == [] then [""] else numbered;
    assert Join(parts, "\n") == FormatNumberedSnippet(filePath, startLine, snippetLines);
    assert '\n' !in header by {
      assert forall i :: 0 <= i < |header| ==> header[i] != '\n' by {
        forall i | 0 <= i < |header|
          ensures header[i] != '\n'
        {
          if i >= 6 {
            assert header[i] == filePath[i - 6];
          }
        }
      }
    }
    forall i | 0 <= i < |parts|
      ensures '\n' !in parts[i]
    {
      if i > 0 && snippetLines != [] {
        var number := IntToString(startLine + i - 1);
        NoLineFeedInNumber(startLine + i - 1);
        assert parts[i] == number + ": " + snippetLines[i - 1];
        forall j | 0 <= j < |parts[i]|
          ensures parts[i][j] != '\n'
        {
          if j < |number| {
            assert parts[i][j] == number[j];
          } else if j >= |number| + 2 {
            assert parts[i][j] == snippetLines[i - 1][j - |number| - 2];
          }
        }
      }
    }
    SplitJoin(parts, '\n');
  }
}
