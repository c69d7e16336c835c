# CodeQL database lookup, modelled in Dafny

This project models `CodeQLDBLookup`, the lookup layer that answers questions
about a CodeQL database from the CSV tables exported for it:

- `FunctionTree.csv`: functions, their files, their line ranges, their ids and their callers.
- `Macros.csv`, `GlobalVars.csv` and `Classes.csv`.
- The `src.zip` source archive.

Each lookup reads a table line by line and stops at the first line that
decides. The name lookups try an exact match first and then a substring
match ("less strict"), at most two passes. A missing table, or one that cannot
be read, becomes a `CodeQLError` with a message naming the table.

The model is split into five modules:

- `PyText` (`pytext.dfy`) writes out the Python string operations the lookups rely on:
  - `in`, `replace('"', '')` and `strip()`;
  - `split` and `join`;
  - `s[1:]`, `str(int)` and `int(str)`.
  Their edge cases follow the interpreter.
- `Rows` (`rows.dfy`) holds:
  - the tables, as the lines read plus the failure that ended the read;
  - the parser, as a parameter;
  - the exceptions a lookup raises (`CodeQLError`, `KeyError`, `ValueError`);
  - the error conversion;
  - the decision each lookup takes on one line;
  - the scan loop `ScanTable`, proved against the function `TableScan`.
- `Resolvers` (`resolvers.dfy`) holds the lookups by line, by name and by symbol.
  Each is a method with the source's loop or its one-level recursion, proved equal to a specification function.
  Lemmas then say which row each one returns, in terms of independent descriptions of a matching line.
- `CallerWalker` (`caller_walker.dfy`) holds the caller lookup: by id, then by `file:line`, then the message; a line part that is not an integer raises `ValueError`.
- `Snippets` (`snippets.dfy`) holds the source extractor and the numbered snippet renderer.

`CodeQLDBLookup` keeps no state of its own: every operation reads files and
returns a value. So the model has no class. Its operations are functions of
the file system, the parser and their arguments. The loops are methods.

The caller fallback removes the quotes from the caller id before it splits
the id on `:` and drops the first character of the file part
(`src/codeql/db_lookup.py:340-354`). So for the id `"/src/foo.c":42` the
character dropped is the path's leading `/`, and the lookup asks for file
`src/foo.c` at line 42. The model follows the code here, and
`CallerWalker.QuotedCallerId` states the outcome.

## Model

| member | source | states |
|---|---|---|
| Rows.ScanTable | src/codeql/db_lookup.py:45-53 | Reading a table yields its lines in order, and the first line that decides ends the scan with its row or its exception. When no line decides, the read failure is raised as a `CodeQLError`; without one, nothing is found. Proved equal to `TableScan`. |
| Rows.ScanAt | src/codeql/db_lookup.py:45-53 | A line that decides, after lines that are all passed over, decides the scan, whatever follows. |
| Rows.ScanAllSkip | src/codeql/db_lookup.py:45-53 | The scan finds nothing exactly when every line is passed over (both directions). |
| Rows.ScanWitness | src/codeql/db_lookup.py:45-53 | A scan that decides was decided by some line, and every line before it was passed over. |
| Rows.ConvertCsvFileError | src/codeql/db_lookup.py:74-83 | Every converted message, whichever branch produces it, ends with `": "` followed by the file path. |
| Rows.CoveringStep | src/codeql/db_lookup.py:109-115 | A line is the by-line answer exactly when it mentions the file, parses, and its range fields are integers bounding the line. The answer is then the parsed row. A raised error is only the `KeyError` of a missing range field or the `ValueError` of `int()`. |
| Rows.NamedStep | src/codeql/db_lookup.py:204-212 | A line is the name lookup's answer exactly when it mentions the needle, parses, has every name field, and one of them (quotes removed) equals the term or, leniently, contains it. It raises exactly when a parsed, mentioning row lacks a name field, and the `KeyError` names the first one missing. |
| Rows.IdStep | src/codeql/db_lookup.py:343-348 | A line is the caller-by-id answer exactly when it mentions the id and parses to a row whose `function_id`, quotes and blanks removed, is the id. The only error it raises is `KeyError("function_id")`. |
| Rows.ConvertCsvFileErrorNamesFile | src/codeql/db_lookup.py:74-83 | Every converted I/O error message names both the table's kind and its path. |
| Rows.ConvertCsvFileErrorDistinguishesKinds | src/codeql/db_lookup.py:75-83 | Different failure kinds give different messages for the same table. |
| Rows.MissingField | src/codeql/db_lookup.py:303-304 | Returns the first compared field, in order, that the row lacks: every field before it is present. That is the key whose lookup raises `KeyError`. It returns none exactly when all fields are present. |
| Rows.JoinPath | src/codeql/db_lookup.py:200 | `Path(db) / name` is `name` for an empty directory, and otherwise the directory followed by the name, with one `/` added only when the directory does not already end in one. |
| Resolvers.GetFunctionByLine | src/codeql/db_lookup.py:107-116 | The by-line lookup equals the table scan for a line that mentions the file and whose range covers the line. |
| Resolvers.FunctionByLineFirstCovering | src/codeql/db_lookup.py:108-115 | On a readable table, the row returned is the first line, in file order, that mentions the file and covers the line. |
| Resolvers.FunctionByLineNoneCovering | src/codeql/db_lookup.py:108-116 | With no covering line, the lookup returns `None` when the whole file was read, and raises the converted read error otherwise. |
| Resolvers.FunctionByLineFound | src/codeql/db_lookup.py:109-115 | For any table, a returned row is the parse of a covering line, and no earlier line covers. |
| Resolvers.GetFunctionByName | src/codeql/db_lookup.py:144-174 | The by-name lookup has a loop over the known functions and recurses into the lenient pass only from the strict one. Proved equal to `FunctionByName`, which has at most two passes by construction. |
| Resolvers.FunctionByNameFound | src/codeql/db_lookup.py:145-162 | For any table, a found row comes paired with a parent taken from the known functions. The row is the parse of a table line that mentions the parent's `function_id` and names the sought function, with the namespace stripped by `split("::")[-1]`. |
| Resolvers.KnownPassFound | src/codeql/db_lookup.py:147-162 | For any table, a pass that finds a row found it through the first known function, in list order, whose scan did not come back empty. The row is the parse of the first line that mentions that function's id and names the function in this pass's sense: equal in the strict pass, containing in the lenient one. |
| Resolvers.FunctionByNameExactWins | src/codeql/db_lookup.py:147-168 | Exact match precedes fallback. In the strict pass, the first exactly naming line reached through the first known function that leads to one is the answer, with that function as parent, even when earlier lines would match as substrings. |
| Resolvers.FunctionByNameFallbackMatch | src/codeql/db_lookup.py:147-168 | The fallback. When no known function leads to an exactly naming line and the table is fully read, the strict pass finds nothing and the lenient pass runs. Its answer is the first line that names the function as a substring, reached through the first known function that leads to one, with that function as parent. |
| Resolvers.KnownPassNone | src/codeql/db_lookup.py:147-162 | On a fully read, readable table where no known function leads to a naming line, a pass finds nothing. |
| Resolvers.FunctionByNameNotFound | src/codeql/db_lookup.py:147-174 | For any list of known functions, when the table is read to its end and no known function leads to a line naming the function even as a substring, the answer is the message paired with `None`. The message contains the name asked for. |
| Resolvers.KnownPassListOrder | src/codeql/db_lookup.py:147-162 | Known functions are tried in list order. The first one whose scan finds a row gives the pass its result and its parent. |
| Resolvers.FunctionByNameNoKnownFunctions | src/codeql/db_lookup.py:166-174 | With no known functions, both passes find nothing. The result is the message paired with `None`, and the message contains the name asked for. |
| Resolvers.GetMacro | src/codeql/db_lookup.py:200-220 | `get_macro` is the two-pass symbol lookup on `Macros.csv`, searching for the name as given. |
| Resolvers.GetGlobalVar | src/codeql/db_lookup.py:246-267 | `get_global_var` is the two-pass symbol lookup on `GlobalVars.csv`, searching for the last `::` segment. |
| Resolvers.GetClass | src/codeql/db_lookup.py:293-316 | `get_class` is the two-pass symbol lookup on `Classes.csv`, comparing against both name fields. |
| Resolvers.LookupSymbol | src/codeql/db_lookup.py:203-220 | The shared body scans once and recurses once (strict, then lenient), then gives the message. Proved equal to `SymbolLookup`. |
| Resolvers.SymbolExactMatchWins | src/codeql/db_lookup.py:203-212 | The strict pass returns the first exactly matching line, even when earlier lines would match only as substrings. |
| Resolvers.SymbolFallbackMatch | src/codeql/db_lookup.py:214-215 | When no line matches exactly and the table is fully read, the first line that matches as a substring is returned. |
| Resolvers.SymbolNotFound | src/codeql/db_lookup.py:214-220 | When no line matches even as a substring, the lookup returns the not-found message. The message contains the name as given and the words " not found.". |
| Resolvers.NotFoundMessageQuotesName | src/codeql/db_lookup.py:217-316 | Each of the three not-found messages contains the name asked for and the words " not found.": the macro message at lines 217-220, the global variable message at 264-267, and the class message at 316. |
| Resolvers.SymbolReadFailure | src/codeql/db_lookup.py:52-53 | A table that fails to read is raised as the converted error, not reported as not found. |
| Resolvers.GlobalVarQualifiedName | src/codeql/db_lookup.py:248-259 | A search for `q::x` returns, in the strict pass, the first global variable row named `x`. |
| Resolvers.ClassMatchesEitherName | src/codeql/db_lookup.py:303-310 | A class row matches exactly when its `class_name` or its `simple_name` equals the term, or, in the lenient pass, contains it (both directions). |
| Resolvers.MacroQuotedNameKept | src/codeql/db_lookup.py:209-212 | Quotes are removed only for the comparison: a macro stored as `"NAME"` is found by `NAME`, and the returned row still holds the quoted text. |
| CallerWalker.GetCallerFunction | src/codeql/db_lookup.py:339-361 | Looks up by id first, then by the decoded `file:line`, then gives the message. A missing `caller_id` raises `KeyError`, and a line part that is not an integer raises `ValueError`. Proved equal to `CallerFunction`. |
| CallerWalker.CallerById | src/codeql/db_lookup.py:340-348 | The first row whose cleaned `function_id` equals the cleaned caller id is the caller. |
| CallerWalker.CallerByLocation | src/codeql/db_lookup.py:351-356 | With no id match and an id `file:n`, the answer is the by-line lookup for `file[1:]` at `int(n)`: its row, or the message when it finds none. |
| CallerWalker.CallerBadLine | src/codeql/db_lookup.py:351-354 | With no id match and an id `file:n` whose `n` is not an integer, `int(n)` raises `ValueError(n)` before any line lookup. |
| CallerWalker.CallerLocation | src/codeql/db_lookup.py:351-353 | The id is read as a location exactly when `split(":")` gives two parts. The id is then the file part, a `:` and the line part, and the location is the file part without its first character together with the line part. |
| CallerWalker.CallerNotFound | src/codeql/db_lookup.py:351-361 | With no id match and an id that does not split on `:` into exactly two parts (no colon, or two or more), the caller is not found and the message says so. |
| CallerWalker.CallerIdWithoutColon | src/codeql/db_lookup.py:351-352 | An id without a colon splits into one part, so it reaches the not-found message. |
| CallerWalker.LocationOfId | src/codeql/db_lookup.py:351-354 | The id `path:n`, with no other colon, reads as (`path[1:]`, `n`). |
| CallerWalker.QuotedCallerId | src/codeql/db_lookup.py:340-354 | For the id `"path":n`, quotes and blanks are removed before splitting, so the id compares as `path:n`. The file part loses the path's first character, giving (`path[1:]`, `n`). |
| Snippets.ExtractFunctionLines | src/codeql/db_lookup.py:383-390 | A missing `file` field raises `KeyError("file")` first. On success, the lines are at least one and `"\n".join` back to the whole archive entry. |
| Snippets.ExtractReturnsWholeFile | src/codeql/db_lookup.py:383-390 | Extraction succeeds exactly when `file`, `start_line` and `end_line` are present and both ranges parse as integers. It then returns the entry path, the two integers, and lines that `"\n".join` back to the whole entry. |
| Snippets.FormatNumberedSnippet | src/codeql/db_lookup.py:406-409 | The rendering starts with the header `file: <path>` and a line feed. An empty snippet renders as exactly that header and line feed. |
| Snippets.FormatNumberedSnippetLines | src/codeql/db_lookup.py:406-409 | Splitting a rendered snippet on line feeds gives a `file:` header, then each input line prefixed by its absolute number `start + i`. An empty snippet gives the header and one empty part. |
| Snippets.FormatNumberedSnippetExample | src/codeql/db_lookup.py:406-409 | Three lines from line 10 of `a.c` render as `file: a.c`, `10: x`, `11: y`, `12: z`. |
| PyText.JoinSplit | src/codeql/db_lookup.py:386 | `sep.join(s.split(sep)) == s`. |
| PyText.SplitJoin | src/codeql/db_lookup.py:406-409 | Splitting the join of parts that never contain the one-character separator gives the parts back. |
| PyText.LastSegmentOfQualified | src/codeql/db_lookup.py:145 | `"q::x".split("::")[-1] == "x"`, and an unqualified name is its own last segment. |
| PyText.ParseIntOfString | src/codeql/db_lookup.py:407 | `int(str(n)) == n` for every integer. |

## Left out

- `parse_csv_row` (`src/utils/csv_parser.py`) is not part of this model. It is a parameter of every lookup.
  The properties hold for any parser, with assumptions about its rows stated as preconditions.
  The parser always receives the source's key lists.
- `read_file_lines_from_zip` (`src/utils/common_functions.py`) is not part of this model. It is a parameter of the extractor.
  Its own failures (missing archive, missing entry) are not modelled.
- File I/O is modelled as a fixed map from path to the lines `readline()` returns plus an optional failure.
  The tables do not change between the two passes or between reads.
  A read can end only with one of the three `OSError` kinds the readers catch, so the conversion's fallback branch is never reached from a read.
  UTF-8 decoding errors, which are `UnicodeDecodeError` and not `OSError`, propagate unconverted from the source. They are not modelled.
- `Path(x)` normalisation (`.`, repeated separators, absolute names) is reduced to `JoinPath`.
- Rows.JoinPath: it is stated weaker than `pathlib`, only for plain file names joined onto a directory string.
- PyText.ParseInt: `int()` is modelled for ASCII digits, an optional sign, surrounding Python whitespace and single underscores between digits.
  Non-ASCII decimal digits, which `int()` also accepts, are not modelled.
- `CodeQLError`, `KeyError` and `ValueError` are values of the `Error` datatype, not an exception hierarchy. The chained `from e` cause is not kept.
- Concurrency and the file system changing during a lookup are not modelled.
- The query runner, the pipeline and the example script are not part of this model.
