# Grinder executor, Grinder log reader and Swagger converter of Taurus

This project models three parts of Taurus (`bzt`), the load-testing
automation tool, and proves properties of them in Dafny.

- **The Grinder KPI log reader** (`DataLogReader` in `bzt/modules/grinder.py`).
  Grinder writes a comma-separated data log. Its first line names the
  columns, and each later line describes one test execution. The reader
  opens the log once it exists and is not empty. It maps the header's column
  names to positions. On each call it reads the text appended since the last
  call. An unterminated last line is kept in a buffer until the rest of it
  arrives. Each complete line becomes a sample, is skipped, or raises an
  exception.
  The model is the class `GrinderReader.DataLogReader`. It has the source's
  fields (`fds` as the handle's read offset, `idx`, `partialBuffer`). Ghost
  fields record all the text consumed and all the samples emitted. Its
  invariant `Valid` says that, until a call raises, the samples and the
  buffer are exactly what parsing all the consumed text at once would give.
  As long as no line raises, reading the log in pieces, cut anywhere,
  therefore gives the same samples as reading it whole. A line that raises
  ends its call, and the rest of that call's batch is lost.
- **The Grinder executor's properties file and run check** (`GrinderExecutor`
  in `bzt/modules/grinder.py`).
  - `__write_base_props` and `__write_scenario_props` copy an optional
    properties file verbatim between comment markers. Then they write a
    dictionary as `key=value` lines, also between markers.
  - `__write_bzt_props` writes the host id, the script, the log directory and
    the load settings.
  - `check` polls the Grinder process and judges the run.

  The writers are methods that append to a `PropertiesFile` object. Each is
  proved to write exactly the text of a specification function. A simple
  reader of `.properties` text is the partner: the lemmas show that the
  written file reads back as the properties that were meant. For the load
  settings, the values read back parse as the concurrency, the run count, the
  ramp-up interval and the duration in milliseconds.
- **The Swagger converter** (`SwaggerConverter` in `bzt/modules/swagger.py`).
  It loads a Swagger specification, the JSON document as an ordered
  dictionary, and builds a scenario. The scenario's `default-address` is the
  host followed by the base path, and it has one `{url: path}` request per key
  of `paths`, in document order. The lemmas cover:
  - every outcome of the address computation, including the `KeyError` for a
    base path without a host;
  - that the requests are exactly the path keys, in order and without
    repetition;
  - the pet-store example of the repository's test.

`PyStr` holds the Python 2 string operations the core relies on:

- `strip()` (whitespace being `' '`, `\t`, `\n`, `\r`, `\x0b`, `\x0c`);
- `split(',')`, which always gives at least one piece;
- `isdigit()`;
- `int()` of a string (surrounding whitespace, an optional sign, optional whitespace after the sign, then digits);
- `"%s" % n`;
- `readlines()`, as the cutting of a text after each newline;
- the truncation `int()` applies to a quotient.

`Wrappers` holds `Option` and `Result`.

## Model

| member | source | states |
|---|---|---|
| PyStr.LStripSpec | bzt/modules/grinder.py:236 | `strip()` removes a leading run of whitespace, all of it and nothing else; what remains starts with a non-space |
| PyStr.RStripSpec | bzt/modules/grinder.py:236 | the same at the end of the string |
| PyStr.StripSpec | bzt/modules/grinder.py:236 | a stripped string is no longer than the original and starts and ends with non-whitespace |
| PyStr.StripFixed | bzt/modules/grinder.py:245 | a string that already starts and ends with non-whitespace is its own strip |
| PyStr.JoinSplit | bzt/modules/grinder.py:237 | joining the pieces of `split(',')` with commas gives back the line |
| PyStr.SplitPieces | bzt/modules/grinder.py:237 | no piece of a split contains the delimiter |
| PyStr.SplitJoin | bzt/modules/grinder.py:237 | splitting comma-free fields joined with commas gives back the fields, so each field of a line is recovered by position |
| PyStr.SplitNoSeparator | bzt/modules/grinder.py:237 | a line without a comma splits into itself alone |
| PyStr.SplitPrefix | bzt/modules/grinder.py:237 | a comma-free first field followed by a comma splits off as the first piece |
| PyStr.NatToStringSpec | bzt/modules/grinder.py:81 | `"%s"` of a natural number is a run of decimal digits, without a leading zero, whose value is that number |
| PyStr.ParseIntToString | bzt/modules/grinder.py:80-85 | `int()` reads back exactly the integer that `"%s" % n` wrote, for every integer, negative ones included |
| PyStr.ParseIntDigits | bzt/modules/grinder.py:238-241 | a run of digits, which is what the `isdigit()` test accepts, is read by `int()` as its decimal value |
| PyStr.ParseInt | bzt/modules/grinder.py:241-248 | a stripped run of digits is read as its decimal value; a string that is read is not blank after stripping, and a negative value only comes from a leading minus sign |
| PyStr.ParseIntSigned | bzt/modules/grinder.py:241-248 | a sign, whitespace and then digits are read as the signed decimal value (`int("- 5")` is `-5`) |
| PyStr.ParseIntNegative | bzt/modules/grinder.py:241-248 | a minus sign followed by digits is read by `int()` as the negated decimal value |
| PyStr.Lines | bzt/modules/grinder.py:224-226 | `readlines()` gives no more lines than the text has characters, and no lines exactly for empty text |
| PyStr.LinesConcat | bzt/modules/grinder.py:224-226 | the lines `readlines()` returns, concatenated, are the text read: nothing is lost or reordered |
| PyStr.LinesShape | bzt/modules/grinder.py:224-229 | every line is non-empty and its only newline is at its end; every line but the last ends with a newline |
| PyStr.LinesCons | bzt/modules/grinder.py:224-226 | a text that starts with a complete line has that line first, followed by the lines of the rest |
| PyStr.LinesAppend | bzt/modules/grinder.py:224-234 | the lines of two consecutive reads are the lines of each read, with the cut line glued back together |
| PyStr.LinesLast | bzt/modules/grinder.py:229 | the last line of a non-empty text ends with a newline exactly when the text does |
| PyStr.LinesAfterNewline | bzt/modules/grinder.py:37-39 | text that ends with a newline, or is empty, keeps its lines apart from the lines of what follows it |
| PyStr.FirstLineSpec | bzt/modules/grinder.py:265 | `readline()` returns a prefix of the text that is non-empty for a non-empty file, has no newline before its end, and ends with a newline unless it is the whole file |
| PyStr.TruncDiv | bzt/modules/grinder.py:241-253 | for a positive divisor, `int()` of a quotient truncates toward zero: the remainder lies in `[0, b)` for a non-negative dividend and in `(-b, 0]` for a negative one; Euclidean division for a non-negative dividend, the negated quotient of the magnitudes for a negative one |
| GrinderReader.Fields | bzt/modules/grinder.py:236-237 | a stripped line always splits into at least one field |
| GrinderReader.SampleOf | bzt/modules/grinder.py:241-253 | a sample read from a line has an empty label and no concurrency, and its only possible error is the fixed error message |
| GrinderReader.ParseLine | bzt/modules/grinder.py:236-253 | a line with fewer than two fields raises `IndexError` at `fields[1]`; an emitted sample has an empty label, no concurrency and only the fixed error message |
| GrinderReader.ParseLineSkips | bzt/modules/grinder.py:238-240 | a line is skipped exactly when it has a second field and that field, stripped, is not a run of digits |
| GrinderReader.ParseLineEmits | bzt/modules/grinder.py:238-253 | a line yields a sample exactly when it is not skipped and every looked-up column is in the header, lies within the line and, except the response code, holds an integer. The sample then has: the start time in whole seconds; the test time; the time to first byte; the sum of the resolve and connect times; the stripped response code; and an error exactly when the error count is non-zero |
| GrinderReader.ParseLines | bzt/modules/grinder.py:228-253 | a batch of lines yields at most one sample per line, and a line that raises leaves the buffer empty |
| GrinderReader.ParseLinesAppend | bzt/modules/grinder.py:228-234 | parsing two runs of lines one after the other, carrying the buffer, equals parsing them together |
| GrinderReader.GlueFragment | bzt/modules/grinder.py:229-234 | an unterminated line followed by another is parsed as the two glued into one line |
| GrinderReader.ParseGlued | bzt/modules/grinder.py:229-234 | a line cut between two batches is parsed as the whole line |
| GrinderReader.ParseGlueLines | bzt/modules/grinder.py:228-234 | parsing the glued lines of two reads equals parsing the first read's lines and carrying on with the second's |
| GrinderReader.ChunkSplit | bzt/modules/grinder.py:224-234 | reading a text in two pieces, cut anywhere, yields what reading it at once yields, up to the first line that raises: the second piece is parsed only when the first raised nothing |
| GrinderReader.ReadStep | bzt/modules/grinder.py:228-234 | after a call that does not raise, the samples and buffer so far are still those of parsing all the text read |
| GrinderReader.IndexUpToSpec | bzt/modules/grinder.py:265-267 | the column map holds exactly the stripped header names, each mapped to the last position that holds it |
| GrinderReader.BuildIndex | bzt/modules/grinder.py:266-267 | the loop over the header builds exactly that column map |
| GrinderReader.ParseBatch | bzt/modules/grinder.py:228-253 | the loop over one batch produces the samples, the buffer and the exception of the batch's specification, keeping the samples produced before an exception |
| GrinderReader.ResumeCons | bzt/modules/grinder.py:228-253 | one iteration of that loop: buffer an unterminated line, or parse the complete one with the buffer in front and then skip it, emit its sample, or stop with its exception |
| GrinderReader.Available | bzt/modules/grinder.py:223-226 | a read returns the file's text from the handle's offset, at most the size budget, and up to the end of the file on the last pass |
| GrinderReader.DataLogReader.constructor | bzt/modules/grinder.py:203-210 | a new reader has no handle, an empty column map and an empty buffer |
| GrinderReader.DataLogReader.OpenFds | bzt/modules/grinder.py:255-268 | the log opens exactly when it exists and is not empty. The handle is then positioned after the header line and the column map is built from the header. Otherwise nothing changes |
| GrinderReader.DataLogReader.ReadChunk | bzt/modules/grinder.py:222-253 | with the log open: the handle advances over the text read, and the samples, new buffer and exception are those of parsing that text after the old buffer |
| GrinderReader.DataLogReader.Read | bzt/modules/grinder.py:212-253 | while the log cannot be opened a call changes nothing and yields nothing. Otherwise it reads from the offset after the header, or from the handle's offset, and parses as `ReadChunk` does. The chunk invariant is kept |
| GrinderExecutor.PropertiesFile.Write | bzt/modules/grinder.py:106-109 | a write appends its text to the file |
| GrinderExecutor.SectionText | bzt/modules/grinder.py:32-66 | a section that fails reports the properties file it names and holds only that file's start marker, as the start marker is written before the file is opened |
| GrinderExecutor.SectionOutcome | bzt/modules/grinder.py:32-66 | a section fails exactly when it names a properties file that does not exist, and then holds only that file's start marker. Otherwise it holds the marked file copy, if a file is named, followed by the dictionary block |
| GrinderExecutor.KeyOfLine | bzt/modules/grinder.py:46 | the key of a written `key=value` line is read back as the key |
| GrinderExecutor.ValueOfLine | bzt/modules/grinder.py:46 | the value of a written `key=value` line is read back as the value |
| GrinderExecutor.PairOfLine | bzt/modules/grinder.py:46 | a written property line reads back as that property |
| GrinderExecutor.ReadSkip | bzt/modules/grinder.py:44-47 | the marker comments and the blank line after them carry no property |
| GrinderExecutor.ReadRendered | bzt/modules/grinder.py:45-46 | the lines a dictionary loop writes read back as the dictionary, in order |
| GrinderExecutor.ReadPairsAppend | bzt/modules/grinder.py:106-109 | the properties of consecutive lines are the properties of each part, in order |
| GrinderExecutor.ReadBlock | bzt/modules/grinder.py:42-47 | a dictionary block, markers included, reads back as the dictionary; an empty dictionary writes nothing |
| GrinderExecutor.ReadIncluded | bzt/modules/grinder.py:35-39 | a copied properties file that ends with a newline reads back between its markers as the file itself |
| GrinderExecutor.ReadIncludedUnterminated | bzt/modules/grinder.py:37-39 | a copied file made of newline-terminated lines `c` and then an unterminated last line `k=v` gets the end marker glued to that line: `c` reads back as itself, then `k` with the marker's text appended to its value, then whatever follows the section |
| GrinderExecutor.ReadSection | bzt/modules/grinder.py:32-66 | a section written without failure, whose included file is empty or ends its last line with a newline, reads back as the included file's properties followed by the dictionary |
| GrinderExecutor.BztPlain | bzt/modules/grinder.py:70-85 | every BZT property has a key the reader takes whole and a single-line value, given single-line paths |
| GrinderExecutor.BztText | bzt/modules/grinder.py:68-86 | the text of the BZT section: the start marker, one `key=value` line per BZT property in the order written, and the end marker with no blank line after it; its properties are stated by `ReadBzt` and `LoadReadBack` |
| GrinderExecutor.ReadBzt | bzt/modules/grinder.py:68-86 | the BZT section reads back as its properties, in the order written |
| GrinderExecutor.IdleLookup | bzt/modules/grinder.py:71-77 | without concurrency the section holds none of the load properties; it gives the host id `grinder-bzt`, the script and the log directory |
| GrinderExecutor.CountLookup | bzt/modules/grinder.py:81-83 | with concurrency, the process count is the concurrency, the run limit is the iteration count as `%s` renders it, and the increment is 1 |
| GrinderExecutor.TimingLookup | bzt/modules/grinder.py:78-85 | with concurrency, the increment interval is present exactly when there is a ramp-up, and is `int(1000 * ramp_up / concurrency)`. The duration is present exactly when there is one, and is in milliseconds |
| GrinderExecutor.LoadReadBack | bzt/modules/grinder.py:76-85 | the file Grinder reads gives the process count as the concurrency. It gives the run limit as the iteration count, or `None`. The interval and the duration, each present exactly when the load has a ramp-up or a duration, parse back to their millisecond values |
| GrinderExecutor.IdleReadBack | bzt/modules/grinder.py:76-77 | without concurrency the file Grinder reads has none of the load settings; it gives the BZT host id, the script and the log directory |
| GrinderExecutor.Decide | bzt/modules/grinder.py:144-156 | the run is running exactly while the poll gives nothing. It failed with the exit code exactly when that code is non-zero. Its results are empty exactly when it exited with 0, a results log is set, and that log is missing or empty. It finished exactly in the remaining case |
| GrinderExecutor.WriteSection | bzt/modules/grinder.py:32-66 | one section appends exactly the section text and reports the missing file, if any |
| GrinderExecutor.WriteIncluded | bzt/modules/grinder.py:34-39 | the file copy appends the start marker, then the file and the end marker when the file exists, and nothing when no file is named |
| GrinderExecutor.WriteBlock | bzt/modules/grinder.py:42-47 | the dictionary block appends its markers and one line per property; an empty dictionary appends nothing |
| GrinderExecutor.WritePairs | bzt/modules/grinder.py:45-46 | the loop appends one `key=value` line per property, in iteration order |
| GrinderExecutor.WritePair | bzt/modules/grinder.py:46 | one write appends one rendered property |
| GrinderExecutor.WriteHead | bzt/modules/grinder.py:71-74 | the host id, script and log directory lines are appended in that order |
| GrinderExecutor.WriteLoadProps | bzt/modules/grinder.py:76-85 | the load lines are appended, and none without concurrency |
| GrinderExecutor.WriteInterval | bzt/modules/grinder.py:78-80 | the increment interval line is appended exactly when there is a ramp-up |
| GrinderExecutor.WriteCounts | bzt/modules/grinder.py:81-83 | the process count, run limit and increment lines are appended |
| GrinderExecutor.WriteDuration | bzt/modules/grinder.py:84-85 | the duration line is appended exactly when there is a duration |
| GrinderExecutor.GrinderExecutor.constructor | bzt/modules/grinder.py:18-30 | a new executor has no exit code. Its settings, resolved script, artifacts directory, load and results log are the given ones, which the source fills in later, in `prepare` and from the engine |
| GrinderExecutor.GrinderExecutor.WriteBaseProps | bzt/modules/grinder.py:32-47 | appends the base section, with the `Base` markers, from the executor's settings |
| GrinderExecutor.GrinderExecutor.WriteScenarioProps | bzt/modules/grinder.py:49-66 | appends the scenario section, with the `Script` file markers and the `Scenario` block markers |
| GrinderExecutor.GrinderExecutor.WriteBztProps | bzt/modules/grinder.py:68-86 | appends exactly the BZT section between its markers |
| GrinderExecutor.GrinderExecutor.Check | bzt/modules/grinder.py:136-156 | the exit code from the poll is stored. The outcome is `Decide` of the poll and the results log: running, an exit error (the `RuntimeError`), empty results (the `RuntimeWarning`) or finished. The other settings are unchanged |
| Swagger.SwaggerConverter.constructor | bzt/modules/swagger.py:93-95 | a converter keeps its file name and has no specification yet |
| Swagger.SwaggerConverter.ReadSpec | bzt/modules/swagger.py:97-101 | the specification is loaded exactly when its file exists; a missing file raises and leaves the converter unchanged |
| Swagger.SwaggerConverter.ConvertToScenario | bzt/modules/swagger.py:104-123 | a missing file fails with `ValueError`; otherwise the specification is loaded and the result is its conversion |
| Swagger.CollectRequests | bzt/modules/swagger.py:117-121 | the loop builds one request per path, in order |
| Swagger.PyIAdd | bzt/modules/swagger.py:115 | a successful `+=` keeps its left operand as a prefix: a string is extended into a string that starts with it, a list into a list that starts with it; only strings, lists and numbers can be added to |
| Swagger.AddressOf | bzt/modules/swagger.py:111-115 | an address is only formed from a set, non-empty host; the `KeyError` only comes from a set base path |
| Swagger.Convert | bzt/modules/swagger.py:109-123 | a scenario is only produced from an object document whose `paths` is an object, and has an address only when the document has a host |
| Swagger.RequestsOfSpec | bzt/modules/swagger.py:117-121 | there are as many requests as paths, and the i-th request's url is the i-th path |
| Swagger.KeysMembers | bzt/modules/swagger.py:112-118 | a key is among the ordered dictionary's keys exactly when some member of the document has it, and exactly when `get` finds it |
| Swagger.KeysDistinct | bzt/modules/swagger.py:118 | the ordered dictionary iterates each key once |
| Swagger.KeysWithoutDuplicates | bzt/modules/swagger.py:101-118 | without duplicate keys in the document, the dictionary iterates the keys in document order |
| Swagger.AddressCases | bzt/modules/swagger.py:111-115 | there is no address exactly when neither host nor base path is set. A base path without a host raises `KeyError`. A host alone is the address. A host and a base path are joined by `+=`, which for two strings concatenates them with no separator |
| Swagger.ConvertOutcome | bzt/modules/swagger.py:104-123 | the conversion succeeds exactly when the document is an object, the address can be formed and `paths` is an object; each failure has its own cause |
| Swagger.RequestsArePaths | bzt/modules/swagger.py:117-121 | a converted scenario has exactly one request per key of `paths`, with that key as its url, in the dictionary's order and without repetition; the path objects play no part |
| Swagger.Petstore | tests/modules/test_swagger.py:6-25 | any document whose `host`, `basePath` and `paths` are those of the pet-store sample converts to the address `petstore.swagger.io/v2` and the fourteen requests in document order, wherever those members stand and whatever else the document and its path objects hold |

## Left out

- File system and process I/O are parameters:
  - the data log is an `Option<string>` per call (`None` while it does not exist), and the handle is its read offset;
  - included properties files and Swagger files are maps from path to content;
  - `os.path.exists` and `getsize` of the results log are a `kpiSize` argument;
  - the result of `process.poll()` is an argument.
- `os.path.realpath`: the script and the artifacts directory are given already resolved.
- GrinderReader.DataLogReader.Read: the generator protocol is not modelled. The `yield None` while the log cannot be opened becomes an empty result. The tuples a call yields come back together as a sequence.
- GrinderReader.Available: the 1 MB size hint of `readlines()` is a `budget` argument counted in characters. `readlines` stops only at line ends, and the model allows any cut. `ChunkSplit` shows the cut does not change the samples as long as no line raises. When a line raises, the rest of its batch is lost, so where the cut falls decides which later lines are read at all.
- Floating point: the reader keeps durations in integer milliseconds rather than dividing them by `1000.0`. The timestamp is the exact truncating division. Float rounding of very large values is not modelled.
- GrinderExecutor.IntervalPairs: the interval uses the truncating quotient. With integer ramp-up and concurrency, Python 2's `/` floors instead. The two agree for the non-negative ramp-up and positive concurrency a load has, and differ only for negative operands.
- GrinderExecutor.Load: ramp-up and duration are whole seconds. A fractional duration and float rounding in `1000 * ramp_up / concurrency` are not modelled.
- Python 2 dictionary iteration order: the base and scenario `properties` dictionaries are sequences in their iteration order.
- `"%s" % val` of an arbitrary dictionary value: values are given already rendered as strings.
- The reader of `.properties` text is a simplified partner of Java's format. It has no escapes, no continuation lines, no `:` separator and no whitespace trimming. The read-back lemmas therefore require keys without `=`, newlines or a leading `#`, and values without newlines.
- Logging calls and the texts of the exceptions `check` raises.
- `prepare`, `startup`, `shutdown`, `post_process` and the generation of a script from requests: they run the process and are not part of this model.
- `bzt/modules/services.py` is not part of this model.
- `json.load` and the YAML loader (`OrderedDictYAMLLoader`): the specification is given as a parsed JSON value. Invalid JSON and JSON numbers with a fraction are not modelled.
- `SwaggerConverterService` is not part of this model: its lifecycle methods do nothing.
- Swagger.PyIAdd: `list += ...` in Python extends the host list in place, and that list is shared with the loaded specification. The model computes the new list as a value and does not show that mutation.
- `bzt.six.iteritems` is not part of this model. A `paths` entry that is missing or not an object is modelled as the one failure `PathsNotMapping`, whatever exception class that raises.
