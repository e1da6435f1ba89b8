# somtoday-takeout, verified model of the export core

`takeout.py` downloads a student's grades from the Somtoday REST API and
writes them to JSON files. It finds the student's identifier and
placements (`plaatsingen`). For each placement it then:

- fetches the subject averages (`vakgemiddelden`);
- writes them to `<out>/<year label>/averages.json`;
- for every average entry (`gemiddelden`), fetches the subject's grades and
  writes them to `subjects/<slug>_grades.json`, then fetches its exam grades
  and writes them to `exam_grades/<slug>_grades.json`, both under the same
  directory.

Every response except the student list passes through `strip_metadata`
before it is used; the student identifier is read from the raw student
list. `strip_metadata` removes the keys `links`, `permissions` and `$type`
at every depth.

This Dafny project models that core:

- `errors.dfy` (module `Errors`): the exceptions the script can raise, and a
  `Result` type that carries them.
- `json.dfy` (module `JsonValues`): decoded JSON values. A dict is an
  association list in insertion order.
- `access.dfy` (module `Access`): the Python operations the script applies to
  those values. These are `x[key]`, `x[0]`, `x.get(key, default)`, iteration,
  `str(x)` inside an f-string, and the receiver check of `.replace`. Each one
  fails with the exception Python would raise on a value of the wrong shape.
- `sanitizer.dfy` (modules `Sanitizer`, `SanitizerProofs`): `strip_metadata`
  and its properties. It keeps scalars unchanged and maps lists pointwise.
  It removes metadata at every depth and keeps the surviving keys in order.
  The fixed points are exactly the clean values, it is idempotent, and it
  keeps keys unique.
- `paths.dfy` (module `PathBuilder`): the year label, the subject slug and
  the three output paths.
- `takeout.dfy` (module `Takeout`): the run of `main`.
  - The HTTP API is an oracle, a function from request to response or
    error.
  - A file write is a `(path, value)` pair.
  - The run is specified by recursive functions that return the ordered
    writes and whether the run completed or aborted with an error.
  - The loops of `main` are methods with `while` loops, proved equal to
    those functions.
- `takeout_proofs.dfy` (module `TakeoutProofs`): what the run promises.
  - Every written file is clean, and its path starts with `<out>/`.
  - A placement writes its averages file first.
  - When a placement's subject loop completes, entry k of `gemiddelden` has
    written files 2k and 2k+1 of that loop: its grades file, then its
    exam-grades file. Counted among all of the placement's files, which begin
    with `averages.json`, these are then files 2k+1 and 2k+2. A loop that
    aborts stops after the failing entry's files, if any.
  - The first failure stops the whole run.
  - The student identifier can only be read from the unstripped response.
- `scenario.dfy` (module `Scenario`): one complete export traced through the
  model: one placement with one subject, ending in exactly three files.

Every failure of the script is fatal. An exception propagates out of `main`,
so the model's run ends with `Aborted(error)` and keeps the files written
before the failure.

## Model

| member | source | states |
|---|---|---|
| Access.Subscript | takeout.py:37 | `x[key]` succeeds exactly on a dict holding the key, with a value stored under it; otherwise KeyError on a dict, TypeError on anything else |
| Access.First | takeout.py:37 | `x[0]` gives the first list element or first character; IndexError on an empty list or string, KeyError on a dict, TypeError on any other value |
| Access.Get | takeout.py:45 | `x.get(key, default)` works exactly on dicts: the stored value when the key is present, the default when it is absent |
| Access.Iterate | takeout.py:45 | a `for` loop visits a list's items in order, a dict's keys, a string's characters; null, booleans and numbers are not iterable |
| Access.AsText | takeout.py:54 | `.replace` has a receiver exactly when the value is a str, and then works on that str |
| Access.Str | takeout.py:54 | an f-string inserts a str as is, an int as its decimal text (with '-' when negative), None/True/False by name |
| Access.Decimal | takeout.py:54 | the decimal text of a grade year is non-empty, all digits, with no leading zero |
| Access.DecimalRoundTrip | takeout.py:54 | reading the decimal text of `leerjaar` back gives the number, so distinct grade years give distinct decimal texts |
| JsonValues.Lookup | takeout.py:37 | a dict lookup finds nothing exactly when the key is absent, and otherwise the value at the key's first occurrence |
| JsonValues.Keys | takeout.py:21 | the keys of a dict, one per entry, in insertion order |
| Sanitizer.Strip | takeout.py:15-24 | lists stay lists and dicts stay dicts |
| Sanitizer.StripItems | takeout.py:16-17 | the list comprehension keeps the length, and element i is the stripped element i |
| Sanitizer.StripFields | takeout.py:19-23 | the dict comprehension never grows the dict and leaves no metadata key at its top level |
| SanitizerProofs.StripKeepsScalars | takeout.py:24 | None, bools, numbers and strings are returned unchanged |
| SanitizerProofs.StripMapsLists | takeout.py:16-17 | a list becomes a list of the same length whose element i is element i stripped |
| SanitizerProofs.StripFieldsAppend | takeout.py:19-23 | stripping a dict works entry by entry, so the surviving keys keep their relative order |
| SanitizerProofs.StripFieldsSingle | takeout.py:22 | an entry is dropped exactly when its key is `links`, `permissions` or `$type`, and otherwise kept with its value stripped |
| SanitizerProofs.StripLookup | takeout.py:19-23 | in a stripped dict a metadata key is absent, and every other key finds the stripped version of its original value, or nothing when it was absent |
| SanitizerProofs.StripRemovesMetadata | takeout.py:15-24 | the result holds no metadata key at any depth, inside lists included |
| SanitizerProofs.StripFieldsRemoveMetadata | takeout.py:19-23 | every value kept by the dict comprehension is metadata-free at every depth |
| SanitizerProofs.StripFixedPoints | takeout.py:15-24 | a value is left unchanged exactly when it holds no metadata key at any depth |
| SanitizerProofs.StripFieldsFixedPoints | takeout.py:19-23 | a dict is left unchanged exactly when none of its keys is metadata and all its values are clean |
| SanitizerProofs.StripIdempotent | takeout.py:15-24 | stripping an already stripped value gives it back unchanged |
| SanitizerProofs.StripPreservesWellFormed | takeout.py:15-24 | a value whose dicts have unique keys keeps that property after stripping |
| SanitizerProofs.StripFieldsPreserveWellFormed | takeout.py:19-23 | the dict comprehension introduces no duplicate key |
| SanitizerProofs.StripFieldsKeys | takeout.py:19-23 | every key of the stripped dict was a key of the original |
| SanitizerProofs.StripExample | takeout.py:15-24 | `{"a":1,"b":{"links":[],"c":2}}` becomes `{"a":1,"b":{"c":2}}` |
| PathBuilder.Delete | takeout.py:54 | `.replace(c, '')`, every `c` deleted; DeleteRemovesOnly (no `c` left, exactly the `c`s removed, all else counted the same) and DeleteAppend (order kept) characterise it |
| PathBuilder.DeleteRemovesOnly | takeout.py:54 | `.replace('/', '')` leaves no '/', removes exactly the '/' characters and keeps the count of every other character |
| PathBuilder.DeleteAppend | takeout.py:54 | deleting '/' works character by character, so what survives keeps its order |
| PathBuilder.DeleteSeparator | takeout.py:54 | a school year "first/second" becomes "firstsecond" |
| PathBuilder.Replace | takeout.py:63 | `.replace(a, b)` with one-character arguments; ReplaceCharwise states that it keeps the length and maps each `a` to `b` position by position |
| PathBuilder.ReplaceCharwise | takeout.py:63 | `.replace(a, b)` with one-character arguments keeps the length and maps each `a` to `b` |
| PathBuilder.LowerChar | takeout.py:63 | an ASCII capital becomes its lower-case letter (32 code points on), every other character stays as it is |
| PathBuilder.Lower | takeout.py:63 | `.lower()`; LowerCharwise states that it keeps the length and applies LowerChar position by position |
| PathBuilder.LowerCharwise | takeout.py:63 | `.lower()` keeps the length and works character by character |
| PathBuilder.Slug | takeout.py:63 | the slug has the name's length, and position i is '-' for a '/' or a space and the lower-cased character otherwise; SlugIsCharwise and SlugFromChars draw the consequences |
| PathBuilder.SlugIsCharwise | takeout.py:63 | the slug has the name's length and maps it character by character; it has no '/', no space and no upper-case ASCII letter |
| PathBuilder.SlugFromChars | takeout.py:63 | conversely, any string that maps the name character by character is its slug |
| PathBuilder.SlugIdempotent | takeout.py:63 | a slug is its own slug |
| PathBuilder.SlugCollision | takeout.py:63 | "Wiskunde A" and "wiskunde/a" get the same slug, so their files share a path |
| PathBuilder.SlugExample | takeout.py:63 | "Natuur/Scheikunde Extra" becomes "natuur-scheikunde-extra" |
| PathBuilder.YearLabel | takeout.py:54 | the label's length is the four fields' lengths plus three '-' separators, minus one for every '/' in the school year; YearLabelIsOneSegment, YearLabelExample and YearLabelOfPresent characterise it further |
| PathBuilder.YearLabelIsOneSegment | takeout.py:54 | the label holds no '/' when program, grade year and group hold none, whatever the school year |
| PathBuilder.SchoolYearExample | takeout.py:54 | "2023/2024" becomes "20232024" |
| PathBuilder.YearLabelExample | takeout.py:54 | HAVO, 4, H4A, 2023/2024 give the label "HAVO-4-H4A-20232024" |
| PathBuilder.AveragesPath | takeout.py:56 | `<out>/<label>/averages.json`; PathsUnderLabel and PathsDistinct state where it lies and that no grade path equals it |
| PathBuilder.GradesPath | takeout.py:76 | `<out>/<label>/subjects/<slug>_grades.json`; PathsDistinct states that it determines its slug and never equals an exam-grades path |
| PathBuilder.ExamGradesPath | takeout.py:85 | `<out>/<label>/exam_grades/<slug>_grades.json`; PathsDistinct states that it determines its slug |
| PathBuilder.PathsUnderLabel | takeout.py:56-85 | all three paths of a placement start with `<out>/<label>/` |
| PathBuilder.PathsDistinct | takeout.py:56-85 | for one output directory and one year label, the averages, grades and exam-grades paths never coincide, and a grades or exam-grades path determines its slug |
| Takeout.FetchStripped | takeout.py:49-52 | a fetched-and-stripped response succeeds exactly when the request does; it is clean and is the stripped body, and a failure carries the request's error |
| Takeout.ItemsOf | takeout.py:75 | `grades.get("items", grades)` works exactly on dicts: the value under "items" when present, otherwise the whole object, and clean input gives clean output |
| Takeout.GradeWrite | takeout.py:73-77 | a grade write succeeds exactly when the request succeeds with a dict; it stores at the given path the "items" value of the stripped response when present and otherwise the whole stripped object, which is clean; a failed request gives its error, a non-dict response AttributeError |
| Takeout.StudentId | takeout.py:37 | `student_info["items"][0]["links"][0]["id"]`, failing with the first exception on the way; StudentIdNeedsRawResponse and ScenarioStudentId characterise it |
| Takeout.YearLabelOf | takeout.py:54 | the four fields read and formatted in f-string order, the first missing or unformattable one ending the run; YearLabelOfPresent gives the label when all are present |
| Takeout.SubjectFields | takeout.py:59-64 | the subject UUID, the slug of the subject name and the lichting UUID of one average entry; SubjectFieldsPresent gives the result when all are present |
| Takeout.SubjectRun | takeout.py:59-86 | one subject's writes and outcome; SubjectRunCompleted, SubjectRunCompletes and SubjectRunExported characterise it |
| Takeout.SubjectsRun | takeout.py:58-86 | the loop over `gemiddelden`; SubjectsRunPair, SubjectsRunLength, SubjectsRunAppend and SubjectsRunExported characterise it, and ExportSubjects implements it |
| Takeout.PlacementRun | takeout.py:46-86 | one placement's writes and outcome; PlacementAveragesFirst, PlacementRunProceeds, AveragesFailureAbortsPlacement and PlacementRunExported characterise it, and ExportPlacement implements it |
| Takeout.PlacementsRun | takeout.py:45-86 | the loop over the placements; PlacementsRunAppend, FailFast, AveragesFailureStopsRun and PlacementsRunExported characterise it |
| Takeout.ExportRun | takeout.py:34-86 | the whole run of `main`; ExportWritesCleanFiles, ExportRunProceeds and ScenarioExport characterise it, and Export implements it |
| Takeout.ThenIdentity | takeout.py:45-86 | a run with nothing written before it is unchanged |
| Takeout.ThenAssociative | takeout.py:45-86 | sequencing runs is associative, so a loop can be cut at any iteration |
| Takeout.PlacementsRunStep | takeout.py:45 | the placement loop from position i on runs placement i, then the remaining placements |
| Takeout.SubjectsRunStep | takeout.py:58 | the subject loop from position k on runs entry k, then the remaining entries |
| Takeout.ThenStep | takeout.py:45-86 | one loop iteration either aborts with all files written so far, or continues after them |
| Takeout.Export | takeout.py:34-86 | `main` writes exactly the files of the specified run, in its order, and ends as it does |
| Takeout.ExportPlacement | takeout.py:46-86 | one iteration of the placement loop writes exactly the placement's specified files and outcome |
| Takeout.ExportSubjects | takeout.py:58-86 | the loop over `gemiddelden` writes exactly the specified files of the subjects, in order, stopping at the first failure |
| Takeout.ExportSubject | takeout.py:59-86 | one subject writes exactly its specified files and outcome |
| TakeoutProofs.ThenExported | takeout.py:45-86 | sequencing keeps "every file clean, every path starting with `<out>/`" |
| TakeoutProofs.UnderOutput | takeout.py:56 | a path starting with `<out>/<label>/` starts with `<out>/` |
| TakeoutProofs.SubjectRunExported | takeout.py:59-86 | a subject's files are clean, with paths starting with `<out>/` |
| TakeoutProofs.SubjectsRunExported | takeout.py:58-86 | all subject files of a placement are clean, with paths starting with `<out>/` |
| TakeoutProofs.PlacementRunExported | takeout.py:46-86 | all files of a placement are clean, with paths starting with `<out>/` |
| TakeoutProofs.PlacementsRunExported | takeout.py:45-86 | all files of all placements are clean, with paths starting with `<out>/` |
| TakeoutProofs.ExportWritesCleanFiles | takeout.py:34-86 | no file the export writes holds `links`, `permissions` or `$type` at any depth, and every path starts with `<out>/` |
| TakeoutProofs.SubjectRunCompleted | takeout.py:59-86 | a subject completes only by writing its grades file and then its exam-grades file, at their paths, each holding its unwrapped stripped response |
| TakeoutProofs.ThenCompleted | takeout.py:45-86 | a completed sequence of runs is both runs completed, their files concatenated |
| TakeoutProofs.SubjectsRunHead | takeout.py:58-86 | in a completed subject loop the first subject wrote exactly two files, before the rest |
| TakeoutProofs.SubjectsRunLength | takeout.py:58-86 | a completed subject loop writes exactly two files per `gemiddelden` entry |
| TakeoutProofs.WrotePairShift | takeout.py:58-86 | putting one subject's two files in front moves every later pair up by one |
| TakeoutProofs.SubjectsRunFirstPair | takeout.py:58-86 | the first subject's files are files 0 and 1 of the loop |
| TakeoutProofs.SubjectsRunShiftPair | takeout.py:58-86 | pair j of the remaining subjects is pair j+1 of the whole loop |
| TakeoutProofs.SubjectsRunPair | takeout.py:58-86 | in a completed subject loop, files 2k and 2k+1 are exactly what entry k's own run writes |
| TakeoutProofs.SubjectsRunLaterPair | takeout.py:58-86 | the same for every entry after the first |
| TakeoutProofs.PlacementAveragesFirst | takeout.py:49-58 | a placement writes nothing before its averages are fetched and its label formed; its first file is `<out>/<label>/averages.json` with the whole stripped averages, and the rest are its subjects' files |
| TakeoutProofs.PlacementsRunAppend | takeout.py:45 | running two lists of placements one after the other is running the first, then the second only if the first completed |
| TakeoutProofs.SubjectsRunAppend | takeout.py:58 | the same for the subjects of a placement |
| TakeoutProofs.FailFast | takeout.py:45-86 | once the placements so far have aborted, later placements add no file and do not change the outcome |
| TakeoutProofs.AveragesFailureAbortsPlacement | takeout.py:49-52 | a placement whose averages request fails writes nothing and aborts with that error |
| TakeoutProofs.AveragesFailureStopsRun | takeout.py:45-52 | such a failure ends the whole run with exactly the earlier placements' files and that error |
| TakeoutProofs.ThenAbortedRun | takeout.py:45-86 | a completed run followed by an immediate failure keeps the first run's files and takes the error |
| TakeoutProofs.YearLabelGradeYearInjective | takeout.py:54 | with program, group and school year equal, distinct grade years give distinct year labels |
| TakeoutProofs.CleanHasNoLinks | takeout.py:22 | a stripped dict has no "links" key |
| TakeoutProofs.StudentIdNeedsRawResponse | takeout.py:36-37 | reading `["items"][0]["links"][0]["id"]` from a stripped response always fails, so the identifier must come from the raw one |
| TakeoutProofs.ItemsOfExample | takeout.py:75 | `{"items":[1,2,3]}` is stored as `[1,2,3]`, and `{"gemiddelden":[]}` as itself |
| TakeoutProofs.YearLabelOfPresent | takeout.py:54 | a placement with all four fields present gets the label of program, decimal grade year, group and school year |
| TakeoutProofs.SubjectFieldsPresent | takeout.py:59-64 | an average entry with all fields present yields the subject UUID, the slug of the subject name and the lichting UUID |
| TakeoutProofs.SubjectRunCompletes | takeout.py:73-86 | a subject whose fields and requests succeed writes grades, then exam grades, and completes |
| TakeoutProofs.PlacementRunProceeds | takeout.py:49-58 | a placement whose UUID, averages, label and list are present writes the averages file, then runs its subjects |
| TakeoutProofs.PlacementsRunSingle | takeout.py:45 | a single placement's loop is that placement's run |
| TakeoutProofs.ExportRunProceeds | takeout.py:36-45 | with identifier and placement list in hand, `main` is the loop over the placements |
| TakeoutProofs.StripItemsResponse | takeout.py:73 | a response `{"items":[x]}` strips to `{"items":[strip(x)]}` |
| TakeoutProofs.GradeWriteOfItems | takeout.py:73-77 | a grades response `{"items":[x]}` is stored as `[strip(x)]` |
| Scenario.ScenarioPlacementStripped | takeout.py:40-43 | stripping the sample placement drops its links and keeps every other field |
| Scenario.ScenarioYearLabel | takeout.py:54 | the sample placement's label is "VWO-5-V5B-20222023" |
| Scenario.ScenarioSlug | takeout.py:63 | "Wiskunde B" becomes "wiskunde-b" |
| Scenario.ScenarioSubjectFields | takeout.py:59-64 | the sample entry yields subject "s-1", slug "wiskunde-b", lichting "l-1" |
| Scenario.ScenarioGradesWrite | takeout.py:73-77 | the sample grades are stored without `$type`, unwrapped from "items" |
| Scenario.ScenarioExamsWrite | takeout.py:82-86 | the sample exam grades are stored without `permissions`, unwrapped from "items" |
| Scenario.ScenarioSubject | takeout.py:59-86 | the sample subject writes its grades file, then its exam-grades file |
| Scenario.ScenarioAveragesFetch | takeout.py:49-52 | the sample averages, already clean, are stored unchanged |
| Scenario.ScenarioPlacement | takeout.py:46-86 | the sample placement writes averages, grades and exam grades, in that order |
| Scenario.ScenarioStudentId | takeout.py:36-37 | the sample student identifier is read from the raw response's first link |
| Scenario.ScenarioExport | takeout.py:34-86 | the whole sample export writes exactly three files, in order, and completes |

## Left out

- `fetch_json` (HTTP through `requests`, `raise_for_status`) is an oracle `Api` from request to decoded body or `HttpError`. Headers, the token and the JSON decoder are not modelled.
- `write_json` (`os.makedirs`, opening the file, `json.dump` with indent 2) becomes a `(path, value)` pair in the run. Filesystem failures, the serialised text and the overwrite of a file written twice are not modelled. SlugCollision shows when that overwrite happens.
- URL text and the fixed query string: a request is identified by its kind and the identifiers its URL carries.
- The argparse command line and every progress `print`: interface plumbing only.
- Directory escape: the program and group names are not cleaned of '/' in the source, so a name with '/' or `..` adds directories below `<out>` or leads outside it once the path is resolved. The model proves only that every path string starts with `<out>/`; YearLabelIsOneSegment states when the label is a single segment.
- JSON floating-point numbers: numbers are integers, and floats pass through the exporter untouched.
- Access.Str: the `repr` of a list or dict inside an f-string is not modelled. Such a field ends the run with `ReprNotModelled` instead of producing a label.
- PathBuilder.LowerChar: lower-cases ASCII `A`-`Z` only. Python's full Unicode `str.lower`, which can change a string's length, is not modelled.
- JsonValues.Lookup: a dict with a repeated key is not something Python produces. The association list answers with the first occurrence, and WellFormed with StripPreservesWellFormed shows stripping never creates a repeat.
- Takeout.SubjectFields: the source looks up `avg["vakkeuze"]` twice. The model looks it up once, because both lookups give the same value.
- Python exceptions are `Err` values that end the run with `Aborted(error)`. The traceback and the process exit are not modelled.
- The two nested loops of `main` are four methods: Export, ExportPlacement, ExportSubjects and ExportSubject. The loop bodies are separate methods called from the loops.
