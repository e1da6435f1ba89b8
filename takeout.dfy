/** The export run of `main`: the walk over placements and their subject
    averages that decides which file is written with which JSON value, in
    which order, and where a failure stops the run. HTTP is an oracle from
    request to response; a file write is a (path, value) pair. */
module Takeout {
  import opened Errors
  import opened JsonValues
  import opened Access
  import opened Sanitizer
  import opened PathBuilder
  import SanitizerProofs

  /** The five kinds of GET request, with the identifiers each URL carries. */
  datatype Request =
    | StudentList
    | PlacementList(studentId: Json)
    | SubjectAverages(placementUuid: Json)
    | Grades(studentId: Json, subjectUuid: Json, lichtingUuid: Json, placementUuid: Json)
    | ExamGrades(studentId: Json, subjectUuid: Json, lichtingUuid: Json, placementUuid: Json)

  /** The API: the decoded body of a successful response, or HttpError. */
  type Api = Request -> Result<Json>

  /** One `write_json(data, filepath)` call. */
  datatype FileWrite = FileWrite(path: string, data: Json)

  datatype Outcome = Completed | Aborted(error: Error)

  /** The files written, in order, and how the run ended. */
  datatype Run = Run(writes: seq<FileWrite>, outcome: Outcome)

  /** Running `b` after `a`: nothing of `b` happens once `a` has aborted. */
  function Then(a: Run, b: Run): Run
  {
    if a.outcome.Aborted? then a else Run(a.writes + b.writes, b.outcome)
  }

  /** `strip_metadata(fetch_json(url, token))`: the response without its
      metadata, or the request's failure. */
  function FetchStripped(api: Api, q: Request): (r: Result<Json>)
    ensures r.Ok? <==> api(q).Ok?
    ensures r.Ok? ==> Clean(r.value) && r.value == Strip(api(q).value)
    ensures r.Err? ==> r.error == api(q).error
  {
    match api(q)
    case Ok(body) =>
      SanitizerProofs.StripRemovesMetadata(body);
      Ok(Strip(body))
    case Err(e) => Err(e)
  }

  /** `x.get("items", x)`: the value under "items" when there is one, the
      whole object otherwise; a non-dict has no `get`. */
  function ItemsOf(x: Json): (r: Result<Json>)
    ensures r.Ok? <==> x.JObj?
    ensures x.JObj? && "items" in Keys(x.fields) ==> ("items", r.value) in x.fields
    ensures x.JObj? && "items" !in Keys(x.fields) ==> r.value == x
    ensures Clean(x) && r.Ok? ==> Clean(r.value)
  {
    Get(x, "items", x)
  }

  /** `student_info["items"][0]["links"][0]["id"]`, read from the raw
      response. */
  function StudentId(info: Json): Result<Json>
  {
    var items :- Subscript(info, "items");
    var first :- First(items);
    var links :- Subscript(first, "links");
    var link :- First(links);
    Subscript(link, "id")
  }

  /** The year label of a placement record, each field formatted as an
      f-string formats it, in the order the f-string evaluates them. */
  function YearLabelOf(placement: Json): Result<string>
  {
    var program :- Subscript(placement, "opleidingsnaam");
    var programText :- Str(program);
    var gradeYear :- Subscript(placement, "leerjaar");
    var gradeYearText :- Str(gradeYear);
    var group :- Subscript(placement, "stamgroepnaam");
    var groupText :- Str(group);
    var schoolYear :- Subscript(placement, "schooljaar");
    var name :- Subscript(schoolYear, "naam");
    var nameText :- AsText(name);
    Ok(YearLabel(programText, gradeYearText, groupText, nameText))
  }

  /** From one `gemiddelden` entry: the subject UUID, the subject slug and the
      lichting UUID. */
  function SubjectFields(avg: Json): Result<(Json, string, Json)>
  {
    var choice :- Subscript(avg, "vakkeuze");   // looked up twice in the source, with the same result
    var subject :- Subscript(choice, "vak");
    var lichting :- Subscript(choice, "lichting");
    var subjectUuid :- Subscript(subject, "UUID");
    var name :- Subscript(subject, "naam");
    var nameText :- AsText(name);
    var lichtingUuid :- Subscript(lichting, "UUID");
    Ok((subjectUuid, Slug(nameText), lichtingUuid))
  }

  /** Fetch, strip, unwrap "items", and the write of the result to `path`. */
  function GradeWrite(api: Api, q: Request, path: string): (r: Result<FileWrite>)
    ensures r.Ok? <==> api(q).Ok? && api(q).value.JObj?
    ensures r.Ok? ==> r.value == FileWrite(path, ItemsOf(Strip(api(q).value)).value)
    ensures r.Ok? ==> Clean(r.value.data)
    ensures api(q).Err? ==> r == Err(api(q).error)
    ensures api(q).Ok? && !api(q).value.JObj? ==> r == Err(AttributeError("get"))
  {
    var grades :- FetchStripped(api, q);
    var data :- ItemsOf(grades);
    Ok(FileWrite(path, data))
  }

  /** One subject: its grades file, then its exam-grades file. */
  function SubjectRun(api: Api, out: string, studentId: Json, placementUuid: Json,
                      yearLabel: string, avg: Json): Run
  {
    match SubjectFields(avg)
    case Err(e) => Run([], Aborted(e))
    case Ok(fields) =>
      var subjectUuid, slug, lichtingUuid := fields.0, fields.1, fields.2;
      match GradeWrite(api, Grades(studentId, subjectUuid, lichtingUuid, placementUuid),
                       GradesPath(out, yearLabel, slug))
      case Err(e) => Run([], Aborted(e))
      case Ok(grades) =>
        match GradeWrite(api, ExamGrades(studentId, subjectUuid, lichtingUuid, placementUuid),
                         ExamGradesPath(out, yearLabel, slug))
        case Err(e) => Run([grades], Aborted(e))
        case Ok(exams) => Run([grades, exams], Completed)
  }

  /** The subjects of one placement, in the order of its `gemiddelden`. */
  function SubjectsRun(api: Api, out: string, studentId: Json, placementUuid: Json,
                       yearLabel: string, avgs: seq<Json>): Run
  {
    if avgs == [] then Run([], Completed)
    else Then(SubjectRun(api, out, studentId, placementUuid, yearLabel, avgs[0]),
              SubjectsRun(api, out, studentId, placementUuid, yearLabel, avgs[1..]))
  }

  /** One placement: its averages file, then its subjects. */
  function PlacementRun(api: Api, out: string, studentId: Json, placement: Json): Run
  {
    match Subscript(placement, "UUID")
    case Err(e) => Run([], Aborted(e))
    case Ok(placementUuid) =>
      match FetchStripped(api, SubjectAverages(placementUuid))
      case Err(e) => Run([], Aborted(e))
      case Ok(averages) =>
        match YearLabelOf(placement)
        case Err(e) => Run([], Aborted(e))
        case Ok(yearLabel) =>
          var written := [FileWrite(AveragesPath(out, yearLabel), averages)];
          match Get(averages, "gemiddelden", JArr([]))
          case Err(e) => Run(written, Aborted(e))
          case Ok(list) =>
            match Iterate(list)
            case Err(e) => Run(written, Aborted(e))
            case Ok(avgs) =>
              Then(Run(written, Completed), SubjectsRun(api, out, studentId, placementUuid, yearLabel, avgs))
  }

  /** The placements, in the order the API returned them. */
  function PlacementsRun(api: Api, out: string, studentId: Json, placements: seq<Json>): Run
  {
    if placements == [] then Run([], Completed)
    else Then(PlacementRun(api, out, studentId, placements[0]),
              PlacementsRun(api, out, studentId, placements[1..]))
  }

  /** The whole run of `main(token, out)`. */
  function ExportRun(api: Api, out: string): Run
  {
    match api(StudentList)
    case Err(e) => Run([], Aborted(e))
    case Ok(info) =>
      match StudentId(info)
      case Err(e) => Run([], Aborted(e))
      case Ok(studentId) =>
        match FetchStripped(api, PlacementList(studentId))
        case Err(e) => Run([], Aborted(e))
        case Ok(placements) =>
          match Get(placements, "items", JArr([]))
          case Err(e) => Run([], Aborted(e))
          case Ok(list) =>
            match Iterate(list)
            case Err(e) => Run([], Aborted(e))
            case Ok(items) => PlacementsRun(api, out, studentId, items)
  }

  lemma ThenIdentity(r: Run)
    ensures Then(Run([], Completed), r) == r
  {
    assert [] + r.writes == r.writes;
  }

  lemma ThenAssociative(a: Run, b: Run, c: Run)
    ensures Then(Then(a, b), c) == Then(a, Then(b, c))
  {
    if a.outcome.Completed? && b.outcome.Completed? {
      assert a.writes + b.writes + c.writes == a.writes + (b.writes + c.writes);
    }
  }

  /** One loop step: after the files written so far, running `a` and then
      `rest` either aborts with everything `a` wrote, or continues with
      `rest` after the longer prefix. */
  lemma ThenStep(writes: seq<FileWrite>, a: Run, rest: Run)
    ensures a.outcome.Aborted? ==>
      Then(Run(writes, Completed), Then(a, rest)) == Run(writes + a.writes, a.outcome)
    ensures a.outcome.Completed? ==>
      Then(Run(writes, Completed), Then(a, rest)) == Then(Run(writes + a.writes, Completed), rest)
  {
    ThenAssociative(Run(writes, Completed), a, rest);
  }

  /** The placement loop from position i on is placement i, then the rest. */
  lemma PlacementsRunStep(api: Api, out: string, sid: Json, ps: seq<Json>, i: nat)
    requires i < |ps|
    ensures PlacementsRun(api, out, sid, ps[i..]) == Then(PlacementRun(api, out, sid, ps[i]), PlacementsRun(api, out, sid, ps[i + 1..]))
  {
    assert ps[i..][0] == ps[i] && ps[i..][1..] == ps[i + 1..];
  }

  /** The subject loop from position k on is subject k, then the rest. */
  lemma SubjectsRunStep(api: Api, out: string, sid: Json, puuid: Json, yearLabel: string, avgs: seq<Json>, k: nat)
    requires k < |avgs|
    ensures SubjectsRun(api, out, sid, puuid, yearLabel, avgs[k..])
         == Then(SubjectRun(api, out, sid, puuid, yearLabel, avgs[k]), SubjectsRun(api, out, sid, puuid, yearLabel, avgs[k + 1..]))
  {
    assert avgs[k..][0] == avgs[k] && avgs[k..][1..] == avgs[k + 1..];
  }

  /** `main`: fetch the student's identifier and placements, then export
      each placement in turn, stopping at the first failure. */
  method Export(api: Api, out: string) returns (writes: seq<FileWrite>, outcome: Outcome)
    ensures Run(writes, outcome) == ExportRun(api, out)
  {
    var info := api(StudentList);
    if info.Err? {
      return [], Aborted(info.error);
    }
    var studentId := StudentId(info.value);
    if studentId.Err? {
      return [], Aborted(studentId.error);
    }
    var sid := studentId.value;
    var placements := FetchStripped(api, PlacementList(sid));
    if placements.Err? {
      return [], Aborted(placements.error);
    }
    var list := Get(placements.value, "items", JArr([]));
    if list.Err? {
      return [], Aborted(list.error);
    }
    var items := Iterate(list.value);
    if items.Err? {
      return [], Aborted(items.error);
    }
    var ps := items.value;
    ghost var run := PlacementsRun(api, out, sid, ps);
    assert ExportRun(api, out) == run;
    writes := [];
    var i := 0;
    assert ps[i..] == ps;
    ThenIdentity(run);
    while i < |ps|
      invariant 0 <= i <= |ps|
      invariant run == Then(Run(writes, Completed), PlacementsRun(api, out, sid, ps[i..]))
    {
      PlacementsRunStep(api, out, sid, ps, i);
      var written, placementOutcome := ExportPlacement(api, out, sid, ps[i]);
      ThenStep(writes, Run(written, placementOutcome), PlacementsRun(api, out, sid, ps[i + 1..]));
      writes := writes + written;
      if placementOutcome.Aborted? {
        return writes, placementOutcome;
      }
      i := i + 1;
    }
    assert ps[i..] == [];
    assert writes + [] == writes;
    outcome := Completed;
    assert Run(writes, outcome) == run;
  }

  /** The body of `main`'s loop over placements: the averages file, then the
      placement's subjects. */
  method ExportPlacement(api: Api, out: string, sid: Json, placement: Json)
    returns (writes: seq<FileWrite>, outcome: Outcome)
    ensures Run(writes, outcome) == PlacementRun(api, out, sid, placement)
  {
    var placementUuid := Subscript(placement, "UUID");
    if placementUuid.Err? {
      return [], Aborted(placementUuid.error);
    }
    var puuid := placementUuid.value;
    var averages := FetchStripped(api, SubjectAverages(puuid));
    if averages.Err? {
      return [], Aborted(averages.error);
    }
    var labelResult := YearLabelOf(placement);
    if labelResult.Err? {
      return [], Aborted(labelResult.error);
    }
    var yearLabel := labelResult.value;
    writes := [FileWrite(AveragesPath(out, yearLabel), averages.value)];
    var gemiddelden := Get(averages.value, "gemiddelden", JArr([]));
    if gemiddelden.Err? {
      return writes, Aborted(gemiddelden.error);
    }
    var avgList := Iterate(gemiddelden.value);
    if avgList.Err? {
      return writes, Aborted(avgList.error);
    }
    var avgs := avgList.value;
    var subjectWrites;
    subjectWrites, outcome := ExportSubjects(api, out, sid, puuid, yearLabel, avgs);
    writes := writes + subjectWrites;
  }

  /** `main`'s inner loop over a placement's `gemiddelden`, one subject
      after the other, stopping at the first failure. */
  method ExportSubjects(api: Api, out: string, sid: Json, puuid: Json, yearLabel: string, avgs: seq<Json>)
    returns (writes: seq<FileWrite>, outcome: Outcome)
    ensures Run(writes, outcome) == SubjectsRun(api, out, sid, puuid, yearLabel, avgs)
  {
    ghost var run := SubjectsRun(api, out, sid, puuid, yearLabel, avgs);
    writes := [];
    var k := 0;
    assert avgs[k..] == avgs;
    ThenIdentity(run);
    while k < |avgs|
      invariant 0 <= k <= |avgs|
      invariant run == Then(Run(writes, Completed), SubjectsRun(api, out, sid, puuid, yearLabel, avgs[k..]))
    {
      SubjectsRunStep(api, out, sid, puuid, yearLabel, avgs, k);
      var written, subjectOutcome := ExportSubject(api, out, sid, puuid, yearLabel, avgs[k]);
      ThenStep(writes, Run(written, subjectOutcome), SubjectsRun(api, out, sid, puuid, yearLabel, avgs[k + 1..]));
      writes := writes + written;
      if subjectOutcome.Aborted? {
        return writes, subjectOutcome;
      }
      k := k + 1;
    }
    assert avgs[k..] == [];
    assert writes + [] == writes;
    outcome := Completed;
    assert Run(writes, outcome) == run;
  }

  /** The body of the inner loop: the subject's fields, then its grades file,
      then its exam-grades file. */
  method ExportSubject(api: Api, out: string, sid: Json, puuid: Json, yearLabel: string, avg: Json)
    returns (writes: seq<FileWrite>, outcome: Outcome)
    ensures Run(writes, outcome) == SubjectRun(api, out, sid, puuid, yearLabel, avg)
  {
    var fields := SubjectFields(avg);
    if fields.Err? {
      return [], Aborted(fields.error);
    }
    var subjectUuid, slug, lichtingUuid := fields.value.0, fields.value.1, fields.value.2;
    var grades := GradeWrite(api, Grades(sid, subjectUuid, lichtingUuid, puuid), GradesPath(out, yearLabel, slug));
    if grades.Err? {
      return [], Aborted(grades.error);
    }
    var exams := GradeWrite(api, ExamGrades(sid, subjectUuid, lichtingUuid, puuid), ExamGradesPath(out, yearLabel, slug));
    if exams.Err? {
      return [grades.value], Aborted(exams.error);
    }
    return [grades.value, exams.value], Completed;
  }
}
