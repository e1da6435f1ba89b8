/** One complete export traced through the model: one student, one
    placement (VWO, grade year 5, group V5B, school year 2022/2023) and one
    subject "Wiskunde B" with one grade and one exam grade. */
module Scenario {
  import opened Errors
  import opened JsonValues
  import opened Access
  import opened Sanitizer
  import opened PathBuilder
  import opened Takeout
  import SanitizerProofs
  import opened TakeoutProofs

  const PlacementLinks := ("links", JArr([JObj([("id", JNum(7))])]))
  const PlacementFields := [
    ("UUID", JStr("p-1")),
    ("opleidingsnaam", JStr("VWO")),
    ("leerjaar", JNum(5)),
    ("stamgroepnaam", JStr("V5B")),
    ("schooljaar", JObj([("naam", JStr("2022/2023"))]))]
  /** A placement as the server sends it, with its hypermedia links. */
  const PlacementRecord := JObj([PlacementLinks] + PlacementFields)

  const AverageEntry := JObj([("vakkeuze", Choice)])
  const Averages := JObj([("gemiddelden", JArr([AverageEntry]))])

  const GradeItem := JObj([("$type", JStr("Resultaat")), ("cijfer", JStr("7,5"))])
  const ExamItem := JObj([("permissions", JArr([])), ("cijfer", JStr("6,8"))])

  /** The server's answers in this scenario. */
  function ScenarioApi(q: Request): Result<Json>
  {
    match q
    case StudentList =>
      Ok(JObj([("items", JArr([JObj([("links", JArr([JObj([("id", JNum(1234))])]))])]))]))
    case PlacementList(_) => Ok(JObj([("items", JArr([PlacementRecord]))]))
    case SubjectAverages(_) => Ok(Averages)
    case Grades(_, _, _, _) => Ok(JObj([("items", JArr([GradeItem]))]))
    case ExamGrades(_, _, _, _) => Ok(JObj([("items", JArr([ExamItem]))]))
  }

  const Sid := JNum(1234)
  const Puuid := JStr("p-1")
  const ScenarioLabel := "VWO-5-V5B-20222023"
  /** The placement's directory, `out/VWO-5-V5B-20222023`. */
  const Dir := "out/" + ScenarioLabel
  const AveragesFile := FileWrite(Dir + "/averages.json", Averages)
  const GradesFile := FileWrite(Dir + "/subjects/wiskunde-b_grades.json",
                                JArr([JObj([("cijfer", JStr("7,5"))])]))
  const ExamsFile := FileWrite(Dir + "/exam_grades/wiskunde-b_grades.json",
                               JArr([JObj([("cijfer", JStr("6,8"))])]))

  lemma PlacementFieldsClean()
    ensures Clean(JObj(PlacementFields))
  {
    forall kv | kv in PlacementFields
      ensures !IsMetadataKey(kv.0) && Clean(kv.1)
    {
    }
  }

  /** Stripping the placement drops its links and keeps every other field. */
  lemma ScenarioPlacementStripped()
    ensures Strip(PlacementRecord) == JObj(PlacementFields)
  {
    SanitizerProofs.StripFieldsAppend([PlacementLinks], PlacementFields);
    SanitizerProofs.StripFieldsSingle(PlacementLinks.0, PlacementLinks.1);
    PlacementFieldsClean();
    SanitizerProofs.StripFixedPoints(JObj(PlacementFields));
  }

  lemma SchoolYearText()
    ensures Delete("2022/2023", '/') == "20222023"
  {
    assert "2022/2023" == "2022" + ['/'] + "2023";
    DeleteSeparator("2022", "2023", '/');
  }

  lemma ScenarioLabelText()
    ensures YearLabel("VWO", "5", "V5B", "2022/2023") == ScenarioLabel
  {
    SchoolYearText();
  }

  lemma ProgramField()
    ensures Subscript(JObj(PlacementFields), "opleidingsnaam") == Ok(JStr("VWO"))
  {
  }

  lemma GradeYearField()
    ensures Subscript(JObj(PlacementFields), "leerjaar") == Ok(JNum(5))
  {
  }

  lemma GroupField()
    ensures Subscript(JObj(PlacementFields), "stamgroepnaam") == Ok(JStr("V5B"))
  {
  }

  lemma SchoolYearField()
    ensures Subscript(JObj(PlacementFields), "schooljaar") == Ok(JObj([("naam", JStr("2022/2023"))]))
    ensures Subscript(JObj([("naam", JStr("2022/2023"))]), "naam") == Ok(JStr("2022/2023"))
  {
  }

  lemma DecimalFive()
    ensures Decimal(5) == "5"
  {
  }

  /** The year label of the scenario's placement, slash removed. */
  lemma ScenarioYearLabel()
    ensures YearLabelOf(Strip(PlacementRecord)) == Ok(ScenarioLabel)
  {
    var fields := JObj(PlacementFields);
    assert YearLabelOf(fields) == Ok(YearLabel("VWO", Decimal(5), "V5B", "2022/2023")) by {
      ProgramField();
      GradeYearField();
      GroupField();
      SchoolYearField();
      YearLabelOfPresent(fields, "VWO", 5, "V5B", JObj([("naam", JStr("2022/2023"))]), "2022/2023");
    }
    assert YearLabel("VWO", Decimal(5), "V5B", "2022/2023") == ScenarioLabel by {
      DecimalFive();
      ScenarioLabelText();
    }
    ScenarioPlacementStripped();
  }

  /** A field list of one metadata pair followed by one plain pair strips to
      the plain pair alone. */
  lemma StripOneOfTwo(meta: string, m: Json, key: string, v: Json)
    requires IsMetadataKey(meta) && !IsMetadataKey(key) && !v.JArr? && !v.JObj?
    ensures Strip(JObj([(meta, m), (key, v)])) == JObj([(key, v)])
  {
    assert [(meta, m), (key, v)] == [(meta, m)] + [(key, v)];
    SanitizerProofs.StripFieldsAppend([(meta, m)], [(key, v)]);
    SanitizerProofs.StripFieldsSingle(meta, m);
    SanitizerProofs.StripFieldsSingle(key, v);
    SanitizerProofs.StripKeepsScalars(v);
  }

  lemma ScenarioSlug()
    ensures Slug("Wiskunde B") == "wiskunde-b"
  {
    var slug := "wiskunde-b";
    forall i | 0 <= i < |slug|
      ensures slug[i] == SlugChar("Wiskunde B"[i])
    {
    }
    SlugFromChars("Wiskunde B", slug);
  }

  const Subject := JObj([("UUID", JStr("s-1")), ("naam", JStr("Wiskunde B"))])
  const Lichting := JObj([("UUID", JStr("l-1"))])
  const Choice := JObj([("vak", Subject), ("lichting", Lichting)])

  lemma AverageFieldValues()
    ensures Subscript(AverageEntry, "vakkeuze") == Ok(Choice)
    ensures Subscript(Choice, "vak") == Ok(Subject)
    ensures Subscript(Choice, "lichting") == Ok(Lichting)
    ensures Subscript(Subject, "UUID") == Ok(JStr("s-1"))
    ensures Subscript(Subject, "naam") == Ok(JStr("Wiskunde B"))
    ensures Subscript(Lichting, "UUID") == Ok(JStr("l-1"))
  {
  }

  lemma ScenarioSubjectFields()
    ensures SubjectFields(AverageEntry) == Ok((JStr("s-1"), "wiskunde-b", JStr("l-1")))
  {
    assert SubjectFields(AverageEntry) == Ok((JStr("s-1"), Slug("Wiskunde B"), JStr("l-1"))) by {
      AverageFieldValues();
      SubjectFieldsPresent(AverageEntry, Choice, Subject, Lichting, JStr("s-1"), "Wiskunde B", JStr("l-1"));
    }
    ScenarioSlug();
  }

  lemma ScenarioAveragesPath()
    ensures AveragesPath("out", ScenarioLabel) == AveragesFile.path
  {
    assert "out" + "/" == "out/";
  }

  lemma ScenarioGradesPath()
    ensures GradesPath("out", ScenarioLabel, "wiskunde-b") == GradesFile.path
  {
    assert "out" + "/" == "out/";
    assert "/subjects/" + "wiskunde-b" + "_grades.json" == "/subjects/wiskunde-b_grades.json";
  }

  lemma ScenarioExamGradesPath()
    ensures ExamGradesPath("out", ScenarioLabel, "wiskunde-b") == ExamsFile.path
  {
    assert "out" + "/" == "out/";
    assert "/exam_grades/" + "wiskunde-b" + "_grades.json" == "/exam_grades/wiskunde-b_grades.json";
  }

  lemma ScenarioGradesWrite()
    ensures GradeWrite(ScenarioApi, Grades(Sid, JStr("s-1"), JStr("l-1"), Puuid),
                       GradesPath("out", ScenarioLabel, "wiskunde-b")) == Ok(GradesFile)
  {
    ScenarioGradesPath();
    GradeWriteOfItems(ScenarioApi, Grades(Sid, JStr("s-1"), JStr("l-1"), Puuid), GradesFile.path, GradeItem);
    StripOneOfTwo("$type", JStr("Resultaat"), "cijfer", JStr("7,5"));
  }

  lemma ScenarioExamsWrite()
    ensures GradeWrite(ScenarioApi, ExamGrades(Sid, JStr("s-1"), JStr("l-1"), Puuid),
                       ExamGradesPath("out", ScenarioLabel, "wiskunde-b")) == Ok(ExamsFile)
  {
    ScenarioExamGradesPath();
    GradeWriteOfItems(ScenarioApi, ExamGrades(Sid, JStr("s-1"), JStr("l-1"), Puuid), ExamsFile.path, ExamItem);
    StripOneOfTwo("permissions", JArr([]), "cijfer", JStr("6,8"));
  }

  /** The subject writes its grades file, then its exam-grades file, each
      with the response's items stripped of `$type` and `permissions`. */
  lemma ScenarioSubject()
    ensures SubjectRun(ScenarioApi, "out", Sid, Puuid, ScenarioLabel, AverageEntry) == Run([GradesFile, ExamsFile], Completed)
  {
    ScenarioGradesWrite();
    ScenarioExamsWrite();
    ScenarioSubjectFields();
    SubjectRunCompletes(ScenarioApi, "out", Sid, Puuid, ScenarioLabel, AverageEntry,
                        JStr("s-1"), "wiskunde-b", JStr("l-1"), GradesFile, ExamsFile);
  }

  lemma AveragesClean()
    ensures Strip(Averages) == Averages
  {
    assert Clean(Choice);
    assert Clean(Averages);
    SanitizerProofs.StripFixedPoints(Averages);
  }

  lemma ScenarioAveragesFetch()
    ensures FetchStripped(ScenarioApi, SubjectAverages(Puuid)) == Ok(Averages)
  {
    assert ScenarioApi(SubjectAverages(Puuid)) == Ok(Averages);
    AveragesClean();
  }

  lemma ScenarioSubjects()
    ensures SubjectsRun(ScenarioApi, "out", Sid, Puuid, ScenarioLabel, [AverageEntry]) == Run([GradesFile, ExamsFile], Completed)
  {
    ScenarioSubject();
    assert [AverageEntry][1..] == [];
    assert [GradesFile, ExamsFile] + [] == [GradesFile, ExamsFile];
  }

  /** The placement writes its averages, its grades and its exam grades, in
      that order, and completes. */
  lemma ScenarioPlacement()
    ensures PlacementRun(ScenarioApi, "out", Sid, Strip(PlacementRecord)) ==
      Run([AveragesFile, GradesFile, ExamsFile], Completed)
  {
    var placement := Strip(PlacementRecord);
    assert PlacementRun(ScenarioApi, "out", Sid, placement) ==
      Then(Run([FileWrite(AveragesPath("out", ScenarioLabel), Averages)], Completed),
           SubjectsRun(ScenarioApi, "out", Sid, Puuid, ScenarioLabel, [AverageEntry])) by {
      assert Subscript(placement, "UUID") == Ok(Puuid) by {
        ScenarioPlacementStripped();
      }
      ScenarioYearLabel();
      ScenarioAveragesFetch();
      assert Get(Averages, "gemiddelden", JArr([])) == Ok(JArr([AverageEntry]));
      PlacementRunProceeds(ScenarioApi, "out", Sid, placement, Puuid, Averages, ScenarioLabel, [AverageEntry]);
    }
    ScenarioAveragesPath();
    ScenarioSubjects();
    assert [AveragesFile] + [GradesFile, ExamsFile] == [AveragesFile, GradesFile, ExamsFile];
  }

  lemma ScenarioStudentId()
    ensures ScenarioApi(StudentList).Ok?
    ensures StudentId(ScenarioApi(StudentList).value) == Ok(Sid)
  {
    var link := JObj([("id", JNum(1234))]);
    var student := JObj([("links", JArr([link]))]);
    var info := JObj([("items", JArr([student]))]);
    assert ScenarioApi(StudentList) == Ok(info);
    assert Subscript(info, "items") == Ok(JArr([student]));
    assert First(JArr([student])) == Ok(student);
    assert Subscript(student, "links") == Ok(JArr([link]));
    assert First(JArr([link])) == Ok(link);
    assert Subscript(link, "id") == Ok(Sid);
  }

  lemma ScenarioPlacementsFetch()
    ensures FetchStripped(ScenarioApi, PlacementList(Sid)) == Ok(JObj([("items", JArr([Strip(PlacementRecord)]))]))
  {
    assert ScenarioApi(PlacementList(Sid)) == Ok(JObj([("items", JArr([PlacementRecord]))]));
    StripItemsResponse(PlacementRecord);
  }

  /** The whole export writes exactly three files, averages, grades and exam
      grades, in that order, with all metadata removed from the grade files,
      and completes. */
  lemma ScenarioExport()
    ensures ExportRun(ScenarioApi, "out") == Run([AveragesFile, GradesFile, ExamsFile], Completed)
  {
    var placement := Strip(PlacementRecord);
    assert ExportRun(ScenarioApi, "out") == PlacementsRun(ScenarioApi, "out", Sid, [placement]) by {
      ScenarioStudentId();
      ScenarioPlacementsFetch();
      var placements := JObj([("items", JArr([placement]))]);
      assert Get(placements, "items", JArr([])) == Ok(JArr([placement]));
      ExportRunProceeds(ScenarioApi, "out", ScenarioApi(StudentList).value, Sid, placements, [placement]);
    }
    assert PlacementsRun(ScenarioApi, "out", Sid, [placement]) == PlacementRun(ScenarioApi, "out", Sid, placement) by {
      PlacementsRunSingle(ScenarioApi, "out", Sid, placement);
    }
    assert PlacementRun(ScenarioApi, "out", Sid, placement) == Run([AveragesFile, GradesFile, ExamsFile], Completed) by {
      ScenarioPlacement();
    }
  }
}
