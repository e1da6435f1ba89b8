/** What the export run promises: every file it writes holds metadata-free
    JSON at a path that starts with the output directory, the files of a
    placement come in the order averages, then grades and exam grades per
    subject, and the first failure stops the run. */
module TakeoutProofs {
  import opened Errors
  import opened JsonValues
  import opened Access
  import opened Sanitizer
  import opened PathBuilder
  import opened Takeout
  import SanitizerProofs

  /** Every write stores clean JSON at a path that starts with `<out>/`. */
  predicate Exported(ws: seq<FileWrite>, out: string)
  {
    forall w :: w in ws ==> Clean(w.data) && out + "/" <= w.path
  }

  lemma ThenExported(a: Run, b: Run, out: string)
    requires Exported(a.writes, out) && Exported(b.writes, out)
    ensures Exported(Then(a, b).writes, out)
  {
  }

  lemma UnderOutput(out: string, yearLabel: string, path: string)
    requires out + "/" + yearLabel + "/" <= path
    ensures out + "/" <= path
  {
    assert out + "/" + yearLabel + "/" == (out + "/") + (yearLabel + "/");
  }

  lemma SubjectRunExported(api: Api, out: string, sid: Json, puuid: Json, yearLabel: string, avg: Json)
    ensures Exported(SubjectRun(api, out, sid, puuid, yearLabel, avg).writes, out)
  {
    var fields := SubjectFields(avg);
    if fields.Ok? {
      var f := fields.value;
      var grades := GradeWrite(api, Grades(sid, f.0, f.2, puuid), GradesPath(out, yearLabel, f.1));
      var exams := GradeWrite(api, ExamGrades(sid, f.0, f.2, puuid), ExamGradesPath(out, yearLabel, f.1));
      PathsUnderLabel(out, yearLabel, f.1);
      UnderOutput(out, yearLabel, GradesPath(out, yearLabel, f.1));
      UnderOutput(out, yearLabel, ExamGradesPath(out, yearLabel, f.1));
      assert grades.Ok? ==> Exported([grades.value], out);
      assert grades.Ok? && exams.Ok? ==> Exported([grades.value, exams.value], out);
    }
  }

  lemma {:induction false} SubjectsRunExported(api: Api, out: string, sid: Json, puuid: Json,
                                               yearLabel: string, avgs: seq<Json>)
    ensures Exported(SubjectsRun(api, out, sid, puuid, yearLabel, avgs).writes, out)
  {
    if avgs != [] {
      SubjectRunExported(api, out, sid, puuid, yearLabel, avgs[0]);
      SubjectsRunExported(api, out, sid, puuid, yearLabel, avgs[1..]);
      ThenExported(SubjectRun(api, out, sid, puuid, yearLabel, avgs[0]),
                   SubjectsRun(api, out, sid, puuid, yearLabel, avgs[1..]), out);
    }
  }

  lemma PlacementRunExported(api: Api, out: string, sid: Json, placement: Json)
    ensures Exported(PlacementRun(api, out, sid, placement).writes, out)
  {
    var uuid := Subscript(placement, "UUID");
    var yearLabel := YearLabelOf(placement);
    if uuid.Ok? && FetchStripped(api, SubjectAverages(uuid.value)).Ok? && yearLabel.Ok? {
      PathsUnderLabel(out, yearLabel.value, "");
      UnderOutput(out, yearLabel.value, AveragesPath(out, yearLabel.value));
      var averages := FetchStripped(api, SubjectAverages(uuid.value)).value;
      var written := [FileWrite(AveragesPath(out, yearLabel.value), averages)];
      var list := Get(averages, "gemiddelden", JArr([]));
      if list.Ok? && Iterate(list.value).Ok? {
        SubjectsRunExported(api, out, sid, uuid.value, yearLabel.value, Iterate(list.value).value);
        ThenExported(Run(written, Completed),
                     SubjectsRun(api, out, sid, uuid.value, yearLabel.value, Iterate(list.value).value), out);
      }
    }
  }

  lemma {:induction false} PlacementsRunExported(api: Api, out: string, sid: Json, placements: seq<Json>)
    ensures Exported(PlacementsRun(api, out, sid, placements).writes, out)
  {
    if placements != [] {
      PlacementRunExported(api, out, sid, placements[0]);
      PlacementsRunExported(api, out, sid, placements[1..]);
      ThenExported(PlacementRun(api, out, sid, placements[0]),
                   PlacementsRun(api, out, sid, placements[1..]), out);
    }
  }

  /** No file the exporter writes holds a `links`, `permissions` or `$type`
      key at any depth, and every path starts with `<out>/`. */
  lemma ExportWritesCleanFiles(api: Api, out: string)
    ensures forall w :: w in ExportRun(api, out).writes ==> Clean(w.data) && out + "/" <= w.path
  {
    var info := api(StudentList);
    if info.Ok? && StudentId(info.value).Ok? {
      var sid := StudentId(info.value).value;
      var placements := FetchStripped(api, PlacementList(sid));
      if placements.Ok? {
        var list := Get(placements.value, "items", JArr([]));
        if list.Ok? && Iterate(list.value).Ok? {
          PlacementsRunExported(api, out, sid, Iterate(list.value).value);
        }
      }
    }
  }

  /** A subject completes only by writing its grades file and then its
      exam-grades file, each holding the "items" of its stripped response. */
  lemma SubjectRunCompleted(api: Api, out: string, sid: Json, puuid: Json, yearLabel: string, avg: Json)
    requires SubjectRun(api, out, sid, puuid, yearLabel, avg).outcome == Completed
    ensures SubjectFields(avg).Ok?
    ensures var f := SubjectFields(avg).value;
      var grades := GradeWrite(api, Grades(sid, f.0, f.2, puuid), GradesPath(out, yearLabel, f.1));
      var exams := GradeWrite(api, ExamGrades(sid, f.0, f.2, puuid), ExamGradesPath(out, yearLabel, f.1));
      && grades.Ok? && exams.Ok?
      && SubjectRun(api, out, sid, puuid, yearLabel, avg).writes == [grades.value, exams.value]
      && grades.value.path == GradesPath(out, yearLabel, f.1)
      && exams.value.path == ExamGradesPath(out, yearLabel, f.1)
  {
  }

  /** Both halves of a completed run completed, and its files are theirs. */
  lemma ThenCompleted(a: Run, b: Run)
    requires Then(a, b).outcome == Completed
    ensures a.outcome == Completed && b.outcome == Completed
    ensures Then(a, b).writes == a.writes + b.writes
  {
  }

  /** The first subject of a completed list wrote exactly two files, and
      the rest of the list completed with the remaining files. */
  lemma SubjectsRunHead(api: Api, out: string, sid: Json, puuid: Json, yearLabel: string, avgs: seq<Json>)
    requires avgs != []
    requires SubjectsRun(api, out, sid, puuid, yearLabel, avgs).outcome == Completed
    ensures var first := SubjectRun(api, out, sid, puuid, yearLabel, avgs[0]);
      var rest := SubjectsRun(api, out, sid, puuid, yearLabel, avgs[1..]);
      && first.outcome == Completed && |first.writes| == 2
      && rest.outcome == Completed
      && SubjectsRun(api, out, sid, puuid, yearLabel, avgs).writes == first.writes + rest.writes
  {
    var first := SubjectRun(api, out, sid, puuid, yearLabel, avgs[0]);
    var rest := SubjectsRun(api, out, sid, puuid, yearLabel, avgs[1..]);
    ThenCompleted(first, rest);
    SubjectRunCompleted(api, out, sid, puuid, yearLabel, avgs[0]);
  }

  /** A placement's subjects complete only by writing two files per
      `gemiddelden` entry. */
  lemma {:induction false} SubjectsRunLength(api: Api, out: string, sid: Json, puuid: Json,
                                             yearLabel: string, avgs: seq<Json>)
    requires SubjectsRun(api, out, sid, puuid, yearLabel, avgs).outcome == Completed
    ensures |SubjectsRun(api, out, sid, puuid, yearLabel, avgs).writes| == 2 * |avgs|
  {
    if avgs != [] {
      SubjectsRunHead(api, out, sid, puuid, yearLabel, avgs);
      SubjectsRunLength(api, out, sid, puuid, yearLabel, avgs[1..]);
    }
  }

  /** `r` completed by writing exactly files 2k and 2k+1 of `ws`. */
  predicate WrotePair(r: Run, ws: seq<FileWrite>, k: nat)
  {
    2 * k + 1 < |ws| && r == Run([ws[2 * k], ws[2 * k + 1]], Completed)
  }

  /** Putting one pair of files in front moves pair j to pair j + 1. */
  lemma WrotePairShift(r: Run, head: seq<FileWrite>, tail: seq<FileWrite>, j: nat)
    requires |head| == 2 && WrotePair(r, tail, j)
    ensures WrotePair(r, head + tail, j + 1)
  {
    var ws := head + tail;
    assert ws[2 * (j + 1)] == tail[2 * j] && ws[2 * (j + 1) + 1] == tail[2 * j + 1];
  }

  lemma SubjectsRunFirstPair(api: Api, out: string, sid: Json, puuid: Json, yearLabel: string, avgs: seq<Json>, k: nat)
    requires k == 0 < |avgs|
    requires SubjectsRun(api, out, sid, puuid, yearLabel, avgs).outcome == Completed
    ensures WrotePair(SubjectRun(api, out, sid, puuid, yearLabel, avgs[k]),
                      SubjectsRun(api, out, sid, puuid, yearLabel, avgs).writes, k)
  {
    SubjectsRunHead(api, out, sid, puuid, yearLabel, avgs);
    var first := SubjectRun(api, out, sid, puuid, yearLabel, avgs[0]);
    var ws := SubjectsRun(api, out, sid, puuid, yearLabel, avgs).writes;
    assert first.writes == [ws[0], ws[1]];
  }

  lemma SubjectsRunShiftPair(api: Api, out: string, sid: Json, puuid: Json, yearLabel: string, avgs: seq<Json>, j: nat)
    requires j + 1 < |avgs|
    requires SubjectsRun(api, out, sid, puuid, yearLabel, avgs).outcome == Completed
    requires WrotePair(SubjectRun(api, out, sid, puuid, yearLabel, avgs[1..][j]),
                       SubjectsRun(api, out, sid, puuid, yearLabel, avgs[1..]).writes, j)
    ensures WrotePair(SubjectRun(api, out, sid, puuid, yearLabel, avgs[j + 1]),
                      SubjectsRun(api, out, sid, puuid, yearLabel, avgs).writes, j + 1)
  {
    SubjectsRunHead(api, out, sid, puuid, yearLabel, avgs);
    assert avgs[1..][j] == avgs[j + 1];
    WrotePairShift(SubjectRun(api, out, sid, puuid, yearLabel, avgs[j + 1]),
                   SubjectRun(api, out, sid, puuid, yearLabel, avgs[0]).writes,
                   SubjectsRun(api, out, sid, puuid, yearLabel, avgs[1..]).writes, j);
  }

  /** In a completed list of subjects, entry k's two files sit at positions
      2k and 2k+1, and are exactly what that entry's own run writes. */
  lemma {:induction false} SubjectsRunPair(api: Api, out: string, sid: Json, puuid: Json,
                                           yearLabel: string, avgs: seq<Json>, k: nat)
    requires k < |avgs|
    requires SubjectsRun(api, out, sid, puuid, yearLabel, avgs).outcome == Completed
    ensures WrotePair(SubjectRun(api, out, sid, puuid, yearLabel, avgs[k]),
                      SubjectsRun(api, out, sid, puuid, yearLabel, avgs).writes, k)
    decreases |avgs|, 1
  {
    if k == 0 {
      SubjectsRunFirstPair(api, out, sid, puuid, yearLabel, avgs, k);
    } else {
      SubjectsRunLaterPair(api, out, sid, puuid, yearLabel, avgs, k);
    }
  }

  lemma {:induction false} SubjectsRunLaterPair(api: Api, out: string, sid: Json, puuid: Json,
                                                yearLabel: string, avgs: seq<Json>, k: nat)
    requires 0 < k < |avgs|
    requires SubjectsRun(api, out, sid, puuid, yearLabel, avgs).outcome == Completed
    ensures WrotePair(SubjectRun(api, out, sid, puuid, yearLabel, avgs[k]),
                      SubjectsRun(api, out, sid, puuid, yearLabel, avgs).writes, k)
    decreases |avgs|, 0
  {
    var j: nat := k - 1;
    SubjectsRunHead(api, out, sid, puuid, yearLabel, avgs);
    SubjectsRunPair(api, out, sid, puuid, yearLabel, avgs[1..], j);
    SubjectsRunShiftPair(api, out, sid, puuid, yearLabel, avgs, j);
    assert k == j + 1;
  }

  /** A placement writes something only once its averages are fetched and
      its year label is formed, and then its first file is
      `<out>/<label>/averages.json` holding the whole stripped averages
      response; the rest are its subjects' files. */
  lemma PlacementAveragesFirst(api: Api, out: string, sid: Json, placement: Json)
    requires PlacementRun(api, out, sid, placement).writes != []
    ensures Subscript(placement, "UUID").Ok?
    ensures api(SubjectAverages(Subscript(placement, "UUID").value)).Ok?
    ensures YearLabelOf(placement).Ok?
    ensures var averages := Strip(api(SubjectAverages(Subscript(placement, "UUID").value)).value);
      var ws := PlacementRun(api, out, sid, placement).writes;
      && ws[0] == FileWrite(AveragesPath(out, YearLabelOf(placement).value), averages)
      && (Get(averages, "gemiddelden", JArr([])).Ok? && Iterate(Get(averages, "gemiddelden", JArr([])).value).Ok? ==>
            ws[1..] == SubjectsRun(api, out, sid, Subscript(placement, "UUID").value, YearLabelOf(placement).value,
                                   Iterate(Get(averages, "gemiddelden", JArr([])).value).value).writes)
  {
  }

  /** Running placements one list after another is running the first list,
      then — only if it completed — the second. */
  lemma {:induction false} PlacementsRunAppend(api: Api, out: string, sid: Json, ps: seq<Json>, qs: seq<Json>)
    ensures PlacementsRun(api, out, sid, ps + qs) == Then(PlacementsRun(api, out, sid, ps), PlacementsRun(api, out, sid, qs))
  {
    if ps == [] {
      assert ps + qs == qs;
      ThenIdentity(PlacementsRun(api, out, sid, qs));
    } else {
      assert (ps + qs)[0] == ps[0] && (ps + qs)[1..] == ps[1..] + qs;
      PlacementsRunAppend(api, out, sid, ps[1..], qs);
      ThenAssociative(PlacementRun(api, out, sid, ps[0]), PlacementsRun(api, out, sid, ps[1..]),
                      PlacementsRun(api, out, sid, qs));
    }
  }

  /** The same for the subjects of one placement. */
  lemma {:induction false} SubjectsRunAppend(api: Api, out: string, sid: Json, puuid: Json, yearLabel: string,
                                             xs: seq<Json>, ys: seq<Json>)
    ensures SubjectsRun(api, out, sid, puuid, yearLabel, xs + ys)
         == Then(SubjectsRun(api, out, sid, puuid, yearLabel, xs), SubjectsRun(api, out, sid, puuid, yearLabel, ys))
  {
    if xs == [] {
      assert xs + ys == ys;
      ThenIdentity(SubjectsRun(api, out, sid, puuid, yearLabel, ys));
    } else {
      assert (xs + ys)[0] == xs[0] && (xs + ys)[1..] == xs[1..] + ys;
      SubjectsRunAppend(api, out, sid, puuid, yearLabel, xs[1..], ys);
      ThenAssociative(SubjectRun(api, out, sid, puuid, yearLabel, xs[0]),
                      SubjectsRun(api, out, sid, puuid, yearLabel, xs[1..]),
                      SubjectsRun(api, out, sid, puuid, yearLabel, ys));
    }
  }

  /** Fail-fast: once the placements up to some point have aborted, the
      placements after it contribute no file and no other outcome. */
  lemma FailFast(api: Api, out: string, sid: Json, ps: seq<Json>, qs: seq<Json>)
    requires PlacementsRun(api, out, sid, ps).outcome.Aborted?
    ensures PlacementsRun(api, out, sid, ps + qs) == PlacementsRun(api, out, sid, ps)
  {
    PlacementsRunAppend(api, out, sid, ps, qs);
  }

  /** A placement whose averages request fails writes nothing and aborts
      with that request's error. */
  lemma AveragesFailureAbortsPlacement(api: Api, out: string, sid: Json, placement: Json, uuid: Json, e: Error)
    requires Subscript(placement, "UUID") == Ok(uuid)
    requires api(SubjectAverages(uuid)) == Err(e)
    ensures PlacementRun(api, out, sid, placement) == Run([], Aborted(e))
  {
  }

  /** A failed averages request for a placement ends the run with exactly
      the files of the placements before it and that request's error. */
  lemma AveragesFailureStopsRun(api: Api, out: string, sid: Json, before: seq<Json>, p: Json, after: seq<Json>,
                                uuid: Json, e: Error)
    requires PlacementsRun(api, out, sid, before).outcome == Completed
    requires Subscript(p, "UUID") == Ok(uuid)
    requires api(SubjectAverages(uuid)) == Err(e)
    ensures PlacementsRun(api, out, sid, before + [p] + after)
         == Run(PlacementsRun(api, out, sid, before).writes, Aborted(e))
  {
    var rest := [p] + after;
    assert PlacementsRun(api, out, sid, rest) == Run([], Aborted(e)) by {
      assert rest[0] == p;
      AveragesFailureAbortsPlacement(api, out, sid, p, uuid, e);
    }
    assert before + [p] + after == before + rest;
    PlacementsRunAppend(api, out, sid, before, rest);
    ThenAbortedRun(PlacementsRun(api, out, sid, before), e);
  }

  /** A completed run followed by a run that aborts at once keeps the first
      run's files and takes the second's error. */
  lemma ThenAbortedRun(prefix: Run, e: Error)
    requires prefix.outcome == Completed
    ensures Then(prefix, Run([], Aborted(e))) == Run(prefix.writes, Aborted(e))
  {
    assert prefix.writes + [] == prefix.writes;
  }

  /** With program, group and school year equal, distinct grade years give
      distinct year labels. */
  lemma YearLabelGradeYearInjective(program: string, group: string, schoolYear: string, m: nat, n: nat)
    requires YearLabel(program, Decimal(m), group, schoolYear) == YearLabel(program, Decimal(n), group, schoolYear)
    ensures m == n
  {
    var head := program + "-";
    var tail := "-" + group + "-" + Delete(schoolYear, '/');
    var dm, dn := Decimal(m), Decimal(n);
    assert YearLabel(program, dm, group, schoolYear) == head + dm + tail;
    assert YearLabel(program, dn, group, schoolYear) == head + dn + tail;
    assert |dm| == |dn|;
    assert dm == (head + dm + tail)[|head|..|head| + |dm|];
    assert dn == (head + dn + tail)[|head|..|head| + |dn|];
    DecimalRoundTrip(m);
    DecimalRoundTrip(n);
  }

  /** A clean object has no "links" key. */
  lemma CleanHasNoLinks(x: Json)
    requires Clean(x) && x.JObj?
    ensures "links" !in Keys(x.fields)
  {
    forall i | 0 <= i < |x.fields|
      ensures Keys(x.fields)[i] != "links"
    {
      assert x.fields[i] in x.fields;
    }
  }

  /** The student identifier must be read from the raw response: on a
      stripped response the `links` lookup always fails. */
  lemma StudentIdNeedsRawResponse(info: Json)
    ensures StudentId(Strip(info)).Err?
  {
    var s := Strip(info);
    SanitizerProofs.StripRemovesMetadata(info);
    var items := Subscript(s, "items");
    if items.Ok? {
      assert Clean(items.value);
      var first := First(items.value);
      if first.Ok? {
        if items.value.JArr? {
          assert items.value.items[0] in items.value.items;
          assert Clean(first.value);
          if first.value.JObj? {
            CleanHasNoLinks(first.value);
          }
        }
      }
    }
  }

  /** The stored grade value: `{"items": [1, 2, 3]}` is stored as
      `[1, 2, 3]`, an object without "items" as itself. */
  lemma ItemsOfExample()
    ensures ItemsOf(JObj([("items", JArr([JNum(1), JNum(2), JNum(3)]))])) == Ok(JArr([JNum(1), JNum(2), JNum(3)]))
    ensures ItemsOf(JObj([("gemiddelden", JArr([]))])) == Ok(JObj([("gemiddelden", JArr([]))]))
  {
  }

  /** A placement whose fields are all present reads as the label of them. */
  lemma YearLabelOfPresent(p: Json, program: string, gradeYear: nat, group: string, schoolYear: Json, name: string)
    requires Subscript(p, "opleidingsnaam") == Ok(JStr(program))
    requires Subscript(p, "leerjaar") == Ok(JNum(gradeYear))
    requires Subscript(p, "stamgroepnaam") == Ok(JStr(group))
    requires Subscript(p, "schooljaar") == Ok(schoolYear)
    requires Subscript(schoolYear, "naam") == Ok(JStr(name))
    ensures YearLabelOf(p) == Ok(YearLabel(program, Decimal(gradeYear), group, name))
  {
    assert Str(JStr(program)) == Ok(program);
    assert Str(JNum(gradeYear)) == Ok(Decimal(gradeYear));
    assert Str(JStr(group)) == Ok(group);
    assert AsText(JStr(name)) == Ok(name);
  }

  /** An average entry whose fields are all present yields its subject
      UUID, the slug of its subject name and its lichting UUID. */
  lemma SubjectFieldsPresent(avg: Json, choice: Json, subject: Json, lichting: Json,
                             subjectUuid: Json, name: string, lichtingUuid: Json)
    requires Subscript(avg, "vakkeuze") == Ok(choice)
    requires Subscript(choice, "vak") == Ok(subject)
    requires Subscript(choice, "lichting") == Ok(lichting)
    requires Subscript(subject, "UUID") == Ok(subjectUuid)
    requires Subscript(subject, "naam") == Ok(JStr(name))
    requires Subscript(lichting, "UUID") == Ok(lichtingUuid)
    ensures SubjectFields(avg) == Ok((subjectUuid, Slug(name), lichtingUuid))
  {
    assert AsText(JStr(name)) == Ok(name);
  }

  /** A subject whose fields and both requests succeed writes the grades
      file, then the exam-grades file, and completes. */
  lemma SubjectRunCompletes(api: Api, out: string, studentId: Json, placementUuid: Json,
                            yearLabel: string, avg: Json, subjectUuid: Json, slug: string,
                            lichtingUuid: Json, grades: FileWrite, exams: FileWrite)
    requires SubjectFields(avg) == Ok((subjectUuid, slug, lichtingUuid))
    requires GradeWrite(api, Grades(studentId, subjectUuid, lichtingUuid, placementUuid),
                        GradesPath(out, yearLabel, slug)) == Ok(grades)
    requires GradeWrite(api, ExamGrades(studentId, subjectUuid, lichtingUuid, placementUuid),
                        ExamGradesPath(out, yearLabel, slug)) == Ok(exams)
    ensures SubjectRun(api, out, studentId, placementUuid, yearLabel, avg) == Run([grades, exams], Completed)
  {
  }

  /** A placement whose UUID, averages, label and `gemiddelden` list are all
      there writes the averages file and then runs its subjects. */
  lemma PlacementRunProceeds(api: Api, out: string, studentId: Json, placement: Json,
                             placementUuid: Json, averages: Json, yearLabel: string, avgs: seq<Json>)
    requires Subscript(placement, "UUID") == Ok(placementUuid)
    requires FetchStripped(api, SubjectAverages(placementUuid)) == Ok(averages)
    requires YearLabelOf(placement) == Ok(yearLabel)
    requires Get(averages, "gemiddelden", JArr([])) == Ok(JArr(avgs))
    ensures PlacementRun(api, out, studentId, placement) ==
      Then(Run([FileWrite(AveragesPath(out, yearLabel), averages)], Completed),
           SubjectsRun(api, out, studentId, placementUuid, yearLabel, avgs))
  {
  }

  lemma PlacementsRunSingle(api: Api, out: string, studentId: Json, p: Json)
    ensures PlacementsRun(api, out, studentId, [p]) == PlacementRun(api, out, studentId, p)
  {
    var r := PlacementRun(api, out, studentId, p);
    assert [p][1..] == [];
    assert r.writes + [] == r.writes;
  }

  /** With the student's identifier and the placement list in hand, the run
      is the run of the placements. */
  lemma ExportRunProceeds(api: Api, out: string, info: Json, studentId: Json, placements: Json, items: seq<Json>)
    requires api(StudentList) == Ok(info)
    requires StudentId(info) == Ok(studentId)
    requires FetchStripped(api, PlacementList(studentId)) == Ok(placements)
    requires Get(placements, "items", JArr([])) == Ok(JArr(items))
    ensures ExportRun(api, out) == PlacementsRun(api, out, studentId, items)
  {
  }

  /** An `{"items": [x]}` response strips to `{"items": [Strip(x)]}`. */
  lemma StripItemsResponse(x: Json)
    ensures Strip(JObj([("items", JArr([x]))])) == JObj([("items", JArr([Strip(x)]))])
  {
    SanitizerProofs.StripMapsLists([x]);
    assert Strip(JArr([x])) == JArr([Strip(x)]);
    SanitizerProofs.StripFieldsSingle("items", JArr([x]));
  }

  /** A grades request answered with `{"items": [x]}` writes `[Strip(x)]`. */
  lemma GradeWriteOfItems(api: Api, q: Request, path: string, x: Json)
    requires api(q) == Ok(JObj([("items", JArr([x]))]))
    ensures GradeWrite(api, q, path) == Ok(FileWrite(path, JArr([Strip(x)])))
  {
    StripItemsResponse(x);
    assert ItemsOf(JObj([("items", JArr([Strip(x)]))])) == Ok(JArr([Strip(x)]));
  }
}
