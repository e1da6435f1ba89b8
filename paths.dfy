/** The names the exporter derives from record fields: the year label of a
    placement, the slug of a subject, and the three output file paths. */
module PathBuilder {

  /** How often `c` occurs in `s`. */
  function Count(s: string, c: char): nat
  {
    if s == [] then 0 else (if s[0] == c then 1 else 0) + Count(s[1..], c)
  }

  /** `s.replace(c, "")`: every occurrence of `c` deleted. */
  function Delete(s: string, c: char): string
  {
    if s == [] then [] else (if s[0] == c then [] else [s[0]]) + Delete(s[1..], c)
  }

  /** After deleting `c` none is left, exactly the occurrences of `c` are
      gone, every other character keeps its number of occurrences, and a
      string without `c` is unchanged. */
  lemma {:induction false} DeleteRemovesOnly(s: string, c: char)
    ensures c !in Delete(s, c)
    ensures |Delete(s, c)| == |s| - Count(s, c)
    ensures forall d :: d != c ==> Count(Delete(s, c), d) == Count(s, d)
    ensures c !in s ==> Delete(s, c) == s
  {
    if s != [] {
      DeleteRemovesOnly(s[1..], c);
      var rest := Delete(s[1..], c);
      if s[0] != c {
        assert ([s[0]] + rest)[1..] == rest;
        assert ([s[0]] + rest)[0] == s[0];
      }
      forall d | d != c
        ensures Count(Delete(s, c), d) == Count(s, d)
      {
        if s[0] != c {
          assert Count(Delete(s, c), d) == (if s[0] == d then 1 else 0) + Count(rest, d);
        } else {
          assert Delete(s, c) == rest;
        }
      }
      assert c !in s ==> c !in s[1..];
    }
  }

  /** Deleting works character by character, so what survives keeps its order
      and nothing but `c` is removed. */
  lemma {:induction false} DeleteAppend(a: string, b: string, c: char)
    ensures Delete(a + b, c) == Delete(a, c) + Delete(b, c)
  {
    if a == [] {
      assert a + b == b;
    } else {
      assert (a + b)[0] == a[0];
      assert (a + b)[1..] == a[1..] + b;
      DeleteAppend(a[1..], b, c);
    }
  }

  /** A school year written "first/second" loses its one separator. */
  lemma DeleteSeparator(first: string, second: string, c: char)
    requires c !in first && c !in second
    ensures Delete(first + [c] + second, c) == first + second
  {
    assert Delete([c], c) == [] by {
      assert [c][1..] == [];
    }
    assert Delete(first, c) == first by {
      DeleteRemovesOnly(first, c);
    }
    assert Delete(second, c) == second by {
      DeleteRemovesOnly(second, c);
    }
    DeleteAppend(first, [c], c);
    assert Delete(first + [c], c) == first;
    DeleteAppend(first + [c], second, c);
  }

  /** `s.replace(a, b)` for one-character strings: every `a` becomes `b`. */
  function Replace(s: string, a: char, b: char): string
  {
    if s == [] then [] else [if s[0] == a then b else s[0]] + Replace(s[1..], a, b)
  }

  lemma {:induction false} ReplaceCharwise(s: string, a: char, b: char)
    ensures |Replace(s, a, b)| == |s|
    ensures forall i :: 0 <= i < |s| ==> Replace(s, a, b)[i] == if s[i] == a then b else s[i]
  {
    if s != [] {
      ReplaceCharwise(s[1..], a, b);
    }
  }

  /** Lower-casing of one character, ASCII letters only. */
  function LowerChar(c: char): (d: char)
    ensures !('A' <= d <= 'Z')
    ensures 'A' <= c <= 'Z' ==> d as int == c as int + 32
    ensures !('A' <= c <= 'Z') ==> d == c
  {
    if 'A' <= c <= 'Z' then (c as int - 'A' as int + 'a' as int) as char else c
  }

  /** `s.lower()`, character by character. */
  function Lower(s: string): string
  {
    if s == [] then [] else [LowerChar(s[0])] + Lower(s[1..])
  }

  lemma {:induction false} LowerCharwise(s: string)
    ensures |Lower(s)| == |s|
    ensures forall i :: 0 <= i < |s| ==> Lower(s)[i] == LowerChar(s[i])
  {
    if s != [] {
      LowerCharwise(s[1..]);
    }
  }

  /** The subject slug: '/' to '-', then ' ' to '-', then lower case. */
  function Slug(name: string): (r: string)
    ensures |r| == |name|
    ensures forall i :: 0 <= i < |name| ==> r[i] == SlugChar(name[i])
  {
    var dashed := Replace(Replace(name, '/', '-'), ' ', '-');
    ReplaceCharwise(name, '/', '-');
    ReplaceCharwise(Replace(name, '/', '-'), ' ', '-');
    LowerCharwise(dashed);
    Lower(dashed)
  }

  /** What one character of a subject name becomes in its slug. */
  function SlugChar(c: char): char
  {
    if c == '/' || c == ' ' then '-' else LowerChar(c)
  }

  /** The slug is the name mapped character by character: same length, no
      '/', no space, no upper-case ASCII letter. */
  lemma SlugIsCharwise(name: string)
    ensures |Slug(name)| == |name|
    ensures forall i :: 0 <= i < |name| ==> Slug(name)[i] == SlugChar(name[i])
    ensures '/' !in Slug(name) && ' ' !in Slug(name)
    ensures forall c :: c in Slug(name) ==> !('A' <= c <= 'Z')
  {
    var s := Slug(name);
    var s1 := Replace(name, '/', '-');
    ReplaceCharwise(name, '/', '-');
    ReplaceCharwise(s1, ' ', '-');
    LowerCharwise(Replace(s1, ' ', '-'));
    forall c | c in s
      ensures c != '/' && c != ' '
    {
      var i :| 0 <= i < |s| && s[i] == c;
      assert s[i] == SlugChar(name[i]);
    }
  }

  /** Conversely, a string that maps the name character by character is its
      slug. */
  lemma SlugFromChars(name: string, t: string)
    requires |t| == |name|
    requires forall i :: 0 <= i < |name| ==> t[i] == SlugChar(name[i])
    ensures Slug(name) == t
  {
    SlugIsCharwise(name);
  }

  /** A slug is its own slug. */
  lemma SlugIdempotent(name: string)
    ensures Slug(Slug(name)) == Slug(name)
  {
    SlugIsCharwise(name);
    SlugIsCharwise(Slug(name));
  }

  /** Two different subject names can share a slug, so the second subject's
      grade file replaces the first one's. */
  lemma SlugCollision()
    ensures Slug("Wiskunde A") == Slug("wiskunde/a") == "wiskunde-a"
  {
    var t := "wiskunde-a";
    forall i | 0 <= i < |t|
      ensures t[i] == SlugChar("Wiskunde A"[i]) && t[i] == SlugChar("wiskunde/a"[i])
    {
    }
    SlugFromChars("Wiskunde A", t);
    SlugFromChars("wiskunde/a", t);
  }

  /** The worked example: "Natuur/Scheikunde Extra" becomes
      "natuur-scheikunde-extra". */
  lemma SlugExample()
    ensures Slug("Natuur/Scheikunde Extra") == "natuur-scheikunde-extra"
  {
    var name, t := "Natuur/Scheikunde Extra", "natuur-scheikunde-extra";
    forall i | 0 <= i < |name|
      ensures t[i] == SlugChar(name[i])
    {
    }
    SlugFromChars(name, t);
  }

  /** The placement's directory name: program, grade year, group and school
      year joined by '-', with every '/' deleted from the school year only. */
  function YearLabel(program: string, gradeYear: string, group: string, schoolYear: string): (r: string)
    ensures |r| == |program| + |gradeYear| + |group| + 3 + |schoolYear| - Count(schoolYear, '/')
  {
    DeleteRemovesOnly(schoolYear, '/');
    program + "-" + gradeYear + "-" + group + "-" + Delete(schoolYear, '/')
  }

  /** The year label is one path segment when the three other fields hold no '/':
      the school year's '/' never reaches it. */
  lemma YearLabelIsOneSegment(program: string, gradeYear: string, group: string, schoolYear: string)
    requires '/' !in program && '/' !in gradeYear && '/' !in group
    ensures '/' !in YearLabel(program, gradeYear, group, schoolYear)
  {
    var r := YearLabel(program, gradeYear, group, schoolYear);
    var tail := Delete(schoolYear, '/');
    DeleteRemovesOnly(schoolYear, '/');
    assert r == program + "-" + gradeYear + "-" + group + "-" + tail;
    forall i | 0 <= i < |r|
      ensures r[i] != '/'
    {
      var p1 := |program| + 1;
      var p2 := p1 + |gradeYear| + 1;
      var p3 := p2 + |group| + 1;
      if i < |program| { assert r[i] == program[i]; }
      else if p1 <= i < p2 - 1 { assert r[i] == gradeYear[i - p1]; }
      else if p2 <= i < p3 - 1 { assert r[i] == group[i - p2]; }
      else if p3 <= i { assert r[i] == tail[i - p3]; }
    }
  }

  /** The school-year part keeps every character except '/', in order:
      "2023/2024" becomes "20232024". */
  lemma SchoolYearExample()
    ensures Delete("2023/2024", '/') == "20232024"
  {
    assert "2023/2024" == "2023" + ['/'] + "2024";
    DeleteSeparator("2023", "2024", '/');
  }

  /** The worked example: HAVO, grade year 4, group H4A, 2023/2024. */
  lemma YearLabelExample()
    ensures YearLabel("HAVO", "4", "H4A", "2023/2024") == "HAVO-4-H4A-20232024"
  {
    SchoolYearExample();
  }

  /** `<out>/<yearLabel>/averages.json` */
  function AveragesPath(out: string, yearLabel: string): string
  {
    out + "/" + yearLabel + "/averages.json"
  }

  /** `<out>/<yearLabel>/subjects/<slug>_grades.json` */
  function GradesPath(out: string, yearLabel: string, slug: string): string
  {
    out + "/" + yearLabel + "/subjects/" + slug + "_grades.json"
  }

  /** `<out>/<yearLabel>/exam_grades/<slug>_grades.json` */
  function ExamGradesPath(out: string, yearLabel: string, slug: string): string
  {
    out + "/" + yearLabel + "/exam_grades/" + slug + "_grades.json"
  }

  /** Every path of a placement starts with `<out>/<yearLabel>/`. */
  lemma PathsUnderLabel(out: string, yearLabel: string, slug: string)
    ensures var dir := out + "/" + yearLabel + "/";
      && dir <= AveragesPath(out, yearLabel)
      && dir <= GradesPath(out, yearLabel, slug)
      && dir <= ExamGradesPath(out, yearLabel, slug)
  {
    var dir := out + "/" + yearLabel + "/";
    assert AveragesPath(out, yearLabel) == dir + "averages.json";
    assert GradesPath(out, yearLabel, slug) == dir + ("subjects/" + slug + "_grades.json");
    assert ExamGradesPath(out, yearLabel, slug) == dir + ("exam_grades/" + slug + "_grades.json");
  }

  /** Within one placement the three kinds of file never share a path, and a
      grade path determines its slug. */
  lemma PathsDistinct(out: string, yearLabel: string, s1: string, s2: string)
    ensures AveragesPath(out, yearLabel) != GradesPath(out, yearLabel, s1)
    ensures AveragesPath(out, yearLabel) != ExamGradesPath(out, yearLabel, s1)
    ensures GradesPath(out, yearLabel, s1) != ExamGradesPath(out, yearLabel, s2)
    ensures GradesPath(out, yearLabel, s1) == GradesPath(out, yearLabel, s2) ==> s1 == s2
    ensures ExamGradesPath(out, yearLabel, s1) == ExamGradesPath(out, yearLabel, s2) ==> s1 == s2
  {
    var dir := out + "/" + yearLabel + "/";
    var n := |dir|;
    assert AveragesPath(out, yearLabel) == dir + "averages.json";
    assert GradesPath(out, yearLabel, s1) == dir + "subjects/" + s1 + "_grades.json";
    assert ExamGradesPath(out, yearLabel, s1) == dir + "exam_grades/" + s1 + "_grades.json";
    assert ExamGradesPath(out, yearLabel, s2) == dir + "exam_grades/" + s2 + "_grades.json";
    assert AveragesPath(out, yearLabel)[n] == 'a';
    assert GradesPath(out, yearLabel, s1)[n] == 's';
    assert ExamGradesPath(out, yearLabel, s1)[n] == 'e';
    assert ExamGradesPath(out, yearLabel, s2)[n] == 'e';
    if GradesPath(out, yearLabel, s1) == GradesPath(out, yearLabel, s2) {
      var p1, p2 := GradesPath(out, yearLabel, s1), GradesPath(out, yearLabel, s2);
      assert |s1| == |s2|;
      assert s1 == p1[n + 9..n + 9 + |s1|];
      assert s2 == p2[n + 9..n + 9 + |s2|];
    }
    if ExamGradesPath(out, yearLabel, s1) == ExamGradesPath(out, yearLabel, s2) {
      var p1, p2 := ExamGradesPath(out, yearLabel, s1), ExamGradesPath(out, yearLabel, s2);
      assert |s1| == |s2|;
      assert s1 == p1[n + 12..n + 12 + |s1|];
      assert s2 == p2[n + 12..n + 12 + |s2|];
    }
  }
}
