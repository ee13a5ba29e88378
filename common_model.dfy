/** The shared lookups (`commonModel.ts`): academic years, levels and
    classes, each read from its table when the table answers and taken
    from a built-in list otherwise. The class listing filters by level, in
    its query and in its fallback lists alike. Lao display names are kept
    as numbers: a class name is its room number, a level name its grade. */
module CommonModel {
  import opened Js
  import opened Sql
  import YearModel
  import YearController

  datatype AcademicYear = AcademicYear(id: int, name: string, start_date: string, end_date: string, is_current: bool)

  datatype Level = Level(id: string, grade: nat)

  datatype ClassInfo = ClassInfo(id: string, room: nat, level_id: string)

  // ---------------------------------------------------------------------
  // academic years
  // ---------------------------------------------------------------------

  /** The two years answered when the table cannot be read. */
  const FallbackYears: seq<AcademicYear> := [
    AcademicYear(1, "2024-2025", "2024-05-01", "2025-04-30", true),
    AcademicYear(2, "2025-2026", "2025-05-01", "2026-04-30", false)
  ]

  /** `getAcademicYears`: the rows when both the probe and the query
      succeed, the fallback years otherwise. */
  function GetAcademicYears(probe: Outcome<()>, db: Outcome<seq<AcademicYear>>): (r: seq<AcademicYear>)
    ensures probe.Ok? && db.Ok? ==> r == db.value
    ensures probe.Throws? || db.Throws? ==> r == FallbackYears
  {
    if probe.Ok? && db.Ok? then db.value else FallbackYears
  }

  /** `String(n)` of the years the fallback names. */
  lemma YearDigits()
    ensures NatToString(2024) == "2024" && NatToString(2025) == "2025" && NatToString(2026) == "2026"
  {
    assert NatToString(2) == "2";
    assert NatToString(20) == "20";
    assert NatToString(202) == "202";
  }

  /** The periods and dates of the two fallback years, written out. */
  lemma YearStrings()
    ensures NatToString(2024) + "-" + NatToString(2025) == "2024-2025"
    ensures NatToString(2025) + "-" + NatToString(2026) == "2025-2026"
    ensures YearModel.StartDateOf(2024) == "2024-05-01" && YearModel.EndDateOf(2025) == "2025-04-30"
    ensures YearModel.StartDateOf(2025) == "2025-05-01" && YearModel.EndDateOf(2026) == "2026-04-30"
  {
    YearDigits();
  }

  /** The fallback years are consecutive academic years, each named by its
      period, running from the 1st of May to the 30th of April, and exactly
      the first is current. */
  lemma FallbackYearsConsecutive()
    ensures forall i :: 0 <= i < |FallbackYears| ==>
      && FallbackYears[i].name == NatToString(2024 + i) + "-" + NatToString(2025 + i)
      && FallbackYears[i].start_date == YearModel.StartDateOf(2024 + i)
      && FallbackYears[i].end_date == YearModel.EndDateOf(2025 + i)
    ensures forall i :: 0 <= i < |FallbackYears| ==> (FallbackYears[i].is_current <==> i == 0)
  {
    YearStrings();
    forall i | 0 <= i < |FallbackYears|
      ensures FallbackYears[i].name == NatToString(2024 + i) + "-" + NatToString(2025 + i)
      ensures FallbackYears[i].start_date == YearModel.StartDateOf(2024 + i)
      ensures FallbackYears[i].end_date == YearModel.EndDateOf(2025 + i)
    {
      if i == 0 {
        assert 2024 + i == 2024 && 2025 + i == 2025;
      } else {
        assert 2024 + i == 2025 && 2025 + i == 2026;
      }
    }
  }

  /** Each fallback year's name is a period the year controller reads back
      as its two years. */
  lemma FallbackYearsArePeriods()
    ensures forall i :: 0 <= i < |FallbackYears| ==> YearController.PeriodYears(FallbackYears[i].name) == Some((2024 + i, 2025 + i))
  {
    FallbackYearsConsecutive();
    forall i | 0 <= i < |FallbackYears|
      ensures YearController.PeriodYears(FallbackYears[i].name) == Some((2024 + i, 2025 + i))
    {
      YearController.PeriodYearsOfDigits(2024 + i, 2025 + i);
    }
  }

  // ---------------------------------------------------------------------
  // levels
  // ---------------------------------------------------------------------

  const FallbackLevels: seq<Level> := [
    Level("1", 1), Level("2", 2), Level("3", 3), Level("4", 4), Level("5", 5), Level("6", 6), Level("7", 7)
  ]

  /** `getLevels`: the rows, or the seven built-in levels. */
  function GetLevels(probe: Outcome<()>, db: Outcome<seq<Level>>): (r: seq<Level>)
    ensures probe.Ok? && db.Ok? ==> r == db.value
    ensures probe.Throws? || db.Throws? ==> r == FallbackLevels
  {
    if probe.Ok? && db.Ok? then db.value else FallbackLevels
  }

  /** The fallback levels are the grades 1 to 7 in order, each with its
      grade as its id. */
  lemma FallbackLevelsInOrder()
    ensures |FallbackLevels| == 7
    ensures forall i :: 0 <= i < 7 ==> FallbackLevels[i].grade == i + 1 && FallbackLevels[i].id == NatToString(i + 1)
  {
  }

  // ---------------------------------------------------------------------
  // classes
  // ---------------------------------------------------------------------

  /** `level_id && level_id !== 'all'` */
  predicate FiltersLevel(levelId: Opt<string>) {
    Truthy(levelId) && levelId.v != "all"
  }

  const ClassesSelect := "SELECT id, name, level_id, teacher_id, description FROM classes"
  const ClassesOrder := " ORDER BY level_id, name"

  /** The query of `getClasses`. */
  function ClassesQuery(levelId: Opt<string>): Query {
    if FiltersLevel(levelId) then Query(Then(After(ClassesSelect, Placeholder(" WHERE level_id = ")), ClassesOrder), [VText(levelId.v)])
    else Query(Then([Word(ClassesSelect)], ClassesOrder), [])
  }

  /** The level is bound once, and only when it filters. */
  lemma ClassesQueryPaired(levelId: Opt<string>)
    ensures Paired(ClassesQuery(levelId))
    ensures FiltersLevel(levelId) ==> ClassesQuery(levelId).params == [VText(levelId.v)]
    ensures !FiltersLevel(levelId) ==> ClassesQuery(levelId).params == [] && Hole !in ClassesQuery(levelId).sql
  {
    if FiltersLevel(levelId) {
      var filtered := After(ClassesSelect, Placeholder(" WHERE level_id = "));
      HolesConcat(filtered, [Word(ClassesOrder)]);
      HolesConcat([Word(ClassesSelect)], Placeholder(" WHERE level_id = "));
      HolesConcat([Word(" WHERE level_id = ")], [Hole]);
    } else {
      assert [Word(ClassesSelect)][1..] == [] && [Word(ClassesOrder)][1..] == [];
      HolesConcat([Word(ClassesSelect)], [Word(ClassesOrder)]);
    }
  }

  /** The classes of one level, in their order. */
  function OfLevel(classes: seq<ClassInfo>, level: string): (r: seq<ClassInfo>)
    ensures |r| <= |classes|
  {
    if classes == [] then []
    else (if classes[0].level_id == level then [classes[0]] else []) + OfLevel(classes[1..], level)
  }

  /** Filtering keeps exactly the classes of the level. */
  lemma {:induction false} OfLevelMembers(classes: seq<ClassInfo>, level: string)
    ensures forall c :: c in OfLevel(classes, level) <==> c in classes && c.level_id == level
  {
    if classes != [] {
      OfLevelMembers(classes[1..], level);
      assert classes == [classes[0]] + classes[1..];
    }
  }

  /** `if (level_id && level_id !== 'all') classes.filter(...)`: the
      fallback lists are filtered as the query is. */
  function FilterByLevel(classes: seq<ClassInfo>, levelId: Opt<string>): (r: seq<ClassInfo>)
    ensures !FiltersLevel(levelId) ==> r == classes
    ensures FiltersLevel(levelId) ==> forall c :: c in r <==> c in classes && c.level_id == levelId.v
  {
    if FiltersLevel(levelId) then OfLevelMembers(classes, levelId.v); OfLevel(classes, levelId.v) else classes
  }

  /** The fourteen classes answered when the table cannot be read: two
      rooms for each of the seven levels. */
  const MockClasses: seq<ClassInfo> := [
    ClassInfo("1", 1, "1"), ClassInfo("2", 2, "1"), ClassInfo("3", 1, "2"), ClassInfo("4", 2, "2"),
    ClassInfo("5", 1, "3"), ClassInfo("6", 2, "3"), ClassInfo("7", 1, "4"), ClassInfo("8", 2, "4"),
    ClassInfo("9", 1, "5"), ClassInfo("10", 2, "5"), ClassInfo("11", 1, "6"), ClassInfo("12", 2, "6"),
    ClassInfo("13", 1, "7"), ClassInfo("14", 2, "7")
  ]

  /** The four classes of the outer fallback. */
  const OuterMockClasses: seq<ClassInfo> := [
    ClassInfo("1", 1, "1"), ClassInfo("2", 2, "1"), ClassInfo("3", 1, "2"), ClassInfo("4", 2, "2")
  ]

  /** The outer list is the first four of the inner one; the inner list
      holds rooms 1 and 2 of every fallback level, in level order. */
  lemma MockClassesShape()
    ensures |MockClasses| == 2 * |FallbackLevels| && OuterMockClasses == MockClasses[..4]
    ensures forall i :: 0 <= i < |MockClasses| ==>
      MockClasses[i].room == i % 2 + 1 && MockClasses[i].level_id == FallbackLevels[i / 2].id
  {
  }

  /** `getClasses`: probe the table; when it answers, list its classes,
      filtered in the query by a level other than 'all'; when the probe or
      the query throws, the fourteen built-in classes under the same
      filter. (The outer fallback to four classes follows an error of the
      inner fallback, which cannot throw, so it is not reached.) */
  method GetClasses(levelId: Opt<string>, probe: Outcome<()>, db: Outcome<seq<ClassInfo>>)
    returns (q: Option<Query>, r: seq<ClassInfo>)
    ensures probe.Ok? ==> q == Some(ClassesQuery(levelId))
    ensures probe.Throws? ==> q == None
    ensures probe.Ok? && db.Ok? ==> r == db.value
    ensures probe.Throws? || db.Throws? ==> r == FilterByLevel(MockClasses, levelId)
  {
    if probe.Throws? {
      return None, FilterByLevel(MockClasses, levelId);
    }
    var sql := [Word(ClassesSelect)];
    var params: seq<Value> := [];
    if FiltersLevel(levelId) {
      sql := Then(sql, " WHERE level_id = ") + [Hole];
      assert sql == After(ClassesSelect, Placeholder(" WHERE level_id = "));
      params := params + [VText(levelId.v)];
    }
    sql := Then(sql, ClassesOrder);
    assert Query(sql, params) == ClassesQuery(levelId);
    q := Some(Query(sql, params));
    if db.Throws? {
      return q, FilterByLevel(MockClasses, levelId);
    }
    r := db.value;
  }

  /** The outer fallback: the four classes under the same filter. */
  function OuterFallback(levelId: Opt<string>): (r: seq<ClassInfo>)
    ensures forall c :: c in r ==> c in FilterByLevel(MockClasses, levelId)
  {
    MockClassesShape();
    FilterByLevel(OuterMockClasses, levelId)
  }

  /** A list none of whose classes belongs to the level leaves nothing. */
  lemma {:induction false} OfLevelNone(classes: seq<ClassInfo>, level: string)
    requires forall i :: 0 <= i < |classes| ==> classes[i].level_id != level
    ensures OfLevel(classes, level) == []
  {
    if classes != [] {
      OfLevelNone(classes[1..], level);
    }
  }

  /** The fallback levels have distinct ids. */
  lemma FallbackLevelIdsDistinct()
    ensures forall i, j :: 0 <= i < j < |FallbackLevels| ==> FallbackLevels[i].id != FallbackLevels[j].id
  {
  }

  /** A level that is none of the fallback levels leaves no fallback
      class. */
  lemma UnknownLevelNoClasses(level: string)
    requires level != "" && level != "all"
    requires forall l :: l in FallbackLevels ==> l.id != level
    ensures FilterByLevel(MockClasses, Val(level)) == []
  {
    MockClassesShape();
    forall i | 0 <= i < |MockClasses| ensures MockClasses[i].level_id != level {
      assert FallbackLevels[i / 2] in FallbackLevels;
    }
    OfLevelNone(MockClasses, level);
  }

  /** Two classes per level, in level order, the levels' ids distinct. */
  predicate TwoPerLevel(classes: seq<ClassInfo>, levels: seq<Level>) {
    && |classes| == 2 * |levels|
    && (forall i :: 0 <= i < |classes| ==> classes[i].level_id == levels[i / 2].id)
    && (forall i, j :: 0 <= i < j < |levels| ==> levels[i].id != levels[j].id)
  }

  lemma LevelOfPosition(classes: seq<ClassInfo>, levels: seq<Level>, i: nat)
    requires TwoPerLevel(classes, levels) && i < |classes|
    ensures forall k :: 0 <= k < |levels| ==> (classes[i].level_id == levels[k].id <==> 2 * k <= i < 2 * k + 2)
  {
    var m := i / 2;
    assert 2 * m <= i < 2 * m + 2;
    assert classes[i].level_id == levels[m].id;
    forall k | 0 <= k < |levels| ensures classes[i].level_id == levels[k].id <==> 2 * k <= i < 2 * k + 2 {
      if k < m {
        assert levels[k].id != levels[m].id;
      } else if k > m {
        assert levels[m].id != levels[k].id;
      }
    }
  }

  /** Filtering distributes over concatenation. */
  lemma {:induction false} OfLevelAppend(a: seq<ClassInfo>, b: seq<ClassInfo>, level: string)
    ensures OfLevel(a + b, level) == OfLevel(a, level) + OfLevel(b, level)
  {
    if a == [] {
      assert a + b == b;
    } else {
      var ab := a + b;
      assert ab[0] == a[0] && ab[1..] == a[1..] + b;
      OfLevelAppend(a[1..], b, level);
      var head := if a[0].level_id == level then [a[0]] else [];
      assert OfLevel(ab, level) == head + OfLevel(a[1..] + b, level);
      assert OfLevel(a, level) == head + OfLevel(a[1..], level);
    }
  }

  /** A list all of whose classes belong to the level is kept whole. */
  lemma {:induction false} OfLevelAll(classes: seq<ClassInfo>, level: string)
    requires forall i :: 0 <= i < |classes| ==> classes[i].level_id == level
    ensures OfLevel(classes, level) == classes
  {
    if classes != [] {
      OfLevelAll(classes[1..], level);
      assert classes == [classes[0]] + classes[1..];
    }
  }

  /** When exactly the classes at positions lo..hi belong to the level,
      filtering keeps that slice. */
  lemma OfLevelSlice(classes: seq<ClassInfo>, level: string, lo: nat, hi: nat)
    requires lo <= hi <= |classes|
    requires forall i :: 0 <= i < |classes| ==> (classes[i].level_id == level <==> lo <= i < hi)
    ensures OfLevel(classes, level) == classes[lo..hi]
  {
    var before, within, after := classes[..lo], classes[lo..hi], classes[hi..];
    assert classes == before + within + after;
    OfLevelAppend(before + within, after, level);
    OfLevelAppend(before, within, level);
    forall i | 0 <= i < |before| ensures before[i].level_id != level {
      assert before[i] == classes[i];
    }
    OfLevelNone(before, level);
    forall i | 0 <= i < |within| ensures within[i].level_id == level {
      assert within[i] == classes[lo + i];
    }
    OfLevelAll(within, level);
    forall i | 0 <= i < |after| ensures after[i].level_id != level {
      assert after[i] == classes[hi + i];
    }
    OfLevelNone(after, level);
  }

  /** In such a list, filtering by the k-th level keeps exactly its two
      classes. */
  lemma OfLevelTwoPerLevel(classes: seq<ClassInfo>, levels: seq<Level>, k: nat)
    requires TwoPerLevel(classes, levels) && k < |levels|
    ensures OfLevel(classes, levels[k].id) == classes[2 * k..2 * k + 2]
  {
    forall i | 0 <= i < |classes| ensures classes[i].level_id == levels[k].id <==> 2 * k <= i < 2 * k + 2 {
      LevelOfPosition(classes, levels, i);
    }
    OfLevelSlice(classes, levels[k].id, 2 * k, 2 * k + 2);
  }

  /** Filtering the fallback by one of the fallback levels keeps exactly
      that level's two rooms. */
  lemma KnownLevelTwoRooms(k: nat)
    requires k < |FallbackLevels|
    ensures FilterByLevel(MockClasses, Val(FallbackLevels[k].id)) == MockClasses[2 * k..2 * k + 2]
  {
    MockClassesShape();
    FallbackLevelIdsDistinct();
    assert FiltersLevel(Val(FallbackLevels[k].id));
    OfLevelTwoPerLevel(MockClasses, FallbackLevels, k);
  }
}
