/**
 * The class list filters: the predicate that keeps a class, the list of
 * active-filter chips, and the updates of the filter state.
 */
module ClassFilter {
  import opened Wrappers
  import opened JsText

  /** A class as the list shows it; dates are time stamps, a student is known by an optional gender. */
  datatype ClassData = ClassData(
    id: string,
    name: string,
    startDate: int,
    endDate: int,
    students: Option<seq<Option<string>>>,
    subjectsInstructors: seq<string>,
    countLessons: int)

  datatype GenderFilter = AnyGender | MaleDominant | FemaleDominant | Balanced
  datatype InstructorFilter = AnyInstructors | One | TwoToThree | FourOrMore
  datatype SizeFilter = AnySize | Small | Medium | Large

  /** The filter state; `dateFrom`/`dateTo` None stand for an unset end of the range. */
  datatype ClassFilters = ClassFilters(
    search: string,
    dateFrom: Option<int>,
    dateTo: Option<int>,
    gender: GenderFilter,
    instructorCount: InstructorFilter,
    studentCount: SizeFilter)

  const EmptyFilters: ClassFilters := ClassFilters("", None, None, AnyGender, AnyInstructors, AnySize)

  /** The number of students whose gender is `g`. */
  function CountGender(students: seq<Option<string>>, g: string): (n: nat)
    ensures n <= |students|
  {
    if students == [] then 0
    else (if students[0] == Some(g) then 1 else 0) + CountGender(students[1..], g)
  }

  predicate MatchesSearch(c: ClassData, search: string) {
    search == [] || ContainsIgnoreCase(c.name, search)
  }

  predicate MatchesDates(c: ClassData, f: ClassFilters) {
    f.dateFrom.None? || f.dateTo.None? ||
    (c.startDate >= f.dateFrom.value && c.endDate <= f.dateTo.value)
  }

  /**
   * The gender filter. Without a student list both counts are `undefined`,
   * every comparison is false, and so no gender filter rejects the class.
   */
  predicate MatchesGender(c: ClassData, g: GenderFilter) {
    match c.students
    case None => true
    case Some(ss) =>
      var male := CountGender(ss, "homme");
      var female := CountGender(ss, "femme");
      match g
      case AnyGender => true
      case MaleDominant => male > female
      case FemaleDominant => female > male
      case Balanced => -3 <= male - female <= 3
  }

  predicate MatchesInstructors(c: ClassData, i: InstructorFilter) {
    var count := |c.subjectsInstructors|;
    match i
    case AnyInstructors => true
    case One => count == 1
    case TwoToThree => 2 <= count <= 3
    case FourOrMore => count >= 4
  }

  function StudentCount(c: ClassData): nat {
    if c.students.Some? then |c.students.value| else 0
  }

  predicate MatchesSize(c: ClassData, s: SizeFilter) {
    var count := StudentCount(c);
    match s
    case AnySize => true
    case Small => count <= 15
    case Medium => 16 <= count <= 30
    case Large => count >= 31
  }

  /** The predicate of filteredClasses. */
  predicate Keep(c: ClassData, f: ClassFilters) {
    MatchesSearch(c, f.search) && MatchesDates(c, f) && MatchesGender(c, f.gender) &&
    MatchesInstructors(c, f.instructorCount) && MatchesSize(c, f.studentCount)
  }

  /** filteredClasses. */
  function FilteredClasses(cs: seq<ClassData>, f: ClassFilters): (r: seq<ClassData>)
    ensures |r| <= |cs|
  {
    if cs == [] then []
    else if Keep(cs[0], f) then [cs[0]] + FilteredClasses(cs[1..], f)
    else FilteredClasses(cs[1..], f)
  }

  /** The kept classes are exactly the input classes that pass every filter. */
  lemma {:induction false} FilteredClassesSpec(cs: seq<ClassData>, f: ClassFilters)
    ensures forall c :: c in FilteredClasses(cs, f) <==> c in cs && Keep(c, f)
  {
    if cs != [] {
      FilteredClassesSpec(cs[1..], f);
      assert forall c :: c in cs <==> c == cs[0] || c in cs[1..];
    }
  }

  /** With every filter empty, the list is returned whole and in order. */
  lemma {:induction false} NoFilterKeepsAll(cs: seq<ClassData>)
    ensures FilteredClasses(cs, EmptyFilters) == cs
  {
    if cs != [] {
      NoFilterKeepsAll(cs[1..]);
      assert cs == [cs[0]] + cs[1..];
    }
  }

  /** Every student count falls in exactly one of the three size classes. */
  lemma SizeClassesPartition(c: ClassData)
    ensures MatchesSize(c, Small) || MatchesSize(c, Medium) || MatchesSize(c, Large)
    ensures !(MatchesSize(c, Small) && MatchesSize(c, Medium))
    ensures !(MatchesSize(c, Medium) && MatchesSize(c, Large))
    ensures !(MatchesSize(c, Small) && MatchesSize(c, Large))
  {
  }

  /** With a student list, a class is never both male dominant and female dominant. */
  lemma GenderExclusive(c: ClassData)
    requires c.students.Some?
    ensures !(MatchesGender(c, MaleDominant) && MatchesGender(c, FemaleDominant))
  {
  }

  /** One chip of the active-filter bar. */
  datatype ActiveFilter = ActiveFilter(kind: string, text: string)

  function GenderText(g: GenderFilter): string {
    match g
    case MaleDominant => "Male Dominant"
    case FemaleDominant => "Female Dominant"
    case Balanced => "Balanced"
    case AnyGender => ""
  }

  function InstructorText(i: InstructorFilter): string {
    match i
    case One => "1 Instructor"
    case TwoToThree => "2-3 Instructors"
    case FourOrMore => "4+ Instructors"
    case AnyInstructors => ""
  }

  function SizeText(s: SizeFilter): string {
    match s
    case Small => "Small Class (<15)"
    case Medium => "Medium Class (16-30)"
    case Large => "Large Class (31+)"
    case AnySize => ""
  }

  function Kinds(active: seq<ActiveFilter>): (r: seq<string>)
    ensures |r| == |active| && forall i :: 0 <= i < |active| ==> r[i] == active[i].kind
  {
    seq(|active|, i requires 0 <= i < |active| => active[i].kind)
  }

  /** The position of each chip kind in the bar. */
  function Rank(kind: string): int {
    match kind
    case "search" => 0
    case "dateRange" => 1
    case "gender" => 2
    case "instructorCount" => 3
    case "studentCount" => 4
    case _ => 5
  }

  /** Whether the filter of a chip kind is set. */
  predicate IsSet(f: ClassFilters, kind: string) {
    match kind
    case "search" => f.search != []
    case "dateRange" => f.dateFrom.Some? && f.dateTo.Some?
    case "gender" => f.gender != AnyGender
    case "instructorCount" => f.instructorCount != AnyInstructors
    case "studentCount" => f.studentCount != AnySize
    case _ => false
  }

  /** The text of the chip for a set filter; the date text itself is locale formatting, left as a fixed prefix. */
  function ChipText(f: ClassFilters, kind: string): string {
    match kind
    case "search" => "Search: " + f.search
    case "dateRange" => "Date: "
    case "gender" => "Gender: " + GenderText(f.gender)
    case "instructorCount" => "Instructors: " + InstructorText(f.instructorCount)
    case _ => "Class Size: " + SizeText(f.studentCount)
  }

  /** The chip pushed for one kind: one entry when that filter is set, none otherwise. */
  function Chip(f: ClassFilters, kind: string): seq<ActiveFilter> {
    if IsSet(f, kind) then [ActiveFilter(kind, ChipText(f, kind))] else []
  }

  const ChipOrder: seq<string> := ["search", "dateRange", "gender", "instructorCount", "studentCount"]

  /** The chips for the kinds `ks`, in that order. */
  function ChipsFor(f: ClassFilters, ks: seq<string>): seq<ActiveFilter> {
    if ks == [] then [] else Chip(f, ks[0]) + ChipsFor(f, ks[1..])
  }

  /** A kind has a chip exactly when it is listed in `ks` and its filter is set. */
  lemma {:induction false} ChipsForKinds(f: ClassFilters, ks: seq<string>)
    ensures forall kind :: kind in Kinds(ChipsFor(f, ks)) <==> kind in ks && IsSet(f, kind)
  {
    if ks != [] {
      var t := ks[1..];
      ChipsForKinds(f, t);
      var c := Chip(f, ks[0]);
      var r := ChipsFor(f, t);
      assert Kinds(c + r) == Kinds(c) + Kinds(r);
      assert Kinds(c) == if IsSet(f, ks[0]) then [ks[0]] else [];
      forall kind ensures kind in ks <==> kind == ks[0] || kind in t { assert ks == [ks[0]] + t; }
    }
  }

  /** Every chip belongs to a listed kind and carries that kind's text. */
  lemma {:induction false} ChipsForTexts(f: ClassFilters, ks: seq<string>)
    ensures forall a :: a in ChipsFor(f, ks) ==> a.kind in ks && a.text == ChipText(f, a.kind)
  {
    if ks != [] {
      var t := ks[1..];
      ChipsForTexts(f, t);
      forall kind | kind in t ensures kind in ks { assert ks == [ks[0]] + t; }
    }
  }

  /** Over kinds listed by rank, the chips are ordered by rank. */
  lemma {:induction false} ChipsForOrdered(f: ClassFilters, ks: seq<string>)
    requires forall i, j :: 0 <= i < j < |ks| ==> Rank(ks[i]) < Rank(ks[j])
    ensures forall i, j :: 0 <= i < j < |ChipsFor(f, ks)| ==>
      Rank(ChipsFor(f, ks)[i].kind) < Rank(ChipsFor(f, ks)[j].kind)
  {
    if ks != [] {
      var t := ks[1..];
      ChipsForOrdered(f, t);
      ChipsForTexts(f, t);
      var c := Chip(f, ks[0]);
      var r := ChipsFor(f, t);
      assert ChipsFor(f, ks) == c + r;
      forall a | a in r ensures Rank(ks[0]) < Rank(a.kind) {
        var k :| 0 <= k < |t| && t[k] == a.kind;
        assert ks[k + 1] == a.kind;
      }
      forall i, j | 0 <= i < j < |c + r| ensures Rank((c + r)[i].kind) < Rank((c + r)[j].kind) {
        if i < |c| {
          assert (c + r)[j] == r[j - |c|];
          assert r[j - |c|] in r;
        } else {
          assert (c + r)[i] == r[i - |c|] && (c + r)[j] == r[j - |c|];
        }
      }
    }
  }

  /** The chips for a listed kind followed by others are its chip, then the others' chips. */
  lemma ChipsForCons(f: ClassFilters, k: string, t: seq<string>)
    ensures ChipsFor(f, [k] + t) == Chip(f, k) + ChipsFor(f, t)
  {
    assert ([k] + t)[1..] == t;
  }

  /** The chips for five listed kinds are those kinds' chips, concatenated in order. */
  lemma ChipsForFive(f: ClassFilters, k0: string, k1: string, k2: string, k3: string, k4: string)
    ensures ChipsFor(f, [k0, k1, k2, k3, k4]) == Chip(f, k0) + Chip(f, k1) + Chip(f, k2) + Chip(f, k3) + Chip(f, k4)
  {
    var c0, c1, c2, c3, c4 := Chip(f, k0), Chip(f, k1), Chip(f, k2), Chip(f, k3), Chip(f, k4);
    ChipsForCons(f, k4, []);
    ChipsForCons(f, k3, [k4]);
    ChipsForCons(f, k2, [k3, k4]);
    ChipsForCons(f, k1, [k2, k3, k4]);
    ChipsForCons(f, k0, [k1, k2, k3, k4]);
    assert [k4] + [] == [k4];
    assert [k3] + [k4] == [k3, k4];
    assert [k2] + [k3, k4] == [k2, k3, k4];
    assert [k1] + [k2, k3, k4] == [k1, k2, k3, k4];
    assert [k0] + [k1, k2, k3, k4] == [k0, k1, k2, k3, k4];
    assert ChipsFor(f, []) == [];
    assert c4 + [] == c4;
    AppendFour(c0, c1, c2, c3, c4);
  }

  /** Concatenation regrouped from the right to the left. */
  lemma AppendFour<T>(a: seq<T>, b: seq<T>, c: seq<T>, d: seq<T>, e: seq<T>)
    ensures a + (b + (c + (d + e))) == a + b + c + d + e
  {
    assert c + (d + e) == c + d + e;
    assert b + (c + d + e) == b + c + d + e;
    assert a + (b + c + d + e) == a + b + c + d + e;
  }

  /** The chip bar is the concatenation of the five kinds' chips in the fixed order. */
  lemma ChipOrderUnfold(f: ClassFilters)
    ensures ChipsFor(f, ChipOrder) == Chip(f, "search") + Chip(f, "dateRange") + Chip(f, "gender") +
                                      Chip(f, "instructorCount") + Chip(f, "studentCount")
  {
    ChipsForFive(f, "search", "dateRange", "gender", "instructorCount", "studentCount");
  }

  /**
   * The active-filter chips, pushed one by one in the fixed order search,
   * dateRange, gender, instructorCount, studentCount.
   */
  method ActiveFilters(f: ClassFilters) returns (active: seq<ActiveFilter>)
    ensures active == ChipsFor(f, ChipOrder)
  {
    ChipOrderUnfold(f);
    active := [];
    if f.search != [] {
      active := active + [ActiveFilter("search", "Search: " + f.search)];
    }
    assert active == Chip(f, "search");
    if f.dateFrom.Some? && f.dateTo.Some? {
      active := active + [ActiveFilter("dateRange", "Date: ")];
    }
    assert active == Chip(f, "search") + Chip(f, "dateRange");
    if f.gender != AnyGender {
      active := active + [ActiveFilter("gender", "Gender: " + GenderText(f.gender))];
    }
    assert active == Chip(f, "search") + Chip(f, "dateRange") + Chip(f, "gender");
    if f.instructorCount != AnyInstructors {
      active := active + [ActiveFilter("instructorCount", "Instructors: " + InstructorText(f.instructorCount))];
    }
    assert active == Chip(f, "search") + Chip(f, "dateRange") + Chip(f, "gender") + Chip(f, "instructorCount");
    if f.studentCount != AnySize {
      active := active + [ActiveFilter("studentCount", "Class Size: " + SizeText(f.studentCount))];
    }
    assert active == Chip(f, "search") + Chip(f, "dateRange") + Chip(f, "gender") +
                     Chip(f, "instructorCount") + Chip(f, "studentCount");
  }

  /** The chip bar shows one chip per set filter, in the fixed order, with its text. */
  lemma ActiveFiltersSpec(f: ClassFilters)
    ensures forall kind :: kind in Kinds(ChipsFor(f, ChipOrder)) <==> IsSet(f, kind)
    ensures forall a :: a in ChipsFor(f, ChipOrder) ==> a.text == ChipText(f, a.kind)
    ensures forall i, j :: 0 <= i < j < |ChipsFor(f, ChipOrder)| ==>
      Rank(ChipsFor(f, ChipOrder)[i].kind) < Rank(ChipsFor(f, ChipOrder)[j].kind)
  {
    ChipsForKinds(f, ChipOrder);
    ChipsForTexts(f, ChipOrder);
    ChipsForOrdered(f, ChipOrder);
    forall kind | IsSet(f, kind) ensures kind in ChipOrder { }
  }

  /** The new value given to updateFilter for one field. */
  datatype FilterUpdate =
    | SetSearch(search: string)
    | SetDateRange(from: Option<int>, to: Option<int>)
    | SetGender(gender: GenderFilter)
    | SetInstructorCount(instructors: InstructorFilter)
    | SetStudentCount(size: SizeFilter)

  /** The filter state of the hook. */
  class Hook {
    var filters: ClassFilters

    constructor ()
      ensures filters == EmptyFilters
    {
      filters := EmptyFilters;
    }

    /** updateFilter: replaces one field. */
    method UpdateFilter(u: FilterUpdate)
      modifies this
      ensures filters == match u
        case SetSearch(s) => old(filters).(search := s)
        case SetDateRange(a, b) => old(filters).(dateFrom := a, dateTo := b)
        case SetGender(g) => old(filters).(gender := g)
        case SetInstructorCount(i) => old(filters).(instructorCount := i)
        case SetStudentCount(s) => old(filters).(studentCount := s)
    {
      match u
      case SetSearch(s) => filters := filters.(search := s);
      case SetDateRange(a, b) => filters := filters.(dateFrom := a, dateTo := b);
      case SetGender(g) => filters := filters.(gender := g);
      case SetInstructorCount(i) => filters := filters.(instructorCount := i);
      case SetStudentCount(s) => filters := filters.(studentCount := s);
    }

    /** removeFilter: resets the field of the chip kind; an unknown kind changes nothing. */
    method RemoveFilter(kind: string)
      modifies this
      ensures !IsSet(filters, kind)
      ensures forall k :: k != kind ==> IsSet(filters, k) == IsSet(old(filters), k)
      ensures Rank(kind) == 5 ==> filters == old(filters)
      ensures kind == "search" ==> filters == old(filters).(search := "")
      ensures kind == "dateRange" ==> filters == old(filters).(dateFrom := None, dateTo := None)
      ensures kind == "gender" ==> filters == old(filters).(gender := AnyGender)
      ensures kind == "instructorCount" ==> filters == old(filters).(instructorCount := AnyInstructors)
      ensures kind == "studentCount" ==> filters == old(filters).(studentCount := AnySize)
    {
      if kind == "search" {
        filters := filters.(search := "");
      } else if kind == "dateRange" {
        filters := filters.(dateFrom := None, dateTo := None);
      } else if kind == "gender" {
        filters := filters.(gender := AnyGender);
      } else if kind == "instructorCount" {
        filters := filters.(instructorCount := AnyInstructors);
      } else if kind == "studentCount" {
        filters := filters.(studentCount := AnySize);
      }
    }

    /** clearAllFilters. */
    method ClearAllFilters()
      modifies this
      ensures filters == EmptyFilters
      ensures forall kind :: !IsSet(filters, kind)
    {
      filters := EmptyFilters;
    }
  }
}
