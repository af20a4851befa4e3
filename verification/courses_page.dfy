/** The course catalogue page: a case-insensitive search over title and
    description, a category filter, and the difficulty badge. Difficulty and progress
    are whole numbers. */
module CoursesPage {
  import opened JsString
  import opened SeqUtil

  /** The fields of a catalogue entry the page logic reads. */
  datatype CourseCard = CourseCard(id: string, title: string, description: string, difficulty: int, progress: int)

  /** The search: the lower-cased term occurs in the lower-cased title or description. */
  predicate MatchesSearch(c: CourseCard, term: string) {
    Contains(ToLower(c.title), ToLower(term)) || Contains(ToLower(c.description), ToLower(term))
  }

  /** The category filter; a value other than the five the selector offers matches nothing. */
  predicate MatchesFilter(c: CourseCard, filter: string) {
    || filter == "all"
    || (filter == "enrolled" && c.progress > 0)
    || (filter == "completed" && c.progress == 100)
    || (filter == "beginner" && c.difficulty <= 2)
    || (filter == "advanced" && c.difficulty >= 3)
  }

  function Keeps(term: string, filter: string): CourseCard -> bool {
    (c: CourseCard) => MatchesSearch(c, term) && MatchesFilter(c, filter)
  }

  /** `filteredCourses`: the entries passing both tests, in catalogue order. */
  function FilteredCourses(courses: seq<CourseCard>, term: string, filter: string): (r: seq<CourseCard>)
    ensures IsSubsequence(r, courses)
    ensures forall c :: c in r <==> c in courses && MatchesSearch(c, term) && MatchesFilter(c, filter)
    ensures forall c :: multiset(r)[c] == if MatchesSearch(c, term) && MatchesFilter(c, filter) then multiset(courses)[c] else 0
  {
    FilterIsSubsequence(Keeps(term, filter), courses);
    FilterContents(Keeps(term, filter), courses);
    var r := Filter(Keeps(term, filter), courses);
    assert forall c :: c in r <==> multiset(r)[c] > 0;
    assert forall c :: c in courses <==> multiset(courses)[c] > 0;
    r
  }

  lemma LowerCharIdempotent(c: char)
    ensures LowerChar(LowerChar(c)) == LowerChar(c)
  {
  }

  lemma ToLowerIdempotent(s: string)
    ensures ToLower(ToLower(s)) == ToLower(s)
  {
    forall i | 0 <= i < |s| ensures ToLower(ToLower(s))[i] == ToLower(s)[i] {
      LowerCharIdempotent(s[i]);
    }
  }

  /** The case of the search term makes no difference. */
  lemma SearchIgnoresCase(c: CourseCard, term: string)
    ensures MatchesSearch(c, term) <==> MatchesSearch(c, ToLower(term))
  {
    ToLowerIdempotent(term);
  }

  /** The empty search under "all" lists the whole catalogue. */
  lemma {:induction false} EmptySearchListsAll(courses: seq<CourseCard>)
    ensures FilteredCourses(courses, "", "all") == courses
  {
    assert ToLower("") == "";
    forall i | 0 <= i < |courses| ensures Keeps("", "all")(courses[i]) {
      assert StartsWith(ToLower(courses[i].title), "");
    }
    FilterAllOrNone(Keeps("", "all"), courses);
  }

  /** A filter value the selector does not offer hides every entry. */
  lemma {:induction false} UnknownFilterListsNothing(courses: seq<CourseCard>, term: string, filter: string)
    requires filter !in {"all", "enrolled", "completed", "beginner", "advanced"}
    ensures FilteredCourses(courses, term, filter) == []
  {
    FilterAllOrNone(Keeps(term, filter), courses);
  }

  /** Every completed entry is also an enrolled one. */
  lemma CompletedAreEnrolled(courses: seq<CourseCard>, term: string)
    ensures forall c :: c in FilteredCourses(courses, term, "completed") ==> c in FilteredCourses(courses, term, "enrolled")
  {
  }

  /** "beginner" and "advanced" split the matching entries: each one is in exactly one of them. */
  lemma BeginnerAdvancedPartition(courses: seq<CourseCard>, term: string)
    ensures forall c :: c in courses && MatchesSearch(c, term) ==>
      ((c in FilteredCourses(courses, term, "beginner")) != (c in FilteredCourses(courses, term, "advanced")))
    ensures forall c :: c in FilteredCourses(courses, term, "beginner") || c in FilteredCourses(courses, term, "advanced") ==>
      c in FilteredCourses(courses, term, "all")
  {
  }

  /** `getDifficultyLabel`. */
  function DifficultyLabel(difficulty: int): (r: string)
    ensures r in {"Beginner", "Intermediate", "Advanced"}
    ensures r == "Beginner" <==> difficulty <= 2
    ensures r == "Intermediate" <==> difficulty == 3
    ensures r == "Advanced" <==> difficulty >= 4
  {
    if difficulty <= 2 then "Beginner"
    else if difficulty <= 3 then "Intermediate"
    else "Advanced"
  }

  /** `getDifficultyColor`. */
  function DifficultyColor(difficulty: int): (r: string)
    ensures r == "text-green-600 bg-green-100" <==> difficulty <= 2
    ensures r == "text-yellow-600 bg-yellow-100" <==> difficulty == 3
    ensures r == "text-red-600 bg-red-100" <==> difficulty >= 4
  {
    if difficulty <= 2 then "text-green-600 bg-green-100"
    else if difficulty <= 3 then "text-yellow-600 bg-yellow-100"
    else "text-red-600 bg-red-100"
  }

  /** The badge colour is a function of the label: green, yellow and red go with
      Beginner, Intermediate and Advanced. */
  lemma ColorFollowsLabel(d: int, e: int)
    ensures DifficultyLabel(d) == DifficultyLabel(e) <==> DifficultyColor(d) == DifficultyColor(e)
  {
  }

  /** The "beginner" filter agrees with the badge, but the "advanced" filter also
      lists the entries badged Intermediate. */
  lemma FilterVersusBadge(c: CourseCard)
    ensures MatchesFilter(c, "beginner") <==> DifficultyLabel(c.difficulty) == "Beginner"
    ensures MatchesFilter(c, "advanced") <==> DifficultyLabel(c.difficulty) in {"Intermediate", "Advanced"}
    ensures c.difficulty == 3 ==> MatchesFilter(c, "advanced") && DifficultyLabel(c.difficulty) == "Intermediate"
  {
  }
}
