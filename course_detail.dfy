/**
 * The course detail page (src/pages/CourseDetail.tsx): the lookup with its
 * not-found fallback, the enroll link, the instructor's initials and the
 * curriculum accordion.
 */
module CourseDetail {
  import opened Wrappers
  import opened Strings
  import opened Courses
  import CoursesSection

  // ---------------------------------------------------------------------------
  // Lookup and fallback

  /** `id || ""`: the route parameter, or the empty string when there is none. */
  function RouteId(param: Option<string>): (id: string)
    ensures param.Some? ==> id == param.value
    ensures id == "" <==> param.None? || param.value == ""
  {
    match param
    case None => ""
    case Some(id) => id
  }

  /** What the page renders: the "Course Not Found" notice or the course. */
  datatype Page = NotFound | Detail(course: Course)

  function Render(param: Option<string>): (page: Page)
    ensures page.NotFound? <==> forall j :: 0 <= j < |Catalog| ==> Catalog[j].id != RouteId(param)
    ensures page.Detail? ==> page.course.id == RouteId(param) && page.course in Catalog
    ensures param.None? ==> page == NotFound
  {
    var found := GetCourseById(RouteId(param));
    if found.None? then NotFound
    else
      assert param.None? ==> found == GetCourseById("") by { EmptyIdNotFound(); }
      Detail(found.value)
  }

  /** Both enroll buttons link to `/course/${course.id}/enroll`: the course's own page, one level down. */
  const EnrollSuffix: string := "/enroll"

  function EnrollLink(id: string): (path: string)
    ensures |path| == |CoursesSection.CourseLink(id)| + |EnrollSuffix|
    ensures path[..|CoursesSection.CourseLink(id)|] == CoursesSection.CourseLink(id)
    ensures path[|CoursesSection.CourseLink(id)|..] == EnrollSuffix
  {
    "/course/" + id + EnrollSuffix
  }

  lemma EnrollLinkInjective(a: string, b: string)
    requires EnrollLink(a) == EnrollLink(b)
    ensures a == b
  {
    var n := |CoursesSection.CoursePrefix|;
    assert |a| == |b|;
    assert a == EnrollLink(a)[n..n + |a|];
  }

  // ---------------------------------------------------------------------------
  // Instructor initials

  /** `words.map(n => n[0]).join('')`: an empty word contributes nothing, since
      `""[0]` is `undefined` and `join` writes `undefined` as "". */
  function FirstLetters(words: seq<string>): (r: string)
    ensures |r| <= |words|
    decreases |words|
  {
    if words == [] then []
    else (if words[0] == [] then [] else [words[0][0]]) + FirstLetters(words[1..])
  }

  /** A character no word contains is never an initial. */
  lemma {:induction false} FirstLettersAvoid(words: seq<string>, c: char)
    requires forall i :: 0 <= i < |words| ==> c !in words[i]
    ensures c !in FirstLetters(words)
    decreases |words|
  {
    if words != [] {
      FirstLettersAvoid(words[1..], c);
    }
  }

  /** `name.split(' ').map(n => n[0]).join('')`. */
  function Initials(name: string): (r: string)
    ensures |r| <= |Split(name, ' ')|
    ensures ' ' !in r
  {
    FirstLettersAvoid(Split(name, ' '), ' ');
    FirstLetters(Split(name, ' '))
  }

  lemma {:induction false} FirstLettersOfWords(words: seq<string>)
    requires forall i :: 0 <= i < |words| ==> words[i] != []
    ensures |FirstLetters(words)| == |words|
    ensures forall i :: 0 <= i < |words| ==> FirstLetters(words)[i] == words[i][0]
    decreases |words|
  {
    if words != [] {
      FirstLettersOfWords(words[1..]);
      assert FirstLetters(words) == [words[0][0]] + FirstLetters(words[1..]);
      forall i | 0 < i < |words| ensures FirstLetters(words)[i] == words[i][0] {
        assert words[i] == words[1..][i - 1];
      }
    }
  }

  /** For a name of non-empty words separated by single spaces, the initials
      are one character per word: that word's first. */
  lemma InitialsOfName(words: seq<string>)
    requires |words| >= 1
    requires forall i :: 0 <= i < |words| ==> words[i] != [] && ' ' !in words[i]
    ensures |Initials(Join(words, ' '))| == |words|
    ensures forall i :: 0 <= i < |words| ==> Initials(Join(words, ' '))[i] == words[i][0]
  {
    SplitJoin(words, ' ');
    FirstLettersOfWords(words);
  }

  lemma InitialsOfSarahChen()
    ensures Initials("Sarah Chen") == "SC"
  {
    var words := ["Sarah", "Chen"];
    JoinHead(words, ' ');
    JoinHead(words[1..], ' ');
    assert Join(words, ' ') == "Sarah Chen";
    InitialsOfName(words);
  }

  // ---------------------------------------------------------------------------
  // Curriculum accordion

  /** `activeModule` when no module is open. */
  const Collapsed: int := -1

  /** The click handler's update: `activeModule === index ? -1 : index`. */
  function ToggleModule(active: int, index: nat): (r: int)
    ensures r == index <==> active != index
    ensures r == Collapsed <==> active == index
  {
    if active == index then Collapsed else index
  }

  /** Clicking the same module twice restores the state exactly when that state
      had this module open or none open. */
  lemma ToggleTwice(active: int, index: nat)
    ensures ToggleModule(ToggleModule(active, index), index) == active <==> active == index || active == Collapsed
  {
  }

  /** Card `index` shows its topics: `activeModule === index`. */
  predicate IsExpanded(active: int, index: nat) {
    active == index
  }

  /** The modules, of `count`, whose cards show their topics. */
  function ExpandedModules(active: int, count: nat): (shown: set<nat>)
    ensures shown == if 0 <= active < count then {active as nat} else {}
    ensures |shown| <= 1
  {
    set k: nat | k < count && IsExpanded(active, k)
  }

  /** The accordion state of the curriculum section. */
  class ModuleAccordion {
    var activeModule: int

    /** `useState(0)`: the first module starts open. */
    constructor ()
      ensures activeModule == 0
    {
      activeModule := 0;
    }

    /** A click on module `index`. */
    method Click(index: nat)
      modifies this
      ensures activeModule == ToggleModule(old(activeModule), index)
      ensures IsExpanded(activeModule, index) <==> !IsExpanded(old(activeModule), index)
    {
      activeModule := if activeModule == index then Collapsed else index;
    }
  }
}
