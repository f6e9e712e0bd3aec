/**
 * The catalog section of the landing page (src/components/CoursesSection.tsx):
 * the icon shown for a course category and the link each course card follows.
 */
module CoursesSection {
  import opened Courses

  /** The categories the icon switch names. */
  const NamedCategories: set<string> :=
    {"Full Stack", "Data Science", "Mobile Dev", "Cloud Eng", "UX Design", "Security"}

  /** Every icon the switch can produce. */
  const IconNames: set<string> :=
    {"fa-code", "fa-brain", "fa-mobile-alt", "fa-cloud", "fa-paint-brush", "fa-shield-alt"}

  /** `getIconForCategory(category)`. */
  function IconForCategory(category: string): (icon: string)
    ensures icon in IconNames
    ensures category == "Full Stack" ==> icon == "fa-code"
    ensures category == "Data Science" ==> icon == "fa-brain"
    ensures category == "Mobile Dev" ==> icon == "fa-mobile-alt"
    ensures category == "Cloud Eng" ==> icon == "fa-cloud"
    ensures category == "UX Design" ==> icon == "fa-paint-brush"
    ensures category == "Security" ==> icon == "fa-shield-alt"
    ensures category !in NamedCategories ==> icon == "fa-code"
  {
    match category
    case "Full Stack" => "fa-code"
    case "Data Science" => "fa-brain"
    case "Mobile Dev" => "fa-mobile-alt"
    case "Cloud Eng" => "fa-cloud"
    case "UX Design" => "fa-paint-brush"
    case "Security" => "fa-shield-alt"
    case _ => "fa-code"
  }

  /** Every catalog category is one the switch names, and the six catalog
      courses show six different icons. */
  lemma CatalogIcons()
    ensures forall i :: 0 <= i < |Catalog| ==> Catalog[i].category in NamedCategories
    ensures forall i, j :: 0 <= i < j < |Catalog| ==>
              IconForCategory(Catalog[i].category) != IconForCategory(Catalog[j].category)
  {
    assert Catalog[0].category == "Full Stack";
    assert Catalog[1].category == "Data Science";
    assert Catalog[2].category == "Mobile Dev";
    assert Catalog[3].category == "Cloud Eng";
    assert Catalog[4].category == "UX Design";
    assert Catalog[5].category == "Security";
  }

  const CoursePrefix: string := "/course/"

  /** The card's link: `/course/${id}`. The identifier can be read back from it. */
  function CourseLink(id: string): (path: string)
    ensures |path| == |CoursePrefix| + |id|
    ensures path[..|CoursePrefix|] == CoursePrefix && path[|CoursePrefix|..] == id
  {
    CoursePrefix + id
  }

  /** Different courses link to different pages. */
  lemma CourseLinkInjective(a: string, b: string)
    requires CourseLink(a) == CourseLink(b)
    ensures a == b
  {
    assert a == CourseLink(a)[|CoursePrefix|..];
  }

  /** The grid renders one card per catalog course, and no two cards link to the same page. */
  lemma CardLinksDistinct()
    ensures forall i, j :: 0 <= i < j < |Catalog| ==> CourseLink(Catalog[i].id) != CourseLink(Catalog[j].id)
  {
    CatalogIdsDistinct();
    forall i, j | 0 <= i < j < |Catalog|
      ensures CourseLink(Catalog[i].id) != CourseLink(Catalog[j].id)
    {
      if CourseLink(Catalog[i].id) == CourseLink(Catalog[j].id) {
        CourseLinkInjective(Catalog[i].id, Catalog[j].id);
      }
    }
  }
}
