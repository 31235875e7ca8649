// The projects section: a category filter over the project cards, the
// technology chips on each card, and the detail modal.
module ProjectCatalogue {
  import opened Wrappers

  /** The four filter buttons, in display order. */
  datatype Category = All | Web | IoT | Java

  function CategoryName(c: Category): string
  {
    match c
    case All => "All"
    case Web => "Web"
    case IoT => "IoT"
    case Java => "Java"
  }

  datatype Project = Project(
    id: string,
    title: string,
    description: string,
    longDescription: Option<string>,
    image: string,
    technologies: seq<string>,
    github: Option<string>,
    demo: Option<string>,
    category: seq<string>)

  // ---------------------------------------------------------------------
  // Filtering

  /** The card of `p` is shown under the active filter. */
  predicate IsShown(p: Project, active: Category)
  {
    active == All || CategoryName(active) in p.category
  }

  /** `projects.filter(p => active === 'All' || p.category.includes(active))`:
      the shown cards, each as often as in the list, in the list's order. */
  function FilterProjects(projects: seq<Project>, active: Category): (shown: seq<Project>)
    ensures |shown| <= |projects|
    ensures forall p :: p in shown <==> p in projects && IsShown(p, active)
    ensures forall p :: multiset(shown)[p] == if IsShown(p, active) then multiset(projects)[p] else 0
    ensures IsSubsequence(shown, projects)
  {
    if |projects| == 0 then []
    else
      var rest := FilterProjects(projects[1..], active);
      assert projects == [projects[0]] + projects[1..];
      if IsShown(projects[0], active) then
        assert ([projects[0]] + rest)[1..] == rest;
        [projects[0]] + rest
      else rest
  }

  /** The 'All' button shows the whole list. */
  lemma {:induction false} FilterAllIsIdentity(projects: seq<Project>)
    ensures FilterProjects(projects, All) == projects
  {
    if |projects| > 0 {
      FilterAllIsIdentity(projects[1..]);
      assert projects == [projects[0]] + projects[1..];
    }
  }

  /** Filtering twice by the same category changes nothing further. */
  lemma {:induction false} FilterIdempotent(projects: seq<Project>, active: Category)
    ensures FilterProjects(FilterProjects(projects, active), active) == FilterProjects(projects, active)
  {
    if |projects| > 0 {
      FilterIdempotent(projects[1..], active);
      var rest := FilterProjects(projects[1..], active);
      if IsShown(projects[0], active) {
        assert ([projects[0]] + rest)[1..] == rest;
      }
    }
  }

  // ---------------------------------------------------------------------
  // Technology chips

  const MaxChips: nat := 3

  /** The chips on a card and the "+N" badge, if any. */
  datatype ChipRow = ChipRow(chips: seq<string>, overflow: Option<nat>)

  /** `technologies.slice(0, 3)` and, when there are more than three,
      `+{technologies.length - 3}`. */
  function TechChips(technologies: seq<string>): (row: ChipRow)
    ensures |row.chips| <= MaxChips
    ensures row.chips == technologies[..if |technologies| <= MaxChips then |technologies| else MaxChips]
    ensures row.overflow.Some? <==> |technologies| > MaxChips
    ensures row.overflow.Some? ==> row.overflow.value == |technologies| - MaxChips > 0
    ensures |row.chips| + (if row.overflow.Some? then row.overflow.value else 0) == |technologies|
  {
    var shown := if |technologies| <= MaxChips then technologies else technologies[..MaxChips];
    var badge := if |technologies| > MaxChips then Some(|technologies| - MaxChips) else None;
    ChipRow(shown, badge)
  }

  // ---------------------------------------------------------------------
  // The detail modal

  /** `longDescription || description`: an absent or empty long text falls
      back to the short one. */
  function ModalDescription(p: Project): (text: string)
    ensures text == p.description || (p.longDescription.Some? && text == p.longDescription.value)
    ensures p.longDescription.Some? && p.longDescription.value != "" ==> text == p.longDescription.value
    ensures text == "" <==> (p.longDescription.None? || p.longDescription.value == "") && p.description == ""
  {
    match p.longDescription
    case Some(long) => if long != "" then long else p.description
    case None => p.description
  }

  /** The inline `overflow` style of the page body. */
  datatype Overflow = Unset | Hidden | Auto

  class ProjectsSection {
    var activeCategory: Category
    var selectedProject: Option<Project>
    /** `document.body.style.overflow`, which this section writes. */
    var bodyOverflow: Overflow

    /** The page scrolls exactly when no project is open (once a modal has
        been opened). */
    ghost predicate Valid()
      reads this
    {
      (selectedProject.Some? <==> bodyOverflow == Hidden)
    }

    constructor ()
      ensures Valid()
      ensures activeCategory == All && selectedProject == None && bodyOverflow == Unset
    {
      activeCategory := All;
      selectedProject := None;
      bodyOverflow := Unset;
    }

    /** A filter button: the modal is left alone. */
    method SetActiveCategory(c: Category)
      requires Valid()
      modifies this`activeCategory
      ensures Valid()
      ensures activeCategory == c
      ensures selectedProject == old(selectedProject) && bodyOverflow == old(bodyOverflow)
    {
      activeCategory := c;
    }

    /** `openProjectModal`: show `p` and stop the page from scrolling. */
    method OpenProjectModal(p: Project)
      requires Valid()
      modifies this`selectedProject, this`bodyOverflow
      ensures Valid()
      ensures selectedProject == Some(p) && bodyOverflow == Hidden
    {
      selectedProject := Some(p);
      bodyOverflow := Hidden;
    }

    /** `closeProjectModal`: hide the modal and let the page scroll. */
    method CloseProjectModal()
      requires Valid()
      modifies this`selectedProject, this`bodyOverflow
      ensures Valid()
      ensures selectedProject == None && bodyOverflow == Auto
    {
      selectedProject := None;
      bodyOverflow := Auto;
    }

    /** The modal is rendered exactly while a project is selected. */
    function ModalRendered(): (rendered: bool)
      reads this
      ensures rendered <==> selectedProject.Some?
      ensures rendered ==> bodyOverflow == Hidden
      requires Valid()
    {
      selectedProject.Some?
    }

    /** The cards on screen. */
    function VisibleProjects(projects: seq<Project>): (shown: seq<Project>)
      reads this
      ensures forall p :: p in shown <==> p in projects && IsShown(p, activeCategory)
    {
      FilterProjects(projects, activeCategory)
    }
  }
}
