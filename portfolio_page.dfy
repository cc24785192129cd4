/**
 * The portfolio page (src/components/pages/Portfolio.tsx): which query the
 * selected service and category run, the filter buttons that change them,
 * the results label, and a project card with its video popup.
 *
 * `string | null` state is an `Option<string>`; React's `if (x)` on it is
 * `Truthy`, which is false for `null` and for the empty string.
 */
module PortfolioPage {
  import opened Wrappers
  import opened JsArray
  import opened PortfolioData

  /** JavaScript truthiness of a `string | null` (or of an optional string field). */
  predicate Truthy(o: Option<string>) {
    o.Some? && o.value != ""
  }

  /** The list the `filteredProjects` memo returns for a (service, category) pair. */
  function ShownProjects(projects: seq<Project>, service: Option<string>, category: Option<string>): seq<Project> {
    if !Truthy(service) && !Truthy(category) then MixedProjects(projects)
    else if Truthy(service) && Truthy(category) then
      GetProjectsByServiceAndCategory(projects, service.value, category.value)
    else if Truthy(service) then GetProjectsByService(projects, service.value)
    else if Truthy(category) then GetProjectsByCategory(projects, category.value)
    else projects
  }

  /**
   * When a category is only ever set together with a service, the page shows
   * the default view, the combined query or the by-service query: the
   * category-only branch and the final fallback are never taken.
   */
  lemma ShownProjectsUnderInvariant(projects: seq<Project>, service: Option<string>, category: Option<string>)
    requires category.Some? ==> Truthy(service)
    ensures ShownProjects(projects, service, category) ==
      if !Truthy(service) then MixedProjects(projects)
      else if Truthy(category) then GetProjectsByServiceAndCategory(projects, service.value, category.value)
      else GetProjectsByService(projects, service.value)
  {
  }

  /** Whatever is selected, the page shows projects from the list, none more often than listed. */
  lemma ShownProjectsFromList(projects: seq<Project>, service: Option<string>, category: Option<string>)
    ensures multiset(ShownProjects(projects, service, category)) <= multiset(projects)
  {
    if !Truthy(service) && !Truthy(category) {
      MixedProjectsShape(projects);
    } else if Truthy(service) && Truthy(category) {
      ProjectsByServiceAndCategorySpec(projects, service.value, category.value);
      SubsequenceMultiset(ShownProjects(projects, service, category), projects);
    } else if Truthy(service) {
      ProjectsByServiceSpec(projects, service.value);
      SubsequenceMultiset(ShownProjects(projects, service, category), projects);
    } else {
      ProjectsByCategorySpec(projects, category.value);
      SubsequenceMultiset(ShownProjects(projects, service, category), projects);
    }
  }

  /**
   * With a service selected the page shows exactly that service's projects
   * (narrowed to the category when one is selected too), in list order.
   */
  lemma ShownProjectsForService(projects: seq<Project>, service: Option<string>, category: Option<string>, p: Project)
    requires Truthy(service)
    ensures IsSubsequence(ShownProjects(projects, service, category), projects)
    ensures p in ShownProjects(projects, service, category) <==>
      p in projects && p.primaryService == service.value && (Truthy(category) ==> p.secondaryCategory == category.value)
  {
    if Truthy(category) {
      ProjectsByServiceAndCategorySpec(projects, service.value, category.value);
      FilterMembership(projects, ServiceAndCategoryAre(service.value, category.value), p);
    } else {
      ProjectsByServiceSpec(projects, service.value);
    }
  }

  /** What a filter button click passes on: the clicked value, or `null` when it was already selected. */
  function Toggle(current: Option<string>, clicked: string): (r: Option<string>)
    ensures r == None <==> current == Some(clicked)
    ensures r.Some? ==> r.value == clicked
  {
    if current == Some(clicked) then None else Some(clicked)
  }

  /** Clicking the same button twice restores a selection that was empty or that button's. */
  lemma ToggleTwice(current: Option<string>, clicked: string)
    requires current == None || current == Some(clicked)
    ensures Toggle(Toggle(current, clicked), clicked) == current
  {
  }

  /** `availableCategories`: the selected service's subcategories, or none. */
  function AvailableCategories(categories: seq<ServiceCategory>, service: Option<string>): seq<string> {
    if Truthy(service) then
      match Find(categories, (s: ServiceCategory) => s.id == service.value)
      case Some(s) => s.subcategories
      case None => []
    else []
  }

  /**
   * The categories offered are those of the first service category whose id
   * is the selected service; none when no service is selected or the id is unknown.
   */
  lemma AvailableCategoriesSpec(categories: seq<ServiceCategory>, service: Option<string>)
    ensures !Truthy(service) ==> AvailableCategories(categories, service) == []
    ensures Truthy(service) && (forall j :: 0 <= j < |categories| ==> categories[j].id != service.value) ==>
      AvailableCategories(categories, service) == []
    ensures forall i ::
      (0 <= i < |categories| && Truthy(service) && categories[i].id == service.value &&
       forall j :: 0 <= j < i ==> categories[j].id != service.value) ==>
        AvailableCategories(categories, service) == categories[i].subcategories
  {
    if Truthy(service) {
      var f := (s: ServiceCategory) => s.id == service.value;
      var r := Find(categories, f);
      forall i | 0 <= i < |categories| && categories[i].id == service.value &&
        (forall j :: 0 <= j < i ==> categories[j].id != service.value)
        ensures AvailableCategories(categories, service) == categories[i].subcategories
      {
        assert f(categories[i]);
        var k :| 0 <= k < |categories| && categories[k] == r.value && f(categories[k]) && forall j :: 0 <= j < k ==> !f(categories[j]);
        assert categories[k].id == service.value;
        assert k >= i;
        assert k <= i;
      }
    }
  }

  /** The "Clear All" button is shown iff a service or a category is selected. */
  predicate ShowsClearButton(service: Option<string>, category: Option<string>) {
    Truthy(service) || Truthy(category)
  }

  /** The noun after the count in "Showing N project(s)". */
  function ProjectNoun(count: int): (r: string)
    ensures r == "project" <==> count == 1
    ensures r == "projects" <==> count != 1
  {
    "project" + (if count != 1 then "s" else "")
  }

  /**
   * The service name after "in" in the results line, when the selected id is
   * known. For an unknown id the page still renders " in " with an empty name;
   * `None` stands for that empty name.
   */
  function ResultsServiceName(categories: seq<ServiceCategory>, service: Option<string>): (r: Option<string>)
    ensures r.Some? ==> Truthy(service) && exists s :: s in categories && s.id == service.value && s.name == r.value
    ensures Truthy(service) && (exists s :: s in categories && s.id == service.value) ==> r.Some?
  {
    if Truthy(service) then
      match Find(categories, (s: ServiceCategory) => s.id == service.value)
      case Some(s) => Some(s.name)
      case None => None
    else None
  }

  /** The name shown is that of the first category whose id is the selected service (`find` stops at the first match). */
  lemma ResultsServiceNameSpec(categories: seq<ServiceCategory>, service: Option<string>)
    ensures !Truthy(service) ==> ResultsServiceName(categories, service) == None
    ensures Truthy(service) && (forall j :: 0 <= j < |categories| ==> categories[j].id != service.value) ==>
      ResultsServiceName(categories, service) == None
    ensures forall i ::
      (0 <= i < |categories| && Truthy(service) && categories[i].id == service.value &&
       forall j :: 0 <= j < i ==> categories[j].id != service.value) ==>
        ResultsServiceName(categories, service) == Some(categories[i].name)
  {
    if Truthy(service) {
      var f := (s: ServiceCategory) => s.id == service.value;
      var r := Find(categories, f);
      forall i | 0 <= i < |categories| && categories[i].id == service.value &&
        (forall j :: 0 <= j < i ==> categories[j].id != service.value)
        ensures ResultsServiceName(categories, service) == Some(categories[i].name)
      {
        assert f(categories[i]);
        var k :| 0 <= k < |categories| && categories[k] == r.value && f(categories[k]) && forall j :: 0 <= j < k ==> !f(categories[j]);
        assert categories[k].id == service.value;
        assert k >= i;
        assert k <= i;
      }
    }
  }

  /** The `Portfolio` component's filter state over a given list of projects and service categories. */
  class FilterState {
    const projects: seq<Project>
    const categories: seq<ServiceCategory>
    var selectedService: Option<string>
    var selectedCategory: Option<string>

    /** A category is only ever selected together with a service. */
    ghost predicate Valid()
      reads this
    {
      selectedCategory.Some? ==> Truthy(selectedService)
    }

    constructor(projects: seq<Project>, categories: seq<ServiceCategory>)
      ensures this.projects == projects && this.categories == categories
      ensures selectedService == None && selectedCategory == None
      ensures Valid()
    {
      this.projects := projects;
      this.categories := categories;
      selectedService := None;
      selectedCategory := None;
    }

    /** `handleServiceChange`: the new service replaces the old one and the category is cleared. */
    method HandleServiceChange(service: Option<string>)
      modifies this
      ensures selectedService == service && selectedCategory == None
      ensures Valid()
    {
      selectedService := service;
      selectedCategory := None;
    }

    /** `handleClearFilters`. */
    method HandleClearFilters()
      modifies this
      ensures selectedService == None && selectedCategory == None
      ensures !ShowsClearButton(selectedService, selectedCategory)
      ensures Valid()
    {
      selectedService := None;
      selectedCategory := None;
    }

    /** A click on the button of service `id`. */
    method ServiceButtonClick(id: string)
      modifies this
      ensures selectedService == Toggle(old(selectedService), id)
      ensures selectedCategory == None
      ensures Valid()
    {
      HandleServiceChange(if selectedService == Some(id) then None else Some(id));
    }

    /** A click on a category button; these are only rendered for the selected service's categories. */
    method CategoryButtonClick(category: string)
      requires Truthy(selectedService)
      requires category in AvailableCategories(categories, selectedService)
      modifies this
      ensures selectedService == old(selectedService)
      ensures selectedCategory == Toggle(old(selectedCategory), category)
      ensures Valid()
    {
      selectedCategory := if selectedCategory == Some(category) then None else Some(category);
    }

    /**
     * `filteredProjects`, running `getMixedProjects` when nothing is selected.
     * Under the invariant only three of its branches are ever taken.
     */
    method FilteredProjects() returns (shown: seq<Project>)
      ensures shown == ShownProjects(projects, selectedService, selectedCategory)
      ensures Valid() ==>
        shown == if !Truthy(selectedService) then MixedProjects(projects)
                 else if Truthy(selectedCategory) then GetProjectsByServiceAndCategory(projects, selectedService.value, selectedCategory.value)
                 else GetProjectsByService(projects, selectedService.value)
    {
      if !Truthy(selectedService) && !Truthy(selectedCategory) {
        shown := GetMixedProjects(projects);
      } else if Truthy(selectedService) && Truthy(selectedCategory) {
        shown := GetProjectsByServiceAndCategory(projects, selectedService.value, selectedCategory.value);
      } else if Truthy(selectedService) {
        shown := GetProjectsByService(projects, selectedService.value);
      } else if Truthy(selectedCategory) {
        shown := GetProjectsByCategory(projects, selectedCategory.value);
      } else {
        shown := projects;
      }
      if Valid() {
        ShownProjectsUnderInvariant(projects, selectedService, selectedCategory);
      }
    }
  }

  /** A project card and its video popup (`ProjectCard`). */
  class ProjectCard {
    const project: Project
    var isOpen: bool
    var videoSrc: string

    /** The popup is open exactly when it holds a video, and then it holds this project's. */
    ghost predicate Valid()
      reads this
    {
      (isOpen <==> videoSrc != "") && (isOpen ==> Truthy(project.video) && videoSrc == project.video.value)
    }

    constructor(project: Project)
      ensures this.project == project
      ensures !isOpen && videoSrc == ""
      ensures Valid()
    {
      this.project := project;
      isOpen := false;
      videoSrc := "";
    }

    /**
     * `handleCardClick`: a card with a video opens the popup on it and stops
     * the link; a card without one leaves the popup alone and the browser
     * follows the link.
     */
    method HandleCardClick() returns (followsLink: bool)
      requires Valid()
      modifies this
      ensures followsLink <==> !Truthy(project.video)
      ensures Truthy(project.video) ==> isOpen && videoSrc == project.video.value
      ensures !Truthy(project.video) ==> isOpen == old(isOpen) && videoSrc == old(videoSrc)
      ensures Valid()
    {
      if Truthy(project.video) {
        isOpen, videoSrc := true, project.video.value;
        followsLink := false;
      } else {
        followsLink := true;
      }
    }

    /** The popup's `onClose`. */
    method Close()
      modifies this
      ensures !isOpen && videoSrc == ""
      ensures Valid()
    {
      isOpen, videoSrc := false, "";
    }
  }
}
