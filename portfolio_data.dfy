/**
 * The portfolio's content records and the queries over them
 * (src/data/portfolioData.ts). The source's queries read the module-level
 * `portfolioProjects` array; here the list is a parameter, so every property
 * holds for any list, and `PortfolioProjects()` supplies the site's own.
 */
module PortfolioData {
  import opened Wrappers
  import opened JsArray

  /** A portfolio entry; an absent `featured` flag is `false`, an absent video is `None`. */
  datatype Project = Project(
    id: int,
    title: string,
    description: string,
    image: string,
    link: string,
    tags: seq<string>,
    primaryService: string,
    secondaryCategory: string,
    featured: bool,
    video: Option<string>)

  datatype ServiceCategory = ServiceCategory(id: string, name: string, icon: string, subcategories: seq<string>)

  /** The default view shows at most this many projects unless more are featured. */
  const MaxMixedItems: nat := 12

  function Min(a: int, b: int): int { if a <= b then a else b }
  function Max(a: int, b: int): int { if a <= b then b else a }

  /** The ids of a list of projects, in order. */
  function Ids(ps: seq<Project>): (r: seq<int>)
    ensures |r| == |ps| && forall i :: 0 <= i < |ps| ==> r[i] == ps[i].id
  {
    seq(|ps|, i requires 0 <= i < |ps| => ps[i].id)
  }

  /** The `project.featured` test and its negation, as first-class tests for `Filter`. */
  predicate IsFeatured(p: Project) { p.featured }
  predicate IsNotFeatured(p: Project) { !p.featured }

  lemma IdsAppend(a: seq<Project>, b: seq<Project>)
    ensures Ids(a + b) == Ids(a) + Ids(b)
  {
  }

  lemma IdsTake(a: seq<Project>, k: nat)
    requires k <= |a|
    ensures Ids(a[..k]) == Ids(a)[..k]
  {
  }

  function ServiceIs(serviceId: string): Project -> bool {
    (p: Project) => p.primaryService == serviceId
  }

  function CategoryIs(category: string): Project -> bool {
    (p: Project) => p.secondaryCategory == category
  }

  function ServiceAndCategoryAre(serviceId: string, category: string): Project -> bool {
    (p: Project) => p.primaryService == serviceId && p.secondaryCategory == category
  }

  /** `getFeaturedProjects`. */
  function GetFeaturedProjects(projects: seq<Project>): seq<Project> {
    Filter(projects, IsFeatured)
  }

  /** The `!project.featured` filter inside `getMixedProjects`. */
  function GetNonFeaturedProjects(projects: seq<Project>): seq<Project> {
    Filter(projects, IsNotFeatured)
  }

  /** `getProjectsByService`. */
  function GetProjectsByService(projects: seq<Project>, serviceId: string): seq<Project> {
    Filter(projects, ServiceIs(serviceId))
  }

  /** `getProjectsByCategory`. */
  function GetProjectsByCategory(projects: seq<Project>, category: string): seq<Project> {
    Filter(projects, CategoryIs(category))
  }

  /** `getProjectsByServiceAndCategory`. */
  function GetProjectsByServiceAndCategory(projects: seq<Project>, serviceId: string, category: string): seq<Project> {
    Filter(projects, ServiceAndCategoryAre(serviceId, category))
  }

  /** The featured query returns exactly the featured projects, each as often as listed, in list order. */
  lemma FeaturedProjectsSpec(projects: seq<Project>)
    ensures var r := GetFeaturedProjects(projects);
      && IsSubsequence(r, projects)
      && (forall p :: multiset(r)[p] == if p.featured then multiset(projects)[p] else 0)
      && (forall p :: p in r <==> p in projects && p.featured)
  {
    FilterSpec(projects, IsFeatured);
  }

  /** The by-service query returns exactly the projects of that primary service, in list order. */
  lemma ProjectsByServiceSpec(projects: seq<Project>, serviceId: string)
    ensures var r := GetProjectsByService(projects, serviceId);
      && IsSubsequence(r, projects)
      && (forall p :: multiset(r)[p] == if p.primaryService == serviceId then multiset(projects)[p] else 0)
      && (forall p :: p in r <==> p in projects && p.primaryService == serviceId)
  {
    FilterSpec(projects, ServiceIs(serviceId));
  }

  /** The by-category query returns exactly the projects of that secondary category, in list order. */
  lemma ProjectsByCategorySpec(projects: seq<Project>, category: string)
    ensures var r := GetProjectsByCategory(projects, category);
      && IsSubsequence(r, projects)
      && (forall p :: multiset(r)[p] == if p.secondaryCategory == category then multiset(projects)[p] else 0)
      && (forall p :: p in r <==> p in projects && p.secondaryCategory == category)
  {
    FilterSpec(projects, CategoryIs(category));
  }

  /** The combined query returns exactly the projects passing both tests, each as often as listed, in list order. */
  lemma ProjectsByServiceAndCategorySpec(projects: seq<Project>, serviceId: string, category: string)
    ensures var r := GetProjectsByServiceAndCategory(projects, serviceId, category);
      && IsSubsequence(r, projects)
      && (forall p :: multiset(r)[p] ==
            if p.primaryService == serviceId && p.secondaryCategory == category then multiset(projects)[p] else 0)
  {
    FilterSpec(projects, ServiceAndCategoryAre(serviceId, category));
  }

  /** A project is in the combined result iff it is in both single-test results. */
  lemma ServiceAndCategoryIsIntersection(projects: seq<Project>, serviceId: string, category: string, p: Project)
    ensures p in GetProjectsByServiceAndCategory(projects, serviceId, category) <==>
      p in GetProjectsByService(projects, serviceId) && p in GetProjectsByCategory(projects, category)
  {
    FilterMembership(projects, ServiceAndCategoryAre(serviceId, category), p);
    FilterMembership(projects, ServiceIs(serviceId), p);
    FilterMembership(projects, CategoryIs(category), p);
  }

  /** The combined query equals narrowing the by-service result by category. */
  lemma ServiceThenCategory(projects: seq<Project>, serviceId: string, category: string)
    ensures GetProjectsByServiceAndCategory(projects, serviceId, category)
      == GetProjectsByCategory(GetProjectsByService(projects, serviceId), category)
  {
    FilterFusion(projects, ServiceIs(serviceId), CategoryIs(category), ServiceAndCategoryAre(serviceId, category));
  }

  /** Every project is either featured or not: the two lists split the input. */
  lemma FeaturedSplit(projects: seq<Project>)
    ensures |GetFeaturedProjects(projects)| + |GetNonFeaturedProjects(projects)| == |projects|
    ensures multiset(GetFeaturedProjects(projects)) + multiset(GetNonFeaturedProjects(projects)) == multiset(projects)
  {
    FilterPartition(projects, IsFeatured, IsNotFeatured);
  }

  /** How many non-featured projects the default view takes: the slots left under the cap, if any. */
  function MixedFill(projects: seq<Project>): (k: nat)
    ensures k <= |GetNonFeaturedProjects(projects)|
  {
    FeaturedSplit(projects);
    Max(0, Min(MaxMixedItems, |projects|) - |GetFeaturedProjects(projects)|)
  }

  /** The default view `getMixedProjects` builds: every featured project, then the first `MixedFill` others. */
  function MixedProjects(projects: seq<Project>): seq<Project> {
    GetFeaturedProjects(projects) + GetNonFeaturedProjects(projects)[..MixedFill(projects)]
  }

  /**
   * `getMixedProjects`: featured projects are pushed first and are never capped;
   * non-featured ones are pushed in order while the list is shorter than
   * `min(12, projects.length)` and some remain.
   */
  method GetMixedProjects(projects: seq<Project>) returns (mixed: seq<Project>)
    ensures mixed == MixedProjects(projects)
    ensures |mixed| == Max(|GetFeaturedProjects(projects)|, Min(MaxMixedItems, |projects|))
    ensures mixed[..|GetFeaturedProjects(projects)|] == GetFeaturedProjects(projects)
    ensures multiset(mixed) <= multiset(projects)
  {
    var featured := GetFeaturedProjects(projects);
    var nonFeatured := GetNonFeaturedProjects(projects);

    mixed := [];
    var maxItems := Min(MaxMixedItems, |projects|);

    var i := 0;
    while i < |featured|
      invariant 0 <= i <= |featured|
      invariant mixed == featured[..i]
    {
      assert featured[..i + 1] == featured[..i] + [featured[i]];
      mixed := mixed + [featured[i]];
      i := i + 1;
    }
    assert mixed == featured;

    var nonFeaturedIndex := 0;
    while |mixed| < maxItems && nonFeaturedIndex < |nonFeatured|
      invariant 0 <= nonFeaturedIndex <= |nonFeatured|
      invariant mixed == featured + nonFeatured[..nonFeaturedIndex]
      invariant nonFeaturedIndex == 0 || |mixed| <= maxItems
    {
      assert nonFeatured[..nonFeaturedIndex + 1] == nonFeatured[..nonFeaturedIndex] + [nonFeatured[nonFeaturedIndex]];
      mixed := mixed + [nonFeatured[nonFeaturedIndex]];
      nonFeaturedIndex := nonFeaturedIndex + 1;
    }
    assert nonFeaturedIndex == MixedFill(projects);
    MixedProjectsShape(projects);
  }

  /**
   * The default view's shape: its length is `max(F, min(12, N))`, it starts with
   * all `F` featured projects in list order, the rest are the leading non-featured
   * projects, and no project occurs more often than in the input.
   */
  lemma MixedProjectsShape(projects: seq<Project>)
    ensures var f := GetFeaturedProjects(projects);
      && |MixedProjects(projects)| == Max(|f|, Min(MaxMixedItems, |projects|))
      && MixedProjects(projects)[..|f|] == f
      && MixedProjects(projects)[|f|..] == GetNonFeaturedProjects(projects)[..|MixedProjects(projects)| - |f|]
    ensures multiset(MixedProjects(projects)) <= multiset(projects)
  {
    var f, n, k := GetFeaturedProjects(projects), GetNonFeaturedProjects(projects), MixedFill(projects);
    FeaturedSplit(projects);
    assert n == n[..k] + n[k..];
    assert multiset(n[..k]) <= multiset(n);
  }

  /** When the featured projects fit under the cap, the view holds exactly `min(12, N)` projects. */
  lemma MixedProjectsFillsCap(projects: seq<Project>)
    requires |GetFeaturedProjects(projects)| <= Min(MaxMixedItems, |projects|)
    ensures |MixedProjects(projects)| == Min(MaxMixedItems, |projects|)
  {
    MixedProjectsShape(projects);
  }
}
