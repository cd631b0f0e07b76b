/** The `api/qualityprofiles/projects` action: list the projects associated
    (or not) with a quality profile, sorted by name and then uuid, restricted
    to the projects the caller may browse, one page at a time.

    The quality-profile DAO queries and the authorization DAO are
    collaborators: the queries enter as functions of the profile key and the
    name query, and the authorization DAO as the set of project ids the caller
    may browse. */
module QProfileProjects {
  import opened Ws
  import opened StringOrder
  import opened Pagination

  datatype SelectionMode = Selected | Deselected | All

  /** ProjectQprofileAssociationDto */
  datatype Association = Association(
    projectId: int, projectUuid: string, projectKey: string, projectName: string, associated: bool)

  /** The quality-profile DAO: the profile keys that exist and the three
      association queries. */
  datatype QualityProfileDao = QualityProfileDao(
    profiles: set<string>,
    selectSelectedProjects: (string, Option<string>) -> seq<Association>,
    selectDeselectedProjects: (string, Option<string>) -> seq<Association>,
    selectProjectAssociations: (string, Option<string>) -> seq<Association>)

  /** One result object of the JSON response. */
  datatype ProjectRow = ProjectRow(uuid: string, id: string, key: string, name: string, selected: bool)

  datatype ProjectsResponse = ProjectsResponse(results: seq<ProjectRow>, more: bool)

  // ---------------------------------------------------------------------------
  // The profile check and the loaded projects

  function ProfileNotFoundMessage(profileKey: string): string {
    "Could not find a quality profile with key '" + profileKey + "'"
  }

  /** The not-found message names the requested profile key. */
  lemma ProfileNotFoundMessageNamesKey(k1: string, k2: string)
    requires ProfileNotFoundMessage(k1) == ProfileNotFoundMessage(k2)
    ensures k1 == k2
  {
    MessageNamesArgument("Could not find a quality profile with key '", k1, k2, "'");
  }

  /** The projects the selection mode picks. */
  function Loaded(dao: QualityProfileDao, profileKey: string, mode: SelectionMode, query: Option<string>): seq<Association> {
    match mode
    case Selected => dao.selectSelectedProjects(profileKey, query)
    case Deselected => dao.selectDeselectedProjects(profileKey, query)
    case All => dao.selectProjectAssociations(profileKey, query)
  }

  /** loadProjects: a new list filled from the query the selection mode picks. */
  method LoadProjects(dao: QualityProfileDao, profileKey: string, mode: SelectionMode, query: Option<string>)
    returns (projects: array<Association>)
    ensures fresh(projects)
    ensures mode == Selected ==> projects[..] == dao.selectSelectedProjects(profileKey, query)
    ensures mode == Deselected ==> projects[..] == dao.selectDeselectedProjects(profileKey, query)
    ensures mode == All ==> projects[..] == dao.selectProjectAssociations(profileKey, query)
    ensures projects[..] == Loaded(dao, profileKey, mode, query)
  {
    var found: seq<Association>;
    if mode == Selected {
      found := dao.selectSelectedProjects(profileKey, query);
    } else if mode == Deselected {
      found := dao.selectDeselectedProjects(profileKey, query);
    } else {
      found := dao.selectProjectAssociations(profileKey, query);
    }
    projects := new Association[|found|](i requires 0 <= i < |found| => found[i]);
  }

  // ---------------------------------------------------------------------------
  // Sorting by name, then by uuid

  /** The comparator of `handle` is at most 0: names first, uuids to break ties. */
  predicate NameThenUuid(a: Association, b: Association) {
    Less(a.projectName, b.projectName) ||
    (a.projectName == b.projectName && LessOrEqual(a.projectUuid, b.projectUuid))
  }

  lemma NameThenUuidTotal(a: Association, b: Association)
    ensures NameThenUuid(a, b) || NameThenUuid(b, a)
  {
    LessTotal(a.projectName, b.projectName);
    LessTotal(a.projectUuid, b.projectUuid);
  }

  lemma NameThenUuidTransitive(a: Association, b: Association, c: Association)
    requires NameThenUuid(a, b) && NameThenUuid(b, c)
    ensures NameThenUuid(a, c)
  {
    LessIrreflexive(a.projectName);
    LessIrreflexive(b.projectName);
    if a.projectName == b.projectName && b.projectName == c.projectName {
      LessOrEqualTransitive(a.projectUuid, b.projectUuid, c.projectUuid);
    } else if Less(a.projectName, b.projectName) && Less(b.projectName, c.projectName) {
      LessTransitive(a.projectName, b.projectName, c.projectName);
    }
  }

  ghost predicate SortedByNameThenUuid(s: seq<Association>) {
    forall i, j :: 0 <= i < j < |s| ==> NameThenUuid(s[i], s[j])
  }

  ghost predicate NeighboursInOrder(s: seq<Association>) {
    forall k :: 0 < k < |s| ==> NameThenUuid(s[k - 1], s[k])
  }

  lemma {:induction false} NeighboursChain(s: seq<Association>, i: int, j: int)
    requires NeighboursInOrder(s) && 0 <= i < j < |s|
    ensures NameThenUuid(s[i], s[j])
    decreases j - i
  {
    if i + 1 < j {
      NeighboursChain(s, i + 1, j);
      NameThenUuidTransitive(s[i], s[i + 1], s[j]);
    }
  }

  /** A list whose neighbours are in order is sorted. */
  lemma NeighboursInOrderIsSorted(s: seq<Association>)
    requires NeighboursInOrder(s)
    ensures SortedByNameThenUuid(s)
  {
    forall i, j | 0 <= i < j < |s|
      ensures NameThenUuid(s[i], s[j])
    {
      NeighboursChain(s, i, j);
    }
  }

  /** `projects.sort(...)`: sorts the list in place by name, then uuid. */
  method SortByNameThenUuid(a: array<Association>)
    modifies a
    ensures SortedByNameThenUuid(a[..])
    ensures multiset(a[..]) == multiset(old(a[..]))
  {
    var i := 0;
    while i < a.Length
      invariant 0 <= i <= a.Length
      invariant forall k :: 0 < k < i ==> NameThenUuid(a[k - 1], a[k])
      invariant multiset(a[..]) == multiset(old(a[..]))
    {
      InsertInOrder(a, i);
      i := i + 1;
    }
    NeighboursInOrderIsSorted(a[..]);
  }

  /** One insertion step: moves `a[i]` left until the first `i + 1` items are
      in order. */
  method InsertInOrder(a: array<Association>, i: int)
    requires 0 <= i < a.Length
    requires forall k :: 0 < k < i ==> NameThenUuid(a[k - 1], a[k])
    modifies a
    ensures forall k :: 0 < k <= i ==> NameThenUuid(a[k - 1], a[k])
    ensures multiset(a[..]) == multiset(old(a[..]))
  {
    var j := i;
    while j > 0 && !NameThenUuid(a[j - 1], a[j])
      invariant 0 <= j <= i
      invariant forall k :: 0 < k <= i && k != j && k - 1 != j ==> NameThenUuid(a[k - 1], a[k])
      invariant 0 < j < i ==> NameThenUuid(a[j - 1], a[j + 1])
      invariant j < i ==> NameThenUuid(a[j], a[j + 1])
      invariant multiset(a[..]) == multiset(old(a[..]))
    {
      NameThenUuidTotal(a[j - 1], a[j]);
      Swap(a, j - 1, j);
      j := j - 1;
    }
  }

  method Swap(a: array<Association>, i: int, j: int)
    requires 0 <= i < j < a.Length
    modifies a
    ensures a[..] == old(a[..])[i := old(a[j])][j := old(a[i])]
    ensures multiset(a[..]) == multiset(old(a[..]))
  {
    a[i], a[j] := a[j], a[i];
  }

  // ---------------------------------------------------------------------------
  // Authorization

  /** `Collections2.transform(projects, getProjectId)` */
  function ProjectIds(s: seq<Association>): (ids: seq<int>)
    ensures |ids| == |s| && forall k :: 0 <= k < |s| ==> ids[k] == s[k].projectId
  {
    seq(|s|, k requires 0 <= k < |s| => s[k].projectId)
  }

  /** keepAuthorizedProjectIds: the given ids the caller may browse. */
  function KeepAuthorizedProjectIds(ids: seq<int>, browsable: set<int>): (r: set<int>)
    ensures forall id :: id in r <==> id in ids && id in browsable
  {
    set id | id in ids && id in browsable
  }

  /** `Iterables.filter(projects, id in authorizedProjectIds)`: exactly the
      projects whose id is authorized, each as often as in the input. */
  function FilterAuthorized(s: seq<Association>, authorized: set<int>): (r: seq<Association>)
    ensures |r| <= |s|
    ensures forall x :: x in r <==> x in s && x.projectId in authorized
    ensures forall x :: multiset(r)[x] == if x.projectId in authorized then multiset(s)[x] else 0
  {
    if s == [] then []
    else
      assert s == [s[0]] + s[1..];
      if s[0].projectId in authorized then [s[0]] + FilterAuthorized(s[1..], authorized)
      else FilterAuthorized(s[1..], authorized)
  }

  lemma TailSorted(s: seq<Association>)
    requires s != [] && SortedByNameThenUuid(s)
    ensures SortedByNameThenUuid(s[1..])
    ensures forall x :: x in s[1..] ==> NameThenUuid(s[0], x)
  {
    forall i, j | 0 <= i < j < |s[1..]|
      ensures NameThenUuid(s[1..][i], s[1..][j])
    {
      assert s[1..][i] == s[i + 1] && s[1..][j] == s[j + 1];
    }
    forall x | x in s[1..]
      ensures NameThenUuid(s[0], x)
    {
      var k :| 0 <= k < |s[1..]| && s[1..][k] == x;
      assert s[k + 1] == x;
    }
  }

  lemma ConsSorted(x: Association, s: seq<Association>)
    requires SortedByNameThenUuid(s)
    requires forall y :: y in s ==> NameThenUuid(x, y)
    ensures SortedByNameThenUuid([x] + s)
  {
    var r := [x] + s;
    forall i, j | 0 <= i < j < |r|
      ensures NameThenUuid(r[i], r[j])
    {
      assert r[j] == s[j - 1];
      if i > 0 {
        assert r[i] == s[i - 1];
      }
    }
  }

  /** Filtering keeps the sorted order. */
  lemma {:induction false} FilterKeepsOrder(s: seq<Association>, authorized: set<int>)
    requires SortedByNameThenUuid(s)
    ensures SortedByNameThenUuid(FilterAuthorized(s, authorized))
  {
    if s != [] {
      TailSorted(s);
      FilterKeepsOrder(s[1..], authorized);
      if s[0].projectId in authorized {
        ConsSorted(s[0], FilterAuthorized(s[1..], authorized));
      }
    }
  }

  ghost predicate DistinctIds(s: seq<Association>) {
    forall i, j :: 0 <= i < j < |s| ==> s[i].projectId != s[j].projectId
  }

  lemma TailDistinct(s: seq<Association>)
    requires s != [] && DistinctIds(s)
    ensures DistinctIds(s[1..])
    ensures s[0].projectId !in ProjectIds(s[1..])
    ensures ProjectIds(s) == [s[0].projectId] + ProjectIds(s[1..])
  {
    var tail := s[1..];
    forall i, j | 0 <= i < j < |tail|
      ensures tail[i].projectId != tail[j].projectId
    {
      assert tail[i] == s[i + 1] && tail[j] == s[j + 1];
    }
    forall k | 0 <= k < |tail|
      ensures ProjectIds(tail)[k] != s[0].projectId
    {
      assert tail[k] == s[k + 1];
    }
  }

  /** The authorized ids of a list are those of its tail, plus its head's id
      when that one is authorized; with distinct ids, the head's id is new. */
  lemma AuthorizedIdsOfCons(s: seq<Association>, authorized: set<int>)
    requires s != [] && DistinctIds(s)
    ensures var rest := KeepAuthorizedProjectIds(ProjectIds(s[1..]), authorized);
      && s[0].projectId !in rest
      && KeepAuthorizedProjectIds(ProjectIds(s), authorized)
         == if s[0].projectId in authorized then rest + {s[0].projectId} else rest
  {
    TailDistinct(s);
  }

  /** With distinct project ids, the filtered list has as many projects as
      there are authorized ids among them. */
  lemma {:induction false} FilteredCount(s: seq<Association>, authorized: set<int>)
    requires DistinctIds(s)
    ensures |FilterAuthorized(s, authorized)| == |KeepAuthorizedProjectIds(ProjectIds(s), authorized)|
  {
    if s == [] {
      assert KeepAuthorizedProjectIds(ProjectIds(s), authorized) == {};
    } else {
      TailDistinct(s);
      FilteredCount(s[1..], authorized);
      FilteredCountStep(s, authorized);
    }
  }

  /** Adding a head with a new id adds one to both counts when that id is
      authorized, and nothing to either otherwise. */
  lemma FilteredCountStep(s: seq<Association>, authorized: set<int>)
    requires s != [] && DistinctIds(s)
    ensures var step := if s[0].projectId in authorized then 1 else 0;
      && |FilterAuthorized(s, authorized)| == |FilterAuthorized(s[1..], authorized)| + step
      && |KeepAuthorizedProjectIds(ProjectIds(s), authorized)|
         == |KeepAuthorizedProjectIds(ProjectIds(s[1..]), authorized)| + step
  {
    AuthorizedIdsOfCons(s, authorized);
  }

  /** The `more` flag counts authorized ids while the page counts filtered
      projects; with distinct project ids the two agree, so `more` holds
      exactly when the next page is not empty. */
  lemma MoreMeansNextPageNonEmpty(sorted: seq<Association>, browsable: set<int>, p: Paging)
    requires DistinctIds(sorted) && p.Valid()
    requires p.total == |KeepAuthorizedProjectIds(ProjectIds(sorted), browsable)|
    ensures var authorized := KeepAuthorizedProjectIds(ProjectIds(sorted), browsable);
      p.HasNextPage() <==> Window(FilterAuthorized(sorted, authorized), p.Next()) != []
  {
    var authorized := KeepAuthorizedProjectIds(ProjectIds(sorted), browsable);
    FilteredCount(sorted, authorized);
    assert KeepAuthorizedProjectIds(ProjectIds(sorted), authorized) == authorized;
    HasNextPageMeansNextWindowNonEmpty(FilterAuthorized(sorted, authorized), p);
  }

  lemma WindowOfSortedIsSorted(list: seq<Association>, p: Paging)
    requires SortedByNameThenUuid(list) && p.Valid()
    ensures SortedByNameThenUuid(Window(list, p))
    ensures forall x :: x in Window(list, p) ==> x in list
  {
    WindowShape(list, p);
    var page := Window(list, p);
    forall i, j | 0 <= i < j < |page|
      ensures NameThenUuid(page[i], page[j])
    {
      assert page[i] == list[p.Offset() + i] && page[j] == list[p.Offset() + j];
    }
    forall x | x in page
      ensures x in list
    {
      var k :| 0 <= k < |page| && page[k] == x;
      assert list[p.Offset() + k] == x;
    }
  }

  /** The page that is written is sorted by name, then uuid, and holds only
      authorized projects. */
  lemma PageIsSorted(sorted: seq<Association>, authorized: set<int>, p: Paging)
    requires SortedByNameThenUuid(sorted) && p.Valid()
    ensures var page := Window(FilterAuthorized(sorted, authorized), p);
      SortedByNameThenUuid(page) && forall x :: x in page ==> x in sorted && x.projectId in authorized
  {
    FilterKeepsOrder(sorted, authorized);
    WindowOfSortedIsSorted(FilterAuthorized(sorted, authorized), p);
  }

  // ---------------------------------------------------------------------------
  // Writing the response

  /** A row carries the project uuid in both `uuid` and `id`. */
  predicate RendersRow(row: ProjectRow, project: Association) {
    && row.uuid == project.projectUuid
    && row.id == project.projectUuid
    && row.key == project.projectKey
    && row.name == project.projectName
    && row.selected == project.associated
  }

  predicate Renders(json: ProjectsResponse, projects: seq<Association>, paging: Paging) {
    && |json.results| == |projects|
    && (forall k :: 0 <= k < |projects| ==> RendersRow(json.results[k], projects[k]))
    && json.more == paging.HasNextPage()
  }

  /** writeProjects: one result object per project, in order, then `more`. */
  method WriteProjects(projects: seq<Association>, paging: Paging) returns (json: ProjectsResponse)
    ensures Renders(json, projects, paging)
  {
    var results: seq<ProjectRow> := [];
    for i := 0 to |projects|
      invariant |results| == i
      invariant forall k :: 0 <= k < i ==> RendersRow(results[k], projects[k])
    {
      var project := projects[i];
      results := results + [ProjectRow(project.projectUuid, project.projectUuid, project.projectKey,
                                       project.projectName, project.associated)];
    }
    json := ProjectsResponse(results, paging.HasNextPage());
  }

  // ---------------------------------------------------------------------------
  // The handler

  /** handle: check the profile, load and sort its projects, keep the
      authorized ones and write the requested page of them. `sorted` is the
      loaded list after the in-place sort. */
  method Handle(dao: QualityProfileDao, browsable: set<int>, profileKey: string, mode: SelectionMode,
                query: Option<string>, pageSize: int, page: int)
    returns (r: Result<ProjectsResponse>, ghost sorted: seq<Association>)
    ensures profileKey !in dao.profiles ==> r == Failure(NotFound(ProfileNotFoundMessage(profileKey)))
    ensures profileKey in dao.profiles ==>
      multiset(sorted) == multiset(Loaded(dao, profileKey, mode, query)) && SortedByNameThenUuid(sorted)
    ensures profileKey in dao.profiles && !(page >= 1 && pageSize >= 1) ==> r == Failure(InvalidPaging)
    ensures profileKey in dao.profiles && page >= 1 && pageSize >= 1 ==>
      var authorizedIds := KeepAuthorizedProjectIds(ProjectIds(sorted), browsable);
      var paging := Paging(page, pageSize, |authorizedIds|);
      r.Success? && Renders(r.value, Window(FilterAuthorized(sorted, authorizedIds), paging), paging)
  {
    sorted := [];
    if profileKey !in dao.profiles {
      return Failure(NotFound(ProfileNotFoundMessage(profileKey))), sorted;
    }

    var projects := LoadProjects(dao, profileKey, mode, query);
    SortByNameThenUuid(projects);
    sorted := projects[..];

    var projectIds := ProjectIds(projects[..]);
    var authorizedProjectIds := KeepAuthorizedProjectIds(projectIds, browsable);
    var authorizedProjects := FilterAuthorized(projects[..], authorizedProjectIds);

    var forPage := ForPageIndex(page, pageSize, |authorizedProjectIds|);
    if forPage.Failure? {
      return Failure(forPage.error), sorted;
    }
    var paging := forPage.value;
    OffsetNonNegative(paging);

    var pagedAuthorizedProjects := authorizedProjects;
    if |pagedAuthorizedProjects| <= paging.Offset() {
      pagedAuthorizedProjects := [];
    } else if |pagedAuthorizedProjects| > paging.pageSize {
      var endIndex := Min(paging.Offset() + pageSize, |pagedAuthorizedProjects|);
      pagedAuthorizedProjects := pagedAuthorizedProjects[paging.Offset()..endIndex];
    } else {
      SinglePageMeansFirstPage(paging, |pagedAuthorizedProjects|);
    }
    assert pagedAuthorizedProjects == Window(authorizedProjects, paging);

    var json := WriteProjects(pagedAuthorizedProjects, paging);
    r := Success(json);
  }
}
