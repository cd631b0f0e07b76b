# Bulk key update and quality-profile project listing, modelled in Dafny

This project models two request handlers of a code-quality server's web API.

1. `api/components/bulk_update_key` (`BulkUpdateKeyAction`) renames the key of a
   project or module and the keys of its sub-components. The target must be
   found by id or key, must be a project or a module, and the caller must
   administer it. The key updater then proposes a plan (old key → new key) and
   says which new keys are already taken. A dry run only reports the plan. A
   real run refuses the whole batch if any new key is taken, and otherwise
   applies the update. Both answer with the plan sorted by old key, each entry
   flagged as duplicate or not.
2. `api/qualityprofiles/projects` (`ProjectsAction`) lists the projects
   selected, not selected, or all, for a quality profile. It sorts them in
   place by name and then by uuid. It keeps the projects the caller may
   browse, in order, and writes one page of them with a `more` flag.

Modules:

- `Ws` (ws.dfy): optional values, handler results, and the errors a handler ends with.
- `StringOrder` (string_order.dfy): Java's `String.compareTo` as a strict order on
  strings, with its order laws. Also the least element of a set and the
  ascending listing of a set.
- `BulkUpdateKey` (bulk_update_key.dfy): parameter parsing, target resolution,
  the duplicate guard, the response, the `Run` specification, and the
  `ComponentStore` class. That class holds the stored keys (uuid → key) and the
  qualifiers. `DoHandle` changes the keys in place.
- `Pagination` (pagination.dfy): the paging arithmetic the listing relies on, and
  the page window.
- `QProfileProjects` (qprofile_projects.dfy): loading, the in-place array sort,
  the authorization filter, page slicing, and the response writer.

Collaborators whose code is not part of this model are inputs:

- The key updater's three operations (`simulateBulkUpdateKey`,
  `checkComponentKeys`, `ComponentService.bulkUpdateKey` followed by the commit)
  are the three function fields of `KeyUpdater`. Each is a function of the
  stored keys. The model states no rule for how new keys are computed.
- The quality-profile queries are function fields of `QualityProfileDao`.
- The ADMIN permission check is membership of the target's uuid in `admins`.
- The authorization DAO is the set of project ids the caller may browse.

Assumptions about the plugin API's `Paging`, which is not part of this model:

- `forPageIndex(page).withPageSize(size).andTotal(total)` accepts only
  `page >= 1`, `size >= 1` and `total >= 0`. Anything else is modelled as the
  error `InvalidPaging`.
- `offset()` is `(page - 1) * size`.
- `hasNextPage()` is `page * size < total`. `HasNextPageMeansMorePages` proves
  this equals `page < pages()`.

Assumptions about other code that is not part of this model:

- `ComponentFinder.getByUuidOrKey` requires exactly one of `id` and `key`, and
  fails when no component matches.
- `checkIsProjectOrModule` accepts the project and module qualifiers.
- `Request.mandatoryParamAsBoolean` reads true/yes and false/no.
- Building `BulkUpdateWsRequest` rejects an empty `from` or `to`.

Behaviour of the code worth knowing:

- A duplicate new key fails the whole real run with a bad request
  (`checkRequest`) that names one colliding key (`CheckNoDuplicate`,
  `DuplicateBlocksUpdate`).
- With five authorized projects, page size 2 and page 3, the page holds the
  fifth project and `more` is false (`FiveItemsThirdPageOfTwo`).
- The listing is sorted first and filtered afterwards; the filtered list is
  still sorted (`FilterKeepsOrder`).

## Model

| member | source | states |
|---|---|---|
| `BulkUpdateKey.ParseBoolean` | server/sonar-server/src/main/java/org/sonar/server/component/ws/BulkUpdateKeyAction.java:175 | true/yes parse as true and false/no as false; any other value fails as an invalid boolean for that parameter |
| `BulkUpdateKey.ToWsRequest` | server/sonar-server/src/main/java/org/sonar/server/component/ws/BulkUpdateKeyAction.java:169-177 | a missing `from` (then `to`) fails as a missing parameter. Parsing succeeds exactly when `from` and `to` are present and non-empty and any `dryRun` is a boolean. On success, id and key are the optional parameters, from and to are copied, and dryRun is true exactly for a given true/yes |
| `BulkUpdateKey.ParamsRoundTrip` | server/sonar-server/src/main/java/org/sonar/server/component/ws/BulkUpdateKeyAction.java:169-177 | parsing the parameters a request is sent with gives that request back |
| `BulkUpdateKey.DryRunDefaultsToFalse` | server/sonar-server/src/main/java/org/sonar/server/component/ws/BulkUpdateKeyAction.java:110-113 | without a `dryRun` parameter the request is a real run |
| `BulkUpdateKey.GetByUuidOrKey` | server/sonar-server/src/main/java/org/sonar/server/component/ws/BulkUpdateKeyAction.java:124 | neither or both of id/key fails. Otherwise resolution succeeds exactly when a stored component has that uuid, or carries that key, and the result is such a component; when exactly one is given and nothing matches, the error is `ComponentNotFound` |
| `BulkUpdateKey.IsProjectOrModule` | server/sonar-server/src/main/java/org/sonar/server/component/ws/BulkUpdateKeyAction.java:125 | the target must be stored with the project or the module qualifier |
| `BulkUpdateKey.DuplicateMessageNamesKey` | server/sonar-server/src/main/java/org/sonar/server/component/ws/BulkUpdateKeyAction.java:143 | the duplicate message determines the key it names |
| `BulkUpdateKey.CheckNoDuplicate` | server/sonar-server/src/main/java/org/sonar/server/component/ws/BulkUpdateKeyAction.java:142-144 | passes exactly when no new key is marked as existing; a failure is a bad request whose message names a key marked as existing |
| `BulkUpdateKey.BuildResponse` | server/sonar-server/src/main/java/org/sonar/server/component/ws/BulkUpdateKeyAction.java:151-167 | one entry per plan entry, every old key present, `key` = old key and `newKey` = its planned key, `duplicate` = the duplicate map's value defaulting to false, entries strictly ascending by old key |
| `BulkUpdateKey.Run` | server/sonar-server/src/main/java/org/sonar/server/component/ws/BulkUpdateKeyAction.java:121-140 | the specification of the handler: resolve the target, require a project or module and ADMIN, compute the plan and the duplicate map, and on a real run fail on a duplicate or apply the key updater; every run that gets past the checks answers with the built response. The lemmas below state its properties |
| `BulkUpdateKey.DryRunNeverMutates` | server/sonar-server/src/main/java/org/sonar/server/component/ws/BulkUpdateKeyAction.java:131-134 | a dry run leaves every stored key unchanged |
| `BulkUpdateKey.DuplicateBlocksUpdate` | server/sonar-server/src/main/java/org/sonar/server/component/ws/BulkUpdateKeyAction.java:131-133 | on a real run with one taken new key, the call fails, nothing changes, and the message names a taken key |
| `BulkUpdateKey.UpdateOnlyWhenAllowed` | server/sonar-server/src/main/java/org/sonar/server/component/ws/BulkUpdateKeyAction.java:124-134 | the keys change only on a real run whose target passed every check and whose new keys are all free; they then become the key updater's result and the call succeeds |
| `BulkUpdateKey.AllowedRunApplies` | server/sonar-server/src/main/java/org/sonar/server/component/ws/BulkUpdateKeyAction.java:131-133 | a real run whose target passed every check and whose new keys are all free succeeds, and the keys become the key updater's result |
| `BulkUpdateKey.ChecksPrecedeSimulation` | server/sonar-server/src/main/java/org/sonar/server/component/ws/BulkUpdateKeyAction.java:124-129 | when resolution, the project/module check or the ADMIN check fails, the outcome does not depend on the key updater, nothing changes, and the call fails |
| `BulkUpdateKey.RejectedTargetErrors` | server/sonar-server/src/main/java/org/sonar/server/component/ws/BulkUpdateKeyAction.java:124-126 | a failed resolution answers with the finder's error; a resolved target that is neither project nor module answers `NotProjectOrModule` whatever the caller's rights; a project or module the caller does not administer answers `InsufficientPrivileges` |
| `BulkUpdateKey.RealRunAnswersLikeDryRun` | server/sonar-server/src/main/java/org/sonar/server/component/ws/BulkUpdateKeyAction.java:128-136 | a successful run answers exactly what a dry run of the same request on the same keys answers |
| `BulkUpdateKey.DryRunReportsPlan` | server/sonar-server/src/main/java/org/sonar/server/component/ws/BulkUpdateKeyAction.java:128-136 | an accepted dry run succeeds with one entry per plan entry and every old key present, each carrying its planned new key and its duplicate flag from the key check (the only answer in which a true flag can appear), ascending by old key |
| `BulkUpdateKey.ComponentStore.BulkUpdateKey` | server/sonar-server/src/main/java/org/sonar/server/component/ws/BulkUpdateKeyAction.java:146-149 | the stored keys become the key updater's result for the target, from and to; qualifiers are unchanged |
| `BulkUpdateKey.DoHandle` | server/sonar-server/src/main/java/org/sonar/server/component/ws/BulkUpdateKeyAction.java:121-140 | the answer and the new stored keys are those of `Run` on the old keys; qualifiers are unchanged |
| `BulkUpdateKey.Handle` | server/sonar-server/src/main/java/org/sonar/server/component/ws/BulkUpdateKeyAction.java:117-119 | a parameter error is answered without touching the keys; otherwise the handler behaves as `Run` of the parsed request |
| `StringOrder.Less` | server/sonar-server/src/main/java/org/sonar/server/component/ws/BulkUpdateKeyAction.java:156 | `a.compareTo(b) < 0`: the first differing character decides, and a proper prefix comes first |
| `StringOrder.LessTransitive` | server/sonar-server/src/main/java/org/sonar/server/component/ws/BulkUpdateKeyAction.java:156 | the `compareTo` order is transitive |
| `StringOrder.LessTotal` | server/sonar-server/src/main/java/org/sonar/server/component/ws/BulkUpdateKeyAction.java:156 | two different strings are always ordered one way or the other |
| `StringOrder.LessAsymmetric` | server/sonar-server/src/main/java/org/sonar/server/component/ws/BulkUpdateKeyAction.java:156 | no two strings are each less than the other |
| `StringOrder.Ascending` | server/sonar-server/src/main/java/org/sonar/server/component/ws/BulkUpdateKeyAction.java:154-156 | the set's elements, each exactly once, in strictly ascending `compareTo` order |
| `Pagination.Paging.Offset` | server/sonar-server/src/main/java/org/sonar/server/qualityprofile/ws/ProjectsAction.java:120-124 | the assumed `offset()`: `(page - 1) * size` |
| `Pagination.Paging.HasNextPage` | server/sonar-server/src/main/java/org/sonar/server/qualityprofile/ws/ProjectsAction.java:166 | the assumed `hasNextPage()`: `page * size < total` |
| `Pagination.Paging.Pages` | server/sonar-server/src/main/java/org/sonar/server/qualityprofile/ws/ProjectsAction.java:117 | the number of pages for the total, rounding up; `HasNextPageMeansMorePages` ties it to `HasNextPage` |
| `Pagination.Window` | server/sonar-server/src/main/java/org/sonar/server/qualityprofile/ws/ProjectsAction.java:119-125 | the page window: the items from the offset, at most one page, clipped to the end of the list; `WindowShape` states its shape |
| `Pagination.ForPageIndex` | server/sonar-server/src/main/java/org/sonar/server/qualityprofile/ws/ProjectsAction.java:117 | paging is built exactly when page and page size are at least 1 (the assumption above); otherwise it fails as invalid paging |
| `Pagination.HasNextPageMeansMorePages` | server/sonar-server/src/main/java/org/sonar/server/qualityprofile/ws/ProjectsAction.java:166 | `page * size < total` holds exactly when the page index is below the number of pages |
| `Pagination.SinglePageMeansFirstPage` | server/sonar-server/src/main/java/org/sonar/server/qualityprofile/ws/ProjectsAction.java:120-125 | when offset < size ≤ page size, the page is the first and its offset is 0, so returning the whole list unsliced is the right window |
| `Pagination.WindowShape` | server/sonar-server/src/main/java/org/sonar/server/qualityprofile/ws/ProjectsAction.java:119-125 | the window holds at most one page; it is empty exactly when the list size is at most the offset; otherwise it has min(page size, size − offset) items; its k-th item is the list's item at offset + k |
| `Pagination.ItemOnItsPage` | server/sonar-server/src/main/java/org/sonar/server/qualityprofile/ws/ProjectsAction.java:117-124 | item i of a list is on page i / size + 1, at position i % size |
| `Pagination.HasNextPageMeansNextWindowNonEmpty` | server/sonar-server/src/main/java/org/sonar/server/qualityprofile/ws/ProjectsAction.java:166 | when the total is the list size, `hasNextPage` holds exactly when the next page's window is not empty |
| `Pagination.FiveItemsThirdPageOfTwo` | server/sonar-server/src/main/java/org/sonar/server/qualityprofile/ws/ProjectsAction.java:119-125 | five items, two per page: page 3 holds the fifth item alone and has no next page |
| `QProfileProjects.ProfileNotFoundMessageNamesKey` | server/sonar-server/src/main/java/org/sonar/server/qualityprofile/ws/ProjectsAction.java:131-134 | the not-found message determines the profile key it names |
| `QProfileProjects.LoadProjects` | server/sonar-server/src/main/java/org/sonar/server/qualityprofile/ws/ProjectsAction.java:137-150 | a new list holding the selected projects for SELECTED, the deselected ones for DESELECTED, and all associations otherwise |
| `QProfileProjects.NameThenUuid` | server/sonar-server/src/main/java/org/sonar/server/qualityprofile/ws/ProjectsAction.java:100-105 | the comparator: smaller name first, ties broken by uuid, as a non-strict order |
| `QProfileProjects.NameThenUuidTotal` | server/sonar-server/src/main/java/org/sonar/server/qualityprofile/ws/ProjectsAction.java:100-105 | any two projects are ordered by the name-then-uuid comparator one way or the other |
| `QProfileProjects.NameThenUuidTransitive` | server/sonar-server/src/main/java/org/sonar/server/qualityprofile/ws/ProjectsAction.java:100-105 | the name-then-uuid comparator is transitive |
| `QProfileProjects.SortByNameThenUuid` | server/sonar-server/src/main/java/org/sonar/server/qualityprofile/ws/ProjectsAction.java:100-105 | after the in-place sort the array is ordered by name, ties by uuid, and is a permutation of what it held |
| `QProfileProjects.ProjectIds` | server/sonar-server/src/main/java/org/sonar/server/qualityprofile/ws/ProjectsAction.java:107-112 | one id per project, the k-th being the k-th project's id |
| `QProfileProjects.KeepAuthorizedProjectIds` | server/sonar-server/src/main/java/org/sonar/server/qualityprofile/ws/ProjectsAction.java:114 | exactly the given ids the caller may browse |
| `QProfileProjects.FilterAuthorized` | server/sonar-server/src/main/java/org/sonar/server/qualityprofile/ws/ProjectsAction.java:115 | keeps exactly the projects whose id is authorized, each as many times as in the input |
| `QProfileProjects.FilterKeepsOrder` | server/sonar-server/src/main/java/org/sonar/server/qualityprofile/ws/ProjectsAction.java:100-115 | filtering a sorted list leaves it sorted |
| `QProfileProjects.FilteredCount` | server/sonar-server/src/main/java/org/sonar/server/qualityprofile/ws/ProjectsAction.java:114-117 | with distinct project ids, the filtered list is as long as the set of authorized ids used as the paging total |
| `QProfileProjects.MoreMeansNextPageNonEmpty` | server/sonar-server/src/main/java/org/sonar/server/qualityprofile/ws/ProjectsAction.java:114-117 | with distinct project ids, `more` holds exactly when the next page of the filtered list is not empty |
| `QProfileProjects.PageIsSorted` | server/sonar-server/src/main/java/org/sonar/server/qualityprofile/ws/ProjectsAction.java:100-125 | the page written is ordered by name then uuid and holds only loaded, authorized projects |
| `QProfileProjects.WriteProjects` | server/sonar-server/src/main/java/org/sonar/server/qualityprofile/ws/ProjectsAction.java:152-168 | one result per project, in order, with `uuid` and `id` both the project uuid, key, name and association status; `more` is `hasNextPage` |
| `QProfileProjects.Handle` | server/sonar-server/src/main/java/org/sonar/server/qualityprofile/ws/ProjectsAction.java:89-129 | an unknown profile fails with the not-found message before anything is loaded. Otherwise the loaded projects are sorted by name then uuid (a permutation), and invalid paging fails. On success, the response renders the page window of the authorized projects, with total = the number of authorized ids |

## Left out

- Database sessions, commit and close: the commit is part of the single update of `ComponentStore.keys`, and sessions carry no state in the model.
- How new keys are computed and how existing keys are checked (`ComponentKeyUpdaterDao`, `ComponentService`): that code is not part of this model, so their results are function inputs with no stated rules.
- `checkComponentKeys` receives a list copy of the plan's values; the model passes the set of values, because the result is a map keyed by new key.
- Protobuf and JSON writing: the responses are sequences of records (`KeyEntry`, `ProjectRow`).
- The `define` methods: parameter registration metadata. Only the `dryRun` default is modelled.
- `SelectionMode.fromParam`: the selection mode arrives as the enumeration `SelectionMode`.
- The name `query` filter is applied inside the profile DAO queries, which are inputs.
- The organization lookup (`wsSupport.getOrganization`) is a separate call in the source; the model folds it into the query inputs, so the queries take only the profile key and the query.
- `Request.mandatoryParamAsInt` parsing: page and page size arrive as integers.
- `QProfileProjects.Handle`: the profile key arrives as a value, so the failure of `mandatoryParam` on a missing `key` parameter is not modelled.
- Java's 32-bit `int`: the model's integers are unbounded. So `(page - 1) * pageSize` and `offset + pageSize` never overflow in the model.
- `String.compareTo` compares UTF-16 code units; the model compares characters. The two differ only for characters outside the Basic Multilingual Plane.
- `CompareToBuilder` ordering of null names or uuids: the model has no null strings.
- `BulkUpdateKey.CheckNoDuplicate`: names the least colliding key, not the first one in hash-map iteration order; its contract promises only "a colliding key", as the source does.
- `BulkUpdateKey.GetByUuidOrKey`: the error messages of the component finder are not modelled, only the error kind. A key lookup takes the least uuid carrying the key. The model assumes, and does not state as an invariant of `ComponentStore`, that no two stored components share a key; where that fails, the least uuid is an arbitrary but fixed choice.
- `QProfileProjects.SortByNameThenUuid`: does not state that equal elements keep their relative order (`List.sort` is stable), and sorts by insertion rather than by Java's merge sort.
- AddProjectAction: it only delegates to an association finder and profile operations, neither of which is part of this model.
- OrganizationActionTest: it tests a class that is not part of this model.
- The schema migrations (CreateTableCeTaskInput, DropTemporaryIndicesOf1210): declarative table and index definitions through builders that are not part of this model.
