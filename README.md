# JPR INFRAWORKS site core, modelled in Dafny

A model of the logic of the JPR INFRAWORKS website and its admin panel, a
React application over a hosted document store and identity provider. Each
module follows one source file:

- `ProjectStore` (projects.ts): the `projects` collection and each project's
  `tasks` subcollection. This covers listing newest first with optional
  status and category filters, create with defaults, partial update with
  `percentage` following `progress`, and the cascading delete. It also
  covers task create, update and delete, and the read-then-append of task
  notes (with the note's stamp corrected, see Findings). The store is a class over keyed maps. Ids and `serverTimestamp()`
  come from counters, so a larger id means a later `createdAt`.
- `Dashboard` (dashboard.ts): the fold of the project snapshot and the
  per-project task reads into the dashboard counters. The status and
  category counters are plain JavaScript objects, so a key that names an
  Object.prototype member behaves as it does there. It also covers the five
  most recent projects and the rounded completion rate.
- `Auth`, `AuthContext`, `RouteGate`, `AppRoutes` (auth.ts,
  AuthContext.tsx, ProtectedRoute.tsx, App.tsx): the role hierarchy and
  `hasRole`, and profile provisioning. They also cover the session state
  and its derived flags, the route guard's decision, and the admin route
  table with its nested guards. The route table matches static path
  segments without regard to case, as React Router does by default. The guard is modelled twice: as written,
  where a role named after an Object.prototype member looks up an inherited
  function, and corrected, looking up own table entries only. The route
  table uses the corrected guard.
- `Leads` and `Achievements` (leads.ts, achievements.ts): two append-only
  lead collections, and the achievements collection with its
  undefined-stripping update.
- `ProjectForm`, `AdminProjects`, `PublicProjects`, `ImageUpload`,
  `Quotation` (the pages): the project editor's normalisation and
  submission, and the two project list filters. They also cover the bounded
  image list with file checks and resize arithmetic, and the quotation
  guard, rate table and saved request.
- `Common` and `JsNumber`: the JavaScript idioms the code leans on. These
  are `||` on strings and numbers, `trimStart`, `toLowerCase`, `includes`,
  `filter`, `sort` with a key comparator, `parseInt` and `parseFloat`.

Calls into the identity provider, the image storage, the browser and the
network are not modelled. Their outcomes are parameters: a `Result`, a
read-succeeded flag, the URL an upload returned, whether a URL check found
an image, or a map of per-project task reads in which a missing key is a
failed read.

The model follows the code in these places, where it behaves otherwise
than its names, messages or surrounding pages suggest:

- `createProject` stores `percentage || progress || 0`. It does not force
  percentage to equal progress (`ProjectStore.NewProjectMayDesyncPercentage`).
- `updateTask` re-stamps `completedAt` on every update that carries status
  "completed" without a `completedAt`, not only on the first such update
  (`ProjectStore.CompletionRestampedEveryTime`).
- `deleteProject` deletes the tasks and then the project document, and
  touches no image. The admin list's confirmation dialog says images are
  deleted too.
- The store functions perform no role check. Only the route guards restrict
  who reaches the pages that call them, so a viewer calling `deleteProject`
  directly is not refused.
- `getUserProfile` answers "none" for a failed read as for a missing
  document. So `ensureUserProfile` after a failed read overwrites an
  existing profile with a new one.

## Model

| member | source | states |
|---|---|---|
| Common.Lower | src/pages/admin/Projects.tsx:74-76 | `toLowerCase` keeps the length and lowercases each character |
| Common.Filter | src/pages/admin/Projects.tsx:72-77 | `filter` keeps only passing elements, keeps every passing element, and keeps their order (a subsequence of the input) |
| Common.FilterMember | src/pages/Projects.tsx:39-41 | a value survives `filter` exactly when it was in the input and passes |
| Common.SubsequenceTransitive | src/pages/admin/Projects.tsx:68-85 | a subsequence of a subsequence is a subsequence, so two filters in a row keep the original order |
| Common.SortDescendingBy | src/lib/firebase/dashboard.ts:75-80 | the comparator sort leaves the array ordered by key, largest first, and a permutation of what it was |
| Common.InsertDescending | src/lib/firebase/dashboard.ts:75-80 | one insertion step extends the ordered prefix by one and permutes the array |
| JsNumber.ParseIntOfDecimal | src/pages/admin/ProjectForm.tsx:296-303 | `parseInt` reads back a written natural number followed by anything that is not a digit ("1200 sq ft" gives 1200), and `|| 0` keeps it |
| JsNumber.ParseIntOfNegativeDecimal | src/pages/admin/ProjectForm.tsx:328-335 | `parseInt` of a minus sign and digits is the negated number |
| JsNumber.ParseIntWithoutDigits | src/pages/admin/ProjectForm.tsx:329 | input with no digit after the sign is NaN, and `|| 0` turns it into 0 |
| JsNumber.ParseFloatOfDecimal | src/pages/Quotation.tsx:27 | `parseFloat` reads back a written natural number exactly |
| Auth.HasRoleMeaning | src/lib/firebase/auth.ts:155-164 | `hasRole` holds iff the profile's role is one of the three names with a level at least the required level |
| Auth.RoleLevelOfName | src/lib/firebase/auth.ts:158-162 | the hierarchy gives viewer 1, manager 2, admin 3 |
| Auth.HasRoleNull | src/lib/firebase/auth.ts:155-156 | a missing profile fails every requirement |
| Auth.HasRoleExtremes | src/lib/firebase/auth.ts:158-164 | admin passes every requirement, and every known role passes "viewer" |
| Auth.HasRoleMonotone | src/lib/firebase/auth.ts:158-164 | passing a requirement implies passing every lower one |
| Auth.AuthService.GetUserProfile | src/lib/firebase/auth.ts:100-111 | the stored profile when the read succeeds and the document exists; none both for a missing document and for a failed read |
| Auth.AuthService.EnsureUserProfile | src/lib/firebase/auth.ts:33-47 | an existing profile is returned unchanged with no write; otherwise exactly one profile is written under the uid, with the given role (default admin), email or "", and display name falling back to email and then "Admin User" |
| Auth.AuthService.SignIn | src/lib/firebase/auth.ts:50-66 | provider errors are rethrown with the fallback message; an accepted account without a readable profile fails with "User profile not found…"; otherwise the user and the stored profile |
| Auth.AuthService.SignInWithGoogle | src/lib/firebase/auth.ts:68-78 | on success the profile is stored under the uid; a first-time account gets role "admin"; an existing profile is left as it is |
| Auth.AuthService.CreateUser | src/lib/firebase/auth.ts:114-143 | after the provider accepts, a profile is always written with role default viewer and email falling back to the argument; a provider error writes nothing |
| AuthContext.AuthProvider.constructor | src/contexts/AuthContext.tsx:18-20 | no user, no profile, loading |
| AuthContext.AuthProvider.OnAuthStateChange | src/contexts/AuthContext.tsx:23-34 | records the user; signed out clears the profile so the session is not authenticated; signed in holds the profile iff it could be read; loading ends false |
| AuthContext.AuthProvider.IsAdmin | src/contexts/AuthContext.tsx:44 | `role === "admin"` agrees with `hasRole(profile, "admin")` |
| AuthContext.AuthProvider.IsManager | src/contexts/AuthContext.tsx:45 | `role` admin or manager agrees with `hasRole(profile, "manager")`, and every admin is a manager |
| RouteGate.WrittenLevel | src/components/admin/ProtectedRoute.tsx:35-42 | `roleHierarchy[name] || fallback` is NaN exactly for a prototype member name, the table's level for the three roles, and the fallback for any other name |
| RouteGate.WrittenGateAdmitsInheritedRole | src/components/admin/ProtectedRoute.tsx:41-57 | as written, a signed-in profile whose role names a prototype member (say "constructor") passes every requirement, since a comparison with NaN is false; the corrected guard denies it |
| RouteGate.WrittenGateAgreesElsewhere | src/components/admin/ProtectedRoute.tsx:18-57 | for every role and requirement that are not prototype member names, the guard as written and the corrected guard decide alike |
| RouteGate.GateWhileLoading | src/components/admin/ProtectedRoute.tsx:18-28 | while loading only the placeholder is shown, whatever the role |
| RouteGate.GateWithoutSession | src/components/admin/ProtectedRoute.tsx:30-32 | no session or no profile redirects to /admin/login |
| RouteGate.GateAgreesWithHasRole | src/components/admin/ProtectedRoute.tsx:35-57 | for the three role names the guard renders exactly when `hasRole` holds |
| RouteGate.GateDeniesUnknownRole | src/components/admin/ProtectedRoute.tsx:41-44 | in the corrected guard a stored role outside the table, prototype member names included, gets level 0 and is denied every requirement |
| RouteGate.GateUnknownRequirementIsViewer | src/components/admin/ProtectedRoute.tsx:14-42 | an unknown required role and an omitted one both act as "viewer" |
| RouteGate.GateMonotone | src/components/admin/ProtectedRoute.tsx:35-57 | access granted for a requirement is granted for every lower one |
| AppRoutes.MatchAdminMeaning | src/App.tsx:70-119 | "login", and "setup" when enabled, are reached by their one segment in any case and alone carry no guard; an edit or task page takes the typed middle segment as its id |
| AppRoutes.MatchIgnoresCase | src/App.tsx:70-119 | the case of the typed path changes neither the page reached nor the guards around it; only the `:id` text keeps its case |
| AppRoutes.ClassifyLower | src/App.tsx:81-113 | a segment and its lowercase form match the same static segment |
| AppRoutes.MixedCaseLogin | src/App.tsx:74 | "/admin/Login" is the ungated login page |
| AppRoutes.MixedCaseEditor | src/App.tsx:90-96 | "/admin/Projects/New" is the project editor behind the viewer and manager guards |
| AppRoutes.AccessRendersIffAllGatesRender | src/App.tsx:75-113 | a page behind nested guards renders iff every guard around it renders |
| AppRoutes.EveryAdminPageBehindViewer | src/App.tsx:75-78 | every admin page except login and setup is inside the outer viewer guard |
| AppRoutes.EditorRequiresManager | src/App.tsx:90-105 | projects/new and projects/:id/edit add a manager guard |
| AppRoutes.ListsRequireViewer | src/App.tsx:82-113 | the project list and a project's task page add a viewer guard |
| AppRoutes.SetupOnlyWhenEnabled | src/App.tsx:34-73 | /admin/setup is a route only when the flag is the string "true"; otherwise it falls to the guarded not-found page |
| AppRoutes.LoginUngated | src/App.tsx:74 | /admin/login has no guard and renders in every session state |
| AppRoutes.EditorAccessIsManager | src/App.tsx:90-105 | with a signed-in profile the editor renders exactly for managers and admins |
| Leads.LeadRecorder.SaveContactLead | src/lib/firebase/leads.ts:21-26 | exactly one record, the payload with its stamp, is appended to contactLeads; quotationRequests is untouched |
| Leads.LeadRecorder.SaveQuotationRequest | src/lib/firebase/leads.ts:28-33 | exactly one record is appended to quotationRequests; contactLeads is untouched |
| Leads.AppendKeepsSaveOrder | src/lib/firebase/leads.ts:21-33 | an append keeps each collection in save order and keeps the old records as a prefix |
| Achievements.UserOrNull | src/lib/firebase/achievements.ts:64-65 | `userId || null` is the id exactly when it is present and non-empty |
| Achievements.WrittenUpdateWithFileRefused | src/lib/firebase/achievements.ts:82-96 | as written, an update carrying an image file keeps the file object in the data it writes, which the store refuses |
| Achievements.WrittenUpdateFromEditPage | src/pages/admin/Achievements.tsx:41-47 | the edit page's own payload with a selected file is refused in that way |
| Achievements.CorrectedUpdate | src/lib/firebase/achievements.ts:82-94 | the update with `imageFile` left out never carries the file |
| Achievements.CorrectedUpdateMeaning | src/lib/firebase/achievements.ts:82-94 | the corrected update is storable; it sets updatedAt and updatedBy (user or null), puts the uploaded URL in imageUrl when a file came along, drops undefined keys and keeps every other key |
| Achievements.StripUndefined | src/lib/firebase/achievements.ts:94 | exactly the undefined-valued keys are deleted, the rest keep their values |
| Achievements.StampedDocs | src/lib/firebase/achievements.ts:29-31 | only stored documents with a createdAt stamp, tagged with their ids |
| Achievements.StampedDocsComplete | src/lib/firebase/achievements.ts:29-31 | every stored document with a stamp is listed |
| Achievements.AchievementStore.GetAchievements | src/lib/firebase/achievements.ts:27-36 | the stamped documents, each once, ordered by createdAt descending |
| Achievements.AchievementStore.CreateAchievement | src/lib/firebase/achievements.ts:47-73 | a new document under a fresh id with the defaults; an attached file's uploaded URL wins over the payload's imageUrl; a failed upload writes nothing |
| Achievements.AchievementStore.UpdateAchievement | src/lib/firebase/achievements.ts:75-101 | the corrected update merged into the stored fields; a failed upload, then an unstorable value, then a missing document each fail in that order and write nothing |
| Achievements.AchievementStore.DeleteAchievement | src/lib/firebase/achievements.ts:103-110 | only the named document is removed |
| ProjectStore.ProjectListing | src/lib/firebase/projects.ts:63-84 | each listed project is stored under its id and matches every truthy filter; ids strictly decrease |
| ProjectStore.ProjectListingComplete | src/lib/firebase/projects.ts:63-84 | no matching stored project is missing from the listing |
| ProjectStore.ProjectListingNewestFirst | src/lib/firebase/projects.ts:68 | under the store invariant the listing is ordered by createdAt descending |
| ProjectStore.TaskListing | src/lib/firebase/projects.ts:182-193 | each listed task is stored in that project's subcollection under its id; ids strictly decrease |
| ProjectStore.TaskListingComplete | src/lib/firebase/projects.ts:182-193 | every task of the subcollection is listed |
| ProjectStore.TaskListingNewestFirst | src/lib/firebase/projects.ts:184-187 | under the store invariant the task listing is ordered by createdAt descending |
| ProjectStore.ListedTasksCoverProject | src/lib/firebase/projects.ts:166-171 | deleting every task of a complete listing leaves exactly the other projects' tasks |
| ProjectStore.Store.GetProjects | src/lib/firebase/projects.ts:63-89 | exactly the stored projects matching the filters, each tagged with its id, newest first |
| ProjectStore.Store.GetProject | src/lib/firebase/projects.ts:92-108 | null iff the id is absent, otherwise the stored record tagged with its id |
| ProjectStore.Store.CreateProject | src/lib/firebase/projects.ts:111-134 | one new project under a fresh id holding the defaulted document; tasks untouched |
| ProjectStore.Store.UpdateProject | src/lib/firebase/projects.ts:137-160 | the patched document replaces the stored one; a missing id fails and writes nothing; tasks untouched |
| ProjectStore.Store.DeleteProject | src/lib/firebase/projects.ts:163-179 | afterwards the project and all its tasks are gone and every other project and task is unchanged; the write log gains one deletion per task of the listing, in listing order, then the project deletion, so every task of the project is deleted before the project document |
| ProjectStore.Store.DeleteEach | src/lib/firebase/projects.ts:167-171 | exactly the listed tasks are removed, and the log gains exactly one deletion per listed task, in list order |
| ProjectStore.DeletionsCoverProject | src/lib/firebase/projects.ts:166-171 | a complete listing of a project's tasks yields a deletion for every one of them |
| ProjectStore.Store.GetProjectTasks | src/lib/firebase/projects.ts:182-198 | exactly the tasks of that subcollection, each tagged with its id, newest first |
| ProjectStore.Store.CreateTask | src/lib/firebase/projects.ts:201-226 | one new task under a fresh id in the given subcollection, holding the defaulted document |
| ProjectStore.Store.UpdateTask | src/lib/firebase/projects.ts:229-252 | the patched task replaces the stored one; a missing task fails and writes nothing |
| ProjectStore.Store.DeleteTask | src/lib/firebase/projects.ts:255-262 | only that task is removed; deleting a missing task is no error |
| ProjectStore.Store.AddTaskNote | src/lib/firebase/projects.ts:265-292 | a missing task fails with "Task not found" and writes nothing; otherwise the task gains one note at the end, stamped with the write's time (the corrected stamp) |
| ProjectStore.WrittenAddTaskNote | src/lib/firebase/projects.ts:271-287 | as written, a missing task fails with "Task not found"; otherwise the notes array sent to `updateDoc` holds a server-timestamp sentinel, which the client refuses |
| ProjectStore.WrittenAddTaskNoteRefused | src/lib/firebase/projects.ts:278-286 | as written, adding a note to any existing task fails with the "serverTimestamp() is not currently supported inside arrays" error and writes nothing |
| ProjectStore.CorrectedNoteAccepted | src/lib/firebase/projects.ts:278-286 | with a concrete time in the note, the array sent is accepted and is the old notes followed by the new one |
| ProjectStore.NewProjectDefaults | src/lib/firebase/projects.ts:116-126 | progress and squareFeet default to 0, images to empty, percentage to `percentage || progress || 0`, both authors are the caller |
| ProjectStore.NewProjectMayDesyncPercentage | src/lib/firebase/projects.ts:119-120 | some input gives a stored percentage different from progress |
| ProjectStore.PatchedProjectSyncsPercentage | src/lib/firebase/projects.ts:143-153 | a carried progress is copied into percentage; updatedBy is the caller; absent fields keep their values |
| ProjectStore.NewTaskDefaults | src/lib/firebase/projects.ts:207-215 | projectId is the path's id, notes default to empty, status to "pending", createdBy is the caller |
| ProjectStore.CompletionRestampedEveryTime | src/lib/firebase/projects.ts:242-245 | every update with status "completed" and no completedAt sets completedAt to the new stamp, replacing an earlier one |
| ProjectStore.CompletionKeptOtherwise | src/lib/firebase/projects.ts:237-247 | other updates leave completedAt alone, so reopening never clears it |
| ProjectStore.NotesInCallOrder | src/lib/firebase/projects.ts:278-286 | under the corrected stamp, two notes added in turn end up after the old notes, in call order |
| Dashboard.Bump | src/lib/firebase/dashboard.ts:41-43 | `counts[key] = (counts[key] || 0) + 1`: an own number goes up by one, an own string gets "1" appended, a new ordinary key starts at 1, a new key naming an inherited method stores that method's text followed by "1", "__proto__" changes nothing; every other key is kept |
| Dashboard.NumericSumSet | src/lib/firebase/dashboard.ts:41-43 | replacing one entry of a counter object changes its numeric sum by exactly the difference of the two numbers |
| Dashboard.KeyCount | src/lib/firebase/dashboard.ts:41-43 | the number of projects carrying a key is at most the number of projects |
| Dashboard.OrdinaryCount | src/lib/firebase/dashboard.ts:31-43 | the projects whose key is not a prototype member name number at most all projects, and all of them when no key is such a name |
| Dashboard.TallyKeys | src/lib/firebase/dashboard.ts:32-43 | a counter object ends with its starting keys plus every key that occurs, except "__proto__", and nothing else |
| Dashboard.TallyAtOrdinary | src/lib/firebase/dashboard.ts:32-43 | under an ordinary name the counter holds its starting value plus the number of projects with that key, and is present iff it started present or some project has that key |
| Dashboard.TallyAtInherited | src/lib/firebase/dashboard.ts:41-43 | under a prototype member name the counter is present iff the name occurs and is not "__proto__"; it then holds the member's text followed by one "1" per project |
| Dashboard.TallyValues | src/lib/firebase/dashboard.ts:32-43 | the two statements above for every key of a counter object at once |
| Dashboard.TallySum | src/lib/firebase/dashboard.ts:31-44 | the numbers in a counter object sum to their starting sum plus one per project whose key is not a prototype member name |
| Dashboard.ProjectCountersSum | src/lib/firebase/dashboard.ts:31-44 | projectsByStatus and projectsByCategory each sum to totalProjects less the projects filed under a prototype member name |
| Dashboard.InheritedKeyCountsAsText | src/lib/firebase/dashboard.ts:42 | a project with status "constructor" leaves the string "function Object() { [native code] }1" under that key, not a number |
| Dashboard.CompletedCounted | src/lib/firebase/dashboard.ts:32-42 | `projectsByStatus.completed` is always an own number, the count of projects with status "completed" |
| Dashboard.TallyTasksBound | src/lib/firebase/dashboard.ts:62-67 | counting a task list adds at most one per task, and exactly one per task of known status |
| Dashboard.TaskTallyWithinTotal | src/lib/firebase/dashboard.ts:47-72 | tasksByStatus sums to at most totalTasks, with equality when every task status is known |
| Dashboard.FailedReadSkipped | src/lib/firebase/dashboard.ts:54-71 | a failed read for one project removes exactly that project's tasks from the total and nothing else |
| Dashboard.RoundToHundredths | src/lib/firebase/dashboard.ts:94 | the rounded rate lies within half a hundredth of the exact one |
| Dashboard.CompletionRate | src/lib/firebase/dashboard.ts:84-94 | 0 with no projects; otherwise the completed share times 100 rounded to hundredths (so within half a hundredth of it); 100 when all are completed; always within 0..100 |
| Dashboard.CountProjects | src/lib/firebase/dashboard.ts:32-44 | the forEach produces the status and category counter objects, starting from the four statuses at 0 and from nothing |
| Dashboard.CountTasks | src/lib/firebase/dashboard.ts:54-72 | the loop produces totalTasks and tasksByStatus, skipping failed reads |
| Dashboard.CountTaskStatuses | src/lib/firebase/dashboard.ts:62-67 | the forEach over one collection applies the status if-chain to each task |
| Dashboard.RecentProjects | src/lib/firebase/dashboard.ts:75-81 | min(5, n) projects, the first entries of a newest-first permutation of the snapshot |
| Dashboard.GetDashboardMetrics | src/lib/firebase/dashboard.ts:21-95 | every field of the metrics equals the fold it is specified by, including the recent slice, and the rate is the rounded share of projects with status "completed" |
| ProjectForm.FormFromProject | src/pages/admin/ProjectForm.tsx:66-79 | name falls back to title, squareFeet to `parseInt(area) || 0`, percentage to progress |
| ProjectForm.CreateData | src/pages/admin/ProjectForm.tsx:117-130 | the submitted name is name or else title; percentage is percentage or else progress |
| ProjectForm.UpdateData | src/pages/admin/ProjectForm.tsx:117-130 | the update carries every field, name falling back to title |
| ProjectForm.ProjectFormPage.constructor | src/pages/admin/ProjectForm.tsx:35-53 | the empty form with status "upcoming"; loading iff an id is present |
| ProjectForm.ProjectFormPage.LoadProject | src/pages/admin/ProjectForm.tsx:61-98 | a found project fills the form with the fallbacks; a missing one or a failed read keeps the form and navigates to the list |
| ProjectForm.ProjectFormPage.OnAreaChange | src/pages/admin/ProjectForm.tsx:296-303 | area keeps the text and squareFeet becomes `parseInt(text) || 0` |
| ProjectForm.ProjectFormPage.OnProgressChange | src/pages/admin/ProjectForm.tsx:328-335 | progress and percentage both become `parseInt(text) || 0` |
| ProjectForm.ProjectFormPage.HandleSubmit | src/pages/admin/ProjectForm.tsx:100-156 | no user: nothing; an empty title, description or location: a message and no write; an id: an update of that id; no id: a new project |
| ProjectForm.ProgressEditSubmitsEqualNumbers | src/pages/admin/ProjectForm.tsx:127-128 | after a progress edit the submitted percentage equals the submitted progress |
| ProjectForm.FormUpdateSyncsPercentage | src/pages/admin/ProjectForm.tsx:127-133 | saving an edit always stores percentage equal to progress |
| ProjectForm.LoadThenSaveKeepsProject | src/pages/admin/ProjectForm.tsx:66-133 | loading and saving unchanged rewrites only the stamp and the author when no fallback applied |
| ProjectForm.SubmittedNameFallsBackToTitle | src/pages/admin/ProjectForm.tsx:105-118 | a submitted name is never empty, and is the title when the name field is empty |
| AdminProjects.AdminProjectsPage.constructor | src/pages/admin/Projects.tsx:36-40 | no projects, empty search, status "all", loading |
| AdminProjects.AdminProjectsPage.LoadProjects | src/pages/admin/Projects.tsx:51-65 | a successful read replaces the list; a failed one keeps it and yields the message or "Failed to load projects" |
| AdminProjects.AdminProjectsPage.FilterProjects | src/pages/admin/Projects.tsx:67-86 | the shown list becomes the loaded list under the search step and then the status step |
| AdminProjects.FilteredIdentity | src/pages/admin/Projects.tsx:67-86 | an empty search with status "all" shows exactly the loaded list |
| AdminProjects.FilteredIsSubsequence | src/pages/admin/Projects.tsx:68-85 | the shown list is a subsequence of the loaded list |
| AdminProjects.FilteredMembers | src/pages/admin/Projects.tsx:71-83 | a project is shown iff the lowercased term occurs in its lowercased title, location or description (when a term is given) and its status is the selected one (unless "all") |
| AdminProjects.FilteredStatusOnly | src/pages/admin/Projects.tsx:81-83 | with a status selected, every shown project has exactly that status |
| PublicProjects.PortfolioPage.constructor | src/pages/Projects.tsx:15-18 | filter "all", no projects, loading, no error |
| PublicProjects.PortfolioPage.LoadProjects | src/pages/Projects.tsx:24-37 | success replaces the list and clears the error; failure empties the list and sets "Failed to load projects"; loading ends false |
| PublicProjects.VisibleAll | src/pages/Projects.tsx:39-41 | filter "all" shows every loaded project |
| PublicProjects.VisibleByStatus | src/pages/Projects.tsx:39-41 | any other filter shows exactly the projects with that status, in loaded order |
| PublicProjects.FailedLoadShowsNothing | src/pages/Projects.tsx:30-41 | after a failed load nothing is shown under any filter |
| PublicProjects.StatusColorMapping | src/pages/Projects.tsx:43-54 | completed green, ongoing blue, upcoming yellow, and exactly every other status (on-hold included) gray |
| ImageUpload.RoundedRatio | src/components/admin/ImageUpload.tsx:34-39 | `Math.round(n / d)` is the nearest integer, halves rounding up |
| ImageUpload.ScaledSideFits | src/components/admin/ImageUpload.tsx:32-42 | the shorter side scaled by 1200 over the longer side is at most 1200 |
| ImageUpload.ResizedMeaning | src/components/admin/ImageUpload.tsx:30-42 | within bounds the size is kept; otherwise the longer side becomes 1200 and the other the nearest integer to its scaled length; both sides end at most 1200 |
| ImageUpload.ResizedSquare | src/components/admin/ImageUpload.tsx:37-42 | an oversized square becomes exactly 1200 by 1200 |
| ImageUpload.Compress | src/components/admin/ImageUpload.tsx:17-74 | the promise stays pending exactly when the file decodes and the resized canvas has a side of 0, since `toBlob` then passes null and the callback neither resolves nor rejects; a resolved value is the encoder's output |
| ImageUpload.RoundedRatioZero | src/components/admin/ImageUpload.tsx:34-39 | `Math.round(n / d)` is 0 exactly when n is less than half of d |
| ImageUpload.ZeroAreaIffExtreme | src/components/admin/ImageUpload.tsx:27-45 | the canvas loses a side exactly for an image with a side of 0 or with one side more than 2400 times the other (2401 by 1 becomes 1200 by 0) |
| ImageUpload.FirstStall | src/components/admin/ImageUpload.tsx:130-162 | the first file of the selection that passes the checks and whose compression never settles |
| ImageUpload.EachFileCounted | src/components/admin/ImageUpload.tsx:130-162 | no file is both encoded and reported; when no file stalls, every file is one of the two |
| ImageUpload.EncodedMembers | src/components/admin/ImageUpload.tsx:130-162 | an image comes out iff some file has an "image/" type, at most 10 MB, and its compression resolved to it |
| ImageUpload.ProcessFiles | src/components/admin/ImageUpload.tsx:128-162 | when no file stalls, the loop collects the encoded images and the rejection toasts in file order; otherwise it waits at the first stalling file, having raised only the toasts of the files before it |
| ImageUpload.WithoutIndex | src/components/admin/ImageUpload.tsx:239 | removing a valid index drops exactly that element; any other index changes nothing |
| ImageUpload.RemoveKeepsOthers | src/components/admin/ImageUpload.tsx:238-242 | the other images keep their order, shifted down past the removed one |
| ImageUpload.ImageUploader.constructor | src/components/admin/ImageUpload.tsx:86-95 | the list starts as existingImages and maxImages defaults to 10 |
| ImageUpload.ImageUploader.AddImages | src/components/admin/ImageUpload.tsx:97-120 | a batch that would pass maxImages is refused whole; otherwise it is appended in order and reported; a list within the bound stays within it |
| ImageUpload.ImageUploader.HandleFileSelect | src/components/admin/ImageUpload.tsx:122-170 | when no file stalls, the files passing every check are added as one batch or refused together, uploading ends false, and the toasts are the rejections in file order followed by "maximum reached", by "n added" or by nothing for an empty batch; when one stalls, nothing is added and uploading stays true |
| ImageUpload.ImageUploader.HandleUrlSubmit | src/components/admin/ImageUpload.tsx:172-205 | a blank input is refused before the URL is checked; a URL that is an image is added and the input cleared |
| ImageUpload.ImageUploader.RemoveImage | src/components/admin/ImageUpload.tsx:238-242 | exactly the image at that index goes, and the new list is reported |
| ImageUpload.ImageUploader.DropLimit | src/components/admin/ImageUpload.tsx:229-288 | the dropzone limit is maxImages minus the count, positive exactly while the upload area is shown |
| ImageUpload.ImageUploader.DropAdmitsMeaning | src/components/admin/ImageUpload.tsx:229-288 | while the upload area is shown a drop passes the limit iff it fits the room left; on a full list the limit (0 or less, so no limit) refuses nothing, and only the hidden upload area stops a drop |
| Quotation.Quote | src/pages/Quotation.tsx:27-72 | a request only for a non-zero parsed area and floor count and a chosen type and quality; it carries those, and the estimate is area times rate times the floor multiplier |
| Quotation.QuotationPage.constructor | src/pages/Quotation.tsx:18-25 | an empty form and no estimate |
| Quotation.QuotationPage.CalculateEstimate | src/pages/Quotation.tsx:26-84 | an incomplete form only raises a toast; otherwise the estimate is set, and the request is appended unless the save fails, in which case the estimate stays |
| Quotation.RateMeaning | src/pages/Quotation.tsx:39-61 | the rate is the table's entry, or 1500 for a pair the table lacks, and lies in 1200..5000 |
| Quotation.UnknownPairsFallBack | src/pages/Quotation.tsx:39-61 | the table has an entry exactly for the twelve pairs of a known type and a known quality, compared as exact strings; every other pair the page's selects can produce gets 1500 |
| Quotation.FloorsMeaning | src/pages/Quotation.tsx:62-63 | one floor costs area times rate, and each further floor adds 15% of that |
| Quotation.WholeNumbersQuote | src/pages/Quotation.tsx:27-36 | positive whole numbers typed for area and floors always give a request with those numbers read back exactly |
| Quotation.ZeroOrBlankAreaRefused | src/pages/Quotation.tsx:27-36 | a blank area or an area of "0" gives no estimate and saves nothing |

## Left out

- Firestore, Storage and the identity provider are not modelled as
  systems. Queries, `addDoc`, `updateDoc`, `deleteDoc`, `uploadBytes` and
  `getDownloadURL` are maps and sequences, or outcomes passed in.
  `src/lib/firebase/config.ts` is not part of this model.
- Write failures of the store (`addDoc`, `updateDoc`, `deleteDoc`
  rejecting for connectivity or permission) are not modelled. A write
  reaching a store is assumed to succeed, except the missing-document
  errors the code relies on. A failed listing read in `getProjects` and
  `getProjectTasks` is not modelled either, nor is a failed read of the
  projects collection in `getDashboardMetrics`, which that function logs
  and rethrows (src/lib/firebase/dashboard.ts:96-99), nor a failed query in
  `getAchievements`, which also logs and rethrows
  (src/lib/firebase/achievements.ts:32-35); the model's reads always
  succeed.
- Auth.AuthService.CreateUser: a failed `updateProfile` call, made after
  the provider accepted the account and before the profile document is
  written (src/lib/firebase/auth.ts:114-143), is not modelled; the model
  always writes the profile once the provider accepts.
- deleteProject's partial failure, where one task deletion throws and
  leaves the rest and the project behind, is not modelled.
- Async interleavings are not modelled: the lost-update window of
  addTaskNote's read-then-write, a second auth event arriving while a
  profile read is pending, and React state batching. Each operation runs
  to completion.
- signOutUser, resetPassword, getCurrentUser and the auth listener
  registration are provider calls with no logic of their own, so they are
  not modelled.
- The admin list's handleDelete (delete, then reload) is not modelled. It
  only chains deleteProject and loadProjects.
- Firestore orders mixed value types in `orderBy("createdAt")`.
  Achievements.AchievementStore.GetAchievements lists only documents whose
  createdAt is a server stamp, which is every document createAchievement
  writes.
- Dashboard.CreatedAt: the `|| 0` fallback for a project without a stamp
  cannot arise in the model, because every stored project carries one.
  The dashboard's `if (project.id)` is always true for a stored document.
- The dashboard takes the project snapshot in whatever order the store
  returns it.
- Dashboard.RecentProjects does not state which of two projects with the
  same createdAt comes first, because sort stability is not proved.
- Floating point is not modelled. Completion rate, quotation estimate,
  `parseFloat` and `Math.round` are exact reals and integers. JsNumber
  models `parseFloat` for decimal notation only: "Infinity", hexadecimal
  float forms and digit-count precision limits are not modelled.
- `Intl.NumberFormat` currency formatting of the estimate is not modelled.
- Common.Lower lowercases ASCII letters only. Unicode case mapping, which
  `toLowerCase` also performs, is not modelled.
- Canvas drawing, JPEG encoding at quality 0.75 and FileReader are not
  modelled. ImageUpload receives each file's encoding outcome as input.
- The HEAD request of isValidImageUrl is not modelled: its boolean outcome
  is a parameter. The function catches every error itself, so the
  "Failed to validate image URL" branch of handleUrlSubmit cannot be
  reached and is not modelled.
- Paste and drag-and-drop are not modelled. handlePaste and onDrop build
  their argument with `new FileList(...)` (src/components/admin/ImageUpload.tsx:216
  and :224), and browsers refuse that constructor with "Illegal
  constructor", so neither reaches handleFileSelect. Only the hidden file
  input (lines 244-249) passes files to it.
- Toast wording, including the interpolated counts and file names, is not
  modelled: toasts are constructors carrying the values they mention.
- ProjectStore.Store.AddTaskNote: as written, the call fails on every
  existing task, because the new note carries `serverTimestamp()` inside an
  array (see Findings). The store method models the corrected call, which
  stamps the note with the write's time; the failing call is
  ProjectStore.WrittenAddTaskNote.
- Role, status and category strings are not checked against their
  TypeScript unions, because the store does not enforce them either. Of
  the names a plain object inherits, the model covers the twelve
  Object.prototype members; a property added to Object.prototype at run
  time is not modelled.
- Quotation.Rate: a type or quality that names an Object.prototype member
  (such as "toString") would find an inherited function in the rate table,
  which `|| 1500` keeps, making the estimate NaN. The page's selects
  (src/pages/Quotation.tsx:152-155 and :198-200) offer only the known
  names, so the model's fallback to 1500 for every other pair holds only
  for inputs those selects can produce.
- AppRoutes.MatchAdmin: a path is taken as its already split and decoded
  segments. Percent-decoding, trailing slashes and empty segments are not
  modelled.
- Dashboard.Bump: the text an inherited method converts to is taken in the
  form V8 prints ("function toString() { [native code] }", with "Object"
  for "constructor"); other engines may print it differently.
- ImageUpload.ImageUploader.HandleFileSelect: a promise that never settles
  is modelled as the call returning with `uploading` still set and nothing
  added; the later state of a page waiting on it is not modelled.
  ImageUpload.ProcessFiles returns `settled` false in that case.

## Findings

| source | as written | input that shows it | evidently intended | confidence | as-written member | corrected member |
|---|---|---|---|---|---|---|
| src/components/admin/ProtectedRoute.tsx:41-44 | the role is looked up as `roleHierarchy[userProfile.role]`, with 0 as fallback, on a plain object, so a role named after an Object.prototype member yields an inherited function, and `userRoleLevel < requiredRoleLevel` compares NaN and is false | a signed-in profile whose stored role is "constructor" or "toString" opening any guarded page | an unknown role gets level 0 and is denied, as the `|| 0` fallback intends | not executed | RouteGate.WrittenGateAdmitsInheritedRole | RouteGate.GateDeniesUnknownRole |
| src/lib/firebase/projects.ts:278-286 | the new note's `createdAt` is `serverTimestamp()`, placed inside the `notes` array passed to `updateDoc`, which the client refuses for arrays | adding any note to an existing task | the note is stored with a concrete time and appended to the old notes | not executed | ProjectStore.WrittenAddTaskNoteRefused | ProjectStore.CorrectedNoteAccepted |
| src/lib/firebase/achievements.ts:82-96 | updateAchievement spreads the caller's `updates`, including the `imageFile` File object, into the data passed to `updateDoc`; only undefined keys are stripped | editing an achievement with a newly selected image: the page sends `{title, description, date, imageFile: <File>}` | the uploaded URL replaces imageUrl and `imageFile` is not written, since the store refuses a File as a field value | not executed | Achievements.WrittenUpdateWithFileRefused | Achievements.CorrectedUpdateMeaning |
