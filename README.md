# Fatec Conecta — a verified model of the application core

Fatec Conecta connects the community around a Fatec campus with its students. Community members
suggest improvements. Mediators and the coordination review the suggestions and route them to a
class. Students browse the approved ideas and register interest. Anyone can follow the projects.

This Dafny project models the logic behind those pages, and the routes, hooks and schemas they use.
The modules are:

- the two authentication hooks (`UseAuth`, `PresentationAuth`) and the role mapping of the auth
  API (`AuthApi`);
- the mock credential table (`MockUsers`);
- the API base-URL helper (`Config`);
- the zod schemas: login, register, suggestion and project filters (`LoginSchema`,
  `RegisterSchema`, `SuggestionSchema`, `FiltersSchema`);
- the route guard (`ProtectedRoute`) and the header (`Header`);
- the paginated projects route and the user-profile route (`ProjectsRoute`, `UserProfile`);
- the filter effect shared by three pages (`Listing`), and the pages that use it
  (`ValidateIdeas`, `TrackProjects`);
- the idea backlog (`IdeaBacklog`), the improvement wizard (`SuggestImprovement`), the
  registration page (`RegisterPage`) and the Formik idea form (`SimpleForm`);
- the toast queue (`Toast`).

JavaScript's `trim`, `toLowerCase` and `includes` live in `Text`. `Common` holds `Option`,
`Result`, subsequences and `slice`.

The form follows the code. Stateful components are classes whose methods update their fields:
React state, a hook's state, local storage and the toast queue. Pure helpers, schemas and route
handlers are functions. Each function's property is proved as an `ensures` clause or as a lemma
beside it.

Where the behaviour the code shows differs from the application's stated design, the model follows
the code:

- Review notes are overwritten, not accumulated. Each status change writes the reviewer's notes
  over the previous ones.
- Reviewing can be repeated. An approved idea can be rejected and a rejected one approved. Only
  `atribuida` closes the review (`ValidateIdeas.ReviewCanBeRepeated`).
- The class-assignment form has no input for `semester`, so it stays blank
  (`ValidateIdeas.SemesterNeverSet`).
- The registration page rejects an email made only of spaces, because it tests `email.trim()`.
  The address itself is matched untrimmed against the unanchored pattern `\S+@\S+\.\S+`.
- The improvement wizard validates step fields (`category`, `location.*`, `affectedPeople`,
  `contactInfo.*`) that its zod schema does not declare. So only the first step can ever fail
  (`SuggestImprovement.OnlyFirstStepCanFail`).
- The `useAuth` hook under `src/hooks` types roles as three values. The mock credential table and
  the header also use `estudante`, so the model's `Role` has four values.
- On the registration page, a successful submit does not clear earlier error messages. A
  mismatch message shown before stays visible after the passwords are corrected and the form
  submits (`RegisterPage.StaleMismatchMessage`).

## Model

| member | source | states |
|---|---|---|
| Config.ApiBaseUrl | src/domain/config.ts:1 | the environment value when it is set and non-empty, otherwise `http://localhost:3000`; never empty |
| Config.WithApi | src/domain/config.ts:3 | the result is the base, one `/`, then the path without its leading `/` |
| Config.WithApiSlashInsensitive | src/domain/config.ts:3 | a path with or without a leading `/` gives the same URL |
| Config.WithApiKeepsRootedPath | src/domain/config.ts:3 | a rooted path is appended unchanged |
| AuthApi.ParseUserType | src/domain/auth/api.ts:4 | parses exactly the three user-type spellings; `None` when no type has that name |
| AuthApi.UserTypeNameRoundTrip | src/domain/auth/api.ts:4 | parsing a type's name gives the type back |
| AuthApi.ToBackendRole | src/domain/auth/api.ts:76-85 | never yields `Supervisor` or `Aluno` |
| AuthApi.RoleRoundTrip | src/domain/auth/api.ts:76-99 | mapping a user type to the backend and back is the identity |
| AuthApi.FromBackendRole | src/domain/auth/api.ts:87-99 | `mapBackendRoleToUserType`; specified by `AuthApi.RoleRoundTrip` (it undoes `ToBackendRole`) and `AuthApi.RoleMapShape` (`Supervisor` and `Aluno` fold onto `mediador` and `comunidade`) |
| AuthApi.RoleMapShape | src/domain/auth/api.ts:76-99 | the forward map is injective and `coordenacao` goes to `Administrador`; `Supervisor` and `Aluno` fold onto `mediador` and `comunidade`; the other three backend roles round-trip |
| MockUsers.NormalizeIdempotent | src/domain/auth/mockUsers.ts:42 | trim-then-lowercase is idempotent |
| MockUsers.NormalizeEmail | src/domain/auth/mockUsers.ts:42 | `email.trim().toLowerCase()`; specified by `MockUsers.NormalizeIdempotent`, `MockUsers.NormalizedWhenPlain` and `MockUsers.ResolveIgnoresCaseAndSpace` |
| MockUsers.NormalizedWhenPlain | src/domain/auth/mockUsers.ts:42 | an address without spaces at its ends or capitals is its own key |
| MockUsers.AddressesDistinct | src/domain/auth/mockUsers.ts:12-39 | the four addresses differ pairwise |
| MockUsers.TableKeyedByEmail | src/domain/auth/mockUsers.ts:12-39 | every entry is stored under its own email |
| MockUsers.KeysPlain | src/domain/auth/mockUsers.ts:12-39 | every key is already trimmed and lower case |
| MockUsers.TableInvariant | src/domain/auth/mockUsers.ts:12-47 | every key is its entry's email and normalises to itself, so a stored address always finds its entry |
| MockUsers.ResolveMockUser | src/domain/auth/mockUsers.ts:41-47 | a user is returned only when the normalised address is a key and the password matches exactly; the user is the table's entry for that address |
| MockUsers.ResolveIgnoresCaseAndSpace | src/domain/auth/mockUsers.ts:42 | resolving the normalised address equals resolving the raw one |
| MockUsers.ResolveOwnCredentials | src/domain/auth/mockUsers.ts:41-47 | every entry's own email and password sign in as that entry |
| MockUsers.TrimPadded | src/domain/auth/mockUsers.ts:42 | trimming removes one space on each side of a word |
| MockUsers.TrimExample | src/domain/auth/mockUsers.ts:42 | a padded address is trimmed to the bare address |
| MockUsers.LowerExample | src/domain/auth/mockUsers.ts:42 | lowercasing a mixed-case address gives the mediator's key |
| MockUsers.NormalizeExample | src/domain/auth/mockUsers.ts:42 | a padded, mixed-case address normalises to the mediator's key |
| MockUsers.ResolvePaddedAddress | src/domain/auth/mockUsers.ts:41-47 | a padded, mixed-case address with the right password signs in as the mediator |
| MockUsers.ResolvePaddedPassword | src/domain/auth/mockUsers.ts:45 | the password is not trimmed: a padded password is refused |
| UseAuth.HasPermissionSpec | src/hooks/useAuth.ts:60-65 | no user means no permission; one role behaves as a one-element list; a list grants when it contains the user's role |
| UseAuth.HasPermission | src/hooks/useAuth.ts:60-65 | `hasPermission`; specified by `UseAuth.HasPermissionSpec` |
| UseAuth.CanAccessIdeaValidation | src/hooks/useAuth.ts:67-69 | specified by `UseAuth.CapabilityTable`: mediador or coordenacao |
| UseAuth.CanAssignToClasses | src/hooks/useAuth.ts:71-73 | specified by `UseAuth.CapabilityTable`: coordenacao only |
| UseAuth.CanSuggestIdeas | src/hooks/useAuth.ts:75-77 | specified by `UseAuth.CapabilityTable`: comunidade only |
| UseAuth.Merge | src/hooks/useAuth.ts:54 | `{ ...prev, ...partial }`; specified by `UseAuth.MergeSpec`, field by field |
| UseAuth.CapabilityTable | src/hooks/useAuth.ts:67-77 | validation is for mediador and coordenacao, assignment for coordenacao, suggestion for comunidade; assignment implies validation; suggestion and validation exclude each other |
| UseAuth.MergeSpec | src/hooks/useAuth.ts:51-58 | an empty patch changes nothing; merging twice equals merging once; for each of the eight fields, an absent field keeps its value and a present one replaces it |
| UseAuth.AuthSession.constructor | src/hooks/useAuth.ts:18-19 | no user, loading, storage as given |
| UseAuth.AuthSession.CheckAuth | src/hooks/useAuth.ts:21-39 | a stored user is adopted; an unreadable entry is removed; loading stops; starting with no user, storage and user end in sync |
| UseAuth.AuthSession.Login | src/hooks/useAuth.ts:41-44 | the user is stored and signed in |
| UseAuth.AuthSession.Logout | src/hooks/useAuth.ts:46-49 | the entry is removed and nobody is signed in |
| UseAuth.AuthSession.UpdateUser | src/hooks/useAuth.ts:51-58 | with no user nothing changes; otherwise the merged user is signed in and stored; sync is preserved |
| PresentationAuth.LowerAll | src/presentation/hooks/useAuth.ts:94 | element-wise lowercase, same length |
| PresentationAuth.HasPermissionSpec | src/presentation/hooks/useAuth.ts:89-96 | without a user or a metadata role nothing is permitted; otherwise permission holds iff some required role equals the metadata role ignoring case; lowercasing either side changes nothing |
| PresentationAuth.HasPermission | src/presentation/hooks/useAuth.ts:89-96 | `hasPermission` over the lowercased metadata role; specified by `PresentationAuth.HasPermissionSpec` |
| PresentationAuth.CanAccessIdeaValidation | src/presentation/hooks/useAuth.ts:98-100 | specified by `PresentationAuth.HooksCompared`: agrees with the other hook |
| PresentationAuth.CanAssignToClasses | src/presentation/hooks/useAuth.ts:102-104 | specified by `PresentationAuth.HooksCompared`: agrees with the other hook |
| PresentationAuth.CanSuggestIdeas | src/presentation/hooks/useAuth.ts:106-108 | specified by `PresentationAuth.HooksCompared`: comunidade or estudante |
| PresentationAuth.RoleNamesLower | src/presentation/hooks/useAuth.ts:8 | the role names are already lower case |
| PresentationAuth.HooksCompared | src/presentation/hooks/useAuth.ts:98-108 | validation and assignment agree with the other hook; suggestion also admits `estudante` |
| PresentationAuth.Signup | src/presentation/hooks/useAuth.ts:46-69 | the metadata role and the profile role are `comunidade`; name, email and phone are passed on |
| PresentationAuth.SignupAlwaysCommunity | src/presentation/hooks/useAuth.ts:46-69 | the chosen user type is ignored; a valid sign-up's profile is created with `perfil` `Comunidade` |
| PresentationAuth.AuthState.constructor | src/presentation/hooks/useAuth.ts:25-26 | no user, loading |
| PresentationAuth.AuthState.OnAuthStateChange | src/presentation/hooks/useAuth.ts:29-32 | the session user is adopted and loading stops |
| PresentationAuth.AuthState.Logout | src/presentation/hooks/useAuth.ts:84-87 | nobody is signed in, so no permission holds |
| LoginSchema.Parse | src/domain/auth/schemas/login.schema.ts:3-7 | accepts exactly the valid inputs, defaulting the type to `comunidade`; on failure reports exactly the fields that fail |
| LoginSchema.ParseEncode | src/domain/auth/schemas/login.schema.ts:3-7 | encoding valid data and parsing it back gives the data; omitting the type gives `comunidade` |
| LoginSchema.AnyPasswordAccepted | src/domain/auth/schemas/login.schema.ts:6 | any non-empty password is accepted with a valid email |
| RegisterSchema.Parse | src/domain/auth/schemas/register.schema.ts:3-16 | accepts exactly the inputs with no field issue and matching passwords, and accepted data is valid; each field error is reported exactly when its rule fails; the mismatch is reported on `confirmPassword` unless the user type aborted the object |
| RegisterSchema.ParseEncode | src/domain/auth/schemas/register.schema.ts:3-16 | encoding valid data and parsing it back gives the data |
| RegisterSchema.ParseDefaultsUserType | src/domain/auth/schemas/register.schema.ts:9 | valid data sent without a user type is accepted as `comunidade` |
| RegisterSchema.MismatchReportedOnConfirmation | src/domain/auth/schemas/register.schema.ts:13-16 | when every field passes but the passwords differ, the only error is on `confirmPassword` |
| SuggestionSchema.ParseContact | src/domain/ideas/schemas/suggestion.schema.ts:15-16 | each WhatsApp flag is true only when given as true |
| SuggestionSchema.Parse | src/domain/ideas/schemas/suggestion.schema.ts:4-18 | accepts exactly the inputs with no issue, and then a valid suggestion with the same fields; otherwise returns every issue, each field's (title, description, attachments, primary email, secondary email, primary phone) exactly when its rule fails |
| SuggestionSchema.ParseDefaultsFlags | src/domain/ideas/schemas/suggestion.schema.ts:15-16 | a valid suggestion sent without the WhatsApp flags is accepted with both flags false |
| SuggestionSchema.ParseEncode | src/domain/ideas/schemas/suggestion.schema.ts:4-18 | encoding a valid suggestion and parsing it back gives the suggestion |
| SuggestionSchema.OptionalContactFields | src/domain/ideas/schemas/suggestion.schema.ts:8-17 | title, description, primary email and primary phone are enough |
| FiltersSchema.ParseStatus | src/domain/projects/schemas/filters.schema.ts:3-9 | parses exactly the five status names |
| FiltersSchema.ParsePriority | src/domain/projects/schemas/filters.schema.ts:11-16 | parses exactly the four priority names |
| FiltersSchema.ParseCategory | src/domain/projects/schemas/filters.schema.ts:18-27 | parses exactly the eight category names |
| FiltersSchema.NamesRoundTrip | src/domain/projects/schemas/filters.schema.ts:3-27 | every name parses back to its value and is not empty |
| FiltersSchema.Issues | src/domain/projects/schemas/filters.schema.ts:29-45 | each issue is present exactly when its rule fails: an unknown select value, a trimmed search over 100 characters or of exactly 1 |
| FiltersSchema.Parse | src/domain/projects/schemas/filters.schema.ts:33-45 | success gives valid filters with the trimmed search; failure reports the issues, never none |
| FiltersSchema.ParseSelects | src/domain/projects/schemas/filters.schema.ts:30-36 | an empty or absent select means no filter; a known name selects its value; an unknown non-empty name is an issue |
| FiltersSchema.SelectStatusName | src/domain/projects/schemas/filters.schema.ts:30-34 | the select round-trips every status, and no status |
| FiltersSchema.SelectCategoryName | src/domain/projects/schemas/filters.schema.ts:30-35 | the select round-trips every category, and no category |
| FiltersSchema.SelectPriorityName | src/domain/projects/schemas/filters.schema.ts:30-36 | the select round-trips every priority, and no priority |
| FiltersSchema.ParseEncode | src/domain/projects/schemas/filters.schema.ts:33-45 | encoding valid filters and parsing them back gives the filters |
| FiltersSchema.ParseEmptyForm | src/domain/projects/schemas/filters.schema.ts:34-44 | the empty form parses to no filters |
| FiltersSchema.ToCriteria | src/domain/projects/schemas/filters.schema.ts:29-45 | an unset select becomes the empty criterion, which filters nothing; the search is kept |
| Listing.PassesAllSteps | src/app/validar-ideias/page.tsx:172-193 | passing the four filter steps in turn is matching the criteria |
| Listing.Keep | src/app/api/projetos/route.ts:135-143 | one filter step keeps exactly the items that pass it, in order |
| Listing.KeepCounts | src/app/api/projetos/route.ts:135-143 | one filter step keeps every copy of a passing item and no copy of any other |
| Listing.SelectStep | src/app/api/projetos/route.ts:134-144 | applying the next step to the first n steps' result is the first n+1 steps |
| Listing.KeepInactive | src/app/api/projetos/route.ts:135 | a step with an empty criterion keeps everything |
| Listing.SelectSpec | src/app/api/projetos/route.ts:134-144 | after n steps the result is an ordered subsequence holding exactly the items that pass them |
| Listing.SelectCounts | src/app/api/projetos/route.ts:134-144 | after n steps each passing item keeps all its copies, every other item none |
| Listing.SelectMatchingSpec | src/app/acompanhar-projetos/page.tsx:191-212 | the filtered list is an ordered subsequence holding exactly the matching items |
| Listing.SelectMatchingCounts | src/app/acompanhar-projetos/page.tsx:191-212 | the filtered list holds each matching item as often as the list does, and no other item |
| Listing.NoCriteriaKeepsAll | src/app/acompanhar-projetos/page.tsx:192-211 | empty criteria keep the whole list |
| Listing.SearchIgnoresCase | src/app/validar-ideias/page.tsx:184-190 | the search hit does not depend on the query's case |
| Listing.ApplyFilters | src/app/validar-ideias/page.tsx:172-193 | the effect's result is the matching selection |
| ProjectsRoute.NatToString | src/app/api/projetos/route.ts:110 | the decimal string is non-empty and ends in the last digit |
| ProjectsRoute.NatToStringInjective | src/app/api/projetos/route.ts:110 | different numbers get different ids |
| ProjectsRoute.Generate | src/app/api/projetos/route.ts:108-122 | the id is `i+1`, progress is clamped to 5..100, status and priority come from their pools |
| ProjectsRoute.Dataset | src/app/api/projetos/route.ts:108 | 42 generated projects in order |
| ProjectsRoute.DatasetFacts | src/app/api/projetos/route.ts:108-122 | ids are `1`..`42` and pairwise distinct; progress stays in 5..100 |
| ProjectsRoute.NumberOr | src/app/api/projetos/route.ts:126-127 | `Number(x) \|\| d`: absent or zero gives the default |
| ProjectsRoute.CriteriaOf | src/app/api/projetos/route.ts:129-132 | the search criterion is the lowercased parameter |
| ProjectsRoute.Filtered | src/app/api/projetos/route.ts:129-144 | the dataset filtered by the query's criteria; specified by `Listing.SelectMatchingSpec` and `ProjectsRoute.PageItemsMatch` |
| ProjectsRoute.PageCount | src/app/api/projetos/route.ts:147 | at least 1, and the smallest count of pages that holds every item |
| ProjectsRoute.Paginate | src/app/api/projetos/route.ts:148-150 | at most a page of items, the ones from the page's start; a full page before the last; empty past the last |
| ProjectsRoute.Get | src/app/api/projetos/route.ts:124-153 | page and size are clamped as the handler does (absent, zero or negative page gives 1; absent or zero size gives 6, negative size 1, over 24 gives 24); total, page count and data come from the filtered dataset; the data is a subsequence of the dataset |
| ProjectsRoute.PageBounds | src/app/api/projetos/route.ts:147-149 | a page before the last ends inside the list; a page after it starts past the end |
| ProjectsRoute.SliceSubsequence | src/app/api/projetos/route.ts:150 | a slice is a subsequence |
| ProjectsRoute.PageItemsMatch | src/app/api/projetos/route.ts:134-150 | every item returned is in the dataset and matches the query |
| ProjectsRoute.EveryItemOnItsPage | src/app/api/projetos/route.ts:147-150 | item j of the filtered list is on page `j / size + 1` at position `j % size` |
| UserProfile.CapitalizeRole | src/app/api/user-profile/route.ts:29-41 | a known spelling becomes its capitalised form, equal ignoring case; any other string is returned unchanged; the object lookup's inherited keys such as `toString` are not modelled, and `POST` only calls it on a role the enum of route.ts:11 accepted |
| UserProfile.CapitalizeRoleIdempotent | src/app/api/user-profile/route.ts:29-41 | capitalising twice is capitalising once; capitalised forms are fixed |
| UserProfile.CapitalizeFrontEndRole | src/app/api/user-profile/route.ts:11 | every front-end role name is accepted and capitalises back to itself ignoring case |
| UserProfile.ProfileIssues | src/app/api/user-profile/route.ts:7-12 | no issue exactly when name, email and role are valid; a role issue exactly when the role is not among the eight spellings |
| UserProfile.Post | src/app/api/user-profile/route.ts:19-80 | 400 exactly on invalid input; 500 exactly on a failed insert; a created row copies the input, defaults the phone to empty, is active and not WhatsApp, and has the capitalised role |
| UserProfile.Patch | src/app/api/user-profile/route.ts:82-145 | 400 exactly when the phone is not 10 or 11 characters; then 401 without a user; 500 when the update fails; otherwise the user's row and metadata get the phone, and the metadata flag defaults to false |
| ProtectedRoute.Decide | src/components/ProtectedRoute.tsx:20-49 | children render exactly when loaded and permitted; a spinner exactly while loading; a missing user goes to sign-in, a wrong role to `redirectTo` |
| ProtectedRoute.MissingUserFirst | src/components/ProtectedRoute.tsx:22-25 | a missing user goes to sign-in whatever the roles |
| ProtectedRoute.MoreRolesAdmitMore | src/components/ProtectedRoute.tsx:27 | widening the allowed roles never hides the children |
| Header.NavLinks | src/components/organisms/Header.tsx:43-65 | each link appears exactly for its roles, and `acompanhar-projetos` always ends the list |
| Header.NavLinksByRole | src/components/organisms/Header.tsx:43-65 | the exact links of each role |
| Header.DropdownItems | src/components/organisms/Header.tsx:96-118 | profile, settings, an assignment link only for coordenacao, and logout last |
| Header.HeaderState.constructor | src/components/organisms/Header.tsx:11 | the dropdown starts closed |
| Header.HeaderState.Toggle | src/components/organisms/Header.tsx:72 | the dropdown flips |
| Header.HeaderState.MouseDown | src/components/organisms/Header.tsx:22-32 | a press outside closes the dropdown; one inside leaves it |
| Header.HeaderState.FollowItem | src/components/organisms/Header.tsx:96-108 | profile and settings close the dropdown; the assignment link does not |
| Header.HeaderState.HandleLogout | src/components/organisms/Header.tsx:14-19 | signed out, dropdown closed, sent to `/` |
| ValidateIdeas.Apply | src/app/validar-ideias/page.tsx:205-230 | a status change sets the status and replaces only the reviewer's own notes; an assignment sets `atribuida` and the assignment; other fields are kept |
| ValidateIdeas.UpdateWhere | src/app/validar-ideias/page.tsx:206-214 | same length and ids; ideas with the id are updated, the rest are unchanged |
| ValidateIdeas.UpdateWhereFacts | src/app/validar-ideias/page.tsx:205-217 | an unknown id changes nothing; a second status change overrides the first |
| ValidateIdeas.OfferedActions | src/app/validar-ideias/page.tsx:407-432 | approve and reject come together, for reviewers, on ideas not yet assigned; assign only for coordenacao on approved ideas |
| ValidateIdeas.ReviewCanBeRepeated | src/app/validar-ideias/page.tsx:407 | a rejected idea can be approved and an approved one rejected; an assigned idea offers nothing |
| ValidateIdeas.SubmitEffect | src/app/validar-ideias/page.tsx:293-301 | assign takes effect only with the coordenacao capability; approve and reject change the status with the notes; no action does nothing |
| ValidateIdeas.SemesterNeverSet | src/app/validar-ideias/page.tsx:286-291 | no sequence of form edits changes the semester |
| ValidateIdeas.ValidateIdeasPage.constructor | src/app/validar-ideias/page.tsx:151-159 | empty lists, no selection, empty filters |
| ValidateIdeas.ValidateIdeasPage.Load | src/app/validar-ideias/page.tsx:161-170 | without the validation capability the page redirects to `/`; otherwise both lists become the mock ideas, and with no filter set the shown list agrees with the filters |
| ValidateIdeas.ValidateIdeasPage.RefreshFilter | src/app/validar-ideias/page.tsx:172-193 | the shown list is the matching selection |
| ValidateIdeas.ValidateIdeasPage.SetFilters | src/app/validar-ideias/page.tsx:154-193 | new filters and a refreshed list |
| ValidateIdeas.ValidateIdeasPage.HandleStatusChange | src/app/validar-ideias/page.tsx:205-217 | the ideas are updated as `UpdateWhere` says, the modal closes, the list is refreshed |
| ValidateIdeas.ValidateIdeasPage.HandleClassAssignment | src/app/validar-ideias/page.tsx:219-230 | the idea is assigned, the modal closes, the list is refreshed |
| ValidateIdeas.ValidateIdeasPage.HandleSubmit | src/app/validar-ideias/page.tsx:293-301 | applies the submit effect, or changes nothing when there is none |
| TrackProjects.StatusFilterExact | src/app/acompanhar-projetos/page.tsx:194-196 | filtering by a status name keeps exactly the projects with that status, in order |
| TrackProjects.CategoryAndPriority | src/app/acompanhar-projetos/page.tsx:197-202 | filtering by category and priority keeps exactly the projects with both |
| TrackProjects.ProjectsPage.constructor | src/app/acompanhar-projetos/page.tsx:175-183 | empty lists, empty filters |
| TrackProjects.ProjectsPage.Load | src/app/acompanhar-projetos/page.tsx:185-189 | both lists become the mock projects |
| TrackProjects.ProjectsPage.RefreshFilter | src/app/acompanhar-projetos/page.tsx:191-212 | the shown list is the matching subsequence; no criteria shows everything |
| TrackProjects.ProjectsPage.SetFilters | src/app/acompanhar-projetos/page.tsx:178-212 | new filters and a refreshed list |
| IdeaBacklog.Approved | src/app/banco-de-ideias/page.tsx:47 | exactly the approved ideas, in order |
| IdeaBacklog.ApprovedCounts | src/app/banco-de-ideias/page.tsx:47 | every copy of an approved idea is kept, and no copy of any other |
| IdeaBacklog.Query | src/app/banco-de-ideias/page.tsx:69 | `search.trim().toLowerCase()`; specified by `IdeaBacklog.QueryNormalised` |
| IdeaBacklog.FilteredIdeas | src/app/banco-de-ideias/page.tsx:68-76 | the search over title, description and author with the trimmed, lowercased query |
| IdeaBacklog.FilteredIdeasSpec | src/app/banco-de-ideias/page.tsx:68-76 | a blank query shows everything; otherwise exactly the matching ideas, in order |
| IdeaBacklog.QueryNormalised | src/app/banco-de-ideias/page.tsx:69 | trimming or lowercasing the query first changes nothing |
| IdeaBacklog.Guard | src/app/banco-de-ideias/page.tsx:31-39 | no redirect while loading or for a student; sign-in without a user; home for any other role |
| IdeaBacklog.GuardIgnoresMetadataRole | src/app/banco-de-ideias/page.tsx:35-100 | the guard reads the top-level role case-sensitively, so a user can pass the hook's suggestion check and be turned away, or the reverse |
| IdeaBacklog.BacklogPage.constructor | src/app/banco-de-ideias/page.tsx:25-28 | the user id, or empty without a user; no interests |
| IdeaBacklog.BacklogPage.LoadInterests | src/app/banco-de-ideias/page.tsx:57-66 | with a user id and a readable entry, the user's list or none; otherwise nothing changes |
| IdeaBacklog.BacklogPage.MarkInterest | src/app/banco-de-ideias/page.tsx:82-98 | appends a new idea once, writes it under this user only, and shows the toast; an unreadable entry is kept and no toast is shown; duplicates never arise |
| IdeaBacklog.MarkTwice | src/app/banco-de-ideias/page.tsx:82-98 | marking twice is marking once; other users' lists are untouched |
| SuggestImprovement.SchemaErrorsFacts | src/app/sugerir-melhoria/page.tsx:35-48 | the schema reports title and description exactly when empty, and never a wizard-only field |
| SuggestImprovement.StepFields | src/app/sugerir-melhoria/page.tsx:35-48 | the fields `validateStep` triggers per step; specified by `SuggestImprovement.OnlyFirstStepCanFail` |
| SuggestImprovement.StepValid | src/app/sugerir-melhoria/page.tsx:35-48 | no triggered field has an error; specified by `SuggestImprovement.OnlyFirstStepCanFail` |
| SuggestImprovement.OnlyFirstStepCanFail | src/app/sugerir-melhoria/page.tsx:35-48 | steps 2 to 4 always pass; step 1 passes exactly with a title and a description |
| SuggestImprovement.Round | src/app/sugerir-melhoria/page.tsx:85 | the nearest whole number to n/d |
| SuggestImprovement.ProgressPercent | src/app/sugerir-melhoria/page.tsx:85 | `Math.round(step / 4 * 100)`; specified by `SuggestImprovement.ProgressPerStep` |
| SuggestImprovement.ProgressPerStep | src/app/sugerir-melhoria/page.tsx:85 | each step is 25% more, and the last is 100% |
| SuggestImprovement.Without | src/app/sugerir-melhoria/page.tsx:74 | removes one element at a valid index, none otherwise |
| SuggestImprovement.SuggestionWizard.constructor | src/app/sugerir-melhoria/page.tsx:16 | step 1, no images |
| SuggestImprovement.SuggestionWizard.NextStep | src/app/sugerir-melhoria/page.tsx:50-55 | advances one step, capped at 4, only when the step is valid |
| SuggestImprovement.SuggestionWizard.PrevStep | src/app/sugerir-melhoria/page.tsx:57-59 | goes back one step, not below 1 |
| SuggestImprovement.SuggestionWizard.HandleImageUpload | src/app/sugerir-melhoria/page.tsx:66-70 | keeps the first five files; no files changes nothing |
| SuggestImprovement.SuggestionWizard.RemoveImage | src/app/sugerir-melhoria/page.tsx:72-76 | drops the image at the index |
| SuggestImprovement.SuggestionWizard.ShowsSubmit | src/app/sugerir-melhoria/page.tsx:178-195 | the send button replaces next on the last step; specified by `SuggestImprovement.WalkForward` |
| SuggestImprovement.SuggestionWizard.PrevDisabled | src/app/sugerir-melhoria/page.tsx:171 | previous is disabled on step 1; specified by `SuggestImprovement.WalkBack` |
| SuggestImprovement.WalkForward | src/app/sugerir-melhoria/page.tsx:50-55 | from any step, three next clicks without errors reach step 4, where send is shown, keeping the images |
| SuggestImprovement.WalkBack | src/app/sugerir-melhoria/page.tsx:57-59 | from any step, three previous clicks reach step 1, where previous is disabled |
| SuggestImprovement.StuckOnError | src/app/sugerir-melhoria/page.tsx:50-55 | a step with an error on its own fields holds the wizard however often next is clicked |
| RegisterPage.LooseAt | src/app/cadastro/usuario/page.tsx:47 | an `@` and a later `.` with non-space around them satisfy `\S+@\S+\.\S+` |
| RegisterPage.LooseEmail | src/app/cadastro/usuario/page.tsx:47 | `/\S+@\S+\.\S+/.test`; specified by `RegisterPage.LooseAt` and the examples below, and compared with the Formik pattern by `SimpleForm.StrictImpliesLoose` |
| RegisterPage.LooseEmailAcceptsPlain | src/app/cadastro/usuario/page.tsx:47 | a plain address passes |
| RegisterPage.LooseEmailAcceptsPadded | src/app/cadastro/usuario/page.tsx:47 | an address with surrounding spaces passes |
| RegisterPage.LooseEmailAcceptsWords | src/app/cadastro/usuario/page.tsx:47 | a sentence containing an address passes: the pattern is unanchored |
| RegisterPage.LooseEmailNeedsDot | src/app/cadastro/usuario/page.tsx:47 | an address without a dot after the `@` fails |
| RegisterPage.LooseEmailNeedsLocalPart | src/app/cadastro/usuario/page.tsx:47 | a space right before the `@` fails |
| RegisterPage.WithField | src/app/cadastro/usuario/page.tsx:20-24 | exactly the named field takes the value |
| RegisterPage.Errors | src/app/cadastro/usuario/page.tsx:38-63 | the dictionary `handleSubmit` builds; specified by `RegisterPage.ErrorsSpec` |
| RegisterPage.ErrorsSpec | src/app/cadastro/usuario/page.tsx:38-63 | each error key is present exactly when its rule fails, with its message; the phone is never checked |
| RegisterPage.Validate | src/app/cadastro/usuario/page.tsx:35-63 | the dictionary built step by step is `Errors(f)`: each error key is present exactly when its rule fails, with its message; no other key appears |
| RegisterPage.AcceptsUntrimmedEmail | src/app/cadastro/usuario/page.tsx:41-49 | a padded name and a padded email are accepted |
| RegisterPage.BlankNameRejected | src/app/cadastro/usuario/page.tsx:41-43 | a non-empty name of spaces is rejected |
| RegisterPage.RegisterForm.constructor | src/app/cadastro/usuario/page.tsx:9-18 | an empty form and no errors |
| RegisterPage.RegisterForm.HandleSubmit | src/app/cadastro/usuario/page.tsx:35-72 | proceeds exactly when every rule passes; otherwise the displayed errors become exactly `Errors(data)`, non-empty messages only; on success the errors stay as they were |
| RegisterPage.RegisterForm.HandleInputChange | src/app/cadastro/usuario/page.tsx:20-33 | the field changes; its shown error is blanked; other errors keep showing |
| RegisterPage.RegisterForm.HandleTermsChange | src/app/cadastro/usuario/page.tsx:163-168 | the terms flag changes; the terms error is not shown; other errors keep showing |
| RegisterPage.FilledAcceptable | src/app/cadastro/usuario/page.tsx:35-63 | a filled-in form passes every rule |
| RegisterPage.StaleMismatchMessage | src/app/cadastro/usuario/page.tsx:27-68 | after a mismatch is shown and corrected, the form submits while still showing the mismatch message |
| SimpleForm.StrictImpliesLoose | src/app/simple-form/page.tsx:33 | every address the Formik pattern accepts is accepted by the registration page's pattern |
| SimpleForm.StrictEmail | src/app/simple-form/page.tsx:33 | the anchored, case-insensitive pattern; specified by `SimpleForm.StrictImpliesLoose`, `SimpleForm.LooseNotStrict`, `SimpleForm.SpacesNotStrict` and `SimpleForm.StrictExample` |
| SimpleForm.LooseNotStrict | src/app/simple-form/page.tsx:33 | a one-letter top-level domain and a non-ASCII letter pass only the registration page's pattern |
| SimpleForm.SpacesNotStrict | src/app/simple-form/page.tsx:33 | a leading space passes only the registration page's pattern |
| SimpleForm.StrictExample | src/app/simple-form/page.tsx:33 | a mixed-case address with a dotted domain passes |
| SimpleForm.Validate | src/app/simple-form/page.tsx:27-37 | each error is present exactly when its rule fails, with its message; no errors exactly when the values are accepted |
| SimpleForm.Submit | src/app/simple-form/page.tsx:38-43 | navigates to `/acompanhar-projetos` exactly when the values are accepted |
| SimpleForm.SpacesFillFields | src/app/simple-form/page.tsx:29-30 | fields made of spaces count as filled |
| Toast.ItemOf | src/presentation/components/atoms/Toast.tsx:33-40 | the message is kept; a missing kind becomes `info` and a missing duration 3500 ms |
| Toast.Without | src/presentation/components/atoms/Toast.tsx:30 | `prev.filter((t) => t.id !== id)`; specified by `Toast.WithoutSpec` |
| Toast.WithoutSpec | src/presentation/components/atoms/Toast.tsx:29-31 | removal deletes every item with the id, keeps the rest in order, and leaves a queue without the id unchanged |
| Toast.WithoutAbsent | src/presentation/components/atoms/Toast.tsx:30 | a queue without the id is unchanged |
| Toast.WithoutTwice | src/presentation/components/atoms/Toast.tsx:30 | removing twice is removing once; removals commute |
| Toast.WithoutCons | src/presentation/components/atoms/Toast.tsx:30 | one step of the filter |
| Toast.WithoutConcat | src/presentation/components/atoms/Toast.tsx:30 | removal distributes over concatenation |
| Toast.ShowThenRemove | src/presentation/components/atoms/Toast.tsx:33-43 | showing under a fresh id and removing when the timer fires restores the queue, even with other notices in between |
| Toast.ToastProvider.constructor | src/presentation/components/atoms/Toast.tsx:27 | an empty queue |
| Toast.ToastProvider.Show | src/presentation/components/atoms/Toast.tsx:33-43 | appends the built item at the end |
| Toast.ToastProvider.Remove | src/presentation/components/atoms/Toast.tsx:29-31 | the queue loses exactly the items with the id, in order |
| Toast.UseToast | src/presentation/components/atoms/Toast.tsx:20-24 | the provider's value, or the error `useToast must be used within ToastProvider` without one |
| Text.ToLowerIdempotent | src/domain/auth/mockUsers.ts:42 | lowercasing twice is lowercasing once |
| Text.ToLower | src/domain/auth/mockUsers.ts:42 | same length, each character lowercased |
| Text.Trim | src/domain/auth/mockUsers.ts:42 | `trim()`; specified by `Text.TrimIdempotent`, `Text.TrimEmptyIff` and `Text.TrimEnds` |
| Text.TrimEnds | src/domain/auth/mockUsers.ts:42 | the trimmed string starts and ends with a non-space, or is empty |
| Text.Contains | src/app/api/projetos/route.ts:140-142 | `includes`; specified by `Text.ContainsAt` |
| Text.ContainsAt | src/app/api/projetos/route.ts:140-142 | `includes` holds exactly when the pattern occurs at some index |
| Text.TrimIdempotent | src/domain/auth/mockUsers.ts:42 | trimming twice is trimming once |
| Text.TrimEmptyIff | src/app/cadastro/usuario/page.tsx:41 | trimming gives empty exactly when every character is white space |
| Text.TrimLowerCommute | src/app/banco-de-ideias/page.tsx:69 | trimming and lowercasing commute |

## Left out

- Rendering: JSX, styling, icons, modals' layout, dates and their formatting are not modelled.
- Network and database calls (`fetch`, Supabase auth and tables) are parameters. Their success
  is a boolean such as `insertOk` or `updateOk`. `loginUser`, `registerUser` and `logoutUser` in
  `src/domain/auth/api.ts` only wrap `fetch`, so only the URL (`Config.WithApi`) and the role
  mapping are modelled.
- `Toast.ToastProvider.Show`: the id drawn from `Math.random` is a parameter, and the timer is the
  caller's later call to `Remove`.
- `PresentationAuth.AuthState`: `login` and the Supabase subscription are left out; they only
  forward to Supabase. The auth event is the `OnAuthStateChange` call.
- zod's `.email()` is the uninterpreted parameter `isEmail`. The registration page's and Formik's
  regular expressions are modelled exactly.
- `ProjectsRoute.NumberOr`: `Number(x)` is modelled for integers. A non-numeric or fractional
  parameter is treated as absent; its `NaN` or fraction is not modelled.
- String length is counted in characters, not UTF-16 code units. `toLowerCase` is modelled for
  ASCII and Latin-1 letters only.
- Projects and ideas keep only the fields the logic reads. Location, images, updates and dates are
  left out.
- `SuggestImprovement.SuggestionWizard.NextStep`: react-hook-form's asynchronous `trigger` is
  modelled as the set of fields with errors, passed in.
- `UserProfile.CapitalizeRole`: `roleMap[role] || role` also answers keys the object literal
  inherits (`toString`, `constructor`), returning that member instead of `role`. The model returns
  `role` for every unknown string. `POST` reaches the function only with a role the enum accepted.
- `console.log`, `console.error` and `window.alert` are output only and are left out.
- The `ideias-simples` route that feeds the backlog is not part of this model. Its data is a
  parameter of `IdeaBacklog.Approved`.
- `ValidateIdeas.ValidateIdeasPage.Load` runs once, as a mount effect. In the source its effect
  depends on `canAccessIdeaValidation`, a closure the hook re-creates on every render, so the effect
  re-runs after every state change. The first run sees the
  hook's initial null user and pushes `/`, and each re-run resets the ideas to the mocks, undoing
  `handleStatusChange`. React's effect scheduling is not modelled.
- The mock data of `validar-ideias` and `acompanhar-projetos` is abbreviated to the fields
  modelled.
