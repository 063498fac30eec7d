# Admin console: a Dafny model of its decision logic

This project models the logic inside the handlers of a React admin console that manages a portfolio of projects, technologies, categories and screenshots. The modelled pieces are the following.

- **Association lists.** The checkbox change handler adds an id to a project's `technologies`, `categories` or `screenshots` list, or removes it. It has three variants:
  - the string-id project form;
  - the numeric-id edit page, which reads the checkbox value with `parseInt` and compares with `!==`;
  - the older edit page, which does the same.
- **Drafts.** The project form also keeps pending technologies, typed by name, and pending screenshot files.
- **The submission pipeline.**
  - Draft technologies are created one at a time, in order, and their ids appended.
  - Then draft screenshots are created the same way.
  - Then the project is updated (the route has an id) or created.
  - A failure stops the pipeline where it is. Nothing is rolled back.
- **The 401 interceptor.** A refused request is refreshed and re-issued through the same client. The model keeps the outcomes of this recursion: pass through, swallow, retry with a new bearer header, or go to login and reject.
- **The credential store.** This is the access token, the refresh token and the client's `Authorization` header. Login, refresh, logout and a page reload change it; the mount-time logged-in check reads it.
- **The login page.** It gates submit, chooses the redirect target and resets the loading flag.
- **The delete-confirmation prompt** on the project list.

How the model represents the system:

- **Plain values.** Every handler is a pure function from the page state and the event to the new state.
- **The form object.** It is a map from property name to value, because the handlers write `{ ...inputs, [name]: value }`.
- **Requests.** A request is a value (`Api.Request`). The server is a script of replies fixed in advance (`Server.Reply`), consumed one per request in the order the requests are sent.
- **Cache invalidation.** It is the set of query keys each transition invalidates (`Server.QueryKey`).
- **Id types.** Ids are a type parameter:
  - the project form uses the string `_id` of the shared type declarations;
  - the edit pages and the home page instantiate the requests' id with numbers, modelled as `JsNumbers.JsNumber` (an integer or `NaN`), because `parseInt` can produce `NaN`;
  - the API layer's own numeric parameters (the screenshot owner `Api.ScreenshotUpload.project` and the `ids` of the list queries, `Api.ListParams`) are plain integers.
- **Defined nowhere in the shown code.** Three things are parameters:
  - the login and home paths (the route table in `src/routes.ts` defines `home` but lacks `login`, `newProject`, `projectEdit` and `projectDetail`, which the pages use, so it is evidently not the table they import);
  - the current pathname;
  - the route id.
- **The create request.** The project form creates a project through `api.createProject`, which `src/api.ts` does not export. The create request is modelled like the other requests, answered by the server script.

Behaviours of the code worth knowing before reading the contracts:

- **The interceptor retries without bound.** It re-issues a refused request through the intercepted client with no retry marker, so every repeated 401 triggers another refresh (`Interceptor.RepeatedRefusals`).
- **Screenshots are created before the project.** The upload of a new screenshot is attempted without an owner, before the project it belongs to is saved; as written it throws before sending anything (see Findings).
- **There is no reconciliation step.** No step deletes screenshots the user unchecked.
- **A failed refresh does not clear storage.** The stored credentials stay as they were, and so does the model.

## Model

| member | source | states |
|---|---|---|
| Base.Includes | src/hooks/useSetupInterceptor.ts:23 | `pathname.includes(route)` holds exactly when the route occurs at some position of the pathname |
| JsNumbers.StrictEquals | src/pages/EditProject/index.tsx:108 | `a !== b` on numbers is the negation of this: `NaN` equals nothing, itself included, and two integers are equal exactly when they are the same integer |
| JsNumbers.Falsy | src/pages/Home.tsx:48 | a number is falsy exactly when it is `0` or `NaN` |
| JsNumbers.ParseInt | src/pages/EditProject/index.tsx:102 | `parseInt` of nothing but white space is `NaN`, and a plain decimal numeral reads as its value |
| JsNumbers.NumberToString | src/pages/EditProject/index.tsx:197 | the text React writes for a numeric checkbox value: a minus sign exactly for negative ids, decimal digits after it |
| JsNumbers.ParseIntInvertsNumberToString | src/pages/EditProject/index.tsx:102 | a checkbox whose value React wrote from integer id `n` is read back by `parseInt` as exactly `n`, negative ids included |
| Entities.ToInputs | src/pages/ProjectForm/index.tsx:180-183 | spreading a loaded project gives a form object whose three association properties are arrays holding the project's own lists |
| Entities.ToInputsField | src/pages/ProjectForm/index.tsx:182 | every field of the loaded project is readable from the form object under its property name, under both naming conventions |
| Entities.ToInputsHasOnlyProjectKeys | src/pages/ProjectForm/index.tsx:182 | the spread copy holds no property other than the project's own fields |
| Entities.KeyInjective | src/typings.d.ts:1-11 | no two project fields share a property name, so writing one field never overwrites another |
| Associations.Filter | src/pages/ProjectForm/index.tsx:163 | the filtered list is no longer than the input and holds exactly the elements that pass the test |
| Associations.FilterCounts | src/pages/ProjectForm/index.tsx:163 | filtering keeps every copy of an accepted element and drops every copy of a rejected one |
| Associations.FilterAppend | src/pages/ProjectForm/index.tsx:162-163 | filtering a concatenation filters each part |
| Associations.FilterIdempotent | src/pages/ProjectForm/index.tsx:163 | filtering twice by the same test is filtering once |
| Associations.FilterKeepsAll | src/pages/ProjectForm/index.tsx:163 | a filter that rejects no element returns the list unchanged |
| Associations.HandleChange | src/pages/ProjectForm/index.tsx:151-172 | only the named property changes; text sets it; a checkbox on a non-array changes nothing; checking appends the value at the end; unchecking removes every equal element and keeps every other element's count |
| Associations.UncheckIdempotent | src/pages/ProjectForm/index.tsx:163 | unchecking the same box twice leaves the form as unchecking once |
| Associations.CheckThenUncheck | src/pages/ProjectForm/index.tsx:161-163 | checking then unchecking a value equal to itself leaves the form as a single uncheck would |
| Associations.UncheckAbsentIsNoOp | src/pages/ProjectForm/index.tsx:163 | unchecking a value the list does not hold leaves the form unchanged |
| Associations.ChangeKeepsLists | src/pages/ProjectForm/index.tsx:156-171 | checkbox events, and text events on other properties, keep all three association properties arrays |
| Drafts.OnTechnologyKey | src/pages/ProjectForm/index.tsx:290-298 | Enter appends the typed name as a new last draft; any other key leaves the drafts alone |
| Drafts.OnTechnologyDraftChange | src/pages/ProjectForm/index.tsx:272-278 | a change that leaves the box checked is ignored; unchecking keeps exactly the drafts with a different name, every copy of each |
| Drafts.OnScreenshotChosen | src/pages/ProjectForm/index.tsx:174-178 | choosing appends one draft holding the first chosen file, or the empty string when there is none |
| Drafts.OnScreenshotDraftChange | src/pages/ProjectForm/index.tsx:361-366 | any change on a draft's box keeps exactly the drafts with a different image, every copy of each |
| Drafts.EnterThenUncheckTechnology | src/pages/ProjectForm/index.tsx:272-298 | typing a name and unchecking its draft gives the drafts unchecking alone would |
| Drafts.UncheckTechnologyIdempotent | src/pages/ProjectForm/index.tsx:272-278 | removing a draft technology twice is removing it once |
| Drafts.ChooseThenRemoveScreenshot | src/pages/ProjectForm/index.tsx:361-366 | choosing a file and removing its draft gives the drafts removing alone would |
| Api.ScreenshotForm | src/api.ts:98-103 | the screenshot body has exactly the fields `image` and `project`, in that order, with the project id as text; it throws exactly when the project is missing |
| Api.ScreenshotFormOwnerReadsBack | src/api.ts:101 | the `project` text parses back to the owning project's id |
| Api.ScreenshotFormOptionalOwner | src/api.ts:98-103 | the corrected body starts with the image and has only that field when there is no owner |
| Api.OptionalOwnerAgreesWhenOwned | src/api.ts:98-102 | when an owner is given, the corrected body is exactly the one the code builds |
| Api.ScreenshotRequest | src/api.ts:98-103 | as written, the upload fails exactly when there is no owner; corrected, it always sends the body that leaves a missing owner out, image first |
| Api.TechnologiesParams | src/api.ts:28-33 | the technology list request sends `ids`, defaulting to empty, and no ordering |
| Api.CategoriesParams | src/api.ts:38-43 | the category list request sends `ids`, defaulting to empty, and no ordering |
| Api.ScreenshotsParams | src/api.ts:45-51 | the screenshot list request sends both `ids` and `ordering`, each defaulting to empty |
| Api.ProjectsParams | src/api.ts:58-63 | the project list request sends `ordering`, defaulting to empty, and no ids |
| Api.OmittedListsAreEmpty | src/api.ts:28-63 | leaving every list argument out sends the same parameters as passing empty lists |
| Server.ReplyAt | src/pages/ProjectForm/index.tsx:111 | each request takes its own reply; past the end of the script a request fails |
| Server.CreateEach | src/pages/ProjectForm/index.tsx:107-116 | the create loop sends requests in order and stops at the first throw or rejection; what it sent and collected up to then is exactly the prefix the replies allow, and on success one id per item, in order |
| Server.Answers | src/pages/ProjectForm/index.tsx:112 | the collected ids are the ids the successive replies carry |
| Server.CreateEachAllAnswered | src/pages/ProjectForm/index.tsx:110-115 | when every request can be sent and is answered, all are sent in order and the ids are the replies' ids in order |
| Server.CreateEachStopsAtThrow | src/pages/ProjectForm/index.tsx:110-113 | the first request that throws ends the loop with that error, after exactly the requests before it |
| Server.TechnologyRequests | src/pages/ProjectForm/index.tsx:110-111 | one create-technology request per draft, in draft order, carrying the draft's name |
| Server.Attach | src/pages/ProjectForm/index.tsx:119 | the named list becomes the old list followed by the new ids; every other property is kept |
| Server.AttachNothing | src/pages/ProjectForm/index.tsx:119 | appending no ids leaves the form object as it was |
| ProjectForm.InitialInputs | src/pages/ProjectForm/index.tsx:18-27 | the empty form has empty association arrays and no `_id` |
| ProjectForm.Initial | src/pages/ProjectForm/index.tsx:32-65 | the page starts not loading, with no drafts |
| ProjectForm.OnChange | src/pages/ProjectForm/index.tsx:151-172 | a change edits only the form object: drafts, loading flag and both mutation states are kept; unchecking removes the value from the list |
| ProjectForm.TickThenClearRestores | src/pages/ProjectForm/index.tsx:161-163 | ticking and clearing a box whose id was not selected restores the form exactly |
| ProjectForm.OnLoad | src/pages/ProjectForm/index.tsx:180-183 | once the project arrives the form object holds exactly the project's fields and nothing of the old object remains; before that nothing changes; drafts and flags are kept |
| ProjectForm.PersistRequest | src/pages/ProjectForm/index.tsx:144-148 | with a non-empty route id the project is updated under that id, otherwise created; never both |
| ProjectForm.Settle | src/pages/ProjectForm/index.tsx:74-94 | a successful save stops loading, and a create also empties the form; a failed save leaves the form loading |
| ProjectForm.StatusMessage | src/pages/ProjectForm/index.tsx:396-408 | the line under the button: "Please wait ..." while loading, then the create mutation's success text or error message, then the update mutation's, and nothing when neither has settled |
| ProjectForm.SettledKeys | src/pages/ProjectForm/index.tsx:89-92 | only a successful update invalidates, and it invalidates just the route's project query |
| ProjectForm.ScreenshotRequests | src/pages/ProjectForm/index.tsx:129-131 | one upload per screenshot draft, in order, with no owning project |
| ProjectForm.Submit | src/pages/ProjectForm/index.tsx:98-149 | a submit while loading does nothing; a halted submit leaves the form loading with its inputs; the save is the last request and happens only when nothing halted |
| ProjectForm.SubmitWithoutDrafts | src/pages/ProjectForm/index.tsx:105-148 | with no drafts the only request is the save of the form object unchanged |
| ProjectForm.SubmitAllAnswered | src/pages/ProjectForm/index.tsx:105-148 | with every reply successful: technologies, then screenshots, in draft order, then one save whose lists are the old lists followed by the returned ids in order, every other property unchanged |
| ProjectForm.UploadModeIrrelevantWithoutScreenshots | src/pages/ProjectForm/index.tsx:105-148 | a submit without screenshot drafts never reaches `createScreenshot`, so as written it sends and settles exactly as with the corrected body; with `SubmitAllAnswered` this covers the as-written technologies-only submit |
| ProjectForm.SubmitAllAnsweredInvalidates | src/pages/ProjectForm/index.tsx:105-142 | with every reply successful, the invalidated caches are exactly: 'technologies' when there were technology drafts, 'screenshots' when there were screenshot drafts, and the route's project after a successful update |
| ProjectForm.TechnologyRejectionHalts | src/pages/ProjectForm/index.tsx:105-118 | a rejected technology create ends the submit after that request: no rollback, drafts kept, form loading, nothing invalidated |
| ProjectForm.ScreenshotDraftsThrowAsWritten | src/pages/ProjectForm/index.tsx:125-137 | as written, any screenshot draft makes the submit throw after all technologies are created: their drafts are cleared, their ids reach no project, the form stays loading, and only the technologies list is invalidated, and only when there were technology drafts |
| ProjectForm.FailedSaveStaysLoading | src/pages/ProjectForm/index.tsx:74-94 | after a failed save the form keeps showing "Please wait ..." and no later submit sends anything |
| ProjectForm.SuccessfulSave | src/pages/ProjectForm/index.tsx:74-94 | a successful create empties the form and reports success; a successful update keeps the submitted form object and invalidates the project query |
| EditProject.InitialInputs | src/pages/EditProject/index.tsx:10-20 | the empty form has id 0 and empty association arrays |
| EditProject.Initial | src/pages/EditProject/index.tsx:48-52 | the page starts with the empty form and no drafts |
| EditProject.NumericChange | src/pages/EditProject/index.tsx:95-117 | only the named property changes; checking appends `parseInt` of the value; unchecking keeps exactly the elements not `===` to it |
| EditProject.OnChange | src/pages/EditProject/index.tsx:95-117 | a change edits only the named property of the form object and keeps the drafts |
| EditProject.TickThenClearRestores | src/pages/EditProject/index.tsx:102-108 | ticking and clearing the box of an unselected integer id restores the list exactly |
| EditProject.NaNTickIsPermanent | src/pages/EditProject/index.tsx:102-108 | a value `parseInt` reads as `NaN` is appended by ticking and never removed by clearing |
| EditProject.StatusMessage | src/pages/EditProject/index.tsx:292-293 | after the update settles the line reads "Updated successfully!" on success and nothing otherwise |
| EditProject.OnLoad | src/pages/EditProject/index.tsx:119-122 | once the project arrives the form object holds exactly the project's fields and nothing of the old object remains |
| EditProject.Submit | src/pages/EditProject/index.tsx:59-93 | without a route id nothing is sent; the only save is an update under `parseInt` of the route id, sent last; a halt changes nothing and invalidates nothing; a completed submit invalidates exactly 'technologies' when there were drafts and the route's project when the update succeeded |
| EditProject.SubmitTargetsRouteProject | src/pages/EditProject/index.tsx:59-92 | a route written from id `n` updates project `n`, and success invalidates that route's project query |
| EditProject.SubmitAllAnswered | src/pages/EditProject/index.tsx:72-92 | drafts are created in order, the update carries the old technologies followed by the new ids, drafts are cleared, 'technologies' is invalidated exactly when there were drafts, and the line under the button reads "Updated successfully!" after an answered update and nothing after a failed one |
| EditProject.SubmitWithoutDrafts | src/pages/EditProject/index.tsx:72-92 | with no drafts the only request is the update of the form object as it is |
| LegacyEditProject.Initial | src/pages/EditProject.tsx:7-27 | the page starts with the empty project and no message |
| LegacyEditProject.OnMount | src/pages/EditProject.tsx:66-89 | with a route id the fetched project replaces the page's; otherwise nothing changes |
| LegacyEditProject.OnChange | src/pages/EditProject.tsx:42-64 | a change edits only the named property, with the numeric handler |
| LegacyEditProject.UpdateArgumentId | src/pages/EditProject.tsx:36 | the positional call leaves `updateProject` no id; the object call gives it the parsed route id |
| LegacyEditProject.Submit | src/pages/EditProject.tsx:29-40 | without a route id nothing happens; a completed submit sent one update and shows the server's project with `success`; otherwise the message stays `loading` |
| LegacyEditProject.PositionalSubmitNeverSaves | src/pages/EditProject.tsx:36 | as written, every submit throws before sending: no request, project unchanged, message `loading` |
| LegacyEditProject.NamedSubmitSaves | src/pages/EditProject.tsx:34-39 | with the object call a route for id `n` sends one update of `n`; it completes exactly when answered, then showing the answer and `success` |
| TokenStore.Bearer | src/api.ts:76 | the header is the bearer prefix followed by the token |
| TokenStore.TokenOf | src/api.ts:76 | reading a header gives the token after the bearer prefix, or nothing when the prefix is missing |
| TokenStore.TokenOfBearer | src/api.ts:90 | the token read from a bearer header is the token it was built from |
| TokenStore.Login | src/api.ts:65-82 | success stores both tokens and sets the matching bearer header; failure changes nothing |
| TokenStore.UpdateToken | src/api.ts:84-96 | success replaces only the access token and the header, which carries it; the refresh token never changes; failure changes nothing |
| TokenStore.RefreshAfterLogin | src/api.ts:65-96 | after login and a refresh, the refresh token is the login's and the access token and header are the refresh's |
| Layout.OnMount | src/Layout/index.tsx:17-20 | a stored non-empty access token sets logged-in; otherwise the flag is unchanged |
| Layout.Logout | src/Layout/index.tsx:32-38 | both tokens are removed, the header becomes empty, and the flag is cleared |
| Layout.Reload | src/Layout/index.tsx:17-20 | a reload keeps storage and loses the in-memory header |
| Layout.LogoutStaysLoggedOut | src/Layout/index.tsx:17-38 | after logout, no mount check, with or without a reload, logs the user back in |
| Layout.LogoutForgetsHistory | src/Layout/index.tsx:32-38 | logout forgets whatever login and refresh did before it, and is idempotent |
| Layout.ReloadKeepsLoginButNotHeader | src/Layout/index.tsx:17-20 | after a login and a reload the mount check says logged in while no bearer header is set |
| Interceptor.Decide | src/hooks/useSetupInterceptor.ts:20-47 | no response throws; a non-401 is rejected as is; a 401 on the login page is swallowed; otherwise a refresh with the stored refresh token when there is one, else go to login |
| Interceptor.Deliver | src/hooks/useSetupInterceptor.ts:18-49 | a request's whole path through the handler: the refresh token is never changed, every refresh uses it, every navigation carries the current pathname, and a resolved request never navigated |
| Interceptor.SuccessPassesThrough | src/hooks/useSetupInterceptor.ts:19 | a successful response is returned with no refresh, no navigation and no change |
| Interceptor.RepeatedRefusals | src/hooks/useSetupInterceptor.ts:25-31 | `n` refusals followed by success give exactly `n` refreshes and retries, each retry carrying the freshest token, with no bound on `n` |
| Interceptor.FirstAnswerSettles | src/hooks/useSetupInterceptor.ts:22-47 | without a refresh the first answer settles the request: a 401 on the login page resolves with nothing, another status is rejected with that status, a 401 with no refresh token navigates once with the current pathname and rejects with 401, a missing response throws; no refresh, retry or credential change in any of them |
| Interceptor.FailedRefreshGoesToLogin | src/hooks/useSetupInterceptor.ts:32-47 | a failed refresh navigates once to login with the current pathname and rejects the 401, credentials untouched |
| LoginPage.Initial | src/pages/Login/index.tsx:22-25 | the page starts with two empty credential fields, not loading |
| LoginPage.OnChange | src/pages/Login/index.tsx:75-80 | a change sets only the named field |
| LoginPage.Submit | src/pages/Login/index.tsx:63-73 | a submit starts loading; it sends the credentials exactly when both are non-empty; while loading nothing happens |
| LoginPage.OnResetTimer | src/pages/Login/index.tsx:71 | the delayed reset clears loading and keeps the fields |
| LoginPage.ShowsAlert | src/pages/Login/index.tsx:85 | the "You must login first." alert shows exactly when the page was reached with a non-empty `from` |
| LoginPage.Destination | src/pages/Login/index.tsx:52-56 | success leads to `from` when there is one, otherwise home |
| LoginPage.OnLoginSettled | src/pages/Login/index.tsx:49-61 | success stores the tokens, logs in, stops loading and navigates with replace; failure stops loading and does not navigate |
| LoginPage.AlertMatchesRedirect | src/pages/Login/index.tsx:52-56 | a page that showed the "must login first" alert sends the user back to `from` after success, even when `from` is home; a page without the alert sends them home |
| LoginPage.SubmitThenSuccess | src/pages/Login/index.tsx:49-73 | a filled-in submit answered with tokens stores exactly those tokens with a matching header and returns the form to not loading |
| Home.Initial | src/pages/Home.tsx:34-38 | the prompt starts hidden, with no project and no error |
| Home.Show | src/pages/Home.tsx:40-43 | the prompt opens and remembers the project's id and title |
| Home.Close | src/pages/Home.tsx:45 | the prompt hides and the remembered project stays |
| Home.Delete | src/pages/Home.tsx:23-50 | no project or a falsy id does nothing; otherwise exactly that project is deleted; success closes the prompt and invalidates 'projects'; failure leaves the prompt as it was, with the error |
| Home.ShownError | src/pages/Home.tsx:141-145 | the error shows exactly while the prompt is open and a delete has failed |
| Home.ShowThenDelete | src/pages/Home.tsx:40-50 | confirming a prompt for a non-zero id deletes exactly that id; a failure is shown in the still-open prompt |
| Home.ProjectZeroIsNeverDeleted | src/pages/Home.tsx:47-49 | the project with id 0 can be prompted for but never deleted |
| Home.CloseKeepsTarget | src/pages/Home.tsx:45-50 | closing the prompt does not change what a later confirmation deletes |

## Left out

- Rendering is not modelled: the JSX, react-bootstrap components, styles and image previews.
- react-query and axios internals are not modelled. A request is a value. The server is a script of replies. Invalidation is a set of keys. Which queries refetch, and when, is not modelled.
- Concurrency is not modelled. Each submit runs to completion on the state it started from, so the following are outside the model:
  - a user editing while a submit awaits;
  - handlers closing over stale state;
  - a second submit on the numeric edit page, whose button is disabled only while the final update is pending.
- A reply is the request's final outcome after the interceptor has handled it. `Interceptor.Deliver` covers that handling separately.
- Numbers are integers or `NaN`. Fractions, exponent notation and the 2^53 precision limit of JavaScript numbers are not modelled. `parseInt` handles white space, a sign, the `0x` prefix and a digit prefix.
- The illustrative messages in client errors are not exact browser texts.
- Browser behaviour the handlers rely on is not modelled:
  - the `required` attribute, which already blocks an empty login submit;
  - the default form submission when the numeric edit handlers return before `preventDefault`;
  - localStorage coercing non-strings.
- The login page's 500 ms reset timer is modelled as an event (`LoginPage.OnResetTimer`) with no timing.
- Fetches that only load and display are not modelled:
  - the older edit page's parallel list fetches;
  - the `enabled` gating of the project query;
  - the project detail pages.
- The older login page is not modelled. It calls `login` with positional arguments.
- App.tsx, routes.ts and axios.ts are not modelled. Route paths are parameters. `src/routes.ts` defines `home` and `projectsList`, `projectsDetail`, `projectsEdit`, but not the `login`, `newProject`, `projectEdit` and `projectDetail` routes the pages use.
- The interceptor's installation is not modelled: the effect that registers it after mount, and the re-registration it makes.
- EditProject.Submit: the precondition asks for all three list properties to be arrays, though the code concatenates only `technologies`; the page's declared `Project` type makes all three arrays, and what `concat` would do on another value is not modelled.
- Layout.Reload: the model assumes the authenticated client's only default header is the one login and refresh set. How that client is built is not part of this model, so whether a request after a reload really goes out without a bearer header depends on it.
- ProjectForm.Submit: the precondition that the three list properties are arrays comes from the page's declared `Inputs` type. What `concat` would do on another value is not modelled.
- Interceptor.Deliver: the contract bounds navigations and fixes every refresh token, but does not itself say how the request settles. The lemmas give that for these scripts: a first success (`SuccessPassesThrough`), a first failure that is not refreshed (`FirstAnswerSettles`), refusals followed by success (`RepeatedRefusals`) and a refusal whose refresh fails (`FailedRefreshGoesToLogin`). Other mixtures of refreshed refusals and later failures are covered only by `Interceptor.Decide`, one attempt at a time.
- EditProject.StatusMessage: the "Please wait ..." shown while the update is in flight is not modelled, because the model's submit settles the update in one step.
- The API layer's numeric parameters (`Api.ScreenshotUpload.project`, `Api.ListParams.ids`) are integers, not JavaScript numbers: a `NaN` or fractional id reaching them is not modelled.
- Screenshot reconciliation is not modelled, because the code has none. No step deletes screenshots the user unchecked.

## Findings

| source | as written | input that shows it | evidently intended | confidence | as-written member | corrected member |
|---|---|---|---|---|---|---|
| src/api.ts:101 | `createScreenshot` reads `screenshot.project.toString()`, but the project form's screenshot drafts hold only an image, so the upload throws before any request and the submit stops after the technologies were created | a submit with one screenshot draft, any technology drafts, all technology creates answered | upload the file, with an owner field only when there is an owner, then save the project with the new ids | not executed; high | ProjectForm.ScreenshotDraftsThrowAsWritten | ProjectForm.SubmitAllAnswered |
| src/pages/EditProject.tsx:36 | `updateProject(params.id, project)` passes two arguments to a function that destructures `{ id, project }` from one, so `id` is `undefined` and `id.toString()` throws; nothing is sent and the message stays `loading` | any submit on the route of an existing project, e.g. id `"5"` | call `updateProject({ id, project })` and show the server's answer with `success` | not executed; high | LegacyEditProject.PositionalSubmitNeverSaves | LegacyEditProject.NamedSubmitSaves |
