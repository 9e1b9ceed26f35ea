# Job board client: form, filter and list rules

A model of the decision logic in the React client of a job-board
application. Employers post jobs through a four-step wizard and manage
their postings on a dashboard. Job seekers browse and filter the job list
and submit applications. Both roles list applications.

The model covers five components:

- `PostJob` (module `PostJob`). The wizard's step gates, the submit
  validation, the payload with exactly one salary shape, and the reset
  after a successful post.
- `Jobs` (module `JobSearch`). The search, category and location filter,
  the sorted and de-duplicated category and location dropdowns, and the
  clear-filters action.
- `MyJobs` (module `MyJobs`). The active/expired status filter and
  counts, delete and update by id, the edit dialog's field and salary-type
  changes, and the salary line a card shows.
- `Application` (module `ApplicationForm`). Form validation, the request
  payload, the `sending` flag and the reset.
- `MyApplications` (module `MyApplications`). The role-based list source,
  merging stored resume names into the list, delete by id, and the resume
  icon.

Shared pieces live in `Wrappers` (Option, Result), `Text` (string
truthiness, ASCII `toLowerCase`, `includes`, `endsWith`), `Lists`
(`filter`, `map`, `new Set`, `sort` (in code-point order), with their facts) and
`JobRecord` (the job record).

Component state is a class whose fields are the `useState` variables;
each setter call is a field assignment. Where an `async` handler changes
state or checks input before its `await`, it is split there into two
methods. The first sets the busy flag the component has for it (`loading`,
`isLoading`, `sending` or the delete spinner) and, for a submit or a
delete, runs the checks and returns the request it sends, or None if it
sends nothing. A form's submit also includes the browser's own check of
the inputs (`required`, `type="email"`), which stops the submit before
the handler runs. The second method takes the server's outcome (and, where
the source uses it afterwards, the record that was sent) as a parameter
and applies the success or failure updates, clearing the busy flag.

Three handlers have no busy flag, and they are modelled differently:
- MyJobs' `handleUpdateJob` is split into `SaveClick` and `UpdateSettled`, and neither sets nor clears a flag.
- MyApplications' `handleDelete` changes nothing before its `await`, so it is modelled by its settle half alone, `HandleDelete`.
- MyApplications' `fetchApplications` is one method, `FetchApplications`, which takes the server's answer for each endpoint as a function parameter.

Server responses, `window.confirm` and the browser's store are
parameters.

## Model

| member | source | states |
|---|---|---|
| `PostJob.ValidatePost` | frontend/src/components/Job/PostJob.jsx:38-85 | Submission is accepted iff all six text fields are non-empty, a salary type is chosen, and the chosen shape's values are non-empty. The checks come in the source's order: an empty field gives the "fill in all fields" error, and "default" gives the salary-type error. After those, an empty fixed amount gives the fixed-salary error, and an empty bound gives the range error. An accepted payload carries the six fields unchanged and exactly one salary shape with non-empty values: fixed for "Fixed Salary", from/to otherwise. |
| `PostJob.StepsAgreeWithSubmit` | frontend/src/components/Job/PostJob.jsx:116-140 | The step 1, 2 and 3 checks plus a non-empty description are together equivalent to the submit checks. |
| `PostJob.ClearingKeepsPayload` | frontend/src/components/Job/PostJob.jsx:55-85 | Emptying the unused salary keys before the request leaves the validated payload the same. |
| `PostJob.ResetFormIsRefused` | frontend/src/components/Job/PostJob.jsx:93-103 | The reset form fails submission with the missing-fields error and fails the step-1 check. |
| `PostJob.PostJobForm.constructor` | frontend/src/components/Job/PostJob.jsx:19-30 | The form starts with every field "", salary type "default", step 1 and not loading. |
| `PostJob.PostJobForm.Type` | frontend/src/components/Job/PostJob.jsx:248-459 | An input's onChange changes only its own field. |
| `PostJob.PostJobForm.SelectSalaryType` | frontend/src/components/Job/PostJob.jsx:364-372 | The select changes only the salary type. |
| `PostJob.PostJobForm.Next` | frontend/src/components/Job/PostJob.jsx:115-143 | The step goes up by exactly 1 when the current step's check passes and stays put when it fails. The step stays within 1..4. |
| `PostJob.PostJobForm.Previous` | frontend/src/components/Job/PostJob.jsx:474-484 | Offered only above step 1; the step goes down by 1 and stays within 1..4. |
| `PostJob.PostJobForm.HandleJobPost` | frontend/src/components/Job/PostJob.jsx:35-89 | A failed check changes nothing and sends nothing. Otherwise the validated payload is sent, the unused salary keys are emptied and `isLoading` is set. |
| `PostJob.PostJobForm.PostSettled` | frontend/src/components/Job/PostJob.jsx:87-108 | After success every text field is "", the salary type is "default" and the step is 1. After failure the fields are kept. `isLoading` is false either way. |
| `JobSearch.FilteredJobs` | frontend/src/components/Job/Jobs.jsx:36-51 | The shown list is an order-preserving subsequence of the jobs. Every copy of a job that passes the search, category and location tests is kept, and no other job is. |
| `JobSearch.EmptySearchMatchesAll` | frontend/src/components/Job/Jobs.jsx:38-41 | An empty search term matches every job. |
| `JobSearch.SearchIgnoresCase` | frontend/src/components/Job/Jobs.jsx:38-41 | Lower-casing the search term does not change which jobs match. |
| `JobSearch.NoFiltersShowsAll` | frontend/src/components/Job/Jobs.jsx:36-49 | With all three filters empty, the shown list equals the jobs. |
| `JobSearch.Categories` | frontend/src/components/Job/Jobs.jsx:53 | The category dropdown is strictly increasing and holds exactly the categories of the jobs. |
| `JobSearch.Locations` | frontend/src/components/Job/Jobs.jsx:54 | The location dropdown is strictly increasing and holds exactly the jobs' "city, country" labels. |
| `JobSearch.CategoriesDetermined` | frontend/src/components/Job/Jobs.jsx:53 | Two job lists whose jobs carry the same set of categories give the same category dropdown, whatever their order, length or other fields. |
| `JobSearch.LocationsDetermined` | frontend/src/components/Job/Jobs.jsx:54 | Two job lists whose jobs carry the same set of "city, country" labels give the same location dropdown. |
| `JobSearch.OwnLocationEntryHidesJob` | frontend/src/components/Job/Jobs.jsx:44-54 | As written, choosing a job's own location-dropdown entry removes that job from the list. |
| `JobSearch.IntendedKeepsOwnLocation` | frontend/src/components/Job/Jobs.jsx:44-54 | With the corrected location test, a job's own dropdown entry keeps the job. |
| `JobSearch.IntendedExtendsWritten` | frontend/src/components/Job/Jobs.jsx:44-47 | The corrected location test accepts every job that the written test accepts. |
| `JobSearch.JobsPage.constructor` | frontend/src/components/Job/Jobs.jsx:12-17 | The page starts loading, with no jobs, the search text handed over by the previous page (or ""), and no category or location selected. |
| `JobSearch.JobsPage.FetchStarted` | frontend/src/components/Job/Jobs.jsx:24 | The fetch sets `loading`. |
| `JobSearch.JobsPage.JobsFetched` | frontend/src/components/Job/Jobs.jsx:25-31 | On success the job list is the response's jobs, or empty when it has none. On failure the list is kept. Either way `loading` ends. |
| `JobSearch.JobsPage.SetSearchTerm` | frontend/src/components/Job/Jobs.jsx:115 | Only the search term changes. |
| `JobSearch.JobsPage.SelectCategory` | frontend/src/components/Job/Jobs.jsx:125 | Only the selected category changes. |
| `JobSearch.JobsPage.SelectLocation` | frontend/src/components/Job/Jobs.jsx:141 | Only the selected location changes. |
| `JobSearch.JobsPage.ClearFilters` | frontend/src/components/Job/Jobs.jsx:156 | All three filters become "", and the shown list is every job again. |
| `MyJobs.StatusFilter` | frontend/src/components/Job/MyJobs.jsx:96-101 | "active" keeps exactly the non-expired jobs and "expired" exactly the expired ones. "all", or any other value, keeps the list as it is. The result is always an order-preserving subsequence that keeps every copy of a passing job. |
| `MyJobs.CountsAddUp` | frontend/src/components/Job/MyJobs.jsx:129-155 | Active count + expired count = total count. |
| `MyJobs.CountsMatchStatusFilter` | frontend/src/components/Job/MyJobs.jsx:142-155 | The active and expired cards count exactly what the "active" and "expired" buttons show. |
| `MyJobs.RemoveJob` | frontend/src/components/Job/MyJobs.jsx:56 | No job with the id remains. Every copy of every other job remains, in order. An id that is not in the list changes nothing. |
| `MyJobs.ReplaceJob` | frontend/src/components/Job/MyJobs.jsx:69 | Same length and ids. Every entry with the edited record's id becomes the edited record, and entries with another id are unchanged. |
| `MyJobs.DeleteAfterUpdate` | frontend/src/components/Job/MyJobs.jsx:56-69 | Deleting an id after updating it gives the same list as deleting it directly. |
| `MyJobs.UpdateIdempotent` | frontend/src/components/Job/MyJobs.jsx:69 | Applying the same update twice equals applying it once. |
| `MyJobs.ApplyEdit` | frontend/src/components/Job/MyJobs.jsx:77-79 | The named field takes the value; every other field and the id are unchanged. |
| `MyJobs.SwitchSalary` | frontend/src/components/Job/MyJobs.jsx:81-89 | "fixed" keeps the fixed amount (or "") and removes the range keys. Range keeps both bounds (or "") and removes the fixed key. Non-salary fields are unchanged. |
| `MyJobs.FormatSalary` | frontend/src/components/Job/MyJobs.jsx:91-94 | The fixed form is used iff the fixed amount is truthy. Otherwise the range form is used, with a missing or empty bound shown as 0. |
| `MyJobs.RangeSwitchShowsRange` | frontend/src/components/Job/MyJobs.jsx:81-94 | After switching to range, the card shows the range form with the job's old bounds. |
| `MyJobs.FixedSwitchKeepsFixedCard` | frontend/src/components/Job/MyJobs.jsx:81-94 | For a job with a fixed amount, switching to "fixed" leaves its card unchanged. |
| `MyJobs.ChoosingFixedShowsRangeInputs` | frontend/src/components/Job/MyJobs.jsx:359-380 | As written, choosing "fixed" for a job with no fixed amount shows the Min/Max inputs. |
| `MyJobs.ChoosingRangeHidesInputs` | frontend/src/components/Job/MyJobs.jsx:359-380 | As written, choosing the range hides the salary inputs. |
| `MyJobs.ChoosingFixedBlocksSave` | frontend/src/components/Job/MyJobs.jsx:359-380 | As written, right after choosing "fixed" on a job with no fixed amount the empty, `required` Min/Max inputs block the save. Filling them in, not an amount, unblocks it when the other required fields are filled. |
| `MyJobs.IntendedShowsChosenInputs` | frontend/src/components/Job/MyJobs.jsx:359-380 | With the corrected condition, the dialog shows the inputs of the shape just chosen. |
| `MyJobs.MyJobsDashboard.constructor` | frontend/src/components/Job/MyJobs.jsx:14-19 | The dashboard starts loading, with no jobs, no edited job, the dialog closed, no deletion and status "all". |
| `MyJobs.MyJobsDashboard.FetchStarted` | frontend/src/components/Job/MyJobs.jsx:27 | The fetch sets `loading`. |
| `MyJobs.MyJobsDashboard.JobsFetched` | frontend/src/components/Job/MyJobs.jsx:28-35 | On success the list is the response's jobs, or empty. A failed fetch empties the list. Either way `loading` ends. |
| `MyJobs.MyJobsDashboard.SetFilterStatus` | frontend/src/components/Job/MyJobs.jsx:167-176 | The status button sets the filter status. |
| `MyJobs.MyJobsDashboard.EditClick` | frontend/src/components/Job/MyJobs.jsx:45-48 | The dialog opens on the clicked job. |
| `MyJobs.MyJobsDashboard.DeleteClick` | frontend/src/components/Job/MyJobs.jsx:50-54 | A declined confirmation does nothing and sends nothing. Otherwise the job's spinner is set and a request is made. |
| `MyJobs.MyJobsDashboard.DeleteSettled` | frontend/src/components/Job/MyJobs.jsx:54-61 | Success removes the job by id, and failure leaves the list unchanged. The spinner is cleared either way. |
| `MyJobs.MyJobsDashboard.InputChange` | frontend/src/components/Job/MyJobs.jsx:77-79 | The edited job takes the field change. |
| `MyJobs.MyJobsDashboard.SalaryTypeChange` | frontend/src/components/Job/MyJobs.jsx:81-89 | The edited job takes the salary-shape switch. |
| `MyJobs.MyJobsDashboard.SaveClick` | frontend/src/components/Job/MyJobs.jsx:295-389 | A request is made iff the dialog's `required` inputs are non-empty: title, country, city, description and the salary inputs shown. The request carries the edited record's id and the record itself (lines 64-67). Nothing changes before the response. |
| `MyJobs.MyJobsDashboard.UpdateSettled` | frontend/src/components/Job/MyJobs.jsx:67-75 | On success, the record that was sent replaces every entry with its id, even if the dialog was edited while the request was out, and the dialog closes. Failure changes nothing. |
| `MyJobs.MyJobsDashboard.CloseDialog` | frontend/src/components/Job/MyJobs.jsx:279 | The overlay, close and cancel buttons close the dialog and keep the edited record. |
| `ApplicationForm.CheckApplication` | frontend/src/components/Application/Application.jsx:23-40 | A missing or empty route id is rejected first. Next, any empty field among the five is rejected. An accepted payload holds exactly the five fields plus `jobId` equal to the route id. |
| `ApplicationForm.ValidEmailHasOneAt` | frontend/src/components/Application/Application.jsx:100 | An address the e-mail input accepts has exactly one "@" and does not start with it. |
| `ApplicationForm.ValidEmailOfParts` | frontend/src/components/Application/Application.jsx:100 | Any non-empty run of allowed local characters, then "@", then a domain, is accepted. |
| `ApplicationForm.TwoLabelDomain` | frontend/src/components/Application/Application.jsx:100 | Two valid labels joined by a dot form a domain. |
| `ApplicationForm.RefusedEmailExamples` | frontend/src/components/Application/Application.jsx:100 | "abc" and "@mail.example" are refused. |
| `ApplicationForm.SentEmailIsValid` | frontend/src/components/Application/Application.jsx:88-100 | Any request that is sent carries a valid e-mail address. |
| `ApplicationForm.PayloadFieldsFilled` | frontend/src/components/Application/Application.jsx:28-40 | Every field of a built payload is non-empty. |
| `ApplicationForm.ResetFormIsRefused` | frontend/src/components/Application/Application.jsx:49-53 | The reset form is refused if submitted again. |
| `ApplicationForm.ApplicationFormState.constructor` | frontend/src/components/Application/Application.jsx:9-14 | Empty fields, not sending. |
| `ApplicationForm.ApplicationFormState.Type` | frontend/src/components/Application/Application.jsx:94-129 | An input's onChange changes only its own field. |
| `ApplicationForm.ApplicationFormState.HandleApplication` | frontend/src/components/Application/Application.jsx:20-46 | A non-empty e-mail that is not a valid address is refused by the browser before the handler runs (line 100). A failed handler check sends nothing either. In both cases `sending` stays as it was. Otherwise the payload is sent and `sending` is true while the request is outstanding. |
| `ApplicationForm.ApplicationFormState.RequestSettled` | frontend/src/components/Application/Application.jsx:45-62 | Success empties the five fields, and failure keeps them. `sending` is false either way. |
| `MyApplications.ListSource` | frontend/src/components/Application/MyApplications.jsx:23-27 | The employer list is loaded iff the role is "Employer"; any other role loads the job-seeker list. |
| `MyApplications.DeleteOnlyOnOwnList` | frontend/src/components/Application/MyApplications.jsx:95-108 | Delete is offered only on the Job Seeker card, and that role always loads the job-seeker list. |
| `MyApplications.ResumeKeyInjective` | frontend/src/components/Application/MyApplications.jsx:31 | Distinct application ids read distinct store keys. |
| `MyApplications.MergeResumes` | frontend/src/components/Application/MyApplications.jsx:30-41 | Length and order are kept, and only `resume` may change. It becomes the stored name iff a stored entry exists and parses; otherwise the application is unchanged. |
| `MyApplications.MergeIdempotent` | frontend/src/components/Application/MyApplications.jsx:30-41 | Merging twice equals merging once. |
| `MyApplications.RemoveApplication` | frontend/src/components/Application/MyApplications.jsx:58 | Exactly the applications with the id are removed. Every copy of every other application stays, in order. |
| `MyApplications.DeleteCommutesWithMerge` | frontend/src/components/Application/MyApplications.jsx:30-58 | Deleting after the merge gives the same list as merging after deleting. |
| `MyApplications.IconFor` | frontend/src/components/Application/MyApplications.jsx:172-178 | ".pdf" gives the PDF icon. ".doc" or ".docx" without ".pdf" gives the Word icon. Anything else, or no resume, gives the generic icon. |
| `MyApplications.IconOfExtension` | frontend/src/components/Application/MyApplications.jsx:172-178 | Any name ending in ".pdf", ".doc" or ".docx" gets that extension's icon. |
| `MyApplications.MyApplicationsPage.constructor` | frontend/src/components/Application/MyApplications.jsx:11 | The list starts empty. |
| `MyApplications.MyApplicationsPage.FetchApplications` | frontend/src/components/Application/MyApplications.jsx:14-52 | With a signed-in user, the role's endpoint is read. An answer becomes the list with stored resumes merged in. An error, or no user, keeps the list. |
| `MyApplications.MyApplicationsPage.HandleDelete` | frontend/src/components/Application/MyApplications.jsx:54-62 | Success removes the application by id, and failure keeps the list. |

## Left out

- Redirects (`navigateTo`), toasts, `console` output, animation and styling are presentation and are not modelled. So are the role and sign-in checks that only redirect.
- `getTimeAgo` (frontend/src/components/Job/Jobs.jsx:61-67) reads the wall clock and divides floating-point hours, so it is left out.
- `parseInt`/`toLocaleString` digit formatting is left out. `MyJobs.FormatSalary` models which form is chosen and the text each number comes from. Jobs.jsx defines a `formatSalary` (lines 56-59) that is never called: its job cards print the raw salary fields (lines 249-253). Neither is modelled.
- Salaries are modelled as the strings the inputs produce. A salary the server returns as the number 0 is falsy in JavaScript, but not in this model.
- `toLowerCase` is modelled on ASCII letters only. Full Unicode case mapping is not modelled.
- `sort` is modelled as code-point order on Dafny characters. JavaScript compares UTF-16 code units, so the two differ only for characters outside the Basic Multilingual Plane.
- PostJob's salary type is modelled as the three values its select offers. The third branch of lines 55-64 is unreachable once the checks pass, and the method omits it.
- The browser's value sanitization is left out: an e-mail input strips line breaks and surrounding whitespace, and a number input empties a non-numeric value. The salary and phone values are taken as typed.
- PostJob's step-4 description is `required` (PostJob.jsx:456-461), so the browser stops an empty submit before `handleJobPost` runs. The handler refuses that draft anyway, so `HandleJobPost` sends nothing in both models. Only the toast differs.
- Handlers that can only be reached through a button are modelled with that button's visibility condition as a `requires`: `Next` (step < 4), `Previous` (step > 1), and the dashboard dialog handlers (an edited job exists).
- The browser store is a given map from key to entry: parsed, with an optional name, or malformed. An empty stored string, which the source treats as absent, is modelled as a missing key.
- Overlapping requests are not modelled: two deletes in flight, or a second submit while the first is pending. Each settle method assumes one outstanding request.
- The backend, the HTTP services, the Express wiring and the shared auth context are not part of this model.

## Findings

| source | as written | input that shows it | evidently intended | confidence | as-written member | corrected member |
|---|---|---|---|---|---|---|
| frontend/src/components/Job/Jobs.jsx:44-54 | The location dropdown offers "city, country" labels, but the filter looks for the selection inside the city or inside the country separately. | A job with city "Pune" and country "India". Choosing its dropdown entry "Pune, India" hides it, because the label is longer than either part. The same holds for every job. | A job is kept when the selection occurs in its "city, country" label. | high (not executed) | `JobSearch.OwnLocationEntryHidesJob` | `JobSearch.IntendedKeepsOwnLocation` |
| frontend/src/components/Job/MyJobs.jsx:359-380 | The salary inputs are chosen by whether `fixedSalary` is truthy. Choosing "fixed" stores "" for a job with no fixed amount, and "" is falsy. | A ranged job with no fixed amount. Choosing "Fixed Salary" shows the Min/Max inputs, never the amount input. Choosing "Range" hides the inputs entirely. | The dialog shows the amount input when the fixed key is present and the bounds otherwise. | medium (not executed) | `MyJobs.ChoosingFixedShowsRangeInputs` | `MyJobs.IntendedShowsChosenInputs` |

The page models (`JobSearch.FilteredJobs` and the edit dialog) keep the
code as written. The corrected definitions, `JobSearch.MatchesLocationIntended`
and `MyJobs.SalaryInputsIntended`, are proved beside them.
`JobSearch.IntendedExtendsWritten` shows that the corrected location test
keeps every job the written one keeps.
