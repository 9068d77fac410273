# jobWell core, modelled in Dafny

jobWell is a job board. Recruiters post jobs and review applicants. Job seekers browse jobs and apply with a resume and a cover letter. Both edit their profiles. This project models three pieces of it and proves properties of them:

- **The job routes** (`backend/routes/jobRoutes.js`). A `Store` class holds the Job and Application collections as sequences. Each route handler is a member that answers with a status code and a body: create, the public list, my-jobs with its application counts, the applicants of a job, apply, and get-by-id. The upload file-name rule is modelled too. The store keeps "at most one Application per (job, applicant)" across sequential calls.
- **The bearer-token guard** (`backend/middlewares/auth.js`). `Protect` works through the Authorization header, the signing secret and the token verifier in the source's order. It ends with either an error status or one call of the next handler with `req.user`.
- **The edit-profile form** (`Frontend/src/components/EditProfileForm.js`). This covers the single-field record updates, the skills normalisation (split on `,`, then trim), the role-dependent update payload, the password-change outcome, the session-user merge and the close route.

Files:
- `wrappers.dfy`: `Option`.
- `text.dfy`: the JavaScript string operations the code relies on: `startsWith`, `replace` of the first match, `trim`, `split`, `join`, the `||` fallback on strings, and decimal rendering.
- `auth.dfy`, `job_store.dfy`, `profile_form.dfy`: one module per source file.

Modelling choices:
- Job ids are `nat`s standing for ObjectIds. User ids are strings, as the token carries them.
- A `:id` route parameter that cannot be cast to an id is `IdParam.Malformed`. The lookup then throws, and the handler's catch answers 500.
- `jwt.verify` is a function parameter. It returns a decoded payload (`None` when falsy) or throws.
- The Job schema's validation is a function parameter from the stamped body to an optional error message.
- `Date.now()` for a file's name is the parameter `Upload.savedAt`.
- A job's `createdAt` is the parameter `now` of `Store.CreateJob`. The route never reads the clock; the value is assumed to be one the Job schema stamps at creation.
- `sort('-createdAt')` is a stable sort: jobs created at the same instant keep collection order. The database does not promise any particular order for such ties.
- A non-multipart apply request is `files == None`. The upload middleware then leaves `req.files` unset, so `req.files['resume']` throws and the catch answers 500.
- In the form, a job seeker whose `skills` is neither an array nor a string makes `split` throw. `BuildUpdatePayload` returns `None` for that case.
- The order of the guards is the code's:
  - applicants answers 404 for an unknown job before it checks ownership with 403 (backend/routes/jobRoutes.js:85-91);
  - apply checks the job, then an existing application by the caller, then the files (backend/routes/jobRoutes.js:117-132).
- Three behaviours of the code are modelled as written:
  - POST `/` carries an "Employers only" access note (backend/routes/jobRoutes.js:25), but the handler checks no role, so `Store.CreateJob` accepts any authenticated caller;
  - text typed into the experience or education box is sent as [] (`TypedListsAreNotSent`), as the "Optional: parse if needed" note at Frontend/src/components/EditProfileForm.js:102 leaves it;
  - a job seeker whose `skills` is missing makes `split` throw at line 97, before the `try` at line 109, so no request is sent.

## Model

| member | source | states |
|---|---|---|
| `Text.Truthy` | backend/middlewares/auth.js:12 | a possibly-missing string is truthy exactly when it is present and non-empty |
| `Text.OrDefault` | Frontend/src/components/EditProfileForm.js:59 | `s \|\| fallback`: the string when it is present and non-empty, the fallback otherwise; never empty when the fallback is not |
| `Text.StartsWith` | backend/middlewares/auth.js:7 | `startsWith(prefix)`: the string's first characters are exactly the prefix |
| `Text.ReplaceFirst` | backend/middlewares/auth.js:11 | `replace` with a string pattern: on a string that starts with the pattern, the result is the replacement followed by the rest; with no match, the string is unchanged |
| `Text.Trim` | backend/middlewares/auth.js:11 | `trim`: the input is a white prefix, then the result, then a white suffix, and the result has no white space at either end |
| `Text.TrimPadded` | backend/middlewares/auth.js:11 | whatever white padding surrounds a trimmed string, `trim` recovers exactly that string |
| `Text.TrimOfTrimmed` | Frontend/src/components/EditProfileForm.js:97 | trimming leaves a trimmed string alone and strips one leading space from it |
| `Text.Split` | Frontend/src/components/EditProfileForm.js:97 | `split(sep)` gives (number of separators + 1) pieces, none containing the separator |
| `Text.Join` | Frontend/src/components/EditProfileForm.js:159 | `join(sep)`: the pieces in order with the separator between each two; [] gives "" |
| `Text.JoinSplit` | Frontend/src/components/EditProfileForm.js:97 | joining the pieces of a split with the same separator gives back the original string |
| `Text.SplitJoin` | Frontend/src/components/EditProfileForm.js:97 | splitting a join of a non-empty list of separator-free pieces gives back the pieces |
| `Text.DecimalString` | backend/routes/jobRoutes.js:16 | the template-literal rendering of a timestamp is a non-empty string of decimal digits |
| `Text.DecimalRoundTrip` | backend/routes/jobRoutes.js:16 | the digits denote the number they were rendered from |
| `Auth.WellFormedHeader` | backend/middlewares/auth.js:7 | the header passes the guard exactly when it is present, non-empty and starts with "Bearer " |
| `Auth.ExtractToken` | backend/middlewares/auth.js:11 | for a header starting with "Bearer ", the token is the rest of the header, trimmed |
| `Auth.ExtractPaddedToken` | backend/middlewares/auth.js:11 | "Bearer " followed by white space, a trimmed token and white space hands exactly that token to the verifier |
| `Auth.Admit` | backend/middlewares/auth.js:16-29 | a thrown verification gives 401 "Invalid or expired token"; a falsy payload or `id` gives 401 "Invalid token payload"; otherwise `next` with `req.user = {id: decoded.id}`, and only then |
| `Auth.Protect` | backend/middlewares/auth.js:4-30 | a missing or non-"Bearer " header gives 401 and no `next`; the 500 for an unset secret comes only after that check passes; then the verification of the extracted token decides; `next` iff all checks pass |
| `Auth.ProtectStatuses` | backend/middlewares/auth.js:7-29 | only 401 and 500 are ever sent, and 500 only for a well-formed header with no secret configured |
| `Auth.ProtectSuccess` | backend/middlewares/auth.js:22-23 | a request that reaches `next` had a bearer header and a secret, the verifier decoded its token to a payload whose `id` is `req.user.id`, and that id is non-empty |
| `JobStore.StoredName` | backend/routes/jobRoutes.js:15-17 | a stored upload name is decimal digits, a dash, then the original name, so it ends with the original name |
| `JobStore.StoredNameRoundTrip` | backend/routes/jobRoutes.js:15-17 | the stored name determines both the original name and the timestamp it was made from |
| `JobStore.Filter` | backend/routes/jobRoutes.js:43 | a find-by-condition query keeps exactly the documents that match, and is no longer than the collection |
| `JobStore.FilterMultiplicity` | backend/routes/jobRoutes.js:43 | a matching document occurs as often in the result as in the collection; a non-matching one does not occur |
| `JobStore.FindJob` | backend/routes/jobRoutes.js:85 | `findById` returns a stored job with that id, or nothing only when no job has it |
| `JobStore.SortNewest` | backend/routes/jobRoutes.js:45 | `sort('-createdAt')` returns a permutation of its input ordered by `createdAt`, newest first |
| `JobStore.IdsOf` | backend/routes/jobRoutes.js:59 | `jobs.map(j => j._id)`: one id per job, position by position |
| `JobStore.CountFor` | backend/routes/jobRoutes.js:58-61 | the number of applications referencing a job is 0 exactly when none references it |
| `JobStore.Aggregate` | backend/routes/jobRoutes.js:58-61 | each group of the count aggregation is for one of the queried jobs and holds that job's (positive) number of applications |
| `JobStore.AggregateComplete` | backend/routes/jobRoutes.js:58-61 | every queried job that has an application gets a group |
| `JobStore.CountsMap` | backend/routes/jobRoutes.js:63-66 | the `forEach` over the groups makes every group's job a key of `countsMap`, and every key maps to that job's number of applications |
| `JobStore.CountsMapAgrees` | backend/routes/jobRoutes.js:68-71 | reading `countsMap[job._id] \|\| 0` gives each queried job its number of applications |
| `JobStore.UngroupedHasNone` | backend/routes/jobRoutes.js:70 | a job that no group put into the counts map has no applications, so defaulting it to 0 is correct |
| `JobStore.HasApplied` | backend/routes/jobRoutes.js:123-124 | `Application.findOne({job, applicant})` finds a document exactly when some stored application has that job and that applicant |
| `JobStore.ApplyStep` | backend/routes/jobRoutes.js:117-144 | apply's guards in order: malformed id 500, missing job 404, existing (job, caller) application 400, no file table 500, missing resume or cover letter 400; any failure leaves the applications unchanged; success (201) exactly when all pass, appending one application with the job, the caller and the two stored file names |
| `JobStore.ApplyKeepsOnePerPair` | backend/routes/jobRoutes.js:123-142 | apply preserves "at most one application per (job, applicant)" |
| `JobStore.SecondApplyRefused` | backend/routes/jobRoutes.js:123-124 | after a successful apply, a second apply by the same caller for the same job gets 400 "You have already applied for this job" and adds nothing |
| `JobStore.Store.CreateJob` | backend/routes/jobRoutes.js:26-36 | validation sees the body with `postedBy` replaced by the caller; on a validation error, 400 with its message and no change; otherwise 201 with a new job whose `postedBy` is the caller (whatever the body said), under a fresh id, appended to the jobs; applications never change; the store invariant is kept |
| `JobStore.Store.ListJobs` | backend/routes/jobRoutes.js:41-50 | 200 with exactly the active jobs, newest first, each as often as stored |
| `JobStore.Store.OwnJobs` | backend/routes/jobRoutes.js:57 | exactly the caller's jobs, newest first, each as often as stored |
| `JobStore.Store.MyJobs` | backend/routes/jobRoutes.js:55-77 | 200 with one entry per job of the caller's query, in the query's order, none added or dropped, each carrying the number of applications referencing it (0 when none) |
| `JobStore.Store.Applicants` | backend/routes/jobRoutes.js:83-101 | malformed id 500; 404 for an unknown job whoever the caller is; 403 when the caller did not post it; otherwise 200 with exactly the applications whose `job` is this id |
| `JobStore.Store.GetJob` | backend/routes/jobRoutes.js:155-164 | malformed id 500; 200 with the job iff a stored job has the id; 404 otherwise |
| `JobStore.Store.Apply` | backend/routes/jobRoutes.js:108-149 | the new applications and the reply are those of `ApplyStep` on the old collections; jobs unchanged; the store invariant (one application per pair, applications reference stored jobs) is kept |
| `JobStore.PostScenario` | backend/routes/jobRoutes.js:26-96 | a posted job appears in the poster's my-jobs with count 0 and `postedBy` the poster, even when the body named someone else; another user asking for its applicants gets 403 |
| `JobStore.RetryScenario` | backend/routes/jobRoutes.js:117-144 | applying with both files gives 201; retrying gives 400 "You have already applied for this job"; the owner then sees exactly one application, by the applicant |
| `ProfileForm.WithField` | Frontend/src/components/EditProfileForm.js:32-38 | `handleChange` sets the named field to the typed value and leaves every other top-level field unchanged |
| `ProfileForm.WithFieldCommutes` | Frontend/src/components/EditProfileForm.js:32-38 | edits to two different fields give the same form state in either order |
| `ProfileForm.WithFieldLastWins` | Frontend/src/components/EditProfileForm.js:32-38 | a second edit to the same field overwrites the first |
| `ProfileForm.WithProfileField` | Frontend/src/components/EditProfileForm.js:40-49 | `handleProfileChange` sets `profile[name]`, keeps the other profile fields (none when there was no profile) and every top-level field |
| `ProfileForm.SplitSkills` | Frontend/src/components/EditProfileForm.js:97 | splitting skills text gives (number of commas + 1) trimmed, comma-free entries, the k-th the trim of the k-th piece; "" gives [""] |
| `ProfileForm.SplitSkillsRoundTrip` | Frontend/src/components/EditProfileForm.js:97 | text whose comma-separated pieces carry no surrounding white space is rebuilt exactly by joining the normalised list with "," |
| `ProfileForm.SplitShownSkills` | Frontend/src/components/EditProfileForm.js:159 | the form shows a skills list joined with ", "; for a non-empty list of comma-free skills, splitting that text on "," gives the first skill, then each later skill behind one space |
| `ProfileForm.ShownSkillsRoundTrip` | Frontend/src/components/EditProfileForm.js:95-97 | submitting the skills text exactly as the form shows it gives back the list, for a non-empty list of trimmed, comma-free skills |
| `ProfileForm.NormalizeSkills` | Frontend/src/components/EditProfileForm.js:95-97 | an array of skills passes through unchanged; typed text is split and trimmed; anything else throws |
| `ProfileForm.ListOrEmpty` | Frontend/src/components/EditProfileForm.js:100-105 | an array is kept; anything else becomes [] |
| `ProfileForm.ProfilePayload` | Frontend/src/components/EditProfileForm.js:98-106 | the profile sent has exactly `bio`, `experience` and `education`: the bio or "" when absent, each list when it is an array and [] otherwise |
| `ProfileForm.TypedListsAreNotSent` | Frontend/src/components/EditProfileForm.js:98-106 | text typed into the experience or education box is not sent: that field of the payload is [] |
| `ProfileForm.BuildUpdatePayload` | Frontend/src/components/EditProfileForm.js:86-107 | the payload always has `name` and `email` from the form; `company` only for a recruiter; `skills` and `profile` only for a job seeker; name and email only for any other role; it throws only for a job seeker whose skills are neither array nor text |
| `ProfileForm.UpdateErrorMessage` | Frontend/src/components/EditProfileForm.js:122-127 | a failed update shows the server's message when there is one, otherwise "Failed to update profile" |
| `ProfileForm.MergeSessionUser` | Frontend/src/components/EditProfileForm.js:114 | the session user gets the form's name and email and keeps every other stored field; a missing session record acts as an empty one |
| `ProfileForm.CloseRoute` | Frontend/src/components/EditProfileForm.js:70-78 | the recruiter dashboard iff the session role is "recruiter", the job-seeker dashboard iff it is "job_seeker", otherwise "/" |
| `ProfileForm.PasswordForm.constructor` | Frontend/src/components/EditProfileForm.js:11-13 | the current password, the new password and the password message all start empty |
| `ProfileForm.PasswordForm.Submit` | Frontend/src/components/EditProfileForm.js:51-67 | on success, both password fields are cleared and the message is the server's or "Password updated successfully"; on failure, the fields are kept and the message is the server's or "Error updating password" |

## Left out

- Database failures. A store error other than a malformed id ends in the handler's catch: 400 with `err.message` at create (backend/routes/jobRoutes.js:33-34), 500 in every other handler. At create, `validate` stands for any error `Job.create` throws. Elsewhere the model has no failing database, so these 500 paths do not appear.
- Store.CreateJob: `createdAt := now` and the fresh `id` are assumptions about the Job schema, which is not part of this model. Any `createdAt`, `_id` or other extra field in the request body is ignored, while `Job.create(req.body)` would store it if the schema declared it.
- `populate` projections (`postedBy` name and company, applicant fields), ObjectId stringification, and how the aggregation pipeline runs. The count grouping is specified by what it computes.
- The Job and Application schemas (`models/Job.js`, `models/Application.js` are not part of this model): validation is a parameter, and `JobBody.isActive` is the value after schema defaults.
- Application `status`, `notes` and `createdAt` are not modelled, because their defaults live in the schema. A failing `newApp.save()` is not modelled either.
- The upload middleware's disk writes and the `uploads/` directory. Also left out: its rejection of a second file in one field, which happens before the handler runs, and the file left on disk when a guard refuses the request.
- `jwt.verify`'s signature and expiry checks (a foreign library), `errorHandler`'s response format (not part of this model) and the development-mode logging.
- The duplicate-apply race between concurrent requests. Only sequential calls are modelled.
- A create request with no JSON body. Depending on the body parser's version, `req.body` is then `{}` (schema validation fails) or unset (`req.body.postedBy = …` throws); either way the catch answers 400, which `validate` does not single out.
- `backend/server.js`, `backend/routes/applicationRoutes.js` and the pages: plumbing and rendering with no logic of their own.
- In the form: rendering, the initial `/auth/me` fetch, `alert`, navigation, `sessionStorage` reads and writes, the `saving`/`error` flags (so the model does not show that `saving` stays set when `split` throws before the `try`) and the `onSave`/`onclose` callbacks. The session record is a parameter.
- Text is Dafny's `seq<char>` of Unicode scalar values, while JavaScript strings are UTF-16 code units. The two agree for the white-space set `trim` uses and for the ASCII separators.
