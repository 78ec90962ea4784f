# CampusHire data layer in Dafny

CampusHire is a campus job board. It has no server: every page reads and
writes a few keys of the browser's local storage. These are the jobs, the
applications, the users, and the signed-in user. This project models that
data layer and the page logic that drives it, and proves what the pages
promise about it:

- **Storage** (`Storage.dfy`). Each collection key is a `Slot`: missing, the
  empty string, or a stored array. Only the last is truthy, even when the
  array is empty. `Store` is a class whose four fields are the four keys.
  The pages reassign those fields the way the source writes the keys.
- **Seed data** (`MockData.dfy`). The six seed jobs, and `initializeMockData`,
  which writes a key only when it is falsy.
- **Sessions** (`Auth.dfy`). The auth provider is a class whose `user`
  field mirrors the signed-in-user key. It has sign-in by e-mail (the
  password is never looked at), registration with role-specific starting
  profiles, sign-out, and the shallow profile merge of `updateProfile`.
- **Job list and filter panel** (`Jobs.dfy`, `JobFilters.dfy`). The
  five-stage filter equals one filter by the conjunction of the active
  rules. Also modelled: the panel's record editors, the skill toggle, the
  "has active filters" test and the fixed option lists. Concrete results on
  the seed data are included.
- **Job card** (`JobCard.dfy`). The relative-date buckets, the skill chips
  with their "+k more" count, and the type badge. The job details page
  (`src/pages/JobDetails.tsx:132-143`) uses the same date rule, so
  `JobCard.FormatDate` stands for both.
- **Job details** (`JobDetails.dfy`). The job lookup, the duplicate check,
  and the apply action that appends a pending application.
- **Dashboard** (`Dashboard.dfy`). Each role's view of the stored jobs and
  applications, and the status update that rewrites the stored list and the
  loaded list in the same way. Also the status counts and the
  recent-applications slice.
- **Job posting** (`PostJob.dfy`). The list-field editors, the validation
  that fills the error record, and the job that submission stores.
- **Profile page** (`ProfilePage.dfy`). The forms filled from the profile,
  the skill editor, the simulated resume upload and its label, and the
  role-dependent payload.

Helper modules:

- `Wrappers.dfy`: `Option`.
- `Lists.dfy`: `filter`, `find`, `findIndex` and `some` on arrays, with
  their properties.
- `Text.dfy`: `trim`, ASCII case mapping, `includes`, decimal formatting
  and `split('/').pop()`.
- `Types.dfy`: the record types of `src/types/index.ts`.

In these places the model follows the code, which a reader may not
expect:

- **Applying twice.** Applying does not look for an earlier application;
  only the page's `hasApplied` flag, which replaces the button with a
  notice, prevents a repeat. So two applies add two
  applications (`JobDetails.ApplyAddsOneMore`).
- **Status updates.** A status update rewrites every application with the
  given id, not only one. It accepts any status text. The source reads the
  clock once for every rewritten row; the model gives all rewritten rows of
  one list the same time, a parameter, and makes no claim that it is later
  than the previous one.
- **Job deadline.** The job deadline is stored untrimmed. The salary is
  trimmed.
- **Employer view with no jobs.** An employer sees no application at all
  when the jobs key is falsy.

## Model

| member | source | states |
|---|---|---|
| Storage.Store.constructor | src/data/mockData.ts:138-153 | the store holds the jobs, applications and users keys, and the session key `campushire_user` that the authentication context reads, as found on load; every page reads and writes these four |
| MockData.SeedShape | src/data/mockData.ts:3-136 | the seed is six active jobs with ids "1" to "6", in order |
| MockData.SeedInternships | src/data/mockData.ts:3-136 | on the seed, exactly jobs 1, 3 and 4 are internships, and exactly the internships ask for "0-1 years" |
| MockData.InitSlot | src/data/mockData.ts:140-151 | after initialisation a key is truthy, a key that was truthy is left as it was, and a falsy key receives the seed |
| MockData.InitSlotIdempotent | src/data/mockData.ts:138-153 | initialising a second time writes nothing |
| MockData.InitializeMockData | src/data/mockData.ts:138-153 | jobs get the seed and the applications and users get an empty list, each only when falsy; the session key is untouched |
| JobFilters.ChangeText | src/components/Jobs/JobFilters.tsx:31-35 | the changed text key gets the value; every other key and the skills stay as they were |
| JobFilters.ChangeSkills | src/components/Jobs/JobFilters.tsx:31-35 | only the skills change |
| JobFilters.ToggleSkill | src/components/Jobs/JobFilters.tsx:37-42 | the toggled skill's membership flips; every other skill keeps its membership |
| JobFilters.SkillToggled | src/components/Jobs/JobFilters.tsx:37-41 | the toggled skill is in the new record exactly when it was not before, every other skill keeps its membership, and the text fields stay |
| JobFilters.ChipsOfferReactAndJava | src/components/Jobs/JobFilters.tsx:29 | the skill chips include "React" and "Java", and clicking one on the cleared record gives that single-skill filter |
| JobFilters.ToggleTwiceRestores | src/components/Jobs/JobFilters.tsx:38-41 | toggling an absent skill twice gives back the original list |
| JobFilters.ToggleKeepsNoDuplicates | src/components/Jobs/JobFilters.tsx:37-42 | toggling keeps a repeat-free skill list repeat-free |
| JobFilters.InactiveIffCleared | src/components/Jobs/JobFilters.tsx:44-56 | no filter is active exactly when the record is the cleared one |
| JobFilters.TypeOptionsAreJobTypes | src/components/Jobs/JobFilters.tsx:27 | the type options are exactly the four stored type labels, each once |
| Jobs.FilterJobsIsConjunction | src/pages/Jobs.tsx:26-67 | the staged filter equals one filter by the conjunction of the active rules |
| Jobs.FilterJobsKeepsExactlyMatches | src/pages/Jobs.tsx:27-64 | the result is an order-preserving subsequence of the jobs, and holds a job exactly when the job passes every active rule |
| Jobs.InactiveFiltersKeepAll | src/pages/Jobs.tsx:30-56 | with no active field the loaded list comes back unchanged |
| Jobs.LoadJobs | src/pages/Jobs.tsx:13-21 | the loaded list is the stored jobs, and empty when the key is missing or blank |
| Jobs.ClearedShowsAll | src/pages/Jobs.tsx:26-67 | the cleared record shows every job `loadJobs` loaded, in order |
| Jobs.SkillsRule | src/pages/Jobs.tsx:56-64 | a job matches the skills exactly when some wanted skill is, ignoring case, inside some job skill |
| Jobs.TwoYearsNotOffered | src/components/Jobs/JobFilters.tsx:28 | no experience option is "0-2 years" |
| Jobs.SeedTwoYearJobs | src/data/mockData.ts:27-98 | seed jobs 2 and 5 ask for "0-2 years" |
| Jobs.TwoYearJobsUnreachable | src/pages/Jobs.tsx:51-53 | when the jobs with ids "2" and "5" ask for "0-2 years", no offered experience option shows either of them |
| Jobs.SeedTwoYearJobsUnreachable | src/pages/Jobs.tsx:51-53 | no offered experience option ever shows seed job 2 or 5 |
| Jobs.TypeLabelInjective | src/types/index.ts:34 | distinct job types have distinct stored labels |
| Jobs.TypeFilterAlone | src/pages/Jobs.tsx:46-48 | the type filter alone keeps exactly the jobs of that type, in order |
| Jobs.SkillsFilterAlone | src/pages/Jobs.tsx:56-64 | the skills filter alone keeps exactly the jobs the skills rule matches |
| Jobs.SkillsLackLetters | src/pages/Jobs.tsx:57-63 | a job none of whose skills holds some letter of the wanted skill, in either case, is not matched |
| Jobs.SomeSkillIncludes | src/pages/Jobs.tsx:57-63 | a job with a skill that includes the wanted skill, ignoring case, is matched |
| Jobs.SeedInternshipJobs | src/data/mockData.ts:3-136 | the seed internships are jobs 1, 3 and 4, in order |
| Jobs.SeedInternshipFilter | src/pages/Jobs.tsx:46-48 | on the seed the type filter "internship" shows ids 1, 3, 4 |
| Jobs.SeedJob1Skills | src/data/mockData.ts:20 | job 1 matches both "React" and "Java" (through "JavaScript") |
| Jobs.SeedJob2Skills | src/data/mockData.ts:42 | job 2 matches "Java" and not "React" |
| Jobs.SeedJob3Skills | src/data/mockData.ts:64 | job 3 matches neither "React" nor "Java" |
| Jobs.SeedJob4Skills | src/data/mockData.ts:86 | job 4 matches neither "React" nor "Java" |
| Jobs.SeedJob5Skills | src/data/mockData.ts:108 | job 5 matches neither "React" nor "Java" |
| Jobs.SeedJob6Skills | src/data/mockData.ts:130 | job 6 matches "React" and not "Java" |
| Jobs.SkillKeepsOfSix | src/pages/Jobs.tsx:56-64 | of six jobs, when the single skill matches exactly the first and sixth, or the first and second, the skills rule keeps exactly those two in order |
| Jobs.SkillPickOfSix | src/pages/Jobs.tsx:56-64 | for such six jobs the skills filter alone shows the ids of exactly those two, in order |
| Jobs.SeedSkillFilter | src/pages/Jobs.tsx:56-64 | on the seed the skills filter ["React"] shows ids 1, 6 and ["Java"] shows ids 1, 2 |
| JobCard.OneDayAgo | src/components/Jobs/JobCard.tsx:33 | one day reads "1 day ago" |
| JobCard.DaysAgo | src/components/Jobs/JobCard.tsx:34 | two to six days read "n days ago", and the digits read back as n |
| JobCard.FutureDaysAgo | src/components/Jobs/JobCard.tsx:29-34 | a future date reads "-n days ago" with n the days ahead |
| JobCard.WeeksAgo | src/components/Jobs/JobCard.tsx:35 | 7 to 29 days read "w weeks ago" with w the whole weeks, between 1 and 4 |
| JobCard.SecondWeek | src/components/Jobs/JobCard.tsx:35 | 7 to 13 days read "1 weeks ago" |
| JobCard.MonthsAgo | src/components/Jobs/JobCard.tsx:36 | from 30 days the text counts whole 30-day months, at least one |
| JobCard.TodayOnlyForZero | src/components/Jobs/JobCard.tsx:32-36 | "Today" is shown for zero days and for no other count |
| JobCard.SkillChips | src/components/Jobs/JobCard.tsx:79 | the chips are the first four skills, or all when fewer |
| JobCard.MoreCount | src/components/Jobs/JobCard.tsx:87-90 | the "+k more" chip is present exactly when there are more than four skills |
| JobCard.ChipsAccountForAll | src/components/Jobs/JobCard.tsx:79-90 | the chips plus the "+k more" count account for every skill |
| JobCard.TypeBadge | src/components/Jobs/JobCard.tsx:49 | the badge is the type label with an upper-case first letter and the rest unchanged |
| JobCard.TypeBadges | src/components/Jobs/JobCard.tsx:49 | the four badges read "Full-time", "Part-time", "Internship", "Contract" |
| Auth.UserWithEmail | src/contexts/AuthContext.tsx:32 | the lookup finds a user exactly when one has that e-mail, and it finds the first such user |
| Auth.StartingProfile | src/contexts/AuthContext.tsx:61-69 | an employer starts with the company name (or empty), empty size and industry; a job seeker with no skills and empty experience and education |
| Auth.NewUser | src/contexts/AuthContext.tsx:55-70 | the new user carries the given id, e-mail, name, role and time, and the starting profile |
| Auth.MergeIdentity | src/contexts/AuthContext.tsx:94 | an empty patch changes nothing; merging into no profile gives the patch |
| Auth.MergeIdempotent | src/contexts/AuthContext.tsx:94 | applying a patch twice is applying it once |
| Auth.MergeAssociative | src/contexts/AuthContext.tsx:94 | two patches in a row act as their merge, the later winning |
| Auth.MergeFullPatch | src/contexts/AuthContext.tsx:94 | a patch setting every key replaces the whole profile |
| Auth.WithProfilePatch | src/contexts/AuthContext.tsx:92-95 | the updated user differs from the session user only in its profile, which is the merge |
| Auth.RegisterKeepsDistinctEmails | src/contexts/AuthContext.tsx:50-73 | appending a user whose e-mail is free keeps e-mails distinct |
| Auth.ReplaceKeepsDistinctEmails | src/contexts/AuthContext.tsx:97-102 | replacing a user by one with the same e-mail keeps e-mails distinct |
| Auth.AuthProvider.constructor | src/contexts/AuthContext.tsx:21-26 | the provider starts with the stored signed-in user |
| Auth.AuthProvider.Login | src/contexts/AuthContext.tsx:28-44 | it succeeds exactly when some user has the e-mail, whatever the password, and then signs in the first one; otherwise nothing changes |
| Auth.AuthProvider.Register | src/contexts/AuthContext.tsx:46-81 | it fails exactly when the e-mail is taken, leaving the users as they were; otherwise it appends exactly one new user and signs it in |
| Auth.AuthProvider.Logout | src/contexts/AuthContext.tsx:83-86 | only the session is cleared |
| Auth.AuthProvider.UpdateProfile | src/contexts/AuthContext.tsx:88-112 | with no session, or no stored user with the session's id, it fails and writes nothing; otherwise the first user with that id and the session become the patched user |
| Dashboard.EmployerJobs | src/pages/Dashboard.tsx:19-25 | an employer's jobs are exactly the stored jobs they posted, in order |
| Dashboard.SeekerApplications | src/pages/Dashboard.tsx:33-36 | a job seeker's applications are exactly the stored ones they made, in order |
| Dashboard.EmployerApplications | src/pages/Dashboard.tsx:37-48 | an employer's applications are exactly those whose job (first by id) they posted, in order |
| Dashboard.EmployerApplicationsForOwnJobs | src/pages/Dashboard.tsx:39-47 | every application in the employer's view is for a job in their job view |
| Dashboard.DanglingApplicationExcluded | src/pages/Dashboard.tsx:43-44 | an application whose job is not stored is not shown to any employer |
| Dashboard.NoJobsNoEmployerApplications | src/pages/Dashboard.tsx:40-46 | with the jobs key falsy an employer sees no application |
| Dashboard.WithStatus | src/pages/Dashboard.tsx:94-99 | the update keeps the length, gives every row with the id the new status and the given time and nothing else, and leaves the other rows as they were |
| Dashboard.UnknownIdUnchanged | src/pages/Dashboard.tsx:94-99 | an id no application has changes nothing |
| Dashboard.WithStatusIdempotent | src/pages/Dashboard.tsx:94-99 | repeating the same update changes nothing further |
| Dashboard.FilterWithStatus | src/pages/Dashboard.tsx:90-107 | updating then filtering by a rule the update cannot affect equals filtering then updating |
| Dashboard.SeekerViewFollowsStore | src/pages/Dashboard.tsx:90-107 | the job seeker's view of the updated store is their updated view |
| Dashboard.EmployerViewFollowsStore | src/pages/Dashboard.tsx:90-107 | the employer's view of the updated store is their updated view |
| Dashboard.StatusCount | src/pages/Dashboard.tsx:188 | a status count never exceeds the number of applications |
| Dashboard.StatusCountsWithinTotal | src/pages/Dashboard.tsx:188-241 | the four status counts together never exceed the number of applications |
| Dashboard.Recent | src/pages/Dashboard.tsx:285 | the recent list is the first five applications, or all when fewer |
| Dashboard.DashboardPage.constructor | src/pages/Dashboard.tsx:12-13 | the page starts with empty lists |
| Dashboard.DashboardPage.LoadData | src/pages/Dashboard.tsx:16-58 | a truthy jobs key gives an employer their jobs; a truthy applications key gives each role its applications; a list whose key is falsy keeps its value |
| Dashboard.DashboardPage.UpdateApplicationStatus | src/pages/Dashboard.tsx:90-109 | with a truthy applications key the stored and loaded lists are both rewritten by the update; otherwise nothing changes |
| JobDetails.LoadJob | src/pages/JobDetails.tsx:20-28 | with a truthy jobs key and an id, the first stored job with that id, present exactly when one exists |
| JobDetails.HasApplied | src/pages/JobDetails.tsx:35-37 | the duplicate check holds exactly when some application is by this user for this job |
| JobDetails.CheckApplicationStatus | src/pages/JobDetails.tsx:30-41 | with a user, an id and a truthy applications key the flag is the duplicate check; otherwise it keeps its value |
| JobDetails.NewApplication | src/pages/JobDetails.tsx:64-75 | the application snapshots the job's id, title and company and the user's id, name and e-mail, and is pending, with the applied and updated times from their own two clock reads |
| JobDetails.AppliedAfterAppend | src/pages/JobDetails.tsx:77-79 | after the append the duplicate check holds, and earlier applications are untouched |
| JobDetails.ApplyAddsOneMore | src/pages/JobDetails.tsx:47-86 | every apply adds exactly one more application for the same job and applicant |
| JobDetails.JobDetailsPage.constructor | src/pages/JobDetails.tsx:19-45 | on first render the job is the lookup result and the flag the duplicate check |
| JobDetails.JobDetailsPage.HandleApply | src/pages/JobDetails.tsx:47-86 | no user, an employer, or no loaded job each end without a write; a job seeker on a loaded job appends one new pending application and sets the flag |
| PostJob.InitialForm | src/pages/PostJob.tsx:11-22 | the form starts empty, full-time, with one empty entry per list and an employer's company name prefilled |
| PostJob.ReplaceAt | src/pages/PostJob.tsx:41-46 | only the entry at the index changes, and the length is kept |
| PostJob.AddItem | src/pages/PostJob.tsx:48-53 | exactly one empty entry is appended |
| PostJob.RemoveItem | src/pages/PostJob.tsx:55-62 | a list of more than one entry loses exactly the indexed entry; otherwise it is kept |
| PostJob.EditorsKeepAnEntry | src/pages/PostJob.tsx:41-62 | no editor empties a list that has an entry |
| PostJob.NonBlankEntries | src/pages/PostJob.tsx:74 | the kept entries are exactly the non-blank ones, as typed, in order |
| PostJob.NonBlankEntriesNonEmpty | src/pages/PostJob.tsx:74-77 | some entry is kept exactly when some entry has a non-space character |
| PostJob.ValidationIgnoresOptionalFields | src/pages/PostJob.tsx:64-87 | salary, deadline and type play no part in validation |
| PostJob.ValidIffNoFieldFails | src/pages/PostJob.tsx:64-86 | the form is valid exactly when no field fails its check |
| PostJob.CheckRecords | src/pages/PostJob.tsx:67-83 | each check records its own field's message exactly when the field fails |
| PostJob.ValidateForm | src/pages/PostJob.tsx:64-87 | the errors hold exactly the failing fields, each with its message, and the form passes exactly when there is none |
| PostJob.TrimmedOrAbsent | src/pages/PostJob.tsx:114 | absent exactly when blank, otherwise the trimmed text |
| PostJob.TextOrAbsent | src/pages/PostJob.tsx:120 | absent exactly when empty, otherwise the text as typed |
| PostJob.ValidFormGivesCompleteJob | src/pages/PostJob.tsx:107-122 | a valid form gives a job with non-empty text fields and at least one requirement and one skill |
| PostJob.NewJobFields | src/pages/PostJob.tsx:107-121 | each stored field follows its own rule: text trimmed, lists without blank entries and untrimmed, salary trimmed or absent, deadline as typed or absent, id, poster and posting time from the caller, and active |
| PostJob.NewJobFieldsTrimmed | src/pages/PostJob.tsx:109-115 | the stored text fields have no white space at either end |
| PostJob.PostJobPage.constructor | src/pages/PostJob.tsx:11-23 | the page opens on the starting form with no errors |
| PostJob.PostJobPage.Publish | src/pages/PostJob.tsx:104-125 | the job is appended to the stored jobs, a falsy key read as empty; nothing else changes |
| PostJob.PostJobPage.HandleSubmit | src/pages/PostJob.tsx:89-134 | anyone but an employer is refused without a write; otherwise the error record becomes exactly the failing fields with their messages, and exactly a valid form appends the new job |
| ProfilePage.InitialSeekerForm | src/pages/Profile.tsx:11-19 | each job seeker key comes from the profile; a missing one is empty text, or no skills |
| ProfilePage.InitialEmployerForm | src/pages/Profile.tsx:21-28 | each employer key comes from the profile; a missing one is empty text |
| ProfilePage.SubmitPayload | src/pages/Profile.tsx:71 | the payload is the job seeker form exactly for a job seeker, the employer form otherwise |
| ProfilePage.SeekerFormRoundTrip | src/pages/Profile.tsx:71-72 | saving the job seeker form and reopening the page shows the same form |
| ProfilePage.EmployerFormRoundTrip | src/pages/Profile.tsx:71-72 | saving the employer form and reopening the page shows the same form |
| ProfilePage.SeekerSaveKeepsEmployerForm | src/pages/Profile.tsx:71-72 | saving the job seeker form leaves the employer keys as they were |
| ProfilePage.AddSkill | src/pages/Profile.tsx:48-56 | a non-blank entry not yet listed is appended trimmed and the box cleared; otherwise nothing changes |
| ProfilePage.RemoveSkill | src/pages/Profile.tsx:58-63 | every copy of the skill goes, and the other skills stay, in order |
| ProfilePage.AddSkillKeepsNoDuplicates | src/pages/Profile.tsx:49-53 | adding keeps a repeat-free list repeat-free |
| ProfilePage.RemoveUndoesAdd | src/pages/Profile.tsx:48-63 | removing the trimmed entry just added restores the list |
| ProfilePage.AddSkillTwice | src/pages/Profile.tsx:49 | the same entry a second time adds nothing |
| ProfilePage.RemoveSkillFacts | src/pages/Profile.tsx:58-63 | removing twice is removing once, and keeps a repeat-free list repeat-free |
| ProfilePage.ResumeUrl | src/pages/Profile.tsx:91 | the address is the resumes prefix followed by the file name |
| ProfilePage.ResumeUploaded | src/pages/Profile.tsx:86-97 | a chosen file sets only the resume address; no file changes nothing |
| ProfilePage.ResumeLabel | src/pages/Profile.tsx:305-307 | the label is shown exactly for a non-empty address, and is its last slash-free tail |
| ProfilePage.UploadedNameShown | src/pages/Profile.tsx:305-307 | after an upload the label is the file's name when the name has no slash |
| Text.TrimIsSlice | src/pages/PostJob.tsx:67 | trimming removes white space from both ends only, and leaves no white space at either end |
| Text.BlankIffAllSpace | src/pages/PostJob.tsx:74 | a text is blank exactly when every character is white space |
| Text.TrimIdempotent | src/pages/PostJob.tsx:109 | trimming twice is trimming once |
| Text.IncludesIffOccurs | src/pages/Jobs.tsx:32 | the substring test holds exactly when the needle occurs at some position |
| Text.DecimalRoundTrip | src/components/Jobs/JobCard.tsx:34 | the written digits of a number read back as that number |
| Text.LastSegmentAfterSlash | src/pages/Profile.tsx:307 | the last segment after a slash is the slash-free name |
| Lists.FilterMultiplicity | src/pages/Jobs.tsx:31 | a filter result holds every copy of each accepted value and no copy of a rejected one |
| Lists.FilterIsSubsequence | src/pages/Jobs.tsx:31 | a filter result is an order-preserving subsequence of its input |
| Lists.FindIndex | src/contexts/AuthContext.tsx:98 | the index is that of the first match, present exactly when some element matches |
| Lists.RemoveAfterAppend | src/components/Jobs/JobFilters.tsx:38-40 | removing an element just appended to a list without it restores the list |

## Left out

- The JSON encoding of the stored values is not modelled. A key holds either a list of records or nothing. Unparseable stored text, which makes a page's read throw, is not modelled either.
- The clock and `Date.now()` ids are parameters: the new id and the timestamps are inputs to the operations that create or update records. There is no claim that ids are unique or that timestamps increase.
- The date rule is modelled on a whole number of days. The millisecond difference and its floor division are not modelled, and neither is the hire-rate percentage, which uses floating point.
- Case mapping is ASCII only, and `trim` uses the ECMAScript white-space characters. Unicode case mapping is not modelled.
- The pages' rendering is not modelled: markup, colours, icons, alerts, navigation, and the loading and applying flags. The home page and the header are not part of this model.
- The generic input handlers (`handleChange`, `handleJobSeekerChange`, `handleEmployerChange`) write a value under whatever key the input names. They are not modelled, and neither is clearing an error when its field is typed into.
- Auth.MergeProfile: a patch key whose value is `undefined` would overwrite the old value with `undefined`. Here an absent patch key keeps the old value. The forms always send every key with a defined value.
- Running two tabs at once is not modelled. Their writes to a key can overwrite each other.
- ProfilePage.SubmitPayload: the success or failure message that `handleSubmit` shows afterwards is not modelled.
- The error-record keys are a datatype, `PostJob.FieldKey`, whose `Name` gives the key text. This keeps the record independent of string comparison.
- PostJob.NewJob has no contract of its own. Its fields are stated by `PostJob.NewJobFields`, with `PostJob.ValidFormGivesCompleteJob`, `PostJob.NewJobFieldsTrimmed`, `PostJob.TrimmedOrAbsent` and `PostJob.TextOrAbsent` for what those rules give, and it is used through `PostJob.PostJobPage.HandleSubmit`.
- Jobs.FilterJobs has no contract of its own. It is stated by `Jobs.FilterJobsIsConjunction` and `Jobs.FilterJobsKeepsExactlyMatches`.
- JobFilters.HasActiveFilters has no contract of its own. It is stated by `JobFilters.InactiveIffCleared`.
- JobCard.FormatDate has no contract of its own. Each bucket is stated by a lemma beside it: `JobCard.TodayOnlyForZero`, `JobCard.OneDayAgo`, `JobCard.DaysAgo`, `JobCard.FutureDaysAgo`, `JobCard.WeeksAgo` and `JobCard.MonthsAgo`.
- Dashboard.WithStatus: every matching row gets the same time. The source reads the clock once per rewritten row, so rows sharing an id may get different times there; the model takes one clock value per list (`storedAt`, `shownAt`).
- Dashboard.DashboardPage.UpdateApplicationStatus: uses one clock value for all rewritten rows of the stored list and one for those of the loaded list, for the reason given for `Dashboard.WithStatus`.
