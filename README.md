# Habit and project tracker: record and list state transitions

This project is a Dafny model of the state-changing core of a small daily-growth tracker. The tracker is a web app. Users keep two lists of habits: "positive" habits to build and "negative" (or "bad") habits to avoid. Each habit has a completion flag and a streak. Users also keep projects with a progress percentage. The model covers these parts:

- **Browser-local store** (`app/utils/storage.ts`):
  - Legacy habit records get default values for missing fields when they are loaded.
  - Stored projects get default values too, including a derived `status`.
  - The daily rollover (`updateHabitStreakPreserve`) runs on each habit of both lists (`checkDailyReset`). It keeps the habit as it is if it was already checked today. It keeps the streak if the habit was completed yesterday. Otherwise it resets the streak to 0. In every case the new day starts uncompleted.
- **Server habit actions** (`app/actions/habits.ts`): a table of habit rows keyed by id.
  - Listing splits the habits by type and sets `completed` to whether today is in `completedDates`.
  - Toggling adds today to the completion dates, or removes every copy of it, and moves the streak up or down with a floor of 0.
  - Also modelled: create, rename, archive/reactivate and delete.
- **Server project actions** (`app/actions/projects.ts`): create with its missing-data guard, field updates, and the status transitions complete / reactivate / archive / delete.
- **Client components** (`app/page.tsx`, `app/components/HabitsSection.tsx`, `app/components/ProjectsSection.tsx`): component state held as `seq` fields of classes. The handlers are add with a blank-name guard, delete by id, flip `completed` by id, and change progress by a delta clamped to 0..100.
- **Profile update** (`app/actions.ts`): the missing-data guard, and the initials worked out from the display name.

Days are integers, and the day before `today` is `today - 1`. The source only compares date strings for equality, so this loses nothing. A date field that is missing or holds an empty string is `None`. The one exception is the deadline in an `updateProject` patch, where an empty string reaches the database as it is (`ProjectActions.DateField`). Values produced by the environment are parameters: the current day, the default deadline, `new Date()` and client-side ids.

Files: `common.dfy` (shared vocabulary), `text.dfy` (JavaScript `trim`), `seqs.dfy` (`Array.prototype.filter` and its lemmas), `storage.dfy`, `habit_actions.dfy`, `project_actions.dfy`, `list_ops.dfy` (client records and list updates), `page.dfy`, `habits_section.dfy`, `projects_section.dfy`, `profile.dfy`.

Notes on the code's behaviour:
- The code has no separate rollover rule for "avoid" habits. Both lists use the same rule.
- The code has no deadline-pacing or ahead/behind classification.
- A `lastChecked` later than today resets the streak. It is not treated as a no-op.
- The server's `updateProject` writes `progress` as given, with no clamping.

## Model

| member | source | states |
|---|---|---|
| `Storage.Rollover` | app/utils/storage.ts:128-144 | After rollover `lastChecked` is today. `id`, `name`, `type` and `history` never change. The streak is either kept or set to 0. A habit not yet checked today ends up uncompleted. |
| `Storage.RolloverSameDay` | app/utils/storage.ts:129 | A habit already checked today comes back unchanged. |
| `Storage.RolloverKeepsStreak` | app/utils/storage.ts:131-139 | Checked yesterday and completed: the streak is kept, `completed` becomes false and `lastChecked` becomes today. |
| `Storage.RolloverBreaksStreak` | app/utils/storage.ts:142-143 | Any other day, whether missed yesterday, older, or later than today: streak 0, uncompleted, `lastChecked` today. |
| `Storage.RolloverIdempotent` | app/utils/storage.ts:128-144 | Rolling over twice on the same day gives the same result as rolling over once. |
| `Storage.RolloverNeverIncreases` | app/utils/storage.ts:138-143 | A non-negative streak never grows and never goes negative. |
| `Storage.RolloverAll` | app/utils/storage.ts:146-147 | Mapping the rule over a list keeps its length and order, and each element is rolled over on its own. |
| `Storage.RolloverAllIdempotent` | app/utils/storage.ts:146-147 | Mapping the rollover twice on one day gives the same list as mapping it once. |
| `Storage.Migrate` | app/utils/storage.ts:36-44 | Keeps `id` and `name`. Every field the record has is kept as stored. `type` comes from the list when the record has none. Defaults: `completed` false, `streak` 0, `history` empty, `lastChecked` today. |
| `Storage.MigrateAll` | app/utils/storage.ts:46-47 | Migrates every record of a list, in order. |
| `Storage.MigrateStore` | app/utils/storage.ts:36-44 | A habit written by `saveHabits` loads back unchanged, from either list. |
| `Storage.MigrateAllStoreAll` | app/utils/storage.ts:46-55 | Saving a list and loading it back gives the same list. |
| `Storage.Store` | app/utils/storage.ts:52-54 | The record `saveHabits` writes has every field present, so loading it never falls back to a default. |
| `Storage.StoreAll` | app/utils/storage.ts:52-55 | Writes every habit of a list, in order, with all fields present. |
| `Storage.LegacyRecordNotReset` | app/utils/storage.ts:43 | A record without `lastChecked` is stamped with today, so that day's rollover leaves it as loaded. |
| `Storage.ResetList` | app/utils/storage.ts:82-149 | The daily reset of one list keeps its length and order. Every record is stamped with today, and loads back as the rolled-over form of the original record. |
| `Storage.ResetListIdempotent` | app/utils/storage.ts:82-150 | Running the whole daily reset (load, roll over, save) twice on one day leaves the stored list as one run did. |
| `Storage.DefaultStatus` | app/utils/storage.ts:73 | A stored status is kept. Without one, the status is `completed` if a `completedDate` is present and `active` if not. |
| `Storage.DefaultLastUpdated` | app/utils/storage.ts:69 | A missing or empty `lastUpdated` becomes "Recently". Any other value is kept. |
| `Storage.LoadProject` | app/utils/storage.ts:65-74 | `progress` defaults to 0, `startDate` to today and `deadline` to the given default. `completedDate` is kept. The status is the derived one. |
| `Storage.LoadProjects` | app/utils/storage.ts:65 | Loads every stored project, in order. |
| `Storage.StoreProject` | app/utils/storage.ts:77-78 | The record `saveProjects` writes has progress, `lastUpdated`, both dates and the status present. `completedDate` is written as it is, including when unset. |
| `Storage.LoadStoreProject` | app/utils/storage.ts:65-79 | A saved project loads back unchanged unless its `lastUpdated` was empty. In that case it loads as "Recently". |
| `Storage.LocalStore.GetHabits` | app/utils/storage.ts:25-50 | Both lists are loaded element by element through `Migrate`, each with its own default type. |
| `Storage.LocalStore.SaveHabits` | app/utils/storage.ts:52-55 | Writes both lists. Loading afterwards on any day returns exactly the saved lists. |
| `Storage.LocalStore.GetProjects` | app/utils/storage.ts:57-75 | Every stored project is loaded with its defaults, in stored order. |
| `Storage.LocalStore.SaveProjects` | app/utils/storage.ts:77-79 | Writes every project, in order. |
| `Storage.LocalStore.CheckDailyReset` | app/utils/storage.ts:82-150 | Both stored lists are replaced by their rolled-over versions, in order and at the same length. The projects are not touched. |
| `Text.TrimStart` | app/page.tsx:79 | The result is a suffix of the input. Everything removed is white space. The result does not start with white space. |
| `Text.TrimEnd` | app/page.tsx:79 | The result is a prefix of the input. Everything removed is white space. The result does not end with white space. |
| `Text.Trim` | app/page.tsx:79 | The trimmed name is empty exactly when the name is all white space. Otherwise it neither starts nor ends with white space. |
| `Text.TrimIsSlice` | app/page.tsx:79 | The trimmed name is a slice of the name, and everything cut off on either side is white space. |
| `HabitActions.GetHabits` | app/actions/habits.ts:12-41 | Empty email, or no such user: two empty lists. Otherwise `positive` holds exactly the `'positive'` rows and `negative` the `'negative'` rows, in order. Each row's `completed`, set by the mapper `HabitActions.View` (lines 28-31), is whether today is in its `completedDates`. |
| `HabitActions.GetHabitsPartitions` | app/actions/habits.ts:23-24 | The two lists together hold each of the user's habits exactly as often as the user has it. |
| `HabitActions.GetHabitsKinds` | app/actions/habits.ts:23-24 | Every habit in `positive` has type `'positive'`, and every habit in `negative` has type `'negative'`. |
| `HabitActions.WithoutDay` | app/actions/habits.ts:73 | Removes every copy of the day and keeps every other date. |
| `HabitActions.Toggled` | app/actions/habits.ts:71-89 | Today recorded: the dates become `WithoutDay` of them, so every copy is removed and nothing else, and streak becomes max(0, streak - 1). Otherwise today is appended at the end and streak + 1. Today's membership flips. No other field changes. |
| `HabitActions.ToggleKeepsOtherDates` | app/actions/habits.ts:72-74 | Leaving today aside, the history after a toggle has the same dates in the same order as before. |
| `HabitActions.ToggleStreakNonNegative` | app/actions/habits.ts:83-89 | A non-negative streak stays non-negative. |
| `HabitActions.ToggleTwice` | app/actions/habits.ts:71-89 | Toggling twice restores whether today is recorded. When today was absent, it restores the completion dates. When, in addition, the streak was non-negative, it restores the row exactly. |
| `HabitActions.ToggleNoDup` | app/actions/habits.ts:71-74 | Completion dates without a repeated day keep that property under a toggle: removal takes out every copy, and the append only happens when today is absent. |
| `HabitActions.HabitTable.CreateHabit` | app/actions/habits.ts:44-61 | Empty email or name gives "Missing data" and adds nothing. An unknown user gives "Failed". Otherwise one new row is added, with empty `completedDates` and the next unused id. |
| `HabitActions.HabitTable.ToggleHabit` | app/actions/habits.ts:64-103 | An unknown id gives "Failed" and no change. Otherwise only that row changes, to its toggled form. The table invariant is kept: every streak non-negative and no completion day recorded twice. |
| `HabitActions.HabitTable.UpdateHabitName` | app/actions/habits.ts:106-118 | A blank name returns nothing and changes nothing. Otherwise only that row's `name` changes, to the name as given (untrimmed). An unknown id gives "Failed". |
| `HabitActions.HabitTable.UpdateHabitStatus` | app/actions/habits.ts:121-136 | `'deleted'` removes the row. `'active'` or `'archived'` changes only its status. An unknown id gives "Failed". |
| `ProjectActions.Patched` | app/actions/projects.ts:48-57 | Writes exactly the fields supplied. `progress` is written as given, without clamping. A deadline is written only when it is a day. |
| `ProjectActions.PatchKeepsStatus` | app/actions/projects.ts:48-57 | A field update never touches `status` or `completedDate`. |
| `ProjectActions.Restatus` | app/actions/projects.ts:72-79 | Completing sets progress to 100 and `completedDate` to now. Reactivating clears `completedDate` and keeps progress. Archiving changes only the status. |
| `ProjectActions.CompletedDateClearedOnlyByReactivation` | app/actions/projects.ts:72-79 | Only reactivation clears a completion date. |
| `ProjectActions.CompleteThenReactivate` | app/actions/projects.ts:74-78 | Completing and then reactivating leaves progress at 100 and no completion date. |
| `ProjectActions.ProjectTable.CreateProject` | app/actions/projects.ts:25-45 | Any of email, name, start date or deadline empty gives "Missing data" and creates nothing. Otherwise one active project is created, with progress 0 and no completion date. |
| `ProjectActions.ProjectTable.UpdateProject` | app/actions/projects.ts:48-64 | An unknown id gives "Failed". So does an empty-string deadline: it is falsy, so it is not converted, and the database client's input validation refuses it for a date column. Otherwise only that row changes, to its patched form, and the row is returned. |
| `ProjectActions.ProjectTable.UpdateProjectStatus` | app/actions/projects.ts:67-93 | `'deleted'` removes the row. Any other status rewrites only that row, as `Restatus` says, from the `data` object built step by step and written by `ProjectActions.ApplyData` (lines 81-84). |
| `ListOps.NewHabit` | app/page.tsx:81-86 | The new habit has the given id, the trimmed name, `completed` false and streak 0. |
| `ListOps.NewProject` | app/page.tsx:117-122 | The new project has the trimmed name, progress 0 and `lastUpdated` "Just created". |
| `ListOps.DropHabit` | app/page.tsx:104 | Exactly the habits with another id remain. |
| `ListOps.DropHabitExact` | app/page.tsx:102-112 | Habits with the given id are gone. Every other habit occurs as often as before. |
| `ListOps.DropHabitKeepsOrder` | app/page.tsx:102-112 | The remaining habits keep their order: deleting from a concatenation deletes from each part. |
| `ListOps.DropHabitAbsent` | app/page.tsx:102-112 | Deleting an id that no habit has leaves the list unchanged. |
| `ListOps.DropProject` | app/page.tsx:133 | Exactly the projects with another id remain. |
| `ListOps.DropProjectExact` | app/page.tsx:132-136 | Projects with the given id are gone. Every other project occurs as often as before. |
| `ListOps.DropProjectKeepsOrder` | app/page.tsx:132-136 | The remaining projects keep their order. |
| `ListOps.FlipCompleted` | app/page.tsx:138-152 | Same length. Ids, names and streaks are unchanged. `completed` flips exactly on the habits with the given id. |
| `ListOps.FlipCompletedTwice` | app/page.tsx:138-152 | Toggling the same id twice restores the list. |
| `ListOps.Clamp` | app/page.tsx:158 | The result is in 0..100. It equals the input when the input is in range, and the nearer bound otherwise. |
| `ListOps.BumpProgress` | app/page.tsx:154-164 | Same length, and other projects are unchanged. A matching project's progress becomes the clamped sum, always in 0..100, and its `lastUpdated` becomes "Just now". |
| `ListOps.BumpProgressExact` | app/page.tsx:158 | When the sum stays in range, progress moves by exactly `delta`. |
| `Page.Home.AddHabit` | app/page.tsx:78-100 | A blank name changes nothing. Otherwise the new habit is appended to the chosen list only, and the form is cleared and closed. |
| `Page.Home.DeleteHabit` | app/page.tsx:102-112 | Only the chosen list changes, to `DropHabit` of it. |
| `Page.Home.AddProject` | app/page.tsx:114-130 | A blank name changes nothing. Otherwise one new project is appended, and the form is cleared and closed. |
| `Page.Home.DeleteProject` | app/page.tsx:132-136 | The project list becomes `DropProject` of it. |
| `Page.Home.ToggleHabit` | app/page.tsx:138-152 | Only the chosen list changes, to `FlipCompleted` of it. |
| `Page.Home.UpdateProgress` | app/page.tsx:154-164 | The project list becomes `BumpProgress` of it. |
| `HabitsSectionComponent.HabitsSection.AddHabit` | app/components/HabitsSection.tsx:27-49 | A blank name changes nothing. Otherwise the new habit is appended to the chosen list only, and the form is reset. |
| `HabitsSectionComponent.HabitsSection.DeleteHabit` | app/components/HabitsSection.tsx:51-61 | Only the chosen list changes, to `DropHabit` of it. |
| `HabitsSectionComponent.HabitsSection.ToggleHabit` | app/components/HabitsSection.tsx:63-77 | Only the chosen list changes, to `FlipCompleted` of it. |
| `ProjectsSectionComponent.ProjectsSection.AddProject` | app/components/ProjectsSection.tsx:23-39 | A blank name changes nothing. Otherwise one new project is appended with progress 0 and "Just created". |
| `ProjectsSectionComponent.ProjectsSection.DeleteProject` | app/components/ProjectsSection.tsx:41-45 | The project list becomes `DropProject` of it. |
| `ProjectsSectionComponent.ProjectsSection.UpdateProgress` | app/components/ProjectsSection.tsx:47-57 | The project list becomes `BumpProgress` of it: only matching projects change, and their progress stays within 0..100. |
| `Profile.Split` | app/actions.ts:34 | Splitting on spaces always gives at least one piece, and no piece contains a space. |
| `Profile.JoinSplit` | app/actions.ts:34 | Joining the pieces with single spaces gives back the name. |
| `Profile.SplitJoin` | app/actions.ts:34 | Splitting a space-joined list of space-free pieces gives back the pieces. |
| `Profile.FirstChars` | app/actions.ts:35-36 | At most one character per piece, and exactly one per piece when no piece is empty. |
| `Profile.FirstCharsAreWordStarts` | app/actions.ts:34-36 | The first characters of the pieces are exactly the characters that start a word, in order. Empty pieces contribute nothing. |
| `Profile.WordStartsWord` | app/actions.ts:34-36 | A space-free word contributes only its first character, and only when it starts a word. |
| `Profile.UpperChar` | app/actions.ts:38 | Lower-case ASCII letters become upper-case. Other characters are unchanged. |
| `Profile.Upper` | app/actions.ts:38 | Upper-cases every character and keeps the length. |
| `Profile.Initials` | app/actions.ts:33-38 | At most two characters, none a lower-case ASCII letter. They are the first two word starts of the name, upper-cased. |
| `Profile.InitialsOfTwoWords` | app/actions.ts:32-38 | Two words separated by one space give the first letter of each, upper-cased, so "John Doe" gives "JD". |
| `Profile.ProfileUpsert` | app/actions.ts:44-55 | The upsert is issued exactly when both email and name are non-empty, and it writes that name for that email. |
| `Profile.UpdateUserProfile` | app/actions.ts:28-57 | A missing email or name gives the error "Missing Data", and only then. Otherwise the reply is a bare success, given exactly when the upsert is issued. |

## Left out

- Network fetch of the daily verse and its fixed fallback (I/O).
- Reading from and writing to browser `localStorage`, and JSON parsing and serialisation. The stored lists are the fields of `Storage.LocalStore`. The component handlers' `localStorage.setItem` write-backs are not modelled.
- The database client and `revalidatePath`. Tables are maps from id to row. A missing row or missing user becomes the action's `'Failed'` reply, which is what the client's thrown error leads to. So is the database client's refusal of an empty deadline string in `updateProject`. Other database failures are not modelled, and neither is `ensureUserExists`.
- The database's own defaults are not part of the source. A created habit is assumed to start with streak 0 and status active. A created project is assumed to start with no `completedDate`. Fresh ids are modelled by a counter.
- The order in which the database returns a user's habits. `HabitActions.GetHabits` takes the loaded rows as a parameter.
- The server-side project listing (`getProjects` in app/actions/projects.ts): a plain database read ordered by creation time.
- Wall-clock dates: today, yesterday, the 30-day default deadline, the timestamp used as `completedDate`, and the UTC versus local-time choice. They are parameters.
- Parsing of date strings (`new Date(startDate)`). A date argument is either present or empty. An unparsable non-empty date string is not modelled.
- Client ids from `Date.now()`: a parameter. Their uniqueness is not guaranteed and not assumed.
- The unused `updateHabitStreak` variant in app/utils/storage.ts, which is never applied.
- The server-render guard `typeof window === 'undefined'`.
- The avatar URL and its `encodeURIComponent`.
- The profile upsert is modelled only as the write `Profile.ProfileUpsert` describes. Its failure reply, "Failed to update profile", is a database failure and is not modelled. The initials are computed and then not used.
- Profile.UpperChar: upper-cases ASCII letters only. Full Unicode case mapping (for example one character becoming two) is not modelled.
- Profile.Initials: works on Unicode scalar values, not UTF-16 code units. `n[0]` and `substring` on characters outside the Basic Multilingual Plane are not modelled.
- Storage.Migrate: JavaScript falsiness of non-boolean values (`NaN`, `0` for a streak, which defaults to 0 anyway) is not modelled beyond "present or absent". An empty-string `lastChecked` counts as absent.
- Numbers are unbounded integers. Floating-point precision of JavaScript numbers is not modelled.
- Authentication, onboarding, reflections, the bottom navigation and the profile screen.
- Rendering, form input handlers other than the state they reset, and styling.
