# Checklist reminders: the recurrence and data-maintenance core

This project models the core of a checklist-reminder REST API in Dafny. It covers:

- the checklist record with its rules: the creating hook, the repeat-limit predicate and the lookup of a record's original;
- the `checklists:generate-repeats` console command, which turns completed repeating checklists into new instances;
- the checklist endpoints (`index`, `store`, `show`, `update`, `destroy`), each behind the owner-or-admin guard.

The files and modules:

- `checklist.dfy`, module `Checklists`:
  - the record and weekday-row datatypes, with the column enums and defaults;
  - the validation rules for intervals and weekday names, read as parsers;
  - the creating hook (`Creating`), `HasReachedRepeatLimit` and `OriginalChecklist`;
  - the `repeatDays` relation (`DaysOf`) with its row-list lemmas.
- `store.dfy`, module `Store`:
  - the database as a class `Database`, with the checklists table as a `map` from id to record and the repeat-days table as a `seq` of rows in insertion order (an order the database does not promise, see "Left out");
  - its invariant `Valid`: each record is filed under its own id, each parent is stored, and each row's key is stored;
  - the ORM writes the core performs: create with the hook, `increment`, update, row insert and row delete.
- `generate.dfy`, module `GenerateRepeats`:
  - `calculateNextDueTime` as `NextDueTime`;
  - the command's query as the method `CompletedRepeating`;
  - the loop as the methods `GenerateFor`, `Sweep` and `Handle`.

  The methods are proved against the functions `Generate` (one loop pass) and `GenerateAll` (the whole sweep). The lemmas then state what a sweep does to the store:
  - which records it adds;
  - which counters it moves, and by how much;
  - which records it leaves alone;
  - that after-count records stay within their maximum;
  - how weekly rows are copied;
  - how two successive runs compose, and where successive passes lead.
- `controller.dfy`, module `ChecklistController`:
  - `Index`, `Guard` and `Show` as functions;
  - `StoreChecklist`, `UpdateChecklist` and `DestroyChecklist` as methods on the `Database`, proved against the functions `StoredAttributes`, `Patch`, `RewriteDays` and `SoftDelete`.

Modelling choices:

- **Ids.** Ids are natural numbers. A new UUID is any id not yet stored.
- **Dates and times.**
  - A date is a day number.
  - A timestamp is a day number plus a time of day, which the day arithmetic carries along.
  - `addMonth` and `addYear` are fields of a `Calendar` parameter, since their month-overflow rules belong to the date library.
  - "Now" is a parameter: `today` for the limit check, `now` for the soft delete.
- **Enum values.** An enum value outside the listed ones (`Unlisted`, `UnlistedType`) stands for the `default` branches the code has for them.
- **Weekday-row keys.** Rows carry one abstract key:
  - `store` and `update` file rows under the checklist's id;
  - the `repeatDays` relation and `update`'s delete read rows under its parent id;
  - the command files copies under the original's id.

  For a family root the two ids coincide (the creating hook makes a record without a parent its own parent).
- **The limit comparisons.** `hasReachedRepeatLimit` compares the date string of today with the `repeat_end_date` cast to a date object, which is compared through its string form "Y-m-d H:i:s". The limit is therefore reached only strictly after the end date. A null end date, or a null maximum, makes the comparison come out true, so such a record counts as at its limit.

## Model

| member | source | states |
|---|---|---|
| Checklists.ParseInterval | app/Http/Controllers/ChecklistController.php:68 | a string the `in:` rule accepts names one of the five listed intervals, and is that interval's name |
| Checklists.ParseIntervalName | database/migrations/2025_07_24_024132_create_checklists_table.php:23 | each of the five column values passes the interval rule and parses back to itself |
| Checklists.ParseWeekday | app/Http/Controllers/ChecklistController.php:70 | an accepted repeat day is the name of the weekday it parses to |
| Checklists.ParseWeekdayName | database/migrations/2025_07_24_070705_create_checklist_repeat_days_table.php:17 | each of the seven weekday names passes the day rule and parses back to its weekday |
| Checklists.ParseDays | app/Http/Controllers/ChecklistController.php:69-70 | a list of days is accepted exactly when every element names a weekday; the result has the same length and names each element back |
| Checklists.ParseDaysNames | app/Http/Controllers/ChecklistController.php:69-70 | any list of weekdays written out by name is accepted and parses back to the same list, order and duplicates kept |
| Checklists.Creating | app/Models/Checklist.php:19-27 | a supplied id is kept, else the new UUID is used; a supplied parent id is kept, else the record becomes its own parent; every other attribute is stored as given |
| Checklists.CreatingKeepsCompleteRecord | app/Models/Checklist.php:19-27 | the hook changes nothing in a record that already has both ids |
| Checklists.HasReachedRepeatLimit | app/Models/Checklist.php:81-96 | never: always reached; until_date: reached iff there is no end date or today is strictly after it; after_count: reached iff there is no maximum or the count is at least the maximum; any other type: never reached |
| Checklists.LimitStaysReached | app/Models/Checklist.php:81-96 | a reached limit stays reached on every later day and at every higher count |
| Checklists.Find | app/Models/Checklist.php:12 | a record is found iff it is stored and not soft-deleted, and what is found is the stored record |
| Checklists.OriginalChecklist | app/Models/Checklist.php:98-107 | the live record under the parent id when there is one, else the record itself; the store is only read |
| Checklists.RootIsOwnOriginal | app/Models/Checklist.php:98-107 | a stored live root is its own original |
| Checklists.DaysOf | app/Models/Checklist.php:69-72 | definition, no ensures: the `repeatDays` relation, the weekdays of the rows filed under a key, in the model's insertion order |
| Checklists.Keyed | app/Http/Controllers/ChecklistController.php:84-89 | one row per requested day, in order, all filed under the same key |
| Checklists.WithoutKey | app/Http/Controllers/ChecklistController.php:179 | the rows left hold no row of the deleted key and are rows that were there; every row of another key is left |
| Checklists.DaysOfKeyed | app/Models/Checklist.php:69-72 | rows filed under one key give exactly their days to that key and nothing to any other |
| Checklists.DaysOfWithoutKey | app/Models/Checklist.php:69-72 | deleting a key's rows empties its weekdays and leaves every other key's weekdays as they were |
| Store.Database.Insert | app/Models/Checklist.php:19-27 | `create` runs the hook with an id no stored record has, adds exactly that record and keeps the store well formed |
| Store.Database.Increment | app/Console/Commands/GenerateRepeatedChecklists.php:50 | the stored counter of the record goes up by one and nothing else changes |
| Store.Database.Save | app/Http/Controllers/ChecklistController.php:175 | the record under its id is replaced and nothing else changes |
| Store.Database.AddRepeatDay | app/Http/Controllers/ChecklistController.php:85-88 | one row is appended and the checklists are untouched |
| Store.Database.AddRepeatDays | app/Http/Controllers/ChecklistController.php:84-89 | the loop appends one row per day, in order, under one key |
| Store.Database.DeleteRepeatDays | app/Http/Controllers/ChecklistController.php:179 | the rows afterwards are the old rows without that key's; the checklists are untouched |
| GenerateRepeats.IsCandidate | app/Console/Commands/GenerateRepeatedChecklists.php:18-20 | definition, no ensures: what the query selects, a completed record whose repeat type is not never and that is not soft-deleted |
| GenerateRepeats.Generates | app/Console/Commands/GenerateRepeatedChecklists.php:24-33 | definition, no ensures: a selected record produces an instance when its limit is not reached and it has a next due time |
| GenerateRepeats.InstanceOf | app/Console/Commands/GenerateRepeatedChecklists.php:36-47 | definition, no ensures: the attributes of the new instance, copied from its source with the source as parent, the next due time, count one higher and not completed |
| GenerateRepeats.Advance | app/Console/Commands/GenerateRepeatedChecklists.php:24-50 | definition, no ensures: the selected record after its pass, incremented when it generates and unchanged otherwise |
| GenerateRepeats.Generate | app/Console/Commands/GenerateRepeatedChecklists.php:36-60 | definition, no ensures: one generating pass on both tables: the instance created, the source incremented and, when weekly, its parent's rows copied under its id |
| GenerateRepeats.GenerateAll | app/Console/Commands/GenerateRepeatedChecklists.php:22-63 | definition, no ensures: the whole loop, one pass per batch entry in batch order, drawing one new id per instance |
| GenerateRepeats.NextDueTime | app/Console/Commands/GenerateRepeatedChecklists.php:66-78 | +1, +3 and +7 days for daily, 3_days and weekly; one calendar month or year for monthly and yearly; null exactly for any other interval |
| GenerateRepeats.NextDueIsLater | app/Console/Commands/GenerateRepeatedChecklists.php:71-73 | for the day-based intervals the next due time exists, is strictly later and keeps the time of day |
| GenerateRepeats.CompletedRepeating | app/Console/Commands/GenerateRepeatedChecklists.php:18-20 | the batch holds every completed, repeating, live record exactly once, each as stored, and nothing else |
| GenerateRepeats.GenerateFor | app/Console/Commands/GenerateRepeatedChecklists.php:24-60 | a record at its limit or without a next due time changes nothing; otherwise the instance is created under a new id, the counter is incremented and weekly rows are copied, as one pass of `Generate` |
| GenerateRepeats.Sweep | app/Console/Commands/GenerateRepeatedChecklists.php:22-63 | the loop over a fixed batch creates one fresh id per generating entry and leaves the store equal to `GenerateAll` over the batch |
| GenerateRepeats.Handle | app/Console/Commands/GenerateRepeatedChecklists.php:15-64 | the batch is fixed by the query before the loop, the store ends as the whole sweep defines it, and counts within their maximum stay within it |
| GenerateRepeats.GenerateFrame | app/Console/Commands/GenerateRepeatedChecklists.php:36-50 | one generating pass adds exactly the new id, increments its source, and leaves every other record alone |
| GenerateRepeats.GenerateEffect | app/Console/Commands/GenerateRepeatedChecklists.php:36-50 | the instance is an incomplete child of its source that copies owner, title, interval, repeat type, end date and maximum, has count one higher and the next due time; the source only gets its counter incremented and stays selectable |
| GenerateRepeats.RunEffect | app/Console/Commands/GenerateRepeatedChecklists.php:22-63 | after a sweep: the stored ids are the old ones plus the drawn ones, each batch entry is advanced once, records outside the batch are unchanged, and every new record is the instance of a generating entry |
| GenerateRepeats.RunKeys | app/Console/Commands/GenerateRepeatedChecklists.php:36-47 | a sweep adds exactly the drawn ids |
| GenerateRepeats.RunUntouched | app/Console/Commands/GenerateRepeatedChecklists.php:18-22 | a record the query did not select is unchanged by the sweep |
| GenerateRepeats.RunAdvances | app/Console/Commands/GenerateRepeatedChecklists.php:24-50 | each selected record is advanced by its own pass and by no other |
| GenerateRepeats.RunInstances | app/Console/Commands/GenerateRepeatedChecklists.php:36-47 | every added record is the instance generated from some selected record that was not at its limit |
| GenerateRepeats.RunAddsIncompleteChildren | app/Console/Commands/GenerateRepeatedChecklists.php:18-47 | every added record is incomplete and a child of a selected record, so the run's query could not have selected it |
| GenerateRepeats.RunCounters | app/Console/Commands/GenerateRepeatedChecklists.php:50 | each selected record's counter goes up by exactly one if it generated and otherwise stays; no other field of it changes |
| GenerateRepeats.AdvanceWithinLimit | app/Console/Commands/GenerateRepeatedChecklists.php:24-50 | one pass keeps an after-count source within its maximum, and its instance starts within it |
| GenerateRepeats.RunKeepsCountsWithinLimit | app/Console/Commands/GenerateRepeatedChecklists.php:24-50 | if every after-count record with a maximum is within it before a sweep, every one is after it |
| GenerateRepeats.WeeklyDaysCopied | app/Console/Commands/GenerateRepeatedChecklists.php:53-60 | a weekly source gets its parent's days appended under its own id and no other id changes; for a root each day's row count doubles and the set of days stays the same |
| GenerateRepeats.AfterCountRunsToMax | app/Console/Commands/GenerateRepeatedChecklists.php:24-50 | successive passes of `Advance` raise an after-count record's counter by one each, up to its maximum and no further, changing nothing else |
| GenerateRepeats.SweepsCompose | app/Console/Commands/GenerateRepeatedChecklists.php:18-50 | a record one run selects is selected again by the next run's query over the store the first run left, and after both runs it is two passes of `Advance`, one per run |
| GenerateRepeats.RunKeepsOtherDays | app/Console/Commands/GenerateRepeatedChecklists.php:53-60 | a whole run leaves the weekdays filed under every id outside its batch as they were |
| ChecklistController.MayAccess | app/Http/Controllers/ChecklistController.php:119 | definition, no ensures: the guard's condition, admin role or owner of the checklist (the same test as lines 163 and 218) |
| ChecklistController.Render | app/Http/Controllers/ChecklistController.php:116 | definition, no ensures: a checklist with its `repeatDays` relation loaded (as `index` loads it at line 27) |
| ChecklistController.DaysAccepted | app/Http/Controllers/ChecklistController.php:69-70 | definition, no ensures: the `nullable`, `array` and `repeat_days.*` rules, days absent or a list each of whose elements names a weekday |
| ChecklistController.StoreAccepted | app/Http/Controllers/ChecklistController.php:65-71 | definition, no ensures: `store`'s validation, title sent and not blank, due time sent, interval sent and listed, days accepted |
| ChecklistController.UpdateAccepted | app/Http/Controllers/ChecklistController.php:167-173 | definition, no ensures: `update`'s `sometimes` rules, each field either not sent or of the right type, a blank title refused as the null it arrives as, a sent interval listed, days accepted |
| ChecklistController.BlankTitleRefused | app/Http/Controllers/ChecklistController.php:66 | a blank title is refused both by `store`'s `required` and by `update`'s `string` (line 168), so neither can write one |
| ChecklistController.StoredAttributes | app/Http/Controllers/ChecklistController.php:75-81 | definition, no ensures: what `store` hands to `create`, the actor as owner, the sent title, due time and interval, not completed, the column defaults for the rest |
| ChecklistController.RequestedDays | app/Http/Controllers/ChecklistController.php:83-90 | definition, no ensures: the parsed days for a weekly request with days, none otherwise |
| ChecklistController.Patch | app/Http/Controllers/ChecklistController.php:175 | definition, no ensures: the record with the title, due time and interval that were sent written over it |
| ChecklistController.RewriteDays | app/Http/Controllers/ChecklistController.php:177-189 | definition, no ensures: for a weekly request the rows without those of the parent id plus the requested days under the record's id; the rows unchanged otherwise |
| ChecklistController.SoftDelete | app/Http/Controllers/ChecklistController.php:222 | definition, no ensures: the record kept in the table, stamped with the deletion time |
| ChecklistController.Index | app/Http/Controllers/ChecklistController.php:23-34 | lists exactly the live checklists the actor may access, each with the weekdays of its relation |
| ChecklistController.IndexByRole | app/Http/Controllers/ChecklistController.php:27-31 | an admin gets every live checklist; anyone else gets exactly their own live ones |
| ChecklistController.Guard | app/Http/Controllers/ChecklistController.php:116-121 | 404 iff the checklist is missing or deleted, 403 iff it is found but belongs to someone else and the actor is not an admin, 200 otherwise |
| ChecklistController.Show | app/Http/Controllers/ChecklistController.php:114-124 | answers with the guard's status and returns the checklist exactly when that status is 200 |
| ChecklistController.IndexAgreesWithShow | app/Http/Controllers/ChecklistController.php:23-34 | a checklist is in the list iff `show` lets the same actor see it, rendered the same way |
| ChecklistController.StoreChecklist | app/Http/Controllers/ChecklistController.php:63-93 | a request failing validation gets 422 and changes nothing; otherwise exactly one new record is created and, for a weekly request with days, one row per day |
| ChecklistController.StoredChecklist | app/Http/Controllers/ChecklistController.php:75-81 | the new record is a root owned by the actor, with the sent title, due time and interval, incomplete, never repeating, with count 0 and no end date or maximum; its limit counts as reached on every day |
| ChecklistController.RequestedDaysMatch | app/Http/Controllers/ChecklistController.php:83-90 | a weekly request with days files one day per sent name, duplicates included; any other request files none |
| ChecklistController.StoreDaysExact | app/Http/Controllers/ChecklistController.php:83-90 | the days filed for a new checklist become exactly its weekdays and no other id's weekdays change |
| ChecklistController.StoredIsShown | app/Http/Controllers/ChecklistController.php:75-90 | `show` by the owner right after `store` returns the new record with exactly the filed weekdays |
| ChecklistController.UpdateChecklist | app/Http/Controllers/ChecklistController.php:158-192 | 404 and 403 from the guard come before 422 from validation, and none of them changes anything; on success the sent fields are written and a weekly request rewrites the rows |
| ChecklistController.PatchChangesOnlySentFields | app/Http/Controllers/ChecklistController.php:175 | only title, due time and interval change, each only when sent; owner, ids, completion, repeat policy and counters stay |
| ChecklistController.UpdateDaysExact | app/Http/Controllers/ChecklistController.php:177-189 | a weekly update empties the parent id's weekdays and files the requested days under the record's id, so a root's weekdays become exactly the requested ones; other ids keep theirs; any other update leaves the rows alone |
| ChecklistController.UpdatedIsShown | app/Http/Controllers/ChecklistController.php:175-189 | `show` after updating a root returns the patched record with the requested weekdays for a weekly request and its old weekdays otherwise |
| ChecklistController.DestroyChecklist | app/Http/Controllers/ChecklistController.php:213-225 | the guard's refusal changes nothing; otherwise the record is stamped deleted and kept, and the rows stay |
| ChecklistController.SoftDeleteHides | app/Http/Controllers/ChecklistController.php:222 | a soft-deleted record stays stored with its deletion time, but `find`, `show` and `index` no longer see it, and every other record is seen as before |

## Left out

- Authentication, users and routing are not part of this model (`UserController`, the JWT guard, the route file). This includes the route targets for completion, un-completion, restore and today/weekly listings, which no shown file defines. Their behaviour is not invented here.
- The 401 answer for a missing token is not modelled; every endpoint takes the authenticated actor as a parameter.
- Carbon's month and year arithmetic is not modelled: `NextDueTime` takes it from the `Calendar` parameter, so month-end overflow is not captured.
- The clock is a parameter (`today`, `now`). `created_at`/`updated_at` timestamps are not modelled.
- GenerateRepeats.Handle: one `today` serves the whole run. The code calls `now()` afresh for each record's limit check, so a run that crosses midnight, checking later records against the next day, is not captured.
- UUID generation is modelled as the choice of any id not yet stored; uniqueness beyond the store is not captured.
- Responses are status codes and values. JSON rendering, messages and the console `info` lines are not modelled.
- `StoreChecklist` answers `Ok`, as the code does (a plain `json` response is 200), though the endpoint's annotation announces 201.
- Request fields are read as the controller sees them after the framework's default `TrimStrings` and `ConvertEmptyStringsToNull` middleware: strings trimmed, blank strings null. The middleware itself is not modelled, so a given string is taken as already trimmed.
- ChecklistController.UpdateAccepted: a blank title, due time or interval is treated as the null the middleware makes of it. Null fails `string`, `date` and `in`, so `update` answers 422. A blank title is refused alike here and by `store`'s `required` (`BlankTitleRefused`).
- ChecklistController.DaysAccepted: a null or blank `repeat_days` is read as not sent, since it passes `nullable`. One difference remains for a weekly request: the code then reaches `foreach` over null and fails with a server error after the record (and, in `update`, the row delete) is already written. The model answers `Ok` with the same store.
- The `repeat_days` table declares only a `checklist_id` column, while the model and the command also use `parent_checklist_id`. Rows carry one abstract key (see above), so what the database would do with the missing column is not modelled.
- `DestroyChecklist`: the soft delete leaves the weekday rows in place, as the code does. The `onDelete('cascade')` foreign key acts only on hard deletes.
- ChecklistController.UpdatedIsShown: stated for roots only. For a generated instance, the weekly rewrite files the new days under the instance's id while its relation reads its parent's id, which `UpdateDaysExact` states in full.
- Integers are unbounded. The 32-bit `integer` columns for the counters are not modelled.
- ChecklistController.Guard: the owner test is plain equality of ids. In the code it is a strict `!==` between `checklists.user_id`, which reads back as a UUID string, and `$user->id`. The `User` model keeps the framework's default incrementing key, so `$user->id` is cast to an integer. As written, the guard would then answer 403 to every non-admin owner. The model states the evidently intended owner-or-admin rule. Users and authentication are not part of this model.
- Checklists.DaysOf: the weekday rows are kept in insertion order, and `show`, `index` and the command's copy read them in that order. The relation and the delete have no `orderBy`, and rows have random UUID keys, so the database returns them in an order it chooses. The source promises only the multiset of days per key. `StoredIsShown`, `UpdatedIsShown`, `StoreDaysExact`, `UpdateDaysExact` and `WeeklyDaysCopied` state the order as the model's choice.
- Concurrency between the command and requests is not modelled: each operation runs alone on the store.
