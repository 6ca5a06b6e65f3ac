# Farm hand helper — a Dafny model of the herd, task, note and treatment logic

The application is a small React front end for keeping cattle. All of its
state is five in-memory lists: animals, tasks, notes, treatment schedules and
treatment records. Each page replaces a list wholesale through a state setter,
and the forms (modals) normalise what the user typed before handing it to the
page. This project models that logic in Dafny and proves what it promises:

- **Treatment engine** (`treatments.dfy`, module `Treatments`). It covers:
  - the recurrence rule and the overdue/upcoming classifiers;
  - adding and deleting schedules, and the per-schedule history query;
  - `recordTreatment` as a method with a loop. The loop invariant ties the records built so far to the function `NewRecords`, and lemmas about that function prove:
    - which animals get a record;
    - that record ids stay unique;
    - that (schedule, animal, day) triples stay unique when the animal list has no repeats.
- **Lineage** (`family_tree.dfy`): parents, grandparents through a found parent, siblings, offspring, the Full/Half label and the empty state.
- **Stores** (`tasks.dfy`, `animals.dfy`, `notes.dfy`). Each is one class per collection:
  - the class holds a `seq` field;
  - its methods add, update-by-id and delete-by-id;
  - it keeps ids unique (`Valid`);
  - tasks also keep "completion time set exactly when completed";
  - pure selectors and counts sit alongside.
- **Forms** (`animal_modal.dfy`, `birth_records_modal.dfy`, `status_change_modal.dfy`, `add_schedule_modal.dfy`, `record_treatment_modal.dfy`, `note_modal.dfy`, `add_task_modal.dfy`, `selection.dfy`):
  - each form's state is a class whose methods are the effect, the toggles and the submit;
  - a pure function states the submission, and lemmas prove round trips and invariants about it.
- **Views** (`schedule_item.dfy`, `treatment_history.dfy`, `animal_detail.dfy`, `dashboard.dfy`). These are pure functions:
  - the schedule card;
  - the history list, a stable newest-first sort proved sorted, a permutation and stable per day;
  - an animal's detail view;
  - the home-page counts.
- **Shared pieces** (`wrappers.dfy`, `seqs.dfy`, `text.dfy`, `cattle.dfy`):
  - `Option` and JavaScript truthiness of optional strings;
  - `filter`/`map`/`find`/`slice` on sequences;
  - `trim`, `trim().slice(0, n)` and `parseInt`;
  - the entity datatypes.

Modelling conventions:

- A date (`YYYY-MM-DD` in the source) is a day number (`Day = int`), so day order is the source's string order.
- Timestamps are `int`s.
- Fresh ids (`crypto.randomUUID`) and the current time are parameters. Ids are required to be fresh.
- Monthly and yearly steps are the two functions of an abstract `Calendar`.
- Whether an animal is active is decided by the caller, which passes the active animals.
- Weights are reals, read and shown through `parseWeight`/`showWeight` parameters.

## Model

| member | source | states |
|---|---|---|
| Treatments.NextDueDate | src/pages/Treatments.tsx:22-31 | once gives the same day, daily the next day, weekly seven days on, monthly/yearly the calendar's step; on an advancing calendar the result is later than the start exactly when the frequency is not once |
| Treatments.OverdueSchedules | src/pages/Treatments.tsx:46 | keeps exactly the schedules past due that are not one-off, in list order |
| Treatments.UpcomingSchedules | src/pages/Treatments.tsx:47-50 | keeps exactly the schedules due between today and today+7 inclusive, in list order |
| Treatments.OverdueUpcomingDisjoint | src/pages/Treatments.tsx:46-50 | no schedule is both overdue and upcoming; no one-off schedule is overdue |
| Treatments.FilteredSchedules | src/pages/Treatments.tsx:52-58 | 'all' is the whole list; 'overdue'/'upcoming' keep exactly the schedules of that class |
| Treatments.FindSchedule | src/pages/Treatments.tsx:80-81 | none exactly when no schedule has the id; otherwise a stored schedule with that id |
| Treatments.ScheduleRecords | src/pages/Treatments.tsx:117-118 | exactly the records of that schedule, in stored order |
| Treatments.FindDuplicate | src/pages/Treatments.tsx:86-88 | none exactly when no record has this schedule, animal and day |
| Treatments.NewRecords | src/pages/Treatments.tsx:84-102 | after visiting n animal ids, at most n records have been pushed |
| Treatments.NewRecordsMade | src/pages/Treatments.tsx:84-102 | every new record copies the schedule's type and custom name and the request's schedule id, day, notes and administrator; it names an animal of the request, takes a fresh id and duplicates no earlier record |
| Treatments.NewRecordsStep | src/pages/Treatments.tsx:85-101 | one more animal appends its record unless an earlier record has the same schedule, animal and day |
| Treatments.NewRecordIds | src/pages/Treatments.tsx:90 | after n animals the new records use only the first n fresh ids |
| Treatments.NewRecordIdsDistinct | src/pages/Treatments.tsx:90 | distinct fresh ids give new records with distinct ids |
| Treatments.ConcatKeepsIdsUnique | src/pages/Treatments.tsx:105 | putting records with unique ids, none shared, in front of stored records with unique ids keeps ids unique |
| Treatments.CollectNewRecords | src/pages/Treatments.tsx:84-102 | the loop pushes exactly the records `NewRecords` describes |
| Treatments.NewRecordsAnimals | src/pages/Treatments.tsx:85-101 | the animals of the new records are exactly the request's animals without a prior record, in request order |
| Treatments.CreatedIffNotDuplicate | src/pages/Treatments.tsx:85-101 | an animal of the request gets a record iff no earlier record has the same schedule, animal and day |
| Treatments.NewRecordsKeepKeysUnique | src/pages/Treatments.tsx:84-105 | with no repeated animal in the request, the (schedule, animal, day) triples stay unique |
| Treatments.NewRecordsDistinctAnimals | src/pages/Treatments.tsx:85-101 | with no repeated animal in the request, no two new records name the same animal |
| Treatments.UniqueKeysConcat | src/pages/Treatments.tsx:105 | putting new records with distinct animals and no clash in front of unique records keeps triples unique |
| Treatments.NewRecordsKeepIdsUnique | src/pages/Treatments.tsx:90-91 | fresh ids keep record ids unique after prepending |
| Treatments.RepeatedAnimalIdIsRecordedTwice | src/pages/Treatments.tsx:86 | dedup sees only records from before the call: an animal listed twice gets two records with the same triple |
| Treatments.AdvanceSchedule | src/pages/Treatments.tsx:111-113 | same length; the schedule with the id gets the new due day, every other schedule is unchanged |
| Treatments.AdvanceKeepsIds | src/pages/Treatments.tsx:111-113 | advancing a due day keeps schedule ids unique |
| Treatments.ScheduleStore.constructor | src/pages/Treatments.tsx:35 | the store starts with the given schedules, ids unique |
| Treatments.ScheduleStore.AddSchedule | src/pages/Treatments.tsx:60-67 | prepends the draft with the fresh id and creation time; ids stay unique |
| Treatments.ScheduleStore.DeleteSchedule | src/pages/Treatments.tsx:69-71 | removes exactly the schedules with the id, the rest keep their order |
| Treatments.RecordTreatment | src/pages/Treatments.tsx:73-115 | unknown schedule: nothing changes; otherwise the records of `NewRecords` go in front of the unchanged old ones, and schedules are untouched for once or advanced from the recorded day; schedule and record ids stay unique |
| Treatments.RecordStore.Prepend | src/pages/Treatments.tsx:104-106 | the new records go in front of the stored ones; ids stay unique |
| Treatments.ScheduleStore.Advance | src/pages/Treatments.tsx:108-114 | the schedules become the advanced list; ids stay unique |
| Treatments.RecordStore.constructor | src/pages/Treatments.tsx:36 | the record log starts with the given records, ids unique |
| Cattle.Label | src/components/treatments/TreatmentScheduleItem.tsx:20 | custom schedules are headed by a non-empty name (the custom name when set and non-empty, else "Custom"), others by their type |
| Cattle.FilterKeepsIdsUnique | src/pages/Tasks.tsx:40-42 | deleting by filter keeps ids unique |
| Cattle.PrependKeepsIdsUnique | src/pages/Tasks.tsx:23 | prepending an item with a fresh id keeps ids unique |
| Cattle.SameIdsKeepUnique | src/pages/Tasks.tsx:27-37 | a map that keeps every id keeps ids unique |
| FamilyTree.FindById | src/components/animals/FamilyTreeModal.tsx:18-19 | the first animal with that id; none when the id is unset or unmatched |
| FamilyTree.GrandParent | src/components/animals/FamilyTreeModal.tsx:22-27 | looked up through the found parent only; a missing parent gives no grandparent |
| FamilyTree.FamilyOf | src/components/animals/FamilyTreeModal.tsx:18-40 | mother and father are the animals with the set parent ids; each grandparent is the lookup of the found parent's parent id, and none when that parent is not found; siblings are exactly the other animals sharing a set mother or father id; offspring are exactly the animals naming this one as a parent; both in herd order |
| FamilyTree.View | src/components/animals/FamilyTreeModal.tsx:16 | nothing when closed or without an animal |
| FamilyTree.GrandparentsNeedParent | src/components/animals/FamilyTreeModal.tsx:82 | grandparents show only when a parent is found, never with the empty state |
| FamilyTree.SiblingLabel | src/components/animals/FamilyTreeModal.tsx:134 | Full iff both parent ids are equal, two unset ids counting as equal |
| FamilyTree.SiblingsSymmetric | src/components/animals/FamilyTreeModal.tsx:30-35 | within one herd, b is a's sibling iff a is b's |
| FamilyTree.ParentListsChild | src/components/animals/FamilyTreeModal.tsx:38-40 | an animal is among the offspring of each parent found for it |
| FamilyTree.FullSiblingSharesMother | src/components/animals/FamilyTreeModal.tsx:134 | a Full sibling has both parent ids of the animal, at least one of them set |
| Tasks.Toggled | src/pages/Tasks.tsx:26-38 | the task with the id flips completion and gains the time when it becomes completed, loses it otherwise; other tasks and all other fields are unchanged |
| Tasks.ToggledConsistent | src/pages/Tasks.tsx:26-38 | toggling keeps "completion time set exactly when completed" |
| Tasks.ToggleTwice | src/pages/Tasks.tsx:26-38 | toggling twice restores the completed flag, and the whole task when it was pending |
| Tasks.ToggleAll | src/pages/Tasks.tsx:27-37 | same length and order; each task is toggled by id |
| Tasks.FilteredTasks | src/pages/Tasks.tsx:44-48 | 'all' is the list; 'pending'/'completed' keep exactly the incomplete/complete tasks, in order |
| Tasks.CountsPartition | src/pages/Tasks.tsx:50-51 | pending count + completed count = number of tasks |
| Tasks.TaskStore.constructor | src/pages/Tasks.tsx:11 | the store starts with the given consistent tasks, ids unique |
| Tasks.TaskStore.AddTask | src/pages/Tasks.tsx:15-24 | prepends one pending task with no completion time; the rest unchanged; invariants kept |
| Tasks.TaskStore.ToggleTask | src/pages/Tasks.tsx:26-38 | the list becomes the toggled list; invariants kept |
| Tasks.TaskStore.DeleteTask | src/pages/Tasks.tsx:40-42 | removes exactly the tasks with the id, the rest in order; invariants kept |
| Animals.Updated | src/pages/Animals.tsx:29 | the submitted fields are overwritten and the update time set; id, creation time, status and birth records kept |
| Animals.Created | src/pages/Animals.tsx:34-39 | a new animal carries the data, the fresh id and time, and no status or birth records |
| Animals.UpdateIdempotent | src/pages/Animals.tsx:29 | saving the same data twice equals saving it once at the later time |
| Animals.UpdateWithOwnData | src/pages/Animals.tsx:29 | saving an animal's own data changes only its update time |
| Animals.SavedAnimals | src/pages/Animals.tsx:21-42 | with a non-empty id every animal keeps its place and id, each animal with that id takes the data, the update time `now` and keeps its status and birth records, and every other animal is unchanged; otherwise a new animal with the data, the fresh id and no status or records goes in front of the unchanged herd |
| Animals.UpdateAll | src/pages/Animals.tsx:26-32 | same length and order; animals with the id are updated, the others unchanged |
| Animals.UpdateAbsentIdUnchanged | src/pages/Animals.tsx:26-31 | an id matching no animal leaves the herd unchanged |
| Animals.OfSex | src/pages/Animals.tsx:97 | exactly the animals of that sex |
| Animals.CowsAndBulls | src/pages/Animals.tsx:97-103 | cow count + bull count = herd size |
| Animals.TasksOf | src/pages/Animals.tsx:82 | exactly the tasks linked to the animal, in order |
| Animals.NotesOf | src/pages/Animals.tsx:83 | exactly the notes linked to the animal, in order |
| Animals.TaskCountsDisjoint | src/pages/Animals.tsx:82 | the task counts of two different animals add up to at most the number of tasks |
| Animals.AnimalStore.constructor | src/pages/Animals.tsx:16 | the herd starts with the given animals, ids unique |
| Animals.AnimalStore.SaveAnimal | src/pages/Animals.tsx:21-42 | with a non-empty id, the herd becomes the update by id; otherwise a new animal with the fresh id goes in front; ids stay unique |
| Animals.AnimalStore.DeleteAnimal | src/pages/Animals.tsx:44-46 | removes exactly the animals with the id, the rest in order; only the herd is modified |
| Animals.SaveReadsBack | src/pages/Animals.tsx:26-32 | after an update the animal with the id reads back the submitted data and every other animal is unchanged |
| Animals.HandleToggleTask | src/pages/Animals.tsx:68-80 | the tasks become exactly what the tasks page's toggle gives |
| Notes.UpdateNotes | src/pages/Notes.tsx:18-23 | same length and order; notes with the id take the title, content and time, the others unchanged |
| Notes.UpdateAbsentIdUnchanged | src/pages/Notes.tsx:18-23 | an id matching no note leaves the notes unchanged |
| Notes.SavedNotes | src/pages/Notes.tsx:15-36 | with a non-empty id only the matching notes change title, content and update time, keeping id, creation time and animal; otherwise one new unlinked note goes in front |
| Notes.SaveKeepsIdsUnique | src/pages/Notes.tsx:15-36 | saving keeps note ids unique |
| Notes.NoteStore.constructor | src/pages/Notes.tsx:11 | the notes start as given, ids unique |
| Notes.NoteStore.SaveNote | src/pages/Notes.tsx:15-36 | the notes become the saved list; ids stay unique |
| Notes.NoteStore.DeleteNote | src/pages/Notes.tsx:38-40 | removes exactly the notes with the id, the rest in order |
| NoteModal.SubmissionOf | src/components/notes/NoteModal.tsx:39-40 | none iff the title is blank; otherwise the trimmed title cut to 100 (non-empty), the trimmed content cut to 1000, the animal and the note's id |
| NoteModal.NoteForm.constructor | src/components/notes/NoteModal.tsx:19-21 | the form starts empty |
| NoteModal.NoteForm.Load | src/components/notes/NoteModal.tsx:23-33 | editing loads title, content and animal; a new note starts empty with the preselected animal |
| NoteModal.NoteForm.Submit | src/components/notes/NoteModal.tsx:37-45 | reports the submission; on success the form is cleared, otherwise left as it is |
| NoteModal.KeptByTrimTo | src/components/notes/NoteModal.tsx:40 | a trimmed text within the limit passes unchanged |
| NoteModal.UntouchedEditRoundTrip | src/components/notes/NoteModal.tsx:23-40 | loading a normalised note and submitting it gives back its own fields and id |
| NoteModal.AsWrittenArgs | src/components/notes/NoteModal.tsx:40 | the handler's third parameter, the note id, receives the animal id |
| NoteModal.IntendedArgs | src/components/notes/NoteModal.tsx:40 | the note id is the one that selects update over create |
| NoteModal.EditAsWrittenDuplicates | src/pages/Notes.tsx:15-35 | as wired, editing an unlinked note keeps it and prepends a copy under a fresh id |
| NoteModal.NewLinkedAsWrittenLost | src/pages/Notes.tsx:15-24 | as wired, a new note linked to an animal whose id names no note saves nothing |
| NoteModal.NewLinkedIntendedCreated | src/pages/Notes.tsx:25-35 | with the intended wiring, that note is created in front |
| NoteModal.EditIntendedUpdatesInPlace | src/pages/Notes.tsx:16-24 | with the intended wiring, an edit updates the note in place and leaves all others |
| AnimalModal.TextOf | src/components/animals/AnimalModal.tsx:33 | an unset text shows as empty |
| AnimalModal.WeightText | src/components/animals/AnimalModal.tsx:37-38 | an unset weight shows as empty, a set one through its text form |
| AnimalModal.Prefill | src/components/animals/AnimalModal.tsx:30-56 | editing fills all eleven fields from the animal (unset texts, weights and parent ids as empty text, the age as its decimal text); adding gives empty fields with sex female |
| AnimalModal.AgeOf | src/components/animals/AnimalModal.tsx:70 | the parsed integer clamped to 0..30, with an unparsable text read as 0 |
| AnimalModal.OptionalText | src/components/animals/AnimalModal.tsx:69-72 | the trimmed text cut to the limit, or none when that is empty |
| AnimalModal.OptionalWeight | src/components/animals/AnimalModal.tsx:73-74 | none for an empty field, otherwise the parsed weight |
| AnimalModal.Payload | src/components/animals/AnimalModal.tsx:65-80 | nothing unless the trimmed name and the age text are non-empty; then name cut to 100, tag to 50, breed to 100, health notes to 500, clamped age, empty ids as unset, and the edited animal's id |
| AnimalModal.CandidateParents | src/components/animals/AnimalModal.tsx:60-61 | exactly the animals of the sex other than the edited one, in herd order |
| AnimalModal.AnimalForm.constructor | src/components/animals/AnimalModal.tsx:18-28 | the form starts blank with sex female |
| AnimalModal.AnimalForm.Load | src/components/animals/AnimalModal.tsx:30-56 | the fields become the prefill for the animal or the blank form |
| AnimalModal.StableTextRoundTrip | src/components/animals/AnimalModal.tsx:33 | a trimmed, non-empty text within the limit survives prefill and submit |
| AnimalModal.StableIdRoundTrip | src/components/animals/AnimalModal.tsx:40 | a set non-empty parent id survives prefill and submit |
| AnimalModal.StableWeightRoundTrip | src/components/animals/AnimalModal.tsx:37 | a weight whose text form parses back survives prefill and submit |
| AnimalModal.AgeRoundTrip | src/components/animals/AnimalModal.tsx:34 | an age in 0..30 survives its decimal text and the clamp |
| AnimalModal.UntouchedEditRoundTrip | src/components/animals/AnimalModal.tsx:30-80 | opening a normalised animal and submitting untouched gives its own data and id |
| AnimalModal.SubmitThenSaveReadsBack | src/components/animals/AnimalModal.tsx:65-80 | saving a submission while editing an animal with a non-empty id overwrites that animal's data in place and leaves the others; adding one puts a new animal with the submitted data, the fresh id and no status in front of the unchanged herd |
| BirthRecordsModal.RecordsOf | src/components/animals/BirthRecordsModal.tsx:59 | unset birth records read as an empty list |
| BirthRecordsModal.AvailableCalves | src/components/animals/BirthRecordsModal.tsx:34-36 | exactly the animals that are not male or are not the viewed animal |
| BirthRecordsModal.CowListedAsOwnCalf | src/components/animals/BirthRecordsModal.tsx:34-36 | a female in the herd is listed among her own calf candidates |
| BirthRecordsModal.CalfCandidates | src/components/animals/BirthRecordsModal.tsx:34-36 | exactly the animals other than the viewed one |
| BirthRecordsModal.CandidatesAgreeElsewhere | src/components/animals/BirthRecordsModal.tsx:34-36 | the two lists agree on every animal except the viewed female |
| BirthRecordsModal.CalfName | src/components/animals/BirthRecordsModal.tsx:43-46 | the calf's name, or "Unknown" when it is missing or empty; never empty |
| BirthRecordsModal.BirthRecordForm.constructor | src/components/animals/BirthRecordsModal.tsx:26-30 | the form starts closed and empty |
| BirthRecordsModal.BirthRecordForm.SetAdding | src/components/animals/BirthRecordsModal.tsx:26 | opens or closes the form, keeping its fields |
| BirthRecordsModal.BirthRecordForm.Submit | src/components/animals/BirthRecordsModal.tsx:40-57 | a record only when calf and date are chosen, with calf name, weight and trimmed notes; then all fields cleared and adding left |
| BirthRecordsModal.NotesNeverBlank | src/components/animals/BirthRecordsModal.tsx:49 | stored notes are set exactly for non-blank input and are never blank |
| BirthRecordsModal.DeleteRequest | src/components/animals/BirthRecordsModal.tsx:192 | the viewed animal's id and the record's id, of a record of that animal |
| StatusChangeModal.NoteLabel | src/components/animals/StatusChangeModal.tsx:15-21 | a non-empty prompt for each non-alive status, none for alive |
| StatusChangeModal.ShowsNoteIffNotAlive | src/components/animals/StatusChangeModal.tsx:78 | the note field shows exactly for non-alive statuses |
| StatusChangeModal.Payload | src/components/animals/StatusChangeModal.tsx:36-40 | always the animal id and selected status, with the trimmed note or none when blank |
| StatusChangeModal.StatusForm.constructor | src/components/animals/StatusChangeModal.tsx:24-25 | starts at alive with an empty note |
| StatusChangeModal.StatusForm.Load | src/components/animals/StatusChangeModal.tsx:27-32 | the animal's status (alive when unset) and an empty note; no animal, no change |
| StatusChangeModal.StatusForm.SelectStatus | src/components/animals/StatusChangeModal.tsx:63 | sets the status and keeps the note |
| StatusChangeModal.StatusForm.SetNote | src/components/animals/StatusChangeModal.tsx:25 | sets the note and keeps the status |
| StatusChangeModal.HiddenNoteStillSent | src/components/animals/StatusChangeModal.tsx:38 | a note typed before switching to alive is hidden but still sent |
| Selection.Toggle | src/components/treatments/AddTreatmentScheduleModal.tsx:36-40 | removes the id when present, appends it otherwise |
| Selection.ToggleKeepsNoDuplicates | src/components/treatments/AddTreatmentScheduleModal.tsx:36-40 | a duplicate-free selection stays duplicate-free |
| Selection.ToggleTwice | src/components/treatments/AddTreatmentScheduleModal.tsx:36-40 | two toggles restore every id's membership, and the whole list when the id was absent |
| AddScheduleModal.Initial | src/components/treatments/AddTreatmentScheduleModal.tsx:25-32 | vaccination, monthly, from today, nothing selected |
| AddScheduleModal.AnimalIds | src/components/treatments/AddTreatmentScheduleModal.tsx:46 | the ids of the given animals, in order |
| AddScheduleModal.Draft | src/components/treatments/AddTreatmentScheduleModal.tsx:51-67 | rejected iff nothing is selected or a custom name is blank; custom name only for custom; first due day is the start day; blank notes dropped |
| AddScheduleModal.ComputedDueDateUnused | src/components/treatments/AddTreatmentScheduleModal.tsx:56-65 | for a recurring schedule the stored first due day differs from the computed one |
| AddScheduleModal.DraftLabelNamed | src/components/treatments/AddTreatmentScheduleModal.tsx:60 | a stored custom schedule is headed by its trimmed name |
| AddScheduleModal.ScheduleForm.constructor | src/components/treatments/AddTreatmentScheduleModal.tsx:25-32 | the form starts at the initial state |
| AddScheduleModal.ScheduleForm.ToggleAnimal | src/components/treatments/AddTreatmentScheduleModal.tsx:36-40 | toggles one id, keeping the selection duplicate-free |
| AddScheduleModal.ScheduleForm.SelectAll | src/components/treatments/AddTreatmentScheduleModal.tsx:42-49 | selects all active ids when the flag is off, clears when on, then flips the flag |
| AddScheduleModal.ScheduleForm.Submit | src/components/treatments/AddTreatmentScheduleModal.tsx:51-79 | reports the draft; on success the form resets to the initial state |
| RecordTreatmentModal.Preselection | src/components/treatments/RecordTreatmentModal.tsx:26 | exactly the schedule's ids of active animals, in schedule order |
| RecordTreatmentModal.ScheduleAnimals | src/components/treatments/RecordTreatmentModal.tsx:53 | exactly the active animals on the schedule, in active-list order |
| RecordTreatmentModal.PreselectionMatchesList | src/components/treatments/RecordTreatmentModal.tsx:26-53 | the pre-selected ids are exactly the ids of the listed animals |
| RecordTreatmentModal.PreselectionNoDuplicates | src/components/treatments/RecordTreatmentModal.tsx:26 | a schedule without repeats gives a selection without repeats |
| RecordTreatmentModal.Request | src/components/treatments/RecordTreatmentModal.tsx:46-51 | nothing for an empty selection; otherwise schedule id, selection, day, and trimmed notes/administrator or none when blank |
| RecordTreatmentModal.RecordForm.constructor | src/components/treatments/RecordTreatmentModal.tsx:18-21 | starts with no selection, today and empty texts |
| RecordTreatmentModal.RecordForm.Load | src/components/treatments/RecordTreatmentModal.tsx:23-32 | with a schedule, the pre-selection, today and empty texts; without one, no change |
| RecordTreatmentModal.RecordForm.ToggleAnimal | src/components/treatments/RecordTreatmentModal.tsx:40-44 | toggles one id, keeping the selection duplicate-free |
| RecordTreatmentModal.RecordForm.Submit | src/components/treatments/RecordTreatmentModal.tsx:46-51 | reports the request for the current state |
| RecordTreatmentModal.SubmittedRequestKeepsKeysUnique | src/components/treatments/RecordTreatmentModal.tsx:49 | a request from a duplicate-free selection keeps recorded triples unique |
| ScheduleItem.PageOverdueIsCardOverdue | src/components/treatments/TreatmentScheduleItem.tsx:21-22 | page-overdue implies card-overdue; never overdue and due today at once |
| ScheduleItem.OverdueTestsDisagreeOnOnce | src/components/treatments/TreatmentScheduleItem.tsx:21 | the card and the page disagree exactly on past one-off schedules |
| ScheduleItem.Status | src/components/treatments/TreatmentScheduleItem.tsx:55 | OVERDUE when past due, else DUE TODAY, else the due day |
| ScheduleItem.NameOf | src/components/treatments/TreatmentScheduleItem.tsx:24 | the name of the first animal with the id, none when no animal has it |
| ScheduleItem.ResolvedNames | src/components/treatments/TreatmentScheduleItem.tsx:23-25 | one name per id that resolves to a named animal, in schedule order: the i-th name is the name of the i-th such id; every name non-empty |
| ScheduleItem.AnimalNames | src/components/treatments/TreatmentScheduleItem.tsx:23-26 | the first three resolved names (all of them when three or fewer), none empty |
| ScheduleItem.AnimalNamesInScheduleOrder | src/components/treatments/TreatmentScheduleItem.tsx:23-26 | the card names min(3, k) animals, where k ids resolve to a named animal, and the i-th name shown is the name of the i-th such id in schedule order |
| ScheduleItem.MoreCount | src/components/treatments/TreatmentScheduleItem.tsx:27 | the number of ids minus min(3, k), where k ids resolve to a named animal (five named ids show "+2 more"); never negative, counts unresolved ids too, zero for up to three fully named ids |
| TreatmentHistory.Insert | src/components/treatments/TreatmentHistoryModal.tsx:22 | one more occurrence of the record and nothing else |
| TreatmentHistory.InsertNewestFirst | src/components/treatments/TreatmentHistoryModal.tsx:22 | insertion keeps a list newest first |
| TreatmentHistory.Sorted | src/components/treatments/TreatmentHistoryModal.tsx:22 | newest first and a permutation of the records |
| TreatmentHistory.SortedIsPermutation | src/components/treatments/TreatmentHistoryModal.tsx:22 | same length and same records as the input |
| TreatmentHistory.InsertStable | src/components/treatments/TreatmentHistoryModal.tsx:22 | insertion puts the record first among its day and leaves other days alone |
| TreatmentHistory.InsertStablePast | src/components/treatments/TreatmentHistoryModal.tsx:22 | the step past a later record keeps each day's order |
| TreatmentHistory.FilterPast | src/components/treatments/TreatmentHistoryModal.tsx:22 | a shared front record keeps two lists' day-d difference |
| TreatmentHistory.FilterCons | src/components/treatments/TreatmentHistoryModal.tsx:22 | the day-d records of a list with a record in front |
| TreatmentHistory.SortedStable | src/components/treatments/TreatmentHistoryModal.tsx:22 | records of each day keep their input order |
| TreatmentHistory.RowOf | src/components/treatments/TreatmentHistoryModal.tsx:39-45 | the animal's name, or "Unknown" when missing or empty; the bull icon exactly for a found male |
| TreatmentHistory.View | src/components/treatments/TreatmentHistoryModal.tsx:16-22 | nothing when closed or without a schedule; otherwise the label and one row per sorted record |
| TreatmentHistory.ViewShowsRecordsNewestFirst | src/components/treatments/TreatmentHistoryModal.tsx:22-38 | the rows show each record once, newest first |
| AddTaskModal.Request | src/components/tasks/AddTaskModal.tsx:20-23 | nothing for a blank title; otherwise the trimmed non-empty title and the category |
| AddTaskModal.RequestIdempotent | src/components/tasks/AddTaskModal.tsx:23 | submitting an already submitted title gives the same request |
| AddTaskModal.TaskForm.constructor | src/components/tasks/AddTaskModal.tsx:15-16 | empty title, category feeding |
| AddTaskModal.TaskForm.SetTitle | src/components/tasks/AddTaskModal.tsx:15 | sets the title, keeps the category |
| AddTaskModal.TaskForm.SetCategory | src/components/tasks/AddTaskModal.tsx:16 | sets the category, keeps the title |
| AddTaskModal.TaskForm.Submit | src/components/tasks/AddTaskModal.tsx:20-28 | reports the request; on success title empty and category feeding again, otherwise unchanged |
| AnimalDetail.View | src/components/animals/AnimalDetailModal.tsx:29-32 | nothing when closed or without an animal; full counts of the animal's tasks and notes, and the first five of each in stored order |
| AnimalDetail.ShownBelongToAnimal | src/components/animals/AnimalDetailModal.tsx:78-132 | listed tasks and notes belong to the animal; a count above five exceeds the list |
| Dashboard.CompletedToday | src/pages/Index.tsx:14-18 | at most the number of tasks; zero when no task was completed on today's local day, positive when some was, the whole list when all were |
| Dashboard.CompletedTodaySnoc | src/pages/Index.tsx:14-18 | the count task by task: zero for no tasks, and one more task adds one exactly when it was completed on the local day `today`, so tasks completed on other days never count |
| Dashboard.NoCompletionTimeNoCount | src/pages/Index.tsx:15 | dropping the tasks without a completion time leaves the count unchanged, so such tasks never count, among others or alone |
| Dashboard.PendingCount | src/pages/Index.tsx:20 | the number of incomplete tasks |
| Dashboard.CountsWithinTasks | src/pages/Index.tsx:14-20 | for consistent tasks, completed-today + pending is at most the number of tasks |
| Dashboard.ConsistentFilterDisjoint | src/pages/Index.tsx:14-20 | a task with a completion time is never pending when tasks are consistent |
| Dashboard.Recent | src/pages/Index.tsx:96-100 | absent without tasks; otherwise the first three tasks in stored order, all of them when three or fewer |
| Dashboard.NotesSaved | src/pages/Index.tsx:89 | the number of notes |
| Text.Trim | src/components/tasks/AddTaskModal.tsx:22 | removes exactly the leading and trailing whitespace; empty iff blank |
| Text.TrimIdempotent | src/components/tasks/AddTaskModal.tsx:23 | trimming twice is trimming once |
| Text.TrimTo | src/components/notes/NoteModal.tsx:40 | a prefix of the trimmed text of length at most n, the whole trimmed text when it fits, empty iff blank or n = 0 |
| Text.LeadingNumberAt | src/components/animals/AnimalModal.tsx:70 | a number can only start right after the leading white space |
| Text.ParseSigned | src/components/animals/AnimalModal.tsx:70 | none iff there is no digit, or sign and digit, at the start; a negative value only after a minus sign |
| Text.ParseInt | src/components/animals/AnimalModal.tsx:70 | `NaN` (none) iff no digit follows the leading white space and an optional sign; a negative value only after a minus sign |
| Text.ParseIntSkipsSpace | src/components/animals/AnimalModal.tsx:70 | a leading white-space character does not change the result |
| Text.IntToString | src/components/animals/AnimalModal.tsx:34 | non-empty; a minus sign exactly for negative numbers, digits after it |
| Text.ParseIntOfIntToString | src/components/animals/AnimalModal.tsx:34 | parsing an integer's decimal text gives the integer back |

## Left out

- Chat, browser persistence (`useLocalStorage`), routing and all rendering beyond the values shown are not modelled. The home page's title text and the task/note items are display only.
- Floating-point weights: `parseFloat` and `toString` are the `parseWeight`/`showWeight` parameters. NaN is not modelled.
- Calendar arithmetic for monthly and yearly steps (date-fns month-end clamping) is the abstract `Calendar`. UTC against local time zones in `new Date(...)`/`toISOString` is not modelled. Days are integers, and the upcoming window is `today + 7` days.
- Fresh ids and timestamps are parameters, required to be fresh. Nothing checks a UUID collision.
- `isAnimalActive`, `TREATMENT_TYPES` and `ANIMAL_STATUSES` are not part of this model.
  - "active" is a list the caller passes.
  - A type's display label is the datatype value `TypeLabel(type)`.
- Handlers that are not shown are not modelled: the birth-record handler's effect on the calf's `motherId`, and status persistence behind the status form's `onSave`.
- Text is a sequence of code points, where JavaScript counts UTF-16 code units; the two differ only on astral-plane characters. `parseInt`'s hexadecimal `0x` prefix and its radix argument are not modelled.
- The text inputs' `maxLength` attributes and the individual field setters of the forms are not modelled, except the ones the properties need.
- The pages render `AnimalModal` and `NoteModal` without their `animals` prop (`src/pages/Animals.tsx:147-152`, `src/pages/Notes.tsx:87-92`). As the pages are written, opening either form throws a `TypeError`: `animals.filter` at `src/components/animals/AnimalModal.tsx:60`, `animals.length` at `src/components/common/AnimalSelect.tsx:12`. So neither form can submit from those pages. The model does not capture the crash: it passes the animal list explicitly and models the forms as they behave once the list is given.
- AddScheduleModal.ScheduleForm.Submit: the start date input (`src/components/treatments/AddTreatmentScheduleModal.tsx:156`) is not `required`, so it can be `''`. Submitting a recurring schedule then throws a `RangeError` in `calculateNextDueDate` (`src/pages/Treatments.tsx:23-27`). The model types the start day as a `Day`, so an empty date and this error path are not modelled.
- RecordTreatmentModal.RecordForm.Submit: the date input (`src/components/treatments/RecordTreatmentModal.tsx:68`) is not `required`, so it can be `''`. Recording then prepends records dated `''`, and for a recurring schedule it throws when computing the next due date (`src/pages/Treatments.tsx:109`). The model types the day as a `Day`, so an empty date and this error path are not modelled.
- Treatments.ScheduleStore.AddSchedule: a schedule's `endDate` is stored but never consulted by the source, so no property is stated about it.
- Treatments.NextDueDate: monthly and yearly steps are stated only as the calendar's functions, because the date library is not part of this model.
- Dashboard.CompletedToday: the local calendar day of a timestamp is the `localDay` parameter, because the browser's time zone is not modelled.
- AnimalModal.Payload: weights are stated through `parseWeight` only, because floating point is not modelled.

## Findings

| source | as written | input that shows it | evidently intended | confidence | as-written member | corrected member |
|---|---|---|---|---|---|---|
| src/components/notes/NoteModal.tsx:40 | the form calls `onSave(title, content, animalId, note?.id)`, but the notes page's handler is `saveNote(title, content, id)`, so the animal id lands in the id slot and the note id is dropped | once the form receives its animal list (the notes page as written omits it, and the form then throws on opening): editing a note with no animal keeps the original and prepends a copy with the new text under a fresh id; a new note linked to an animal updates the note whose id equals the animal id, normally none | an edit updates the note with the note's id in place | medium, not executed: the wiring is as stated, but `src/pages/Notes.tsx:87-92` as written cannot reach it | NoteModal.EditAsWrittenDuplicates | NoteModal.EditIntendedUpdatesInPlace |
| src/components/animals/BirthRecordsModal.tsx:34-36 | a calf candidate is excluded only when it is male and is the viewed animal | viewing a cow's birth records: the cow herself is offered as her own calf | exclude the viewed animal whatever its sex | medium, not executed | BirthRecordsModal.CowListedAsOwnCalf | BirthRecordsModal.CalfCandidates |
