# EHR logic pieces in Dafny

This project models the local logic of the TechBro EHR system: its Node
backend and its React pages. The clinical research matching itself lives in
outside services (a vector index and a language model), so their answers are
inputs here. What the project models:

- the dashboard controller: stat cards, recent-activity feed, "time ago" text,
  upcoming appointments, and health metrics (monthly growth, appointment
  purposes, age groups), in both of its near-duplicate handler variants;
- the list pages (doctors, appointments, reports, medical records, patients):
  the case-insensitive search, the `'all'`-means-no-filter selects, grouping
  appointments by day in clock-time order, newest-first sorting, adding with
  "largest id + 1", merge-update, delete by id, and the status colours;
- the Add Doctor dialog as a class whose fields are its React state: the text
  fields, the per-day switches and slots, the saved availability, and the
  slot being composed;
- the EHR REST routes over a store class holding a map of records, including
  the PATCH whitelist;
- the patient and prescription id generators and the records they build;
- the preparation of upserts for the research index and its 100-item batches;
- the research block, the prompt, and the validation chains of the two
  recommendation servers;
- the error middleware and the patient card.

JavaScript semantics are written out where they matter:

- `Array.prototype.sort` is stable. It is an insertion sort by an integer key,
  with the key negated for newest-first.
- `Math.round(a / b)` is exact half-up rounding.
- `parseInt` is a leading-digit parse that returns None for NaN.
- `toLowerCase` / `includes` fold ASCII case only.
- Plain objects are maps, so spread is map union and the right side wins.
- Truthiness is a predicate on values.
- A TypeError thrown by reading a field of `undefined` is None.
- Dates, the clock and random numbers are inputs: timestamps are integers; a
  date string is compared as text; a clock time is given as minutes.

Shared modules: `Wrappers` (Option), `Json` (values and objects), `Text`
(string built-ins), `Seqs` (filter and order-preserving subsequence),
`Sorting` (stable sort and string order), `StatusColors`, and `Week`.

## Model

| member | source | states |
|---|---|---|
| Dashboard.RoundDiv | EHR_node_Backend/controllers/dashboardController.js:72 | `Math.round(a/b)` is the integer r with a/b in [r - 1/2, r + 1/2) |
| Dashboard.ChangePercent | EHR_node_Backend/controllers/dashboardController.js:72 | the rounded percentage of c out of t; it is within 0..100 when c <= t |
| Dashboard.PercentBounds | EHR_node_Backend/controllers/dashboardController.js:72 | any integer within half a point of 100·c/t, with c <= t, lies in 0..100 |
| Dashboard.PatientChange | EHR_node_Backend/controllers/dashboardController.js:49-62 | "0%" unless the first patient has a creation date. Otherwise "+" then a number that parses back to the number of patients created since last month (separate handler) or to its percentage of all patients (combined handler, lines 329-338) |
| Dashboard.AppointmentChange | EHR_node_Backend/controllers/dashboardController.js:64-74 | "0%" unless the first appointment has a creation date. Otherwise "+p%" for the rounded share created since last month |
| Dashboard.WaitTimes | EHR_node_Backend/controllers/dashboardController.js:82 | one wait time per appointment whose wait time is truthy, in input order, each that appointment's wait time; none is 0 |
| Dashboard.AverageWait | EHR_node_Backend/controllers/dashboardController.js:81-86 | computed exactly when the first appointment has a truthy wait time. It is the half-up rounded mean of the truthy wait times |
| Dashboard.PendingChange | EHR_node_Backend/controllers/dashboardController.js:94 | "0" exactly when nothing is pending, otherwise "+n". It parses back to n either way |
| Dashboard.Stats | EHR_node_Backend/controllers/dashboardController.js:93-134 | four cards with ids 1..4; only the fourth is not positive. Their values are the patient count, the appointment count, the average-wait text and the number of records whose status is "pending" (zero exactly when none is). Their changes are the patient, appointment, wait-time and pending changes of these inputs |
| Dashboard.TimeAgoBands | EHR_node_Backend/controllers/dashboardController.js:215-228 | the cascaded rounding splits elapsed milliseconds into exact bands for seconds, minutes, hours, "Yesterday" and days, each count within its unit's range |
| Dashboard.AgoText | EHR_node_Backend/controllers/dashboardController.js:223-227 | the text is "Yesterday" exactly for the one-day band; every other text starts with a number that `parseInt` reads back as the count and ends with its unit (" seconds ago", " minutes ago", " hours ago", " days ago") |
| Dashboard.ActivitiesNumbering | EHR_node_Backend/controllers/dashboardController.js:146-199 | one activity per appointment, record and lab test, with ids 1..N in that order of kinds |
| Dashboard.PushAppointments | EHR_node_Backend/controllers/dashboardController.js:154-167 | the loop appends one activity per appointment, numbered on from `activityId`, and advances the counter by their number |
| Dashboard.PushRecords | EHR_node_Backend/controllers/dashboardController.js:170-182 | the same for the medical records |
| Dashboard.PushTests | EHR_node_Backend/controllers/dashboardController.js:185-199 | the same for the lab tests |
| Dashboard.CollectActivities | EHR_node_Backend/controllers/dashboardController.js:146-199 | the three loops sharing the counter build exactly the numbered activity list |
| Dashboard.Ranked | EHR_node_Backend/controllers/dashboardController.js:202 | the sort is a permutation of the activities with timestamps non-increasing |
| Dashboard.RankedStable | EHR_node_Backend/controllers/dashboardController.js:202 | activities with equal timestamps keep their collection order |
| Dashboard.RecentActivity | EHR_node_Backend/controllers/dashboardController.js:201-205 | min(5, N) entries: the first ranked activities without their timestamp |
| Dashboard.FindPatient | EHR_node_Backend/controllers/dashboardController.js:244 | None exactly when no patient has the id, otherwise the first patient with that id |
| Dashboard.NameOnAppointment | EHR_node_Backend/controllers/dashboardController.js:247 | the appointment's `patient_name` when it is truthy, otherwise "Unknown" |
| Dashboard.DisplayName | EHR_node_Backend/controllers/dashboardController.js:244-247 | never empty; the first patient with the appointment's patient id gives its name when that is non-empty; otherwise, and when no patient has the id, the appointment's `patient_name` or "Unknown" |
| Dashboard.Upcoming | EHR_node_Backend/controllers/dashboardController.js:241-254 | at most four entries, one per appointment of today or tomorrow, in input order |
| Dashboard.UpcomingEntries | EHR_node_Backend/controllers/dashboardController.js:241-254 | each entry comes from an appointment of today or tomorrow, is labelled "Today" exactly when dated today, and has a non-empty name, time and purpose |
| Dashboard.PatientGrowth | EHR_node_Backend/controllers/dashboardController.js:270-281 | twelve counts, each the number of patients created in that month when growth is tracked and 0 otherwise; they add up to the patients counted |
| Dashboard.GrowthStep | EHR_node_Backend/controllers/dashboardController.js:273-279 | counting one more patient in its creation month keeps every month's count and their total right |
| Dashboard.Bump | EHR_node_Backend/controllers/dashboardController.js:286 | `acc[p] = (acc[p] or 0) + 1` raises exactly that purpose's count by one, keeps names distinct and adds a new name at the end |
| Dashboard.Purposes | EHR_node_Backend/controllers/dashboardController.js:284-290 | distinct purposes, each counted once per appointment ("Other" when missing), every count at least 1, and counts summing to the number of appointments |
| Dashboard.AgeDistribution | EHR_node_Backend/controllers/dashboardController.js:293-303 | each group counts the patients with a truthy age in it, and the four groups sum to the number of such patients |
| Dashboard.NumericAgeGroup | EHR_node_Backend/controllers/dashboardController.js:296-301 | a numeric age parses back to itself and lands in the bucket its bounds say |
| Dashboard.GetHealthMetrics | EHR_node_Backend/controllers/dashboardController.js:264-317 | twelve months, each the patients created in it when growth is tracked (0 otherwise); the purpose histogram, summing to the appointments; and each age group the patients with a truthy age in it, summing to those patients |
| Dashboard.GetDashboardData | EHR_node_Backend/controllers/dashboardController.js:320-537 | the combined handler: its stats, top-five activity with "now" for missing timestamps, upcoming list, and the same health metrics as `getHealthMetrics` |
| DoctorsPage.SearchAgrees | frontend/src/pages/Doctors.jsx:30-34 | wherever the search as written returns a value, the search that reads a missing field as "" returns the same |
| DoctorsPage.SearchThrowsOnAddedDoctor | frontend/src/pages/Doctors.jsx:30-34 | a doctor without `qualification`, whose name and specialty miss the term, makes the search as written throw |
| DoctorsPage.SubmittedFormBreaksSearch | frontend/src/components/AddDoctorModal.jsx:130-133 | a doctor added from the form's submitted object makes the search throw for every term missing from its name and specialty |
| DoctorsPage.FilterDoctors | frontend/src/pages/Doctors.jsx:25-48 | the three guarded steps equal one filter by "search and specialty and status". The result is an order-preserving part of the list, keeps each kept doctor as often as it occurs, and is the whole list with no filter set. When the search as written throws on no doctor, every kept doctor is one it matches |
| DoctorsPage.StatusColor | frontend/src/pages/Doctors.jsx:51-55 | green, orange and red for the three listed statuses, gray for any other |
| DoctorsPage.MaxId | frontend/src/pages/Doctors.jsx:66 | the largest id: no id exceeds it and some doctor has it |
| DoctorsPage.AddDoctor | frontend/src/pages/Doctors.jsx:64-75 | the list plus one doctor whose id is the greatest existing id plus one. Rating 0, patients 0 and status "active" override the form; other form fields are kept |
| DoctorsPage.UpdateDoctor | frontend/src/pages/Doctors.jsx:86-89 | same length; doctors with another id unchanged; the matching doctor merged with the update's fields winning |
| DoctorsPage.EditChangesNothing | frontend/src/pages/Doctors.jsx:471-481 | an update without an id leaves every doctor that has an id unchanged |
| DoctorsPage.SubmittedEditChangesNothing | frontend/src/pages/Doctors.jsx:471-481 | the form's submitted object has no id, so saving an edit changes no doctor |
| DoctorsPage.EditedDoctor | frontend/src/pages/Doctors.jsx:86-92 | the corrected submission carries the selected doctor's id |
| DoctorsPage.EditUpdatesSelected | frontend/src/pages/Doctors.jsx:86-89 | with the id carried over, every submitted field lands in the selected doctor |
| DoctorsPage.FormatDays | frontend/src/pages/Doctors.jsx:112-125 | the listed days are an order-preserving part of the given days. They are exactly those with slots, each with its slots joined by ", " |
| DoctorsPage.FormatAvailability | frontend/src/pages/Doctors.jsx:112-125 | the same for the week from Monday to Sunday |
| AppointmentsPage.FilterAppointments | frontend/src/pages/Appointments.jsx:52-94 | the effect yields exactly the schedule of the appointments that pass the search, date and status filters |
| AppointmentsPage.GroupByDate | frontend/src/pages/Appointments.jsx:75-82 | one group per date present, holding that date's appointments in order, never empty |
| AppointmentsPage.SortGroups | frontend/src/pages/Appointments.jsx:85-91 | the same keys, each group stably sorted by clock time |
| AppointmentsPage.GroupsAreSchedule | frontend/src/pages/Appointments.jsx:75-91 | grouping then sorting gives the schedule |
| AppointmentsPage.ScheduleIsPartition | frontend/src/pages/Appointments.jsx:75-91 | the keys are the dates present. Each appointment sits, as often as it occurs, in the group of its own date and only there. No group is empty; each is in time order, stable on equal times |
| AppointmentsPage.ShownDays | frontend/src/pages/Appointments.jsx:239 | the group keys, each once, in ascending order |
| AppointmentsPage.UniqueDates | frontend/src/pages/Appointments.jsx:97-100 | 'all' and each distinct date exactly once, in ascending string order |
| AppointmentsPage.AllComesLast | frontend/src/pages/Appointments.jsx:97-100 | with dates that start with a digit, 'all' sorts to the end of the dropdown |
| AppointmentsPage.DigitBeforeAll | frontend/src/pages/Appointments.jsx:99 | a string starting with a digit sorts before 'all' |
| AppointmentsPage.StatusColor | frontend/src/pages/Appointments.jsx:103-107 | green, yellow, red and blue for the four listed statuses, gray otherwise |
| AppointmentsPage.CancelUnlessRed | frontend/src/pages/Appointments.jsx:372 | cancelling is offered exactly when the status badge is not red, that is, unless the appointment is canceled |
| ReportsPage.ListedOrder | frontend/src/pages/Reports.jsx:19-45 | the listing holds exactly the kept reports, as often as they occur, newest first, with equal dates in their prior order |
| ReportsPage.FilterReports | frontend/src/pages/Reports.jsx:19-45 | the effect's guarded steps and sort yield that listing |
| ReportsPage.StatusColor | frontend/src/pages/Reports.jsx:48-52 | yellow, green and gray for draft, published and archived, gray otherwise |
| MedicalRecordsPage.ListedOrder | frontend/src/pages/MedicalRecords.jsx:19-46 | the listing holds exactly the kept records, as often as they occur, newest first, with equal dates in their prior order |
| MedicalRecordsPage.FilterRecords | frontend/src/pages/MedicalRecords.jsx:19-46 | the effect's guarded steps and sort yield that listing |
| MedicalRecordsPage.StatusColor | frontend/src/pages/MedicalRecords.jsx:49-53 | blue, green, yellow and red for the four listed statuses, gray otherwise |
| PatientsPage.ListedOrder | frontend/src/pages/Patients.jsx:36-59 | the listing holds exactly the patients passing the gender filter and search, as often as they occur. Sorted by age it is non-decreasing and stable; unsorted it is an order-preserving part of the list |
| PatientsPage.FilterAndSortPatients | frontend/src/pages/Patients.jsx:36-59 | the guarded steps and optional sort yield that listing, with the gender filter the buttons set; the status dropdown plays no part |
| PatientsPage.FirstUndeclared | frontend/src/pages/Patients.jsx:13-33 | reading names left to right ends in a ReferenceError on the first undeclared one, and in nothing exactly when all are declared |
| PatientsPage.Render | frontend/src/pages/Patients.jsx:31-216 | a render throws exactly when the effect's dependency array or the variants the markup reads name an undeclared variable, naming it; otherwise the effect lists the kept patients |
| PatientsPage.RenderAsWrittenThrows | frontend/src/pages/Patients.jsx:33 | as written, every render throws a ReferenceError for `currentFilter`, whatever the patients, filters and sort |
| PatientsPage.RenderWithoutVariantsThrows | frontend/src/pages/Patients.jsx:104-124 | with `genderFilter` named in the array, every render still throws, now for `containerVariants` |
| PatientsPage.RenderListsKept | frontend/src/pages/Patients.jsx:16-58 | naming the declared `genderFilter` and declaring the two variants, every render lists exactly the filtered and sorted patients |
| PatientsPage.MaxId | frontend/src/pages/Patients.jsx:65 | the largest id: no id exceeds it and some patient has it |
| PatientsPage.AddPatient | frontend/src/pages/Patients.jsx:62-71 | the list plus the form's patient, with id 1 for an empty list and otherwise the largest id + 1, above every existing id |
| PatientsPage.DeletePatient | frontend/src/pages/Patients.jsx:74-78 | exactly the patients with that id go; the others stay, in order, as often as they occurred |
| PatientsPage.DeleteAfterAdd | frontend/src/pages/Patients.jsx:62-78 | deleting the patient just added gives the list back |
| PatientsPage.ToggleSort | frontend/src/pages/Patients.jsx:188 | the button switches to "age" exactly when the sort is not "age", else to "none" |
| PatientsPage.ToggleTwice | frontend/src/pages/Patients.jsx:188 | pressing twice restores the sort |
| AddDoctorModal.FormatSlotOfPeriod | frontend/src/components/AddDoctorModal.jsx:98 | for a period "a-b" the slot reads "start a - end b" |
| AddDoctorModal.FormatSlotWithoutDash | frontend/src/components/AddDoctorModal.jsx:98 | a period without a dash prints its second half as "undefined" |
| AddDoctorModal.RemoveAt | frontend/src/components/AddDoctorModal.jsx:117 | an index in range drops exactly that slot and keeps the others in order; any other index changes nothing |
| AddDoctorModal.RemoveLastAdded | frontend/src/components/AddDoctorModal.jsx:96-117 | removing the slot just added gives the slots back |
| AddDoctorModal.Strings | frontend/src/components/AddDoctorModal.jsx:132 | a list of slot strings as an array value, item by item |
| AddDoctorModal.DoctorForm.constructor | frontend/src/components/AddDoctorModal.jsx:6-44 | empty fields except credentials "MD"; every day off with no slots and nothing saved; the 08:00-12:00 (weekdays) or 09:00-01:00 (weekend) slot input |
| AddDoctorModal.DoctorForm.HandleChange | frontend/src/components/AddDoctorModal.jsx:61-67 | only the named text field changes |
| AddDoctorModal.DoctorForm.HandleDayToggle | frontend/src/components/AddDoctorModal.jsx:69-84 | flips only that day's switch and keeps its slots. Switching off empties its saved availability; switching on leaves it as it was |
| AddDoctorModal.DoctorForm.HandleSlotChange | frontend/src/components/AddDoctorModal.jsx:86-94 | only the named part of that day's slot input changes |
| AddDoctorModal.DoctorForm.AddTimeSlot | frontend/src/components/AddDoctorModal.jsx:96-113 | appends the formatted slot to that day only and saves the day's slots; what is shown stays what is saved |
| AddDoctorModal.DoctorForm.RemoveTimeSlot | frontend/src/components/AddDoctorModal.jsx:115-128 | removes the indexed slot of that day only and saves the day's slots; what is shown stays what is saved |
| AddDoctorModal.DoctorForm.ToggleTwice | frontend/src/components/AddDoctorModal.jsx:69-84 | switching a day off and on restores the switches and slots but leaves its saved availability empty, so a day shown with slots saves none |
| AddDoctorModal.DoctorForm.HandleDayToggleSavingSlots | frontend/src/components/AddDoctorModal.jsx:69-84 | the corrected toggle saves the day's slots when switched on, so what is shown stays what is saved |
| AddDoctorModal.DoctorForm.Submitted | frontend/src/components/AddDoctorModal.jsx:130-133 | the submitted object has the seven text fields and `availability` (seven days of saved slots), and nothing else |
| EhrRoutes.IsValidOperation | EHR_node_Backend/routes/ehrRoutes.js:42-44 | valid exactly when every key of the body is one of the six allowed fields |
| EhrRoutes.WhitelistCases | EHR_node_Backend/routes/ehrRoutes.js:44 | an empty body is valid; any key outside the list makes it invalid |
| EhrRoutes.AssignFields | EHR_node_Backend/routes/ehrRoutes.js:56 | copying each key of the body onto the record, in key order, gives the record merged with the body |
| EhrRoutes.UpdateFields | EHR_node_Backend/routes/ehrRoutes.js:56 | the record merged with the body has the body's values on its keys and the record's elsewhere |
| EhrRoutes.EhrStore.constructor | EHR_node_Backend/routes/ehrRoutes.js:1-4 | the store starts empty |
| EhrRoutes.Strict | EHR_node_Backend/models/EHR.js:3-29 | `new EHR(body)` keeps exactly the body's fields that are schema paths, `_id` included, with their values |
| EhrRoutes.CreateKey | EHR_node_Backend/routes/ehrRoutes.js:9 | the record's id is the body's `_id` when that is an ObjectId's text, the generated id when the body has none, and a cast failure for any other `_id` |
| EhrRoutes.Stored | EHR_node_Backend/routes/ehrRoutes.js:9-10 | the saved document is the body's schema fields with `_id` set to the record's id |
| EhrRoutes.StrictIdempotent | EHR_node_Backend/models/EHR.js:3-29 | dropping the non-schema fields a second time changes nothing |
| EhrRoutes.StrictSaveable | EHR_node_Backend/models/EHR.js:4-25 | the required fields are schema paths, so a body can be saved exactly when its schema fields can |
| EhrRoutes.StrictKeepsWhitelisted | EHR_node_Backend/routes/ehrRoutes.js:43 | a body whose keys pass the PATCH whitelist loses nothing to the schema |
| EhrRoutes.EhrStore.Create | EHR_node_Backend/routes/ehrRoutes.js:7-15 | a body with the required fields and a castable or absent `_id` is stored, reduced to its schema fields, under the body's `_id` or else the generated id, and answered with 201. A missing required field or an uncastable `_id` is answered with 400, as is an `_id` already in use (a duplicate key); then nothing is stored |
| EhrRoutes.EhrStore.ReadAll | EHR_node_Backend/routes/ehrRoutes.js:18-25 | 200 with exactly the stored records, one per id |
| EhrRoutes.EhrStore.Read | EHR_node_Backend/routes/ehrRoutes.js:28-38 | 200 with the record, or 404 for an unknown id |
| EhrRoutes.EhrStore.Update | EHR_node_Backend/routes/ehrRoutes.js:41-62 | 400 "Invalid updates!" for a key outside the list, 404 for an unknown id, and otherwise the fields assigned. The merged record is saved with 200 when the required fields remain; if not, 400 and nothing changes |
| EhrRoutes.EhrStore.Delete | EHR_node_Backend/routes/ehrRoutes.js:65-75 | removes the record and answers 200 with it, or 404 with nothing removed |
| Ids.LastId | EHR_node_Backend/controllers/patientController.js:31 | `findOne().sort({_id: -1})` picks a stored id that no other id follows in string order, and None when there is none |
| Ids.NextIdContinues | EHR_node_Backend/controllers/patientController.js:32-33 | after an id of the form prefix + n, the next id is prefix + (n + 1) |
| Ids.LastIdRepeats | EHR_node_Backend/controllers/patientController.js:31-33 | with "P9999" and "P10000" stored, the next id is "P10000", which is already taken |
| Ids.MaxNumber | EHR_node_Backend/controllers/patientController.js:31-33 | at least the floor and at least every number carried by an id |
| Ids.FreshId | EHR_node_Backend/controllers/patientController.js:31-33 | the corrected generator: the seed for no ids, and never an id already in use |
| PatientController.NewPatientId | EHR_node_Backend/controllers/patientController.js:31-33 | "P1001" with no patient, and "P" + (n + 1) after "P" + n |
| PatientController.FreshPatientId | EHR_node_Backend/controllers/patientController.js:31-33 | "P1001" with no patient, and never an id already in use |
| PatientController.PatientRecord | EHR_node_Backend/controllers/patientController.js:35-41 | the body's fields plus `_id`, taken from the body when it has one. `last_visit` is today, `condition` "Stable" and `aiSupportResponse` "", whatever the body says |
| PatientController.UpdateAIResponse | EHR_node_Backend/controllers/patientController.js:51-53 | only that patient's `aiSupportResponse` changes; an unknown id changes nothing |
| PatientController.UpdateAIResponseFrame | EHR_node_Backend/controllers/patientController.js:51-53 | the updated patient keeps every other field |
| PrescriptionController.NewPrescriptionId | EHR_node_Backend/controllers/prescriptionController.js:35-37 | "PR1001" with no prescription, and "PR" + (n + 1) after "PR" + n |
| PrescriptionController.FreshPrescriptionId | EHR_node_Backend/controllers/prescriptionController.js:35-37 | "PR1001" with none, and never an id already in use |
| PrescriptionController.MedicationList | EHR_node_Backend/controllers/prescriptionController.js:43 | an array is kept item by item; anything else, `undefined` included, is wrapped in a one-element list |
| PrescriptionController.AddPrescription | EHR_node_Backend/controllers/prescriptionController.js:20-53 | 404 "Patient or Doctor not found" exactly when either is missing; otherwise the prescription with the new id, the given patient, doctor and instructions, the normalised medications and today's date |
| Retrieval.UpsertData | retrieval.js:60-64 | one record per item, in order, with id "doc-i", the item's embedding and its title and abstract |
| Retrieval.UpsertIdsDistinct | retrieval.js:61 | the record ids are pairwise distinct |
| Retrieval.Batches | retrieval.js:67-72 | ceil(n/100) batches, each a consecutive slice from a multiple of 100, of 1..100 items, all but the last full, together giving the data back |
| Retrieval.RelevantResearch | retrieval.js:87-112 | no embedding or no answer gives []; otherwise the metadata of every match, in order |
| ResearchPrompt.SourceLines | AI/server.js:56 | one line "Source k: title - abstract" per result, k from 1 |
| ResearchPrompt.ResearchContentLines | AI/server.js:55-57 | with no line breaks inside titles and abstracts, splitting the research block at line breaks gives back exactly the source lines |
| AiServer.FindIndex | AI/server.js:46 | the first position whose `id` equals the requested one, or the length |
| AiServer.FindPatient | AI/server.js:46 | None exactly when no entry has that id; otherwise the first entry that has it |
| AiServer.GenerateRecommendation | AI/server.js:23-103 | 400 exactly for a falsy patientId; 404 for a missing file, a blank file or an unknown patient; 200 with the text and the research unchanged exactly when generation succeeds; 500 "Error generating recommendation" exactly when the file does not parse to an array of patients or the generation for a found patient fails |
| AiServer.BlankFileIsEmpty | AI/server.js:39-43 | a file of whitespace only answers 404 "Patient data file is empty" |
| RecommendationServer.PromptParts | server.js:35 | the prompt is the fixed head, the patient text, the research heading, the research block and the fixed tail, and each part can be cut back out |
| RecommendationServer.PromptDeterminesResearch | server.js:31-35 | different research blocks give different prompts |
| RecommendationServer.GenerateRecommendation | server.js:19-47 | 400 exactly for falsy patientData, 200 with the text and the research unchanged when generation succeeds, 500 otherwise |
| StatusColors.ColorOf | frontend/src/pages/Reports.jsx:48-52 | the colour of the first option whose value equals the status, and 'gray' when none does |
| StatusColors.ColorOfTable | frontend/src/pages/Reports.jsx:48-52 | over options with distinct values, a listed status gets its listed colour and any other gets 'gray' |
| Seqs.Filter | frontend/src/pages/Doctors.jsx:30-44 | `filter` keeps exactly the elements satisfying the test, as an order-preserving part of the list |
| Seqs.FilterEmpty | EHR_node_Backend/controllers/dashboardController.js:93 | a filter is empty exactly when no element passes the test |
| Seqs.FilterCount | frontend/src/pages/Doctors.jsx:30-44 | each kept element occurs as often as in the list, and no other occurs |
| Seqs.FilterSteps | frontend/src/pages/Doctors.jsx:26-45 | up to three filters, each applied only when its control is set, equal one filter by the conjunction of the active tests |
| Sorting.SortBySortedPermutation | frontend/src/pages/Reports.jsx:42 | the stable sort by a key returns a permutation of its input in non-decreasing key order |
| Sorting.SortByStable | frontend/src/pages/Reports.jsx:42 | elements with equal keys keep their relative order |
| Sorting.SortStringsSortedPermutation | frontend/src/pages/Appointments.jsx:99 | `sort()` on strings returns a permutation in ascending string order |
| Text.ParseIntOfIntSuffix | EHR_node_Backend/controllers/dashboardController.js:219-227 | `parseInt` of an integer's text followed by anything that does not start with a digit gives the integer back |
| Text.ParseIntOfIntToString | EHR_node_Backend/controllers/dashboardController.js:297 | `parseInt` of an integer's decimal text gives the integer back |
| Text.SplitOfJoin | frontend/src/components/AddDoctorModal.jsx:98 | splitting a join at a separator that occurs in no part gives the parts back |
| ErrorHandler.MessagesOf | EHR_node_Backend/middleware/errorHandler.js:8 | one message per field error, in order |
| ErrorHandler.Handle | EHR_node_Backend/middleware/errorHandler.js:5-22 | 400 exactly for a validation error, with its messages; 409 exactly for a Mongo duplicate-key error; 500 for everything else, with the message only in development |
| ErrorHandler.StatusOneOf | EHR_node_Backend/middleware/errorHandler.js:5-22 | the status is 400, 409 or 500, each with its own error label |
| ErrorHandler.OtherMongoCodesAreInternal | EHR_node_Backend/middleware/errorHandler.js:12-22 | a Mongo error with any other code is a 500 |
| ErrorHandler.MessageHiddenOutsideDevelopment | EHR_node_Backend/middleware/errorHandler.js:19-22 | outside development the reply does not depend on the error's message |
| ErrorHandler.ValidationDetailsPerField | EHR_node_Backend/middleware/errorHandler.js:5-10 | a validation reply lists each field's message, in field order |
| PatientCard.OrDefault | frontend/src/components/PatientCard.jsx:6-12 | a present field is kept, even a falsy one; a missing one takes the default |
| PatientCard.Fields | frontend/src/components/PatientCard.jsx:6-12 | with no patient, the card shows '', 'Unknown', 0, 'unknown' and 'N/A' |
| PatientCard.FieldsKeepGiven | frontend/src/components/PatientCard.jsx:6-12 | given fields are shown as given, and a missing gender shows as 'unknown' |
| PatientCard.Capitalize | frontend/src/components/PatientCard.jsx:17 | same length and the same letters ignoring case, with the first character not small and the rest not capitals |
| PatientCard.CapitalizeUnique | frontend/src/components/PatientCard.jsx:17 | the capitalised form is the only string with those properties |
| PatientCard.CapitalizeIdempotent | frontend/src/components/PatientCard.jsx:15-18 | formatting twice is formatting once |
| PatientCard.CapitalizeIgnoresCase | frontend/src/components/PatientCard.jsx:15-18 | the badge text does not depend on how the gender was capitalised |
| PatientCard.FormatGender | frontend/src/components/PatientCard.jsx:15-18 | 'Unknown' for a falsy value, the capitalised text for a non-empty string, and a TypeError for any other value |
| PatientCard.MissingGenderShowsUnknown | frontend/src/components/PatientCard.jsx:6-18 | no patient, no gender, a null gender or an empty one all show "Unknown" |
| PatientCard.GenderStyle | frontend/src/components/PatientCard.jsx:21-30 | blue exactly for "male" and pink exactly for "female", in any case; purple for other strings and for null; a TypeError for other values |
| PatientCard.GenderStyleIgnoresCase | frontend/src/components/PatientCard.jsx:21-30 | the badge colour depends only on the gender's small-letter form |
| PatientCard.AiLink | frontend/src/components/PatientCard.jsx:65 | the link starts with "/AI?patientId=" |
| PatientCard.AiLinkCarriesId | frontend/src/components/PatientCard.jsx:65 | the rest of the link is the id's text, and an integer id parses back from it |

## Left out

- Reading and writing the JSON data files, the database (Mongoose queries, `populate`, casting, defaults and timestamps), Express wiring and logging are not modelled. Their results are inputs, and a failed database call is not modelled.
- The outside services (embedding, vector-index query, text generation) are inputs. Their answers are given as Option values, where None stands for a failure.
- The clock, `toISOString`, `getMonth`/`setMonth` and `Math.random`:
  - the current time, one month ago, today and tomorrow are parameters;
  - each creation stamp carries its month;
  - the random fallback timestamp of the separate activity handler is a function of the activity's id.
- Clock times such as "09:30 AM" are given as minutes of the day, and date strings that the pages turn into `Date` values are given as integers. The parse is not modelled.
- Floating point: percentages and averages use exact rational rounding, which agrees with `Math.round` except where a double would round the quotient first.
- `parseInt` with a "0x" prefix or a radix is not modelled.
- `Object.entries` and `Object.keys` order is not modelled: groups are maps; the purpose histogram keeps first-seen order (insertion order for non-numeric keys).
- An `Object.values` order that puts integer-like keys first is not modelled: a validation error's field errors are given in the order of their keys.
- In-place sorts and array mutation in the pages are modelled on sequence values, because React state is replaced wholesale. The Add Doctor dialog (an object whose nested state is mutated) is a class.
- `===` between objects is read as structural equality where the model compares values.
- PatientsPage.Render: Patients.jsx does not parse. The conditional at lines 220-234 has a second `: (<EmptyState />)` branch, so the module, which App.jsx imports, never loads and no render happens. Render describes the page once that stray branch is removed. It models only the variable reads that decide whether a render throws: the effect's dependency array (line 33) and the undeclared `containerVariants` and `itemVariants` the markup reads (lines 104, 124 and 216). The rest of the markup is not modelled.
- EhrRoutes.CreateKey: only the 24-hex-digit text of an ObjectId is taken as castable. Other values the ObjectId cast accepts, such as ObjectId objects, and the casting of `patientId`, `doctorId` and `date`, are not modelled.
- DoctorsPage.FilterDoctors: searches with the corrected search, which reads a missing field as "". Where the page's search throws (see Findings), it keeps or drops that doctor instead of failing; its last ensures ties it to the search as written when that throws on no doctor.
- Json: numbers are two constructors, an integer one and a decimal one, where JavaScript has a single number type. A value like 2.0 is an integer in JavaScript, and the model compares `Int(2)` and a decimal 2.0 as different.
- Dashboard.Purposes: a purpose that names an `Object.prototype` member, such as "constructor" or "toString", is counted like any other. In the page the `acc[purpose] || 0` lookup finds the inherited member and the count becomes a string.
- DoctorsPage.AddDoctor: requires a non-empty list with integer ids, because `Math.max()` of no ids is `-Infinity` and the page then stores a non-integer id.
- PatientsPage.FilterAndSortPatients: the page reads an undeclared `currentFilter` (Patients.jsx:33 and :40), so a render throws a ReferenceError and the page lists no one. The method shows the listing evidently intended, filtering by the `genderFilter` the gender buttons set (see Findings); the declared `statusFilter` has no effect.
- PatientCard.AiLink: only string and integer ids are rendered; the text of other values in a template is not modelled.
- RecommendationServer.PromptParts: the patient information is given as the text the template prints, and the caller decides it; how `${patientData}` prints an object (`[object Object]`) is not modelled.
- AiServer.GenerateRecommendation: the prompt, with `JSON.stringify` and its fixed answer-format text, is not reproduced, because it only feeds the generator, whose answer is an input. The `details` of caught exceptions are not modelled.
- getAllPatients, getPatientById, deletePatient and getPrescriptionById are database reads, renders and redirects with no local logic.
- The React rendering, animation and charts are not modelled, and neither are the profile and schedule dialogs.

## Findings

| source | as written | input that shows it | evidently intended | confidence | as-written member | corrected member |
|---|---|---|---|---|---|---|
| frontend/src/pages/Patients.jsx:33-41 | the filtering effect's dependency array and the filter read `currentFilter`, which the component never declares; the gender buttons set `genderFilter` | remove the stray `: (<EmptyState />)` branch at lines 232-234 so that the module parses, then open the Patients page: the render throws "ReferenceError: currentFilter is not defined" and no patient is listed. With `genderFilter` named instead, it throws for the undeclared `containerVariants` | filter by the gender the buttons select, with the animation variants declared | not executed | PatientsPage.RenderAsWrittenThrows | PatientsPage.RenderListsKept |
| frontend/src/pages/Doctors.jsx:30-34 | the search calls `doctor.qualification.toLowerCase()`; the Add Doctor form calls that field `credentials`, so a doctor added through it has no `qualification` | add a doctor named "Ann", specialty "Cardiology", then search "xyz": the search throws a TypeError | a doctor without the field simply does not match on it | not executed | DoctorsPage.SubmittedFormBreaksSearch | DoctorsPage.SearchAgrees |
| frontend/src/pages/Doctors.jsx:471-481 | the edit dialog is the Add Doctor form, which ignores `initialData` and submits an object without `id`. `handleUpdateDoctor` then matches no doctor | open a doctor's profile, choose Edit Profile, change the name and save: the list is unchanged | the edited fields are merged into the selected doctor | not executed | DoctorsPage.SubmittedEditChangesNothing | DoctorsPage.EditUpdatesSelected |
| frontend/src/components/AddDoctorModal.jsx:69-84 | switching a day on leaves its saved availability as it was, and switching it off emptied it | tick Monday, add a slot, untick Monday, tick it again, submit: the dialog lists the slot but `availability.monday` is empty | a day that is on saves the slots it shows | not executed | AddDoctorModal.DoctorForm.ToggleTwice | AddDoctorModal.DoctorForm.HandleDayToggleSavingSlots |
| EHR_node_Backend/controllers/patientController.js:31-33 | the next id comes after the greatest `_id` in string order | with "P9999" and "P10000" stored, "P9999" sorts last, so every new patient is given "P10000" again (the same at prescriptionController.js:35-37) | the successor of the greatest number in use | not executed | Ids.LastIdRepeats | PatientController.FreshPatientId |
