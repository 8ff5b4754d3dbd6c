# SehatSetu core, modelled in Dafny

SehatSetu is a small hospital intake system. A signed-in patient fills in an
intake form; before the form is stored, the free-text symptoms are sent to a
prediction service that maps them onto the columns of a symptom list, runs a
disease classifier and answers with the three most likely diseases and the
specialist for each. The form is then stored as a patient record, which the
patient later sees on an appointments page where a pending record can be
given a half-hour time slot.

This project models that core:

- `patient_schema.dfy` (`PatientSchema`): the patient record schema. The
  gender and status enumerations, the eight required paths, the `Pending`
  default and the null defaults, and `Create`, which either builds a record
  or reports one error per failing path. Fields that the schema does not
  declare are dropped.
- `patient_route.dfy` (`PatientRoute`): `POST /api/patient` and
  `GET /api/patient` over a store of records (`PatientStore`, a class whose
  methods update the record list and a creation counter). It covers the
  route's seven-field presence check, the 400/201/500 outcomes, the owner
  filter and the newest-first order (an insertion sort by creation time).
- `appointments_page.dfy` (`AppointmentsPage`): the appointments page. It
  covers the 12-slot catalogue, the status counters, colours and badges, and
  the booking flow as a `Page` class whose methods change the page state.
  The booking flow ends in the `PATCH` request it sends.
- `patient_form.dfy` (`PatientForm`): the intake form. It covers the
  field-by-field update, the presence check, the
  best-effort prediction call, the payload sent to the record route, and
  the submit handler as a method of a `FormPage` class.
- `specialist_mapping.dfy` (`SpecialistMapping`): the ordered keyword rules
  that choose a specialist for a disease name, and the loop that builds the
  disease-to-specialist mapping.
- `prediction_service.dfy` (`PredictionService`): `POST /predict`. It covers
  the loading of the four model globals, the dispatch between `text` and
  `symptoms`, the fixed empty answer, the exact / token-set / consensus
  matching cascade, the 0/1 input vector built in an array, the top-three
  answer and the specialist fallback.
- `text.dfy` (`Text`) and `common.dfy` (`Common`): lower-casing, Python's
  `strip()` and substring test; `Option` and `Result`.

Modelling conventions:

- Request and form fields are strings, and the empty string stands for any
  falsy JavaScript value (`undefined`, `null`, `""`).
- The database is a sequence of records. A creation counter stands for
  both the generated id and the creation time, so ids are distinct and
  creation times strictly increase.
- The outcome of every network call or external library call is a
  parameter: the fetches, the symptom extractor, the classifier, the label
  encoder and the fuzzy scorers.
- The fuzzy scores are integers from 0 to 100. The consensus score is kept
  multiplied by ten and computed exactly, so the threshold `0.6*r + 0.4*m >= 60`
  becomes `6*r + 4*m >= 600`. The service computes the score in floating
  point; the differences this makes are listed under "Left out".

No slot conflict is checked, no status transition other than the `Pending`
to `Scheduled` request is made, and the route does not check the department
or gender against any list.

## Model

| member | source | states |
|---|---|---|
| `Text.Lower` | sehatsetu/python_service/generate_mapping.py:7 | same length; every character is the lower-case form of the input character |
| `Text.TrimLeft` | sehatsetu/python_service/app.py:113 | only leading whitespace is dropped, and the rest does not begin with whitespace |
| `Text.TrimRight` | sehatsetu/python_service/app.py:113 | only trailing whitespace is dropped, and the rest does not end with whitespace |
| `Text.Strip` | sehatsetu/python_service/app.py:113 | the result is no longer than the input and neither begins nor ends with whitespace |
| `Text.StripDropsOnlySpace` | sehatsetu/python_service/app.py:113 | the stripped text is the piece of the input after its leading whitespace, and everything dropped on either side is whitespace |
| `Text.TrimLeftIsSuffix` | sehatsetu/python_service/app.py:113 | left trimming leaves a suffix of the text |
| `Text.TrimRightIsPrefix` | sehatsetu/python_service/app.py:113 | right trimming leaves a prefix of the text |
| `Text.StripIsSubstring` | sehatsetu/python_service/app.py:113 | the stripped text occurs in the original text |
| `Text.ContainsAt` | sehatsetu/python_service/generate_mapping.py:8 | the substring test holds exactly when the keyword occurs at some position |
| `Text.ContainsTransitive` | sehatsetu/python_service/generate_mapping.py:8 | a keyword inside a keyword that occurs in a name also occurs in that name |
| `Text.MissingCharNotContained` | sehatsetu/python_service/generate_mapping.py:8 | a keyword with a letter absent from the name does not occur in it |
| `SpecialistMapping.AnyOccursIff` | sehatsetu/python_service/generate_mapping.py:8 | a rule fires exactly when one of its keywords is a substring of the name |
| `SpecialistMapping.NoneOccurs` | sehatsetu/python_service/generate_mapping.py:8 | a rule none of whose keywords occurs does not fire |
| `SpecialistMapping.FirstMatch` | sehatsetu/python_service/generate_mapping.py:6-47 | the answer is the default or the specialist of one of the rules |
| `SpecialistMapping.GetSpecialist` | sehatsetu/python_service/generate_mapping.py:6-47 | the answer is always one of the 20 specialist labels |
| `SpecialistMapping.FirstMatchWins` | sehatsetu/python_service/generate_mapping.py:8-45 | the first rule that fires decides, whatever later rules say |
| `SpecialistMapping.NoMatchIsDefault` | sehatsetu/python_service/generate_mapping.py:8-47 | when no rule fires the answer is "General Physician" |
| `SpecialistMapping.UnmatchedIsGeneralPhysician` | sehatsetu/python_service/generate_mapping.py:6-47 | a name containing no keyword of any rule gets "General Physician" |
| `SpecialistMapping.CaseInsensitive` | sehatsetu/python_service/generate_mapping.py:7 | a name and its lower-case form get the same specialist |
| `SpecialistMapping.HeartBeatsEar` | sehatsetu/python_service/generate_mapping.py:8-25 | a name containing "heart" also contains the ENT keyword "ear", yet gets "Cardiologist" |
| `SpecialistMapping.SkinBeforeCancer` | sehatsetu/python_service/generate_mapping.py:8-29 | with a dermatology keyword and no cardiology keyword the answer is "Dermatologist", even when an oncology keyword occurs |
| `SpecialistMapping.NotCardiacByLetters` | sehatsetu/python_service/generate_mapping.py:8 | a name without the letters h, d, v, o, m and p fires no cardiology keyword |
| `SpecialistMapping.SkinCancerIsLowerCase` | sehatsetu/python_service/generate_mapping.py:7 | "skin cancer" is already lower case |
| `SpecialistMapping.SkinCancerKeywords` | sehatsetu/python_service/generate_mapping.py:10-28 | "skin cancer" contains both "skin" and "cancer" |
| `SpecialistMapping.SkinCancerLetters` | sehatsetu/python_service/generate_mapping.py:8 | "skin cancer" lacks every letter the cardiology keywords need |
| `SpecialistMapping.SkinCancerIsDermatology` | sehatsetu/python_service/generate_mapping.py:10-29 | "skin cancer" fires the oncology rule, yet gets "Dermatologist" |
| `SpecialistMapping.GenerateMapping` | sehatsetu/python_service/generate_mapping.py:61-63 | the mapping has one key per class, and each value is that class's specialist |
| `SpecialistMapping.DistinctClassCount` | sehatsetu/python_service/generate_mapping.py:59-63 | distinct classes give exactly as many mapping entries as classes |
| `PatientSchema.ParseGender` | sehatsetu/src/app/models/Patient.js:18-22 | a gender string is accepted exactly when it is one of the three labels, and reading it back gives the same label |
| `PatientSchema.GenderRoundTrip` | sehatsetu/src/app/models/Patient.js:21 | parsing the label of a gender gives that gender |
| `PatientSchema.ParseStatus` | sehatsetu/src/app/models/Patient.js:40-44 | a status string is accepted exactly when it is one of the four labels, and reading it back gives the same label |
| `PatientSchema.StatusRoundTrip` | sehatsetu/src/app/models/Patient.js:42 | parsing the label of a status gives that status; every label is in the enumeration |
| `PatientSchema.PathError` | sehatsetu/src/app/models/Patient.js:5-38 | a path reports Required exactly when it is empty, an enum error exactly when it is a non-empty gender outside the enumeration, and nothing otherwise |
| `PatientSchema.Validate` | sehatsetu/src/app/models/Patient.js:5-38 | the errors are exactly the failing paths' errors; there are none exactly when all eight paths are non-empty and the gender is in the enumeration |
| `PatientSchema.ErrorsOf` | sehatsetu/src/app/models/Patient.js:5-38 | every reported error belongs to a failing path, and every failing path is reported |
| `PatientSchema.Create` | sehatsetu/src/app/models/Patient.js:3-58 | a record is created exactly when all eight required paths are non-empty and the gender is in the enumeration; otherwise the errors are non-empty and accurate; a created record copies the input, is Pending, has null date, doctor and notes, and equal creation and update times |
| `PatientSchema.MissingFieldRejected` | sehatsetu/src/app/models/Patient.js:5-38 | an empty required path makes creation fail with a Required error for that path |
| `PatientSchema.GenderOutsideEnumRejected` | sehatsetu/src/app/models/Patient.js:18-22 | a non-empty gender outside the enumeration makes creation fail with an enum error |
| `PatientSchema.PredictionFieldsDropped` | sehatsetu/src/app/models/Patient.js:3-58 | the undeclared prediction fields have no effect on creation or on the stored record |
| `PatientSchema.ErrorsAgree` | sehatsetu/src/app/models/Patient.js:5-38 | inputs with the same per-path errors get the same error list |
| `PatientRoute.RouteFieldsPresent` | sehatsetu/src/app/api/patient/route.js:24-29 | holds exactly when the seven checked paths, every required path but the email, are non-empty |
| `PatientRoute.OwnedBy` | sehatsetu/src/app/api/patient/route.js:72-73 | each of the owner's records is kept as many times as it occurs, and no other record is kept |
| `PatientRoute.InsertByCreatedAt` | sehatsetu/src/app/api/patient/route.js:73 | insertion adds exactly the one record |
| `PatientRoute.ConsNewestFirst` | sehatsetu/src/app/api/patient/route.js:73 | a record no older than a newest-first list keeps the list newest-first when put at its head |
| `PatientRoute.HeadIsNewest` | sehatsetu/src/app/api/patient/route.js:73 | the head of a newest-first list is its newest record |
| `PatientRoute.InsertKeepsNewestFirst` | sehatsetu/src/app/api/patient/route.js:73 | insertion keeps a newest-first list newest-first |
| `PatientRoute.SortNewestFirst` | sehatsetu/src/app/api/patient/route.js:73-81 | the sort is a permutation and its result is newest-first |
| `PatientRoute.Query` | sehatsetu/src/app/api/patient/route.js:69-81 | the answer is newest-first; with a non-empty user id it is a permutation of that user's records, otherwise of all records |
| `PatientRoute.ListAllIsEverything` | sehatsetu/src/app/api/patient/route.js:80-81 | without a user id every record is listed, none twice |
| `PatientRoute.PatientStore.constructor` | sehatsetu/src/app/api/patient/route.js:31-44 | the store starts empty with the counter at zero |
| `PatientRoute.PatientStore.Post` | sehatsetu/src/app/api/patient/route.js:5-60 | 400 when a checked field is missing; 500 when the store is unreachable or the schema rejects the body, with nothing stored; otherwise 201 with the new record appended; the status is 201 exactly when the returned record was appended; the store invariant is kept |
| `PatientRoute.PatientStore.Get` | sehatsetu/src/app/api/patient/route.js:63-94 | 500 exactly when the store is unreachable; otherwise the query's answer with the owner or all-records message |
| `PatientRoute.IdsDistinct` | sehatsetu/src/app/api/patient/route.js:31-44 | in a valid store, records at different positions have different ids |
| `PatientRoute.SubmitTwice` | sehatsetu/src/app/api/patient/route.js:31-52 | the same valid body posted twice creates two records for the same user with different ids |
| `PatientRoute.MissingEmailIsServerError` | sehatsetu/src/app/api/patient/route.js:24-59 | a body that passes the route's check but has no email is rejected by the schema, with a Required error for the email |
| `PatientRoute.RouteChecksPresenceOnly` | sehatsetu/src/app/api/patient/route.js:24-29 | any non-empty department or gender passes the route's check; a gender outside the enumeration then fails creation |
| `AppointmentsPage.MorningSlots` | sehatsetu/src/app/appointments/page.jsx:18-23 | the six morning labels are 9:00 to 11:30 in half-hour steps |
| `AppointmentsPage.AfternoonSlots` | sehatsetu/src/app/appointments/page.jsx:24-29 | the six afternoon labels are 2:00 to 4:30 PM in half-hour steps |
| `AppointmentsPage.CatalogIsHalfHourSteps` | sehatsetu/src/app/appointments/page.jsx:17-30 | twelve distinct labels in strictly increasing time order |
| `AppointmentsPage.BookingRequest` | sehatsetu/src/app/appointments/page.jsx:72-89 | a request is sent exactly when a slot and a record are selected; it targets that record, asks for Scheduled and carries the slot |
| `AppointmentsPage.RequestNamesCatalogSlot` | sehatsetu/src/app/appointments/page.jsx:72-89 | a request sent from the page names a catalogue slot and a Pending record |
| `AppointmentsPage.BookingOffered` | sehatsetu/src/app/appointments/page.jsx:421 | booking is offered exactly for records whose status reads "Pending" |
| `AppointmentsPage.WithStatus` | sehatsetu/src/app/appointments/page.jsx:239-269 | the filter keeps each record with the status as many times as it occurs, and no other record |
| `AppointmentsPage.CountStatus` | sehatsetu/src/app/appointments/page.jsx:239-269 | the count is the length of the status filter, never more than the number of records, and zero exactly when no record has that status |
| `AppointmentsPage.CountStep` | sehatsetu/src/app/appointments/page.jsx:239-269 | the first record adds one to its own status's count and nothing to the others |
| `AppointmentsPage.CountsPartition` | sehatsetu/src/app/appointments/page.jsx:239-269 | the four status counts add up to the number of records |
| `AppointmentsPage.ShownCounters` | sehatsetu/src/app/appointments/page.jsx:239-269 | the Pending, Scheduled and Completed counters count their own status each, and add up to all records except the cancelled ones |
| `AppointmentsPage.StatusColor` | sehatsetu/src/app/appointments/page.jsx:106-119 | gray exactly for a name outside the status enumeration |
| `AppointmentsPage.StatusBadge` | sehatsetu/src/app/appointments/page.jsx:121-129 | each status gets its badge; an Object.prototype member name gets no badge colours; any other name gets the Pending badge |
| `AppointmentsPage.StoredStatusHasBadge` | sehatsetu/src/app/appointments/page.jsx:121-129 | the status of a stored record always gets its own badge |
| `AppointmentsPage.ColoursDistinguishStatuses` | sehatsetu/src/app/appointments/page.jsx:106-129 | distinct statuses get distinct colours and badges; an unknown name that is not an Object.prototype member looks Pending in its badge but not in its colour |
| `AppointmentsPage.FetchError` | sehatsetu/src/app/appointments/page.jsx:47-70 | a successful fetch keeps the error text; a failed fetch always leaves a non-empty error, the server's own message when it sent one |
| `AppointmentsPage.Page.constructor` | sehatsetu/src/app/appointments/page.jsx:7-13 | the page starts loading, with no records, no error and no selection |
| `AppointmentsPage.Page.FetchAppointments` | sehatsetu/src/app/appointments/page.jsx:47-70 | the records are replaced only on success; the error text per outcome; loading ends; the selection is kept |
| `AppointmentsPage.Page.OpenSlotBooking` | sehatsetu/src/app/appointments/page.jsx:421-426 | a Pending record is selected and the slot picker opens |
| `AppointmentsPage.Page.SelectSlot` | sehatsetu/src/app/appointments/page.jsx:532-535 | the chosen catalogue slot becomes the selected slot |
| `AppointmentsPage.Page.CancelSlotBooking` | sehatsetu/src/app/appointments/page.jsx:584-587 | the picker closes and the slot is cleared |
| `AppointmentsPage.Page.BookSlot` | sehatsetu/src/app/appointments/page.jsx:72-104 | the request sent is the booking request for the selection and names a catalogue slot; the picker closes and the list is fetched again only on success |
| `PatientForm.AllFilled` | sehatsetu/src/app/patient-form/page.jsx:61-72 | holds exactly when the six named inputs are non-empty; the email is not checked |
| `PatientForm.WithField` | sehatsetu/src/app/patient-form/page.jsx:46-52 | the named field takes the value; every other field, and the email, is unchanged |
| `PatientForm.OrNull` | sehatsetu/src/app/patient-form/page.jsx:105-106 | a field is kept exactly when present and non-empty; otherwise null |
| `PatientForm.Payload` | sehatsetu/src/app/patient-form/page.jsx:102-108 | all form fields and the user id are copied; without a prediction the three prediction fields are null, null and []; with one, disease and confidence are kept only when non-empty and the extracted symptoms are kept, or [] when absent |
| `PatientForm.FilledFormPassesRoute` | sehatsetu/src/app/patient-form/page.jsx:61-72 | a form that passes its own check, sent by a signed-in user, passes the route's check |
| `PatientForm.PredictionDoesNotAffectRecord` | sehatsetu/src/app/patient-form/page.jsx:74-108 | whatever the prediction returned, record creation has the same outcome as without a prediction |
| `PatientForm.SelectedFormIsStored` | sehatsetu/src/app/patient-form/page.jsx:284-296 | a filled form whose gender comes from the select, with an email and a user id, gives a record the schema accepts |
| `PatientForm.SubmitError` | sehatsetu/src/app/patient-form/page.jsx:113-126 | the error is empty exactly on success; a rejection shows the server's message or "Failed to submit form"; an exception shows the generic message |
| `PatientForm.FormPage.constructor` | sehatsetu/src/app/patient-form/page.jsx:18-29 | the page starts with an empty form, no user, no error and nothing submitted |
| `PatientForm.FormPage.LoadUser` | sehatsetu/src/app/patient-form/page.jsx:32-44 | the user is remembered and its email copied into the form; nothing else changes |
| `PatientForm.FormPage.HandleChange` | sehatsetu/src/app/patient-form/page.jsx:46-52 | the form becomes the old form with the named field updated; nothing else changes |
| `PatientForm.FormPage.HandleSubmit` | sehatsetu/src/app/patient-form/page.jsx:56-129 | an unfilled form makes no call and shows "Please fill in all fields"; otherwise the symptoms are sent for prediction, the payload is always sent, the error text follows the creation outcome, `submitted` holds exactly on success, and loading always ends |
| `PredictionService.Consensus` | sehatsetu/python_service/app.py:96-106 | the scaled consensus score lies between 0 and 1000 |
| `PredictionService.ConsensusThreshold` | sehatsetu/python_service/app.py:96-129 | the integer threshold holds exactly when the decimal threshold of 60 does |
| `PredictionService.ConsensusNeedsStructure` | sehatsetu/python_service/app.py:96-129 | a consensus match needs a plain ratio of at least 34 |
| `PredictionService.Best` | sehatsetu/python_service/app.py:120-126 | the chosen candidate has the highest score, and every earlier candidate scores strictly lower |
| `PredictionService.BestIsMaximal` | sehatsetu/python_service/app.py:120-126 | no candidate in the list scores above the chosen one |
| `PredictionService.Clean` | sehatsetu/python_service/app.py:113 | the cleaned symptom is no longer than the input, has no upper-case letter and neither begins nor ends with whitespace |
| `PredictionService.CleanIsPiece` | sehatsetu/python_service/app.py:113 | the cleaned symptom occurs in the lower-cased symptom |
| `PredictionService.CleanIdempotent` | sehatsetu/python_service/app.py:113 | cleaning a cleaned symptom changes nothing |
| `PredictionService.MatchSymptom` | sehatsetu/python_service/app.py:109-129 | any match is a column of the list; a cleaned form in the list is its own match |
| `PredictionService.Cascade` | sehatsetu/python_service/app.py:112-129 | any match is a column; an exact cleaned form wins over fuzzy matching |
| `PredictionService.TokenSetStage` | sehatsetu/python_service/app.py:117-122 | without an exact match, a column with token-set score 80 or more guarantees a match that is a best token-set candidate |
| `PredictionService.ConsensusStage` | sehatsetu/python_service/app.py:124-129 | when no column reaches token-set 80, a match exists exactly when some column reaches consensus 60, and it is a best consensus candidate |
| `PredictionService.MatchedNames` | sehatsetu/python_service/app.py:108-135 | at most one match per symptom; every match is a non-empty column |
| `PredictionService.IndexOf` | sehatsetu/python_service/app.py:133 | the index holds the name and is its first position |
| `PredictionService.FirstOccurrenceUnique` | sehatsetu/python_service/app.py:133 | a name has only one first position |
| `PredictionService.BuildInputVector` | sehatsetu/python_service/app.py:91-135 | the matches are those of the symptoms in input order; the vector is as long as the list, holds only 0 and 1, and is 1 exactly at the first position of each matched name |
| `PredictionService.Reverse` | sehatsetu/python_service/app.py:141 | the result holds the same elements in reverse order |
| `PredictionService.TopThree` | sehatsetu/python_service/app.py:141 | at most three classes, the most probable first |
| `PredictionService.SpecialistFor` | sehatsetu/python_service/app.py:149-154 | a mapped disease gets its mapped specialist, any other "General Physician" |
| `PredictionService.GeneratedMappingLookup` | sehatsetu/python_service/app.py:149-154 | with the generated mapping the lookup agrees with the keyword rules and always yields one of their labels |
| `PredictionService.ShapePredictions` | sehatsetu/python_service/app.py:143-151 | one prediction per top class, in order, with its disease, specialist and confidence |
| `PredictionService.StatusOf` | sehatsetu/python_service/app.py:65-78 | 400 exactly for missing input; every other failure is 500 |
| `PredictionService.DetailOf` | sehatsetu/python_service/app.py:65-166 | the detail starts with the extraction prefix exactly for an extraction failure, and then carries the extractor's message |
| `PredictionService.DetailIdentifiesFailure` | sehatsetu/python_service/app.py:65-166 | different failures never share a detail text |
| `PredictionService.InputSymptoms` | sehatsetu/python_service/app.py:67-78 | non-empty text gives the extracted symptoms; otherwise a non-empty list is used as is; otherwise there is no input |
| `PredictionService.Answer` | sehatsetu/python_service/app.py:89-166 | fails exactly for an empty column list or an empty classifier answer; otherwise the predictions are those of the top three classes of the classifier's answer on the one-hot vector of the matched names, the top one leads with its specialist, the input is echoed and the matched names are those of the symptoms |
| `PredictionService.Respond` | sehatsetu/python_service/app.py:62-166 | "Models not loaded" before anything else; 400 exactly when both inputs are absent; an extraction failure is reported with the extractor's message; no symptoms gives the fixed empty answer; otherwise exactly the answer for the input symptoms |
| `PredictionService.TextTakesPrecedence` | sehatsetu/python_service/app.py:70-76 | with non-empty text the symptom list is ignored |
| `PredictionService.Classify` | sehatsetu/python_service/app.py:89-166 | the guarded part of the handler computes the answer for the symptoms |
| `PredictionService.Service.Loaded` | sehatsetu/python_service/app.py:64 | the models count as loaded exactly when all four globals are set |
| `PredictionService.Service.constructor` | sehatsetu/python_service/app.py:18-22 | all four globals start unset |
| `PredictionService.Service.LoadModels` | sehatsetu/python_service/app.py:24-52 | loads run in order and stop at the first failure, keeping what was loaded; from an unloaded start the service is ready exactly when all four loads succeed |
| `PredictionService.Service.Predict` | sehatsetu/python_service/app.py:62-166 | the response is the one `Respond` gives for the current globals |

## Left out

- The form's list of department choices is display only: neither the form nor the schema checks the department against it.
- Page rendering, alerts, navigation, the redirect timer and `localStorage` reads are user interface. The stored user and the call outcomes are parameters.
- Authentication, the token header and the middleware are not part of this model.
- The Next.js prediction proxy (`src/app/api/predict/route.js`) only forwards the request. The form's prediction call is modelled by its outcome.
- The symptom extractor (`python_service/symptom_extractor.py`) relies on a translation service and an NER model. Its result, or the exception it raised, is a parameter.
- The `PATCH` handler in `src/app/api/patient/[id]/route.js` is not part of this model. The booking flow ends at the request the page sends.
- The fuzzy scorers, the classifier's probabilities, `argsort`, the label encoder and the `%.2f` formatting of confidences are function parameters. The string preprocessing of the fuzzy-matching library is folded into the scorers.
- `PredictionService.Consensus`: the score is the exact integer `6*r + 4*m`. The service's floating-point score can differ in the last bit between candidates with equal exact scores (ratio 39 with 95 against ratio 37 with 98, both 614), and its first-strictly-greater choice may then pick a later column where `Best` keeps the earlier one.
- `PredictionService.ConsensusThreshold`: relates the scaled integer threshold to exact decimals. Binary floating-point rounding right at the 60 boundary is not modelled.
- `PredictionService.DetailOf`: the text of an exception caught during prediction is not modelled. The detail is only the "Prediction failed: " prefix.
- `PredictionService.Answer`: the classifier, the label encoder and the scorers are total functions here. In the service, any of them raising (for example `inverse_transform` on an unknown index) gives a 500 "Prediction failed" answer, which the model does not produce for that cause.
- `Text.Lower`: only ASCII letters are lower-cased.
- `Text.Strip`: only ASCII whitespace is stripped.
- `PatientSchema.Create`: casting `userId` to an ObjectId and `dob` to a Date is not modelled; any non-empty string is accepted.
- `PatientRoute.Query`, `PatientRoute.PatientStore.Get`: a `userId` that is not a valid ObjectId makes the database raise a cast error, which the route answers with a 500; the model treats every string as a user id.
- `PatientRoute.Query`: ties in creation time cannot occur in the model, because the counter strictly increases. The `populate` of the user's email and role is not modelled.
- `PatientRoute.PatientStore.Post`: a database that cannot be reached is a boolean parameter. The update timestamp is only set at creation, because no update is part of this model.
- `PredictionService.Service.LoadModels`: file reading, memory mapping and the log lines are left out. Each load is given as its result or as a failure.
- The health endpoint, the disease-listing script and the JSON file written by the mapping generator are I/O.
