# Patient and medication records: a Dafny model

This project models the record-keeping core of a small patient/medication
backend. The backend keeps two tables. The `patient` table holds a
description, first and last name, gender, date of birth and a modify date.
The `medication` table holds a description, dosage, unit, time of day,
creation and modify dates, and a foreign key to its owning patient. Ten
request handlers list, fetch, add, delete and partially update the rows.

The model treats each table as a map from primary key to row, kept in the
fields of a `Store` class. Each handler is a method of `Store` that reads or
reassigns those maps and returns a `Response`:

- `Ok(body)` is a success status with a JSON body.
- `NotFound` is the 404 of a failed primary-key lookup.
- `Malformed(failure)` is a request the handler cannot complete. Either a
  required key is missing from the body, or an enumeration column was given
  a string that names no member.

Files:

- `wrappers.dfy`: `Option`, used for JSON keys that may be absent, parses
  that may fail, and the nullable foreign key.
- `models.dfy` (module `Models`): the gender and unit enumerations with
  their names and parsers, the `Patient` and `Medication` rows, the text
  form of a patient, the declared column widths, and the one-to-many link.
- `routes.dfy` (module `Routes`): request bodies as records of optional
  fields, response bodies, the key order in which the model lists a table
  returns rows, the partial-overwrite functions, and the `Store` class with
  the handlers.

Behaviour the model keeps as the code has it:

- Deleting an absent patient returns the body `{"error": "not found"}` with
  a success status (`Ok(ErrorBody("not found"))`), not `NotFound`.
- The three handlers on `/patients/{patientId}/{medicationId}` look up only
  the medication id. The model's methods take the patient segment and never
  consult it (see Left out for the view signatures).
- GET of a single medication shows only description and dosage, although
  its doc comment also names the unit.
- POST bodies are read key by key, in the order the code passes them to the
  row constructor, so the first absent key in that order is the one
  reported. For a medication, all six keys are read before the owner is
  looked up: a body with a missing key and an unknown owner reports the
  missing key.
- A PUT never changes the modify date. Setting it is commented out in the
  code, and any `modifyDate` or `creationDate` in the body is ignored.
- Deleting a patient deletes none of its medications.

The model also refuses an unknown gender or unit, on POST and on PUT, with
nothing changed. This is a choice of the model; see Left out for what the
program does.

Primary keys: each table has its own counter, starting at 1. A new row takes
the counter's value and the counter moves up. The invariant `Store.Valid`
says every row sits under its own key and every key is below its counter,
so a new key is never in use. The model lists a table in ascending key
order (`OrderedIds`).

## Model

| member | source | states |
|---|---|---|
| `Models.GenderName` | application/models.py:4-9 | every gender's value is one of "male", "female", "unknown" |
| `Models.ParseGender` | application/models.py:4-9 | a string parses to a gender exactly when it is one of the three names, and then to the member with that name |
| `Models.GenderRoundTrip` | application/models.py:7-9 | parsing a gender's value gives back that gender |
| `Models.GenderNameInjective` | application/models.py:7-9 | distinct genders have distinct values |
| `Models.UnitName` | application/models.py:30-41 | every unit's value is one of the nine names kg, g, mg, mcg, l, ml, cc, mol, mmol |
| `Models.ParseUnit` | application/models.py:30-41 | a string parses to a unit exactly when it is one of the nine names, and then to the member with that name |
| `Models.UnitRoundTrip` | application/models.py:33-41 | parsing a unit's value gives back that unit |
| `Models.UnitNameInjective` | application/models.py:33-41 | distinct units have distinct values |
| `Models.PatientRepr` | application/models.py:27-28 | the text form is the first name, then " - ", then the description, with length the sum of the parts |
| `Models.OwnedBy` | application/models.py:23 | a patient's medications are exactly the stored medications whose foreign key names it |
| `Models.OwnershipIsExclusive` | application/models.py:55 | one foreign key per medication, so two patients never own the same medication |
| `Routes.FirstAbsent` | application/routes.py:86-92 | the position reported is the first absent key: all keys before it are present and it is absent, or all are present |
| `Routes.FirstAbsentIs` | application/routes.py:115-120 | the first absent key is fixed by the position of the first gap |
| `Routes.OrderedIds` | application/routes.py:21 | the listing holds only stored keys |
| `Routes.OrderedIdsSorted` | application/routes.py:37 | the model lists keys in strictly ascending order |
| `Routes.OrderedIdsComplete` | application/routes.py:23-24 | the listing holds every stored key |
| `Routes.OrderedIdsCount` | application/routes.py:39-40 | the listing has exactly as many keys as there are rows |
| `Routes.PatchPatient` | application/routes.py:176-186 | PUT overwrites each of firstName, lastName, description, gender and dateOfBirth that the body holds and keeps every other field, including id and modify date |
| `Routes.PatchMedication` | application/routes.py:212-220 | PUT overwrites each of description, dosage, unit and time that the body holds; id, owner, creation date and modify date are kept |
| `Routes.PatchPatientIdempotent` | application/routes.py:177-186 | repeating a patient PUT changes nothing more |
| `Routes.PatchMedicationIdempotent` | application/routes.py:213-220 | repeating a medication PUT changes nothing more |
| `Routes.PatchPatientEmpty` | application/routes.py:177-186 | a patient PUT with none of the updatable keys leaves the row as it was |
| `Routes.PatchMedicationEmpty` | application/routes.py:213-220 | a medication PUT with none of the updatable keys leaves the row as it was |
| `Routes.PatchPatientFits` | application/models.py:16-18 | a PUT keeps a row within the declared widths (160 for description, 80 for each name) when the supplied values are within them |
| `Routes.PatchMedicationFits` | application/models.py:48 | a PUT keeps a medication's description within its declared width of 160 when the supplied one is |
| `Routes.AllPatientKeysPresent` | application/routes.py:86-91 | a patient body holds all six keys exactly when no key is reported absent |
| `Routes.AllMedicationKeysPresent` | application/routes.py:115-120 | a medication body holds all six keys exactly when no key is reported absent |
| `Routes.Store.constructor` | application/__init__.py:21 | a fresh store has two empty tables and satisfies the key invariant |
| `Routes.Store.PrimaryKeysUnique` | application/models.py:15 | no two rows of one table share a primary key (the same holds for the medication key at line 47) |
| `Routes.Store.GetPatients` | application/routes.py:21-27 | one {firstName, lastName, description} entry per stored patient, in key order; every patient appears; the list is empty exactly when there are no patients; nothing changes |
| `Routes.Store.GetMedications` | application/routes.py:37-43 | one {description, dosage, unit} entry per stored medication, in key order; every medication appears; the list is empty exactly when there are none; nothing changes |
| `Routes.Store.GetPatient` | application/routes.py:54-55 | an absent id gives NotFound; a present one gives that patient's first name, last name and description |
| `Routes.Store.GetMedication` | application/routes.py:66-67 | an absent medication id gives NotFound; a present one gives its description and dosage; the patient segment plays no part |
| `Routes.Store.AddPatient` | application/routes.py:86-95 | the first missing key of the six, or an unknown gender, is refused with nothing changed; otherwise exactly one patient with the supplied fields is added under a new key; medications are untouched; links that resolved still resolve |
| `Routes.Store.AddMedication` | application/routes.py:115-124 | a missing key is refused before the owner lookup; an unknown owner gives NotFound with no medication added; an unknown unit is refused; otherwise exactly one medication is added under a new key, owned by the given patient, and only that patient's set of medications grows |
| `Routes.Store.DeletePatient` | application/routes.py:135-140 | an absent id gives the error body with a success status and changes nothing; a present id removes only that patient; no medication is deleted; afterwards links resolve exactly when the deleted patient owned no medication |
| `Routes.Store.DeleteMedication` | application/routes.py:150-155 | an absent medication id gives NotFound with nothing changed; a present one removes exactly that medication |
| `Routes.Store.UpdatePatient` | application/routes.py:176-191 | an absent id gives NotFound; an unknown gender is refused; otherwise only that patient changes, by the partial overwrite, and no other row changes |
| `Routes.Store.UpdateMedication` | application/routes.py:212-223 | an absent medication id gives NotFound; an unknown unit is refused; otherwise only that medication changes, by the partial overwrite; creationDate and modifyDate in the body are ignored |

## Left out

- HTTP routing, reading `request.json`, building JSON responses and the `index` route are not modelled. A handler takes its path segments and a body record, and returns a `Response` value.
- The view functions at application/routes.py:58, 143 and 194 declare no `patient_id` parameter, although their routes have that segment. Flask passes `patient_id` to each as a keyword argument it does not accept, so every request to those three routes fails in the program. This routing defect is not modelled: the methods take the segment and ignore it.
- The ORM session, `get_or_404`, commit and rollback are not modelled. Every handler updates the maps at once, and a failed commit appears as a `Malformed` response with nothing changed.
- DeletePatient: keeps the foreign key of the deleted patient's medications. The program does not: the relationship at application/models.py:23 has the default cascade, so deleting the patient sets `patient_id` to NULL in each of its medications. The medications stay in both. No handler shows a medication's owner, so no response differs. Because the model keeps the key, `LinksResolve` can stop holding after a delete.
- Unknown enumeration strings: the model always refuses them, with nothing changed. In the program, the `Enum` column does not validate strings by default. On a backend without a native enumeration type, such as SQLite, the unknown string is stored; a backend with one refuses it when committing.
- Row order: the model lists each table in ascending key order. The full-table queries at application/routes.py:21 and 37 send no ORDER BY, so the program lists rows in whatever order the backend returns.
- Dates and times of day are opaque strings. The storage layer's parsing and coercion of them is not modelled.
- JSON `null` values, a non-integer dosage, non-integer path segments and a request without a JSON body are excluded by the types of the request records.
- The declared column widths are not checked by the code, and the model does not check them either. `PatchPatientFits` only states that a PUT introduces no text beyond what it is given.
- GetMedications: returns `Ok` with a list whose entries hold the `Unit` value. In the program, each entry's `unit` is a member of a plain `enum.Enum`, and Flask's JSON encoder cannot serialize one. So GET /medications (application/routes.py:41-43) fails whenever at least one medication is stored.
- Integer width: `dosage` (application/models.py:49) and both primary keys are `Integer` columns, but the model uses unbounded integers. A value the column cannot hold fails when the program commits; the model accepts it.
- Key assignment: the model never reuses a key. A storage engine that assigns max-key-plus-one can reuse the key of a deleted last row.
- Concurrent requests are not modelled. Each handler runs to completion on its own.
- application/__init__.py is app wiring: configuration, extension setup and table creation. It is represented only by the empty store its constructor yields.
- cron/cron_job.py registers an external scheduled job and has no logic to model.
