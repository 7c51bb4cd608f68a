/** The request handlers of application/routes.py, over a store that keeps the
    `patient` and `medication` tables as maps from primary key to row. */
module Routes {
  import opened Wrappers
  import opened Models

  // ---------------------------------------------------------------------
  // Request bodies
  // ---------------------------------------------------------------------

  /** The JSON body of POST /patients or PUT /patients/{id}; a field is None
      when its key is absent from the body. */
  datatype PatientBody = PatientBody(
    firstName: Option<string>,
    lastName: Option<string>,
    description: Option<string>,
    gender: Option<string>,
    dateOfBirth: Option<Date>,
    modifyDate: Option<Date>)
  {
    /** Which keys are present, in the order the POST handler reads them. */
    function Presence(): seq<bool> {
      [firstName.Some?, lastName.Some?, description.Some?,
       gender.Some?, dateOfBirth.Some?, modifyDate.Some?]
    }

    predicate AllKeysPresent() {
      firstName.Some? && lastName.Some? && description.Some?
      && gender.Some? && dateOfBirth.Some? && modifyDate.Some?
    }

    /** The gender, if given, names a member of the enumeration. */
    predicate GenderValid() {
      gender.Some? ==> ParseGender(gender.value).Some?
    }
  }

  const PatientKeys: seq<string> :=
    ["firstName", "lastName", "description", "gender", "dateOfBirth", "modifyDate"]

  /** The JSON body of POST /patients/{id} or PUT /patients/{id}/{medId}. */
  datatype MedicationBody = MedicationBody(
    description: Option<string>,
    dosage: Option<int>,
    unit: Option<string>,
    time: Option<TimeOfDay>,
    creationDate: Option<Date>,
    modifyDate: Option<Date>)
  {
    function Presence(): seq<bool> {
      [description.Some?, dosage.Some?, unit.Some?,
       time.Some?, creationDate.Some?, modifyDate.Some?]
    }

    predicate AllKeysPresent() {
      description.Some? && dosage.Some? && unit.Some?
      && time.Some? && creationDate.Some? && modifyDate.Some?
    }

    predicate UnitValid() {
      unit.Some? ==> ParseUnit(unit.value).Some?
    }
  }

  const MedicationKeys: seq<string> :=
    ["description", "dosage", "unit", "time", "creationDate", "modifyDate"]

  /** The position of the first key that is absent, or |present| when none is.
      A body is read key by key, so this is the key whose lookup fails. */
  function FirstAbsent(present: seq<bool>): (i: nat)
    ensures i <= |present|
    ensures forall j :: 0 <= j < i ==> present[j]
    ensures i < |present| ==> !present[i]
  {
    if present == [] || !present[0] then 0 else 1 + FirstAbsent(present[1..])
  }

  /** A body holds all six keys exactly when no key is reported absent. */
  lemma AllPatientKeysPresent(b: PatientBody)
    ensures b.AllKeysPresent() <==> FirstAbsent(b.Presence()) == |PatientKeys|
  {
    var present := b.Presence();
    var i := FirstAbsent(present);
    if i < |present| {
      assert !present[i];
    } else {
      assert present[0] && present[1] && present[2] && present[3] && present[4] && present[5];
    }
  }

  lemma AllMedicationKeysPresent(b: MedicationBody)
    ensures b.AllKeysPresent() <==> FirstAbsent(b.Presence()) == |MedicationKeys|
  {
    var present := b.Presence();
    var i := FirstAbsent(present);
    if i < |present| {
      assert !present[i];
    } else {
      assert present[0] && present[1] && present[2] && present[3] && present[4] && present[5];
    }
  }

  /** The first absent key is determined by where the gap is. */
  lemma FirstAbsentIs(present: seq<bool>, i: nat)
    requires i < |present| && !present[i]
    requires forall j :: 0 <= j < i ==> present[j]
    ensures FirstAbsent(present) == i
  {
  }

  // ---------------------------------------------------------------------
  // Responses
  // ---------------------------------------------------------------------

  /** The fields GET /patients and GET /patients/{id} show of a patient. */
  datatype PatientSummary = PatientSummary(firstName: string, lastName: string, description: string)

  /** The fields GET /medications shows of a medication. */
  datatype MedicationSummary = MedicationSummary(description: string, dosage: int, unit: Unit)

  function PatientSummaryOf(p: Patient): PatientSummary {
    PatientSummary(p.firstName, p.lastName, p.description)
  }

  function MedicationSummaryOf(m: Medication): MedicationSummary {
    MedicationSummary(m.description, m.dosage, m.unit)
  }

  /** A JSON body returned with a success status. */
  datatype Body =
    | Message(message: string)
    | ErrorBody(error: string)
    | PatientList(patients: seq<PatientSummary>)
    | MedicationList(medications: seq<MedicationSummary>)
    | PatientDetail(patient: PatientSummary)
    | MedicationDetail(description: string, dosage: int)

  /** Why a request body was refused: a required key is absent, or an
      enumeration column was given a string that names no member. */
  datatype Failure = MissingKey(key: string) | NotAnEnumValue(value: string)

  datatype Response = Ok(body: Body) | NotFound | Malformed(failure: Failure)

  /** The message of a successful POST. */
  const Added := "successful"
  /** The message of a successful PUT or DELETE. */
  const Done := "Successful"
  /** The error text DELETE /patients/{id} returns, with a success status,
      for an absent patient. */
  const NotFoundText := "not found"

  // ---------------------------------------------------------------------
  // Row order
  // ---------------------------------------------------------------------

  /** The ids in `ids` that lie in [1, n), in ascending order: the order in
      which the model lists a table (see OrderedIdsSorted and
      OrderedIdsComplete). */
  function OrderedIds(ids: set<int>, n: int): (rows: seq<int>)
    ensures forall i :: 0 <= i < |rows| ==> rows[i] in ids && 1 <= rows[i] < n
    decreases n
  {
    if n <= 1 then [] else OrderedIds(ids, n - 1) + (if n - 1 in ids then [n - 1] else [])
  }

  /** Each id is listed after every smaller one. */
  lemma {:induction false} OrderedIdsSorted(ids: set<int>, n: int)
    ensures forall i, j :: 0 <= i < j < |OrderedIds(ids, n)| ==> OrderedIds(ids, n)[i] < OrderedIds(ids, n)[j]
    decreases n
  {
    if n > 1 {
      OrderedIdsSorted(ids, n - 1);
      var front := OrderedIds(ids, n - 1);
      assert forall i, j :: 0 <= i < j < |front| ==> front[i] < front[j];
      var rows := OrderedIds(ids, n);
      assert rows == front + (if n - 1 in ids then [n - 1] else []);
      forall i, j | 0 <= i < j < |rows|
        ensures rows[i] < rows[j]
      {
        if j < |front| {
          assert rows[i] == front[i] && rows[j] == front[j];
        } else {
          assert rows[i] == front[i] < n - 1 == rows[j];
        }
      }
    }
  }

  /** Every id in range is listed. */
  lemma {:induction false} OrderedIdsComplete(ids: set<int>, n: int, id: int)
    requires id in ids && 1 <= id < n
    ensures id in OrderedIds(ids, n)
    decreases n
  {
    if id < n - 1 {
      OrderedIdsComplete(ids, n - 1, id);
    }
  }

  /** OrderedIds looks only at the ids below n. */
  lemma {:induction false} OrderedIdsAgree(a: set<int>, b: set<int>, n: int)
    requires forall id :: 1 <= id < n ==> (id in a <==> id in b)
    ensures OrderedIds(a, n) == OrderedIds(b, n)
    decreases n
  {
    if n > 1 {
      OrderedIdsAgree(a, b, n - 1);
    }
  }

  /** When every id lies in [1, n), each is listed exactly once. */
  lemma {:induction false} OrderedIdsCount(ids: set<int>, n: int)
    requires forall id :: id in ids ==> 1 <= id < n
    ensures |OrderedIds(ids, n)| == |ids|
    decreases n
  {
    if n <= 1 {
      assert forall id :: id !in ids;
      assert ids == {};
    } else {
      var rest := ids - {n - 1};
      OrderedIdsCount(rest, n - 1);
      OrderedIdsAgree(ids, rest, n - 1);
      if n - 1 in ids {
        assert OrderedIds(ids, n) == OrderedIds(rest, n - 1) + [n - 1];
        assert |ids| == |rest| + 1;
      } else {
        assert OrderedIds(ids, n) == OrderedIds(rest, n - 1);
        assert ids == rest;
      }
    }
  }

  // ---------------------------------------------------------------------
  // Partial overwrite
  // ---------------------------------------------------------------------

  /** A patient after PUT: each of firstName, lastName, description, gender
      and dateOfBirth present in the body replaces the stored value; the id
      and modifyDate are never touched. */
  function PatchPatient(p: Patient, b: PatientBody): (q: Patient)
    requires b.GenderValid()
    ensures q.id == p.id && q.modifyDate == p.modifyDate
    ensures q.firstName == b.firstName.GetOr(p.firstName)
    ensures q.lastName == b.lastName.GetOr(p.lastName)
    ensures q.description == b.description.GetOr(p.description)
    ensures q.gender == (if b.gender.Some? then ParseGender(b.gender.value).value else p.gender)
    ensures q.dateOfBirth == b.dateOfBirth.GetOr(p.dateOfBirth)
  {
    Patient(
      p.id,
      b.description.GetOr(p.description),
      b.firstName.GetOr(p.firstName),
      b.lastName.GetOr(p.lastName),
      if b.gender.Some? then ParseGender(b.gender.value).value else p.gender,
      b.dateOfBirth.GetOr(p.dateOfBirth),
      p.modifyDate)
  }

  /** A medication after PUT: description, dosage, unit and time are replaced
      when present; creationDate and modifyDate in the body are ignored. */
  function PatchMedication(m: Medication, b: MedicationBody): (q: Medication)
    requires b.UnitValid()
    ensures q.id == m.id && q.patientId == m.patientId
    ensures q.creationDate == m.creationDate && q.modifyDate == m.modifyDate
    ensures q.description == b.description.GetOr(m.description)
    ensures q.dosage == b.dosage.GetOr(m.dosage)
    ensures q.unit == (if b.unit.Some? then ParseUnit(b.unit.value).value else m.unit)
    ensures q.time == b.time.GetOr(m.time)
  {
    Medication(
      m.id,
      b.description.GetOr(m.description),
      b.dosage.GetOr(m.dosage),
      if b.unit.Some? then ParseUnit(b.unit.value).value else m.unit,
      b.time.GetOr(m.time),
      m.creationDate,
      m.modifyDate,
      m.patientId)
  }

  /** Repeating the same PUT changes nothing more. */
  lemma PatchPatientIdempotent(p: Patient, b: PatientBody)
    requires b.GenderValid()
    ensures PatchPatient(PatchPatient(p, b), b) == PatchPatient(p, b)
  {
  }

  lemma PatchMedicationIdempotent(m: Medication, b: MedicationBody)
    requires b.UnitValid()
    ensures PatchMedication(PatchMedication(m, b), b) == PatchMedication(m, b)
  {
  }

  /** A PUT whose body holds none of the updatable keys leaves the row as it was. */
  lemma PatchPatientEmpty(p: Patient, b: PatientBody)
    requires b.firstName.None? && b.lastName.None? && b.description.None?
    requires b.gender.None? && b.dateOfBirth.None?
    ensures PatchPatient(p, b) == p
  {
  }

  lemma PatchMedicationEmpty(m: Medication, b: MedicationBody)
    requires b.description.None? && b.dosage.None? && b.unit.None? && b.time.None?
    ensures PatchMedication(m, b) == m
  {
  }

  /** A PUT introduces no text other than what its body supplies, so a row
      within the declared column widths stays within them when the new values are. */
  lemma PatchPatientFits(p: Patient, b: PatientBody)
    requires b.GenderValid() && p.FitsColumns()
    requires b.description.Some? ==> |b.description.value| <= DescriptionMaxLength
    requires b.firstName.Some? ==> |b.firstName.value| <= NameMaxLength
    requires b.lastName.Some? ==> |b.lastName.value| <= NameMaxLength
    ensures PatchPatient(p, b).FitsColumns()
  {
  }

  lemma PatchMedicationFits(m: Medication, b: MedicationBody)
    requires b.UnitValid() && m.FitsColumns()
    requires b.description.Some? ==> |b.description.value| <= DescriptionMaxLength
    ensures PatchMedication(m, b).FitsColumns()
  {
  }

  // ---------------------------------------------------------------------
  // The store
  // ---------------------------------------------------------------------

  /** The two tables, keyed by primary key, and the next key each will assign. */
  class Store {
    var patients: map<int, Patient>
    var medications: map<int, Medication>
    var nextPatientId: int
    var nextMedicationId: int

    /** Every row sits under its own primary key, and every key is below the
        next one to be assigned, so a fresh key is never in use. */
    ghost predicate Valid()
      reads this
    {
      && 1 <= nextPatientId
      && 1 <= nextMedicationId
      && (forall id :: id in patients ==> 1 <= id < nextPatientId && patients[id].id == id)
      && (forall id :: id in medications ==> 1 <= id < nextMedicationId && medications[id].id == id)
    }

    /** Every medication that names an owner names a stored patient. The
        owner is checked when a medication is added. Deleting a patient
        keeps its medications and their foreign key, so this can stop holding. */
    ghost predicate LinksResolve()
      reads this
    {
      forall m :: m in medications && medications[m].patientId.Some? ==>
        medications[m].patientId.value in patients
    }

    constructor ()
      ensures Valid()
      ensures patients == map[] && medications == map[]
      ensures nextPatientId == 1 && nextMedicationId == 1
    {
      patients := map[];
      medications := map[];
      nextPatientId := 1;
      nextMedicationId := 1;
    }

    /** No two rows of one table share a primary key. */
    lemma PrimaryKeysUnique()
      requires Valid()
      ensures forall a, b :: a in patients && b in patients && patients[a].id == patients[b].id ==> a == b
      ensures forall a, b :: a in medications && b in medications && medications[a].id == medications[b].id ==> a == b
    {
    }

    /** GET /patients: one {firstName, lastName, description} entry per stored
        patient, in key order; an empty list when there are none. */
    method GetPatients() returns (r: Response)
      requires Valid()
      ensures r.Ok? && r.body.PatientList?
      ensures |r.body.patients| == |patients|
      ensures var rows := OrderedIds(patients.Keys, nextPatientId);
        |rows| == |r.body.patients|
        && forall i :: 0 <= i < |rows| ==> r.body.patients[i] == PatientSummaryOf(patients[rows[i]])
      ensures forall id :: id in patients ==> PatientSummaryOf(patients[id]) in r.body.patients
      ensures r.body.patients == [] <==> patients == map[]
    {
      // A snapshot of the table, listed in key order.
      var table := patients;
      var rows := OrderedIds(table.Keys, nextPatientId);
      OrderedIdsCount(table.Keys, nextPatientId);
      var output: seq<PatientSummary> := [];
      for i := 0 to |rows|
        invariant |output| == i
        invariant forall k :: 0 <= k < i ==> output[k] == PatientSummaryOf(table[rows[k]])
      {
        output := output + [PatientSummaryOf(table[rows[i]])];
      }
      forall id | id in table
        ensures PatientSummaryOf(table[id]) in output
      {
        OrderedIdsComplete(table.Keys, nextPatientId, id);
        var k :| 0 <= k < |rows| && rows[k] == id;
        assert output[k] == PatientSummaryOf(table[id]);
      }
      r := Ok(PatientList(output));
    }

    /** GET /medications: one {description, dosage, unit} entry per stored
        medication, in key order. */
    method GetMedications() returns (r: Response)
      requires Valid()
      ensures r.Ok? && r.body.MedicationList?
      ensures |r.body.medications| == |medications|
      ensures var rows := OrderedIds(medications.Keys, nextMedicationId);
        |rows| == |r.body.medications|
        && forall i :: 0 <= i < |rows| ==> r.body.medications[i] == MedicationSummaryOf(medications[rows[i]])
      ensures forall id :: id in medications ==> MedicationSummaryOf(medications[id]) in r.body.medications
      ensures r.body.medications == [] <==> medications == map[]
    {
      // A snapshot of the table, listed in key order.
      var table := medications;
      var rows := OrderedIds(table.Keys, nextMedicationId);
      OrderedIdsCount(table.Keys, nextMedicationId);
      var output: seq<MedicationSummary> := [];
      for i := 0 to |rows|
        invariant |output| == i
        invariant forall k :: 0 <= k < i ==> output[k] == MedicationSummaryOf(table[rows[k]])
      {
        output := output + [MedicationSummaryOf(table[rows[i]])];
      }
      forall id | id in table
        ensures MedicationSummaryOf(table[id]) in output
      {
        OrderedIdsComplete(table.Keys, nextMedicationId, id);
        var k :| 0 <= k < |rows| && rows[k] == id;
        assert output[k] == MedicationSummaryOf(table[id]);
      }
      r := Ok(MedicationList(output));
    }

    /** GET /patients/{id}. */
    method GetPatient(id: int) returns (r: Response)
      ensures id !in patients ==> r == NotFound
      ensures id in patients ==> r.Ok? && r.body == PatientDetail(PatientSummaryOf(patients[id]))
    {
      if id !in patients {
        return NotFound;
      }
      var patient := patients[id];
      r := Ok(PatientDetail(PatientSummaryOf(patient)));
    }

    /** GET /patients/{patientId}/{medicationId}: the patient segment is not
        consulted, and only description and dosage are shown. */
    method GetMedication(patientId: int, medicationId: int) returns (r: Response)
      ensures medicationId !in medications ==> r == NotFound
      ensures medicationId in medications ==>
        r.Ok? && r.body.MedicationDetail?
        && r.body.description == medications[medicationId].description
        && r.body.dosage == medications[medicationId].dosage
    {
      if medicationId !in medications {
        return NotFound;
      }
      var medication := medications[medicationId];
      r := Ok(MedicationDetail(medication.description, medication.dosage));
    }

    /** POST /patients: all six keys are required; the new row takes the next
        patient key. */
    method AddPatient(b: PatientBody) returns (r: Response)
      requires Valid()
      modifies this
      ensures Valid()
      ensures old(LinksResolve()) ==> LinksResolve()
      ensures medications == old(medications) && nextMedicationId == old(nextMedicationId)
      ensures !b.AllKeysPresent() ==>
        && FirstAbsent(b.Presence()) < |PatientKeys|
        && r == Malformed(MissingKey(PatientKeys[FirstAbsent(b.Presence())]))
      ensures b.AllKeysPresent() && !b.GenderValid() ==>
        r == Malformed(NotAnEnumValue(b.gender.value))
      ensures !r.Ok? ==> patients == old(patients) && nextPatientId == old(nextPatientId)
      ensures b.AllKeysPresent() && b.GenderValid() ==>
        && r == Ok(Message(Added))
        && old(nextPatientId) !in old(patients)
        && nextPatientId == old(nextPatientId) + 1
        && patients == old(patients)[old(nextPatientId) := Patient(
             old(nextPatientId), b.description.value, b.firstName.value, b.lastName.value,
             ParseGender(b.gender.value).value, b.dateOfBirth.value, b.modifyDate.value)]
    {
      if b.firstName.None? {
        FirstAbsentIs(b.Presence(), 0);
        return Malformed(MissingKey("firstName"));
      }
      if b.lastName.None? {
        FirstAbsentIs(b.Presence(), 1);
        return Malformed(MissingKey("lastName"));
      }
      if b.description.None? {
        FirstAbsentIs(b.Presence(), 2);
        return Malformed(MissingKey("description"));
      }
      if b.gender.None? {
        FirstAbsentIs(b.Presence(), 3);
        return Malformed(MissingKey("gender"));
      }
      if b.dateOfBirth.None? {
        FirstAbsentIs(b.Presence(), 4);
        return Malformed(MissingKey("dateOfBirth"));
      }
      if b.modifyDate.None? {
        FirstAbsentIs(b.Presence(), 5);
        return Malformed(MissingKey("modifyDate"));
      }
      // The model refuses a gender string that names no member.
      var gender := ParseGender(b.gender.value);
      if gender.None? {
        return Malformed(NotAnEnumValue(b.gender.value));
      }
      var id := nextPatientId;
      var patient := Patient(id, b.description.value, b.firstName.value, b.lastName.value,
                             gender.value, b.dateOfBirth.value, b.modifyDate.value);
      patients := patients[id := patient];
      nextPatientId := nextPatientId + 1;
      r := Ok(Message(Added));
    }

    /** POST /patients/{patientId}: all six keys are required and are read
        before the owner is looked up; the new row is linked to its owner. */
    method AddMedication(patientId: int, b: MedicationBody) returns (r: Response)
      requires Valid()
      modifies this
      ensures Valid()
      ensures old(LinksResolve()) ==> LinksResolve()
      ensures patients == old(patients) && nextPatientId == old(nextPatientId)
      ensures !b.AllKeysPresent() ==>
        && FirstAbsent(b.Presence()) < |MedicationKeys|
        && r == Malformed(MissingKey(MedicationKeys[FirstAbsent(b.Presence())]))
      ensures b.AllKeysPresent() && patientId !in patients ==> r == NotFound
      ensures b.AllKeysPresent() && patientId in patients && !b.UnitValid() ==>
        r == Malformed(NotAnEnumValue(b.unit.value))
      ensures !r.Ok? ==> medications == old(medications) && nextMedicationId == old(nextMedicationId)
      ensures b.AllKeysPresent() && patientId in patients && b.UnitValid() ==>
        && r == Ok(Message(Added))
        && old(nextMedicationId) !in old(medications)
        && nextMedicationId == old(nextMedicationId) + 1
        && medications == old(medications)[old(nextMedicationId) := Medication(
             old(nextMedicationId), b.description.value, b.dosage.value,
             ParseUnit(b.unit.value).value, b.time.value, b.creationDate.value,
             b.modifyDate.value, Some(patientId))]
      ensures r.Ok? ==>
        && OwnedBy(medications, patientId) == OwnedBy(old(medications), patientId) + {old(nextMedicationId)}
        && forall q :: q != patientId ==> OwnedBy(medications, q) == OwnedBy(old(medications), q)
    {
      if b.description.None? {
        FirstAbsentIs(b.Presence(), 0);
        return Malformed(MissingKey("description"));
      }
      if b.dosage.None? {
        FirstAbsentIs(b.Presence(), 1);
        return Malformed(MissingKey("dosage"));
      }
      if b.unit.None? {
        FirstAbsentIs(b.Presence(), 2);
        return Malformed(MissingKey("unit"));
      }
      if b.time.None? {
        FirstAbsentIs(b.Presence(), 3);
        return Malformed(MissingKey("time"));
      }
      if b.creationDate.None? {
        FirstAbsentIs(b.Presence(), 4);
        return Malformed(MissingKey("creationDate"));
      }
      if b.modifyDate.None? {
        FirstAbsentIs(b.Presence(), 5);
        return Malformed(MissingKey("modifyDate"));
      }
      if patientId !in patients {
        return NotFound;
      }
      var unit := ParseUnit(b.unit.value);
      if unit.None? {
        return Malformed(NotAnEnumValue(b.unit.value));
      }
      var id := nextMedicationId;
      var medication := Medication(id, b.description.value, b.dosage.value, unit.value,
                                   b.time.value, b.creationDate.value, b.modifyDate.value,
                                   Some(patientId));
      medications := medications[id := medication];
      nextMedicationId := nextMedicationId + 1;
      r := Ok(Message(Added));
    }

    /** DELETE /patients/{id}: an absent patient yields an error body with a
        success status; the patient's medications are kept, with their
        foreign key unchanged. */
    method DeletePatient(id: int) returns (r: Response)
      requires Valid()
      modifies this
      ensures Valid()
      ensures old(LinksResolve()) ==> (LinksResolve() <==> OwnedBy(medications, id) == {})
      ensures medications == old(medications)
      ensures nextPatientId == old(nextPatientId) && nextMedicationId == old(nextMedicationId)
      ensures id !in old(patients) ==> r == Ok(ErrorBody(NotFoundText)) && patients == old(patients)
      ensures id in old(patients) ==> r == Ok(Message(Done)) && patients == old(patients) - {id}
    {
      ghost var owned := OwnedBy(medications, id);
      if id !in patients {
        forall m | m in owned && LinksResolve()
          ensures false
        { }
        return Ok(ErrorBody(NotFoundText));
      }
      patients := patients - {id};
      assert forall m :: m in owned ==> m in medications && medications[m].patientId == Some(id);
      forall m | m in owned && LinksResolve()
        ensures false
      { }
      r := Ok(Message(Done));
    }

    /** DELETE /patients/{patientId}/{medicationId}: the patient segment is
        not consulted. */
    method DeleteMedication(patientId: int, medicationId: int) returns (r: Response)
      requires Valid()
      modifies this
      ensures Valid()
      ensures old(LinksResolve()) ==> LinksResolve()
      ensures patients == old(patients)
      ensures nextPatientId == old(nextPatientId) && nextMedicationId == old(nextMedicationId)
      ensures medicationId !in old(medications) ==> r == NotFound && medications == old(medications)
      ensures medicationId in old(medications) ==>
        r == Ok(Message(Done)) && medications == old(medications) - {medicationId}
    {
      if medicationId !in medications {
        return NotFound;
      }
      medications := medications - {medicationId};
      r := Ok(Message(Done));
    }

    /** PUT /patients/{id}: overwrites the fields whose keys are present. */
    method UpdatePatient(id: int, b: PatientBody) returns (r: Response)
      requires Valid()
      modifies this
      ensures Valid()
      ensures old(LinksResolve()) ==> LinksResolve()
      ensures medications == old(medications)
      ensures nextPatientId == old(nextPatientId) && nextMedicationId == old(nextMedicationId)
      ensures id !in old(patients) ==> r == NotFound
      ensures id in old(patients) && !b.GenderValid() ==> r == Malformed(NotAnEnumValue(b.gender.value))
      ensures !r.Ok? ==> patients == old(patients)
      ensures id in old(patients) && b.GenderValid() ==>
        r == Ok(Message(Done)) && patients == old(patients)[id := PatchPatient(old(patients)[id], b)]
    {
      if id !in patients {
        return NotFound;
      }
      var patient := patients[id];
      if b.firstName.Some? { patient := patient.(firstName := b.firstName.value); }
      if b.lastName.Some? { patient := patient.(lastName := b.lastName.value); }
      if b.description.Some? { patient := patient.(description := b.description.value); }
      if b.gender.Some? {
        // An unknown gender is refused and the stored row is kept.
        var gender := ParseGender(b.gender.value);
        if gender.None? {
          return Malformed(NotAnEnumValue(b.gender.value));
        }
        patient := patient.(gender := gender.value);
      }
      if b.dateOfBirth.Some? { patient := patient.(dateOfBirth := b.dateOfBirth.value); }
      patients := patients[id := patient];
      r := Ok(Message(Done));
    }

    /** PUT /patients/{patientId}/{medicationId}: overwrites the fields whose
        keys are present; the patient segment is not consulted. */
    method UpdateMedication(patientId: int, medicationId: int, b: MedicationBody) returns (r: Response)
      requires Valid()
      modifies this
      ensures Valid()
      ensures old(LinksResolve()) ==> LinksResolve()
      ensures patients == old(patients)
      ensures nextPatientId == old(nextPatientId) && nextMedicationId == old(nextMedicationId)
      ensures medicationId !in old(medications) ==> r == NotFound
      ensures medicationId in old(medications) && !b.UnitValid() ==> r == Malformed(NotAnEnumValue(b.unit.value))
      ensures !r.Ok? ==> medications == old(medications)
      ensures medicationId in old(medications) && b.UnitValid() ==>
        && r == Ok(Message(Done))
        && medications == old(medications)[medicationId := PatchMedication(old(medications)[medicationId], b)]
    {
      if medicationId !in medications {
        return NotFound;
      }
      var medication := medications[medicationId];
      if b.description.Some? { medication := medication.(description := b.description.value); }
      if b.dosage.Some? { medication := medication.(dosage := b.dosage.value); }
      if b.unit.Some? {
        var unit := ParseUnit(b.unit.value);
        if unit.None? {
          return Malformed(NotAnEnumValue(b.unit.value));
        }
        medication := medication.(unit := unit.value);
      }
      if b.time.Some? { medication := medication.(time := b.time.value); }
      medications := medications[medicationId := medication];
      r := Ok(Message(Done));
    }
  }
}
