/** The two record types of the schema (application/models.py), the two
    enumerations they use, and the small functions defined on them. */
module Models {
  import opened Wrappers

  /** Declared width of the `description` columns of both tables. */
  const DescriptionMaxLength: nat := 160
  /** Declared width of the `first_name` and `last_name` columns. */
  const NameMaxLength: nat := 80

  /** Calendar dates and times of day are kept as the strings the client sent;
      their coercion by the storage layer is not modelled. */
  type Date = string
  type TimeOfDay = string

  // ---------------------------------------------------------------------
  // GenderEnum
  // ---------------------------------------------------------------------

  datatype Gender = Male | Female | Unknown

  /** Every member's value equals its name, so one set serves for both. */
  const GenderNames: set<string> := {"male", "female", "unknown"}

  function GenderName(g: Gender): (s: string)
    ensures s in GenderNames
  {
    match g
    case Male => "male"
    case Female => "female"
    case Unknown => "unknown"
  }

  /** Turns a raw request string into a gender, or fails. */
  function ParseGender(s: string): (r: Option<Gender>)
    ensures r.Some? <==> s in GenderNames
    ensures r.Some? ==> GenderName(r.value) == s
  {
    if s == "male" then Some(Male)
    else if s == "female" then Some(Female)
    else if s == "unknown" then Some(Unknown)
    else None
  }

  lemma GenderRoundTrip(g: Gender)
    ensures ParseGender(GenderName(g)) == Some(g)
  {
  }

  /** No two members share a value. */
  lemma GenderNameInjective(g: Gender, h: Gender)
    ensures GenderName(g) == GenderName(h) ==> g == h
  {
  }

  // ---------------------------------------------------------------------
  // UnitEnum
  // ---------------------------------------------------------------------

  datatype Unit = Kg | G | Mg | Mcg | L | Ml | Cc | Mol | Mmol

  const UnitNames: set<string> := {"kg", "g", "mg", "mcg", "l", "ml", "cc", "mol", "mmol"}

  function UnitName(u: Unit): (s: string)
    ensures s in UnitNames
  {
    match u
    case Kg => "kg"
    case G => "g"
    case Mg => "mg"
    case Mcg => "mcg"
    case L => "l"
    case Ml => "ml"
    case Cc => "cc"
    case Mol => "mol"
    case Mmol => "mmol"
  }

  /** Turns a raw request string into a unit, or fails. */
  function ParseUnit(s: string): (r: Option<Unit>)
    ensures r.Some? <==> s in UnitNames
    ensures r.Some? ==> UnitName(r.value) == s
  {
    if s == "kg" then Some(Kg)
    else if s == "g" then Some(G)
    else if s == "mg" then Some(Mg)
    else if s == "mcg" then Some(Mcg)
    else if s == "l" then Some(L)
    else if s == "ml" then Some(Ml)
    else if s == "cc" then Some(Cc)
    else if s == "mol" then Some(Mol)
    else if s == "mmol" then Some(Mmol)
    else None
  }

  lemma UnitRoundTrip(u: Unit)
    ensures ParseUnit(UnitName(u)) == Some(u)
  {
  }

  lemma UnitNameInjective(u: Unit, v: Unit)
    ensures UnitName(u) == UnitName(v) ==> u == v
  {
  }

  // ---------------------------------------------------------------------
  // Records
  // ---------------------------------------------------------------------

  /** One row of the `patient` table; `id` is its primary key. */
  datatype Patient = Patient(
    id: int,
    description: string,
    firstName: string,
    lastName: string,
    gender: Gender,
    dateOfBirth: Date,
    modifyDate: Date)
  {
    /** The text columns are within their declared widths. */
    predicate FitsColumns() {
      |description| <= DescriptionMaxLength
      && |firstName| <= NameMaxLength
      && |lastName| <= NameMaxLength
    }
  }

  /** One row of the `medication` table; `patientId` is the foreign key to
      its owner, so a medication names at most one patient. */
  datatype Medication = Medication(
    id: int,
    description: string,
    dosage: int,
    unit: Unit,
    time: TimeOfDay,
    creationDate: Date,
    modifyDate: Date,
    patientId: Option<int>)
  {
    predicate FitsColumns() {
      |description| <= DescriptionMaxLength
    }
  }

  /** The text form of a patient: first name, " - ", description. */
  function PatientRepr(p: Patient): (r: string)
    ensures |r| == |p.firstName| + 3 + |p.description|
    ensures r[..|p.firstName|] == p.firstName
    ensures r[|p.firstName|..|p.firstName| + 3] == " - "
    ensures r[|p.firstName| + 3..] == p.description
  {
    p.firstName + " - " + p.description
  }

  // ---------------------------------------------------------------------
  // The one-to-many link
  // ---------------------------------------------------------------------

  /** The ids of the medications in `meds` that the patient `pid` owns. */
  function OwnedBy(meds: map<int, Medication>, pid: int): (owned: set<int>)
    ensures owned <= meds.Keys
    ensures forall m :: m in meds && meds[m].patientId == Some(pid) ==> m in owned
    ensures forall m :: m in owned ==> meds[m].patientId == Some(pid)
  {
    set m | m in meds && meds[m].patientId == Some(pid)
  }

  /** Each medication belongs to at most one patient: the medications owned by
      two different patients are disjoint. */
  lemma OwnershipIsExclusive(meds: map<int, Medication>, p: int, q: int)
    requires p != q
    ensures OwnedBy(meds, p) !! OwnedBy(meds, q)
  {
  }
}
