/** The registry's record of one animal, and the partial record the add/edit form submits. */
module AnimalTypes {
  import opened Wrappers

  datatype AnimalKind = Dog | Cat | Bird | Rabbit | Other {
    /** The string the record stores and the type filter compares with. */
    function Name(): string {
      match this
      case Dog => "dog"
      case Cat => "cat"
      case Bird => "bird"
      case Rabbit => "rabbit"
      case Other => "other"
    }
  }

  datatype Gender = Male | Female

  datatype HealthStatus = Healthy | Sick | Recovering | Critical {
    /** The string the record stores and the status filter compares with. */
    function Name(): string {
      match this
      case Healthy => "healthy"
      case Sick => "sick"
      case Recovering => "recovering"
      case Critical => "critical"
    }
  }

  datatype MedicalRecord = MedicalRecord(
    id: string, date: string, diagnosis: string, treatment: string, veterinarian: string,
    notes: Option<string>, attachments: Option<seq<string>>)

  datatype MedicationStatus = Active | Completed | Missed

  datatype Medication = Medication(
    id: string, name: string, dosage: string, frequency: string,
    startDate: string, endDate: string, status: MedicationStatus)

  /** `Animal`; the JavaScript numbers `age` and `weight` are kept as reals. */
  datatype Animal = Animal(
    id: string,
    name: string,
    kind: AnimalKind,
    breed: string,
    age: real,
    weight: real,
    gender: Gender,
    status: HealthStatus,
    lastCheckup: string,
    nextCheckup: Option<string>,
    ownerName: string,
    ownerPhone: string,
    medicalHistory: seq<MedicalRecord>,
    medications: seq<Medication>,
    images: seq<string>,
    color: Option<string>,
    microchip: Option<string>,
    insuranceNumber: Option<string>)

  /** `Partial<Animal>`: every field may be missing (`None`). */
  datatype AnimalPatch = AnimalPatch(
    id: Option<string>,
    name: Option<string>,
    kind: Option<AnimalKind>,
    breed: Option<string>,
    age: Option<real>,
    weight: Option<real>,
    gender: Option<Gender>,
    status: Option<HealthStatus>,
    lastCheckup: Option<string>,
    nextCheckup: Option<string>,
    ownerName: Option<string>,
    ownerPhone: Option<string>,
    medicalHistory: Option<seq<MedicalRecord>>,
    medications: Option<seq<Medication>>,
    images: Option<seq<string>>,
    color: Option<string>,
    microchip: Option<string>,
    insuranceNumber: Option<string>)

  /** `{ ...animal, ...patch }`: each field the patch carries replaces the record's. */
  function Merge(a: Animal, p: AnimalPatch): Animal {
    Animal(
      p.id.GetOr(a.id),
      p.name.GetOr(a.name),
      p.kind.GetOr(a.kind),
      p.breed.GetOr(a.breed),
      p.age.GetOr(a.age),
      p.weight.GetOr(a.weight),
      p.gender.GetOr(a.gender),
      p.status.GetOr(a.status),
      p.lastCheckup.GetOr(a.lastCheckup),
      if p.nextCheckup.Some? then p.nextCheckup else a.nextCheckup,
      p.ownerName.GetOr(a.ownerName),
      p.ownerPhone.GetOr(a.ownerPhone),
      p.medicalHistory.GetOr(a.medicalHistory),
      p.medications.GetOr(a.medications),
      p.images.GetOr(a.images),
      if p.color.Some? then p.color else a.color,
      if p.microchip.Some? then p.microchip else a.microchip,
      if p.insuranceNumber.Some? then p.insuranceNumber else a.insuranceNumber)
  }

  /** The patch that carries nothing. */
  const EmptyPatch: AnimalPatch := AnimalPatch(
    None, None, None, None, None, None, None, None, None, None, None, None, None, None, None,
    None, None, None)

  /** The patch that carries every field of `b`: the form data of a modal mounted with `b`. */
  function PatchOf(b: Animal): AnimalPatch {
    AnimalPatch(
      Some(b.id), Some(b.name), Some(b.kind), Some(b.breed), Some(b.age), Some(b.weight),
      Some(b.gender), Some(b.status), Some(b.lastCheckup), b.nextCheckup, Some(b.ownerName),
      Some(b.ownerPhone), Some(b.medicalHistory), Some(b.medications), Some(b.images),
      b.color, b.microchip, b.insuranceNumber)
  }

  /**
   * Spreading nothing keeps the record; spreading a whole record over one whose optional
   * fields it also carries gives that record.
   */
  lemma MergeIdentities(a: Animal, b: Animal)
    ensures Merge(a, EmptyPatch) == a
    ensures b.nextCheckup.Some? && b.color.Some? && b.microchip.Some? && b.insuranceNumber.Some?
      ==> Merge(a, PatchOf(b)) == b
  {
  }

  /** A patch without an id keeps the record's id. */
  lemma MergeKeepsId(a: Animal, p: AnimalPatch)
    ensures p.id.None? ==> Merge(a, p).id == a.id
    ensures p.id.Some? ==> Merge(a, p).id == p.id.value
  {
  }

  /** The fields `as Animal` takes for granted: everything the add form always fills in. */
  predicate CarriesRequiredFields(p: AnimalPatch) {
    && p.name.Some? && p.kind.Some? && p.breed.Some? && p.age.Some? && p.weight.Some?
    && p.gender.Some? && p.status.Some? && p.ownerName.Some? && p.ownerPhone.Some?
  }

  /**
   * The record `handleSaveAnimal` builds in add mode: the form's fields, then a fresh id,
   * empty history, medications and images, and today's date as the last check-up.
   */
  function NewAnimal(p: AnimalPatch, newId: string, today: string): (a: Animal)
    requires CarriesRequiredFields(p)
    ensures a.id == newId && a.lastCheckup == today
    ensures a.medicalHistory == [] && a.medications == [] && a.images == []
    ensures a.name == p.name.value && a.kind == p.kind.value && a.status == p.status.value
    ensures a.breed == p.breed.value && a.ownerName == p.ownerName.value
  {
    Animal(
      newId, p.name.value, p.kind.value, p.breed.value, p.age.value, p.weight.value,
      p.gender.value, p.status.value, today, p.nextCheckup, p.ownerName.value,
      p.ownerPhone.value, [], [], [], p.color, p.microchip, p.insuranceNumber)
  }
}
