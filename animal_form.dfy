/**
 * The add/edit modal's form data. `useState(animal || defaults)` reads the `animal` prop only
 * when the modal first mounts; the page mounts the modal once, before any record is selected,
 * and never remounts it, so the form keeps the data it started with.
 */
module AnimalForm {
  import opened Wrappers
  import opened AnimalTypes

  /** The empty add form: blank texts, age and weight 1, a healthy male dog. */
  const AddDefaults: AnimalPatch := AnimalPatch(
    None, Some(""), Some(Dog), Some(""), Some(1.0), Some(1.0), Some(Male), Some(Healthy), None,
    None, Some(""), Some(""), None, None, None, Some(""), Some(""), Some(""))

  /**
   * The data the form starts with, given the record passed when it mounts: that record's
   * fields, or the add defaults, which fill in every field the add handler needs.
   */
  function InitialForm(animal: Option<Animal>): (p: AnimalPatch)
    ensures animal.Some? ==> Merge(animal.value, p) == animal.value
    ensures animal.None? ==> CarriesRequiredFields(p) && p.id.None?
  {
    match animal
    case Some(b) => PatchOf(b)
    case None => AddDefaults
  }

  /**
   * The browser's check of the form's `required` text inputs: the name, breed, owner's name
   * and owner's phone must be filled in, or the submit handler never runs.
   */
  predicate PassesRequired(p: AnimalPatch) {
    && p.name.Some? && p.name.value != "" && p.breed.Some? && p.breed.value != ""
    && p.ownerName.Some? && p.ownerName.value != "" && p.ownerPhone.Some? && p.ownerPhone.value != ""
  }

  /** The add defaults leave the required fields empty, so they cannot be submitted as they are. */
  lemma DefaultsAreRefused()
    ensures !PassesRequired(AddDefaults)
  {
  }

  /**
   * As the page is written: the modal mounted with no record, so the first edit of `b` starts
   * from the add defaults. Once the required fields are filled in, saving spreads the rest of
   * the defaults over `b`: it becomes a healthy male dog of age and weight 1 with blank colour,
   * microchip and insurance number, whatever it was before.
   */
  lemma FirstEditAsWritten(b: Animal, name: string, breed: string, ownerName: string, ownerPhone: string)
    requires name != "" && breed != "" && ownerName != "" && ownerPhone != ""
    ensures var form := InitialForm(None).(name := Some(name), breed := Some(breed),
                                           ownerName := Some(ownerName), ownerPhone := Some(ownerPhone));
      var edited := Merge(b, form);
      && PassesRequired(form)
      && edited.id == b.id && edited.lastCheckup == b.lastCheckup && edited.medicalHistory == b.medicalHistory
      && edited.name == name && edited.breed == breed && edited.ownerName == ownerName && edited.ownerPhone == ownerPhone
      && edited.kind == Dog && edited.age == 1.0 && edited.weight == 1.0 && edited.gender == Male
      && edited.status == Healthy
      && edited.color == Some("") && edited.microchip == Some("") && edited.insuranceNumber == Some("")
      && (b.kind != Dog || b.status != Healthy || b.age != 1.0 ==> edited != b)
  {
  }

  /** With the modal remounted per selected record, saving an edit without a change keeps the record. */
  lemma UnchangedEditKeyed(b: Animal)
    ensures Merge(b, InitialForm(Some(b))) == b
  {
  }
}
