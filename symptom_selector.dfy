/**
 * The symptom step of the diagnosis wizard: toggling a symptom id in the selection and
 * the search-and-category filter over the symptom catalog. "Clear all" hands the wizard
 * the empty list and is `DiagnosisPage.Wizard.ClearSymptoms`.
 */
module SymptomSelector {
  import opened Text
  import opened Seqs

  /** A catalog entry (`symptomsData`): id, display name, category id and icon. */
  datatype Symptom = Symptom(id: string, name: string, category: string, icon: string)

  /** The category id that switches the category filter off. */
  const AllCategories: string := "all"

  /** `selected.filter(id => id !== symptomId)`: every occurrence of `symptomId` dropped. */
  function RemoveAll(selected: seq<string>, symptomId: string): (r: seq<string>)
    ensures symptomId !in r
    ensures IsSubsequence(r, selected)
    ensures symptomId in selected <==> |r| < |selected|
    ensures forall x :: x != symptomId ==> multiset(r)[x] == multiset(selected)[x]
  {
    FilterMultiset(selected, id => id != symptomId);
    FilterShortens(selected, id => id != symptomId);
    Filter(selected, id => id != symptomId)
  }

  /**
   * `toggleSymptom`: drop the id when it is selected, otherwise append it at the end.
   * Afterwards the id is selected exactly when it was not, and every other id keeps its
   * multiplicity.
   */
  function Toggle(selected: seq<string>, symptomId: string): (r: seq<string>)
    ensures symptomId in r <==> symptomId !in selected
    ensures forall x :: x != symptomId ==> multiset(r)[x] == multiset(selected)[x]
    ensures symptomId !in selected ==> r == selected + [symptomId]
    ensures symptomId in selected ==> IsSubsequence(r, selected) && |r| < |selected|
  {
    if symptomId in selected then
      RemoveAll(selected, symptomId)
    else
      selected + [symptomId]
  }

  /** Toggling an id that is not selected, twice, gives back exactly the original list. */
  lemma ToggleTwiceAbsent(selected: seq<string>, symptomId: string)
    requires symptomId !in selected
    ensures Toggle(Toggle(selected, symptomId), symptomId) == selected
  {
    var p := (id: string) => id != symptomId;
    FilterAppend(selected, [symptomId], p);
    FilterKeepsAll(selected, p);
    assert Filter([symptomId], p) == [];
  }

  /** Toggling a selected id twice moves it to the end: the same ids are selected as before. */
  lemma ToggleTwicePresent(selected: seq<string>, symptomId: string)
    requires symptomId in selected
    ensures Toggle(Toggle(selected, symptomId), symptomId) == RemoveAll(selected, symptomId) + [symptomId]
    ensures forall x :: x in Toggle(Toggle(selected, symptomId), symptomId) <==> x in selected
  {
    var r := Toggle(Toggle(selected, symptomId), symptomId);
    forall x ensures x in r <==> x in selected {
      if x != symptomId {
        assert x in r <==> x in multiset(r);
        assert x in selected <==> x in multiset(selected);
      }
    }
  }

  /** A selection without duplicates stays without duplicates through a toggle. */
  lemma ToggleKeepsNoDup(selected: seq<string>, symptomId: string)
    requires NoDup(selected)
    ensures NoDup(Toggle(selected, symptomId))
  {
    if symptomId in selected {
      FilterNoDup(selected, id => id != symptomId);
    } else {
      var r := selected + [symptomId];
      forall i, j | 0 <= i < j < |r| ensures r[i] != r[j] {
        if j == |selected| {
          assert r[i] == selected[i];
        }
      }
    }
  }

  /**
   * One catalog entry passes the filter: its name or its id includes the search term, and
   * the selected category is "all" or its own.
   */
  predicate Matches(symptom: Symptom, searchTerm: string, category: string) {
    && (Includes(symptom.name, searchTerm) || Includes(symptom.id, searchTerm))
    && (category == AllCategories || symptom.category == category)
  }

  /** `filteredSymptoms`: the catalog entries that pass, in catalog order. */
  function FilteredSymptoms(catalog: seq<Symptom>, searchTerm: string, category: string): (r: seq<Symptom>)
    ensures IsSubsequence(r, catalog)
    ensures forall s :: s in r <==> s in catalog && Matches(s, searchTerm, category)
  {
    Filter(catalog, s => Matches(s, searchTerm, category))
  }

  /** With no search term and category "all", the whole catalog is shown. */
  lemma NoFilterShowsCatalog(catalog: seq<Symptom>)
    ensures FilteredSymptoms(catalog, "", AllCategories) == catalog
  {
    forall s | s in catalog ensures Matches(s, "", AllCategories) {
      EmptyIsIncluded(s.name);
    }
    FilterKeepsAll(catalog, s => Matches(s, "", AllCategories));
  }

  /** Searching for an entry's exact name keeps that entry when its category is selected. */
  lemma EntryFindsItself(catalog: seq<Symptom>, symptom: Symptom)
    requires symptom in catalog
    ensures symptom in FilteredSymptoms(catalog, symptom.name, symptom.category)
    ensures symptom in FilteredSymptoms(catalog, symptom.id, AllCategories)
  {
    IncludesSelf(symptom.name);
    IncludesSelf(symptom.id);
  }
}
