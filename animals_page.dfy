/**
 * The animal registry page: the filter-then-sort pipeline over the records, paging by six,
 * the five-button page window and the previous / next clamps, and the handlers that delete,
 * add, edit and clear the filters.
 */
module AnimalsPage {
  import opened Wrappers
  import opened Text
  import opened Seqs
  import opened AnimalTypes

  const ItemsPerPage: nat := 6

  /** The select option that switches the type or the status filter off. */
  const AllOption: string := "all"

  const DefaultSort: string := "newest"

  function Min(a: int, b: int): int { if a <= b then a else b }

  function Max(a: int, b: int): int { if a >= b then a else b }

  /** The search box matches a record when its name, breed or owner's name includes the term. */
  predicate MatchesSearch(a: Animal, searchTerm: string) {
    Includes(a.name, searchTerm) || Includes(a.breed, searchTerm) || Includes(a.ownerName, searchTerm)
  }

  /** What a record must satisfy to stay in the list: each of the three filters, or that filter is off. */
  predicate PassesFilters(a: Animal, searchTerm: string, selectedType: string, selectedStatus: string) {
    && (searchTerm == "" || MatchesSearch(a, searchTerm))
    && (selectedType == AllOption || a.kind.Name() == selectedType)
    && (selectedStatus == AllOption || a.status.Name() == selectedStatus)
  }

  /** The search filter, as applied (or not) by the effect. */
  function SearchStage(animals: seq<Animal>, searchTerm: string): seq<Animal> {
    if searchTerm != "" then Filter(animals, (a: Animal) => MatchesSearch(a, searchTerm)) else animals
  }

  /** The type filter, as applied (or not) by the effect. */
  function TypeStage(animals: seq<Animal>, selectedType: string): seq<Animal> {
    if selectedType != AllOption then Filter(animals, (a: Animal) => a.kind.Name() == selectedType) else animals
  }

  /** The status filter, as applied (or not) by the effect. */
  function StatusStage(animals: seq<Animal>, selectedStatus: string): seq<Animal> {
    if selectedStatus != AllOption then Filter(animals, (a: Animal) => a.status.Name() == selectedStatus) else animals
  }

  /** The three filters of the page's effect, each applied only when it is switched on. */
  function FilterAnimals(animals: seq<Animal>, searchTerm: string, selectedType: string, selectedStatus: string): (r: seq<Animal>)
    ensures forall a :: a in r <==> a in animals && PassesFilters(a, searchTerm, selectedType, selectedStatus)
  {
    StatusStage(TypeStage(SearchStage(animals, searchTerm), selectedType), selectedStatus)
  }

  /** `PassesFilters` as a predicate value. */
  function Passer(searchTerm: string, selectedType: string, selectedStatus: string): Animal -> bool {
    a => PassesFilters(a, searchTerm, selectedType, selectedStatus)
  }

  /** A switched-off search filter is one that every record passes. */
  lemma SearchStageIsFilter(animals: seq<Animal>, searchTerm: string)
    ensures SearchStage(animals, searchTerm) == Filter(animals, (a: Animal) => searchTerm == "" || MatchesSearch(a, searchTerm))
  {
    var p := (a: Animal) => searchTerm == "" || MatchesSearch(a, searchTerm);
    if searchTerm != "" {
      FilterCongruent(animals, (a: Animal) => MatchesSearch(a, searchTerm), p);
    } else {
      FilterKeepsAll(animals, p);
    }
  }

  /** A switched-off type filter is one that every record passes. */
  lemma TypeStageIsFilter(animals: seq<Animal>, selectedType: string)
    ensures TypeStage(animals, selectedType) == Filter(animals, (a: Animal) => selectedType == AllOption || a.kind.Name() == selectedType)
  {
    var p := (a: Animal) => selectedType == AllOption || a.kind.Name() == selectedType;
    if selectedType != AllOption {
      FilterCongruent(animals, (a: Animal) => a.kind.Name() == selectedType, p);
    } else {
      FilterKeepsAll(animals, p);
    }
  }

  /** A switched-off status filter is one that every record passes. */
  lemma StatusStageIsFilter(animals: seq<Animal>, selectedStatus: string)
    ensures StatusStage(animals, selectedStatus) == Filter(animals, (a: Animal) => selectedStatus == AllOption || a.status.Name() == selectedStatus)
  {
    var p := (a: Animal) => selectedStatus == AllOption || a.status.Name() == selectedStatus;
    if selectedStatus != AllOption {
      FilterCongruent(animals, (a: Animal) => a.status.Name() == selectedStatus, p);
    } else {
      FilterKeepsAll(animals, p);
    }
  }

  /**
   * The three successive filters are one filter by their conjunction: the result keeps the
   * records' order and each passing record as often as it occurs.
   */
  lemma FilterAnimalsIsOneFilter(animals: seq<Animal>, searchTerm: string, selectedType: string, selectedStatus: string)
    ensures FilterAnimals(animals, searchTerm, selectedType, selectedStatus)
      == Filter(animals, Passer(searchTerm, selectedType, selectedStatus))
    ensures IsSubsequence(FilterAnimals(animals, searchTerm, selectedType, selectedStatus), animals)
  {
    var pS := (a: Animal) => searchTerm == "" || MatchesSearch(a, searchTerm);
    var pT := (a: Animal) => selectedType == AllOption || a.kind.Name() == selectedType;
    var pU := (a: Animal) => selectedStatus == AllOption || a.status.Name() == selectedStatus;
    var pST := (a: Animal) => pS(a) && pT(a);
    var bySearch := SearchStage(animals, searchTerm);
    var byType := TypeStage(bySearch, selectedType);
    SearchStageIsFilter(animals, searchTerm);
    TypeStageIsFilter(bySearch, selectedType);
    StatusStageIsFilter(byType, selectedStatus);
    FilterFuse(animals, pS, pT, pST);
    FilterFuse(animals, pST, pU, Passer(searchTerm, selectedType, selectedStatus));
  }

  /**
   * The sort comparator chosen by `sortBy`. Parsing `lastCheckup` into a time and
   * `localeCompare` are outside the model: `checkupTime` and `nameOrder` stand for them.
   * `checkupTime` is `None` where `new Date(lastCheckup).getTime()` is NaN (a date it cannot
   * parse); a difference involving NaN is NaN, which the sort treats as 0, a tie.
   */
  function Comparator(sortBy: string, checkupTime: Animal -> Option<int>, nameOrder: (string, string) -> int): (Animal, Animal) -> int {
    (a: Animal, b: Animal) =>
      if sortBy == "newest" then TimeDifference(checkupTime(b), checkupTime(a))
      else if sortBy == "oldest" then TimeDifference(checkupTime(a), checkupTime(b))
      else if sortBy == "name" then nameOrder(a.name, b.name)
      else 0
  }

  /** `t1 - t2` on two check-up times, a tie when either is NaN. */
  function TimeDifference(t1: Option<int>, t2: Option<int>): int {
    if t1.Some? && t2.Some? then t1.value - t2.value else 0
  }

  /** `filteredAnimals`: the filtered records, sorted. Sorting only reorders them. */
  function Displayed(animals: seq<Animal>, searchTerm: string, selectedType: string, selectedStatus: string,
                     sortBy: string, checkupTime: Animal -> Option<int>, nameOrder: (string, string) -> int): (r: seq<Animal>)
    ensures multiset(r) == multiset(FilterAnimals(animals, searchTerm, selectedType, selectedStatus))
    ensures forall a :: a in r <==> a in animals && PassesFilters(a, searchTerm, selectedType, selectedStatus)
  {
    var r := Sort(Comparator(sortBy, checkupTime, nameOrder), FilterAnimals(animals, searchTerm, selectedType, selectedStatus));
    assert forall a :: a in r <==> a in multiset(r);
    r
  }

  /** The check-up comparator with an unparsable date read as time 0: a total preorder on all records. */
  function CheckupOrder(sortBy: string, checkupTime: Animal -> Option<int>): (Animal, Animal) -> int {
    (a: Animal, b: Animal) =>
      if sortBy == "newest" then checkupTime(b).GetOr(0) - checkupTime(a).GetOr(0)
      else checkupTime(a).GetOr(0) - checkupTime(b).GetOr(0)
  }

  /** On records whose dates all parse, sorting by check-up sorts by `CheckupOrder`. */
  lemma CheckupSortedByTime(f: seq<Animal>, sortBy: string, checkupTime: Animal -> Option<int>, nameOrder: (string, string) -> int)
    requires sortBy == "newest" || sortBy == "oldest"
    requires forall a :: a in f ==> checkupTime(a).Some?
    ensures SortedBy(CheckupOrder(sortBy, checkupTime), Sort(Comparator(sortBy, checkupTime, nameOrder), f))
  {
    var cmp := Comparator(sortBy, checkupTime, nameOrder);
    var total := CheckupOrder(sortBy, checkupTime);
    assert TotalPreorder(total);
    forall a, b | a in f && b in f ensures cmp(a, b) == total(a, b) {
      assert cmp(a, b) == if sortBy == "newest" then TimeDifference(checkupTime(b), checkupTime(a))
                          else TimeDifference(checkupTime(a), checkupTime(b));
    }
    SortCongruent(cmp, total, f);
    SortSorted(total, f);
  }

  /** When every record's check-up date parses, "newest" lists later check-ups first, "oldest" earlier ones first. */
  lemma DisplayedByCheckup(animals: seq<Animal>, searchTerm: string, selectedType: string, selectedStatus: string,
                           sortBy: string, checkupTime: Animal -> Option<int>, nameOrder: (string, string) -> int)
    requires sortBy == "newest" || sortBy == "oldest"
    requires forall a :: a in animals ==> checkupTime(a).Some?
    ensures var r := Displayed(animals, searchTerm, selectedType, selectedStatus, sortBy, checkupTime, nameOrder);
      forall i, j :: 0 <= i < j < |r| ==>
        && checkupTime(r[i]).Some? && checkupTime(r[j]).Some?
        && if sortBy == "newest" then checkupTime(r[i]).value >= checkupTime(r[j]).value
           else checkupTime(r[i]).value <= checkupTime(r[j]).value
  {
    var f := FilterAnimals(animals, searchTerm, selectedType, selectedStatus);
    CheckupSortedByTime(f, sortBy, checkupTime, nameOrder);
    var r := Displayed(animals, searchTerm, selectedType, selectedStatus, sortBy, checkupTime, nameOrder);
    TimesInOrder(r, sortBy, checkupTime);
  }

  /** A list sorted by `CheckupOrder` whose dates all parse has its times in order. */
  lemma TimesInOrder(r: seq<Animal>, sortBy: string, checkupTime: Animal -> Option<int>)
    requires SortedBy(CheckupOrder(sortBy, checkupTime), r)
    requires forall a :: a in r ==> checkupTime(a).Some?
    ensures forall i, j :: 0 <= i < j < |r| ==>
        && checkupTime(r[i]).Some? && checkupTime(r[j]).Some?
        && if sortBy == "newest" then checkupTime(r[i]).value >= checkupTime(r[j]).value
           else checkupTime(r[i]).value <= checkupTime(r[j]).value
  {
    forall i, j | 0 <= i < j < |r|
      ensures checkupTime(r[i]).Some? && checkupTime(r[j]).Some?
      ensures if sortBy == "newest" then checkupTime(r[i]).value >= checkupTime(r[j]).value
              else checkupTime(r[i]).value <= checkupTime(r[j]).value
    {
      assert NotAfter(CheckupOrder(sortBy, checkupTime), r[i], r[j]);
      assert r[i] in r && r[j] in r;
    }
  }

  /**
   * When no record's check-up date parses (`Date` reads none of the stored dates), every
   * comparison is NaN, so "newest" and "oldest" both leave the filtered order untouched.
   */
  lemma DisplayedUnparsableDates(animals: seq<Animal>, searchTerm: string, selectedType: string, selectedStatus: string,
                                 sortBy: string, checkupTime: Animal -> Option<int>, nameOrder: (string, string) -> int)
    requires sortBy == "newest" || sortBy == "oldest"
    requires forall a :: a in animals ==> checkupTime(a).None?
    ensures Displayed(animals, searchTerm, selectedType, selectedStatus, sortBy, checkupTime, nameOrder)
      == FilterAnimals(animals, searchTerm, selectedType, selectedStatus)
  {
    var cmp := Comparator(sortBy, checkupTime, nameOrder);
    var tie := (a: Animal, b: Animal) => 0;
    var f := FilterAnimals(animals, searchTerm, selectedType, selectedStatus);
    forall a, b | a in f && b in f ensures cmp(a, b) == tie(a, b) {
      assert a in animals && b in animals;
      assert cmp(a, b) == if sortBy == "newest" then TimeDifference(checkupTime(b), checkupTime(a))
                          else TimeDifference(checkupTime(a), checkupTime(b));
    }
    SortCongruent(cmp, tie, f);
    SortStable(tie, f);
  }

  /** "Name" lists names in the order `nameOrder` gives, when that order is a total preorder. */
  lemma DisplayedByName(animals: seq<Animal>, searchTerm: string, selectedType: string, selectedStatus: string,
                        checkupTime: Animal -> Option<int>, nameOrder: (string, string) -> int)
    requires TotalPreorder(nameOrder)
    ensures var r := Displayed(animals, searchTerm, selectedType, selectedStatus, "name", checkupTime, nameOrder);
      forall i, j :: 0 <= i < j < |r| ==> nameOrder(r[i].name, r[j].name) <= 0
  {
    var cmp := Comparator("name", checkupTime, nameOrder);
    assert TotalPreorder(cmp) by {
      assert forall a, b :: NotAfter(cmp, a, b) == NotAfter(nameOrder, a.name, b.name);
    }
    var r := Displayed(animals, searchTerm, selectedType, selectedStatus, "name", checkupTime, nameOrder);
    SortSorted(cmp, FilterAnimals(animals, searchTerm, selectedType, selectedStatus));
    assert forall i, j :: 0 <= i < j < |r| ==> NotAfter(cmp, r[i], r[j]);
  }

  /**
   * Whatever `sortBy` is, when the comparator chains among `k` and the filtered records,
   * records the comparator ties with `k` (under "name", those `localeCompare` calls equal to
   * `k`'s name) keep their filtered order.
   */
  lemma DisplayedKeepsTiedOrder(animals: seq<Animal>, searchTerm: string, selectedType: string, selectedStatus: string,
                                sortBy: string, checkupTime: Animal -> Option<int>, nameOrder: (string, string) -> int, k: Animal)
    requires TransitiveOn(Comparator(sortBy, checkupTime, nameOrder), [k] + FilterAnimals(animals, searchTerm, selectedType, selectedStatus))
    ensures var cmp := Comparator(sortBy, checkupTime, nameOrder);
      Filter(Displayed(animals, searchTerm, selectedType, selectedStatus, sortBy, checkupTime, nameOrder), TieClass(cmp, k))
      == Filter(FilterAnimals(animals, searchTerm, selectedType, selectedStatus), TieClass(cmp, k))
  {
    SortKeepsTiedOrder(Comparator(sortBy, checkupTime, nameOrder), FilterAnimals(animals, searchTerm, selectedType, selectedStatus), k);
  }

  /** Among records whose dates all parse, the check-up comparator chains. */
  lemma CheckupTransitiveOnParsed(s: seq<Animal>, sortBy: string, checkupTime: Animal -> Option<int>, nameOrder: (string, string) -> int)
    requires sortBy == "newest" || sortBy == "oldest"
    requires forall a :: a in s ==> checkupTime(a).Some?
    ensures TransitiveOn(Comparator(sortBy, checkupTime, nameOrder), s)
  {
    var cmp := Comparator(sortBy, checkupTime, nameOrder);
    forall a, b | a in s && b in s
      ensures cmp(a, b) == if sortBy == "newest" then checkupTime(b).value - checkupTime(a).value
                           else checkupTime(a).value - checkupTime(b).value
    {
      assert cmp(a, b) == if sortBy == "newest" then TimeDifference(checkupTime(b), checkupTime(a))
                          else TimeDifference(checkupTime(a), checkupTime(b));
    }
  }

  /**
   * When `k`'s and every record's dates parse, records with the same check-up time as `k`
   * keep their filtered order under "newest" and "oldest".
   */
  lemma DisplayedByCheckupKeepsTies(animals: seq<Animal>, searchTerm: string, selectedType: string, selectedStatus: string,
                                    sortBy: string, checkupTime: Animal -> Option<int>, nameOrder: (string, string) -> int, k: Animal)
    requires sortBy == "newest" || sortBy == "oldest"
    requires checkupTime(k).Some? && forall a :: a in animals ==> checkupTime(a).Some?
    ensures var cmp := Comparator(sortBy, checkupTime, nameOrder);
      Filter(Displayed(animals, searchTerm, selectedType, selectedStatus, sortBy, checkupTime, nameOrder), TieClass(cmp, k))
      == Filter(FilterAnimals(animals, searchTerm, selectedType, selectedStatus), TieClass(cmp, k))
  {
    var f := [k] + FilterAnimals(animals, searchTerm, selectedType, selectedStatus);
    assert forall a :: a in f ==> checkupTime(a).Some?;
    CheckupTransitiveOnParsed(f, sortBy, checkupTime, nameOrder);
    DisplayedKeepsTiedOrder(animals, searchTerm, selectedType, selectedStatus, sortBy, checkupTime, nameOrder, k);
  }

  /** Any other `sortBy` compares every pair as equal, and the stable sort keeps the filtered order. */
  lemma DisplayedUnsorted(animals: seq<Animal>, searchTerm: string, selectedType: string, selectedStatus: string,
                          sortBy: string, checkupTime: Animal -> Option<int>, nameOrder: (string, string) -> int)
    requires sortBy != "newest" && sortBy != "oldest" && sortBy != "name"
    ensures Displayed(animals, searchTerm, selectedType, selectedStatus, sortBy, checkupTime, nameOrder)
      == FilterAnimals(animals, searchTerm, selectedType, selectedStatus)
  {
    SortStable(Comparator(sortBy, checkupTime, nameOrder), FilterAnimals(animals, searchTerm, selectedType, selectedStatus));
  }

  /** `Math.ceil(n / itemsPerPage)`: the fewest pages of six that hold `n` records. */
  function TotalPages(n: nat): (t: nat)
    ensures n <= t * ItemsPerPage
    ensures t == 0 || (t - 1) * ItemsPerPage < n
  {
    (n + ItemsPerPage - 1) / ItemsPerPage
  }

  /** Where `Array.prototype.slice` puts a bound: negative counts from the end, then clipped to [0, len]. */
  function SliceBound(k: int, len: nat): (r: nat)
    ensures r <= len
    ensures 0 <= k <= len ==> r == k
    ensures k > len ==> r == len
  {
    if k < 0 then (if len + k < 0 then 0 else len + k) else if k > len then len else k
  }

  /** `s.slice(start, end)`. */
  function Slice<T>(s: seq<T>, start: int, end: int): (r: seq<T>)
    ensures |r| <= |s|
  {
    var from := SliceBound(start, |s|);
    var to := SliceBound(end, |s|);
    if from < to then s[from..to] else []
  }

  /** `currentAnimals`: the records of page `page` (counted from 1). */
  function PageItems<T>(items: seq<T>, page: int): (r: seq<T>)
  {
    var startIndex := (page - 1) * ItemsPerPage;
    Slice(items, startIndex, startIndex + ItemsPerPage)
  }

  /** From page 1 on, a page is the records [(page-1)*6, page*6) clipped to the list. */
  lemma PageItemsSlice<T>(items: seq<T>, page: int)
    requires page >= 1
    ensures var startIndex := (page - 1) * ItemsPerPage;
      PageItems(items, page) == items[Min(startIndex, |items|)..Min(startIndex + ItemsPerPage, |items|)]
  {
  }

  /**
   * A page holds at most six records, and it holds some exactly when it comes no later
   * than the last page.
   */
  lemma PageItemsRange<T>(items: seq<T>, page: int)
    requires page >= 1
    ensures |PageItems(items, page)| <= ItemsPerPage
    ensures page <= TotalPages(|items|) <==> PageItems(items, page) != []
  {
    PageItemsSlice(items, page);
    var startIndex := (page - 1) * ItemsPerPage;
    var t := TotalPages(|items|);
    if page <= t {
      assert startIndex <= (t - 1) * ItemsPerPage;
    } else {
      assert t * ItemsPerPage <= startIndex;
    }
  }

  /** Pages 1 to `k` laid end to end. */
  function PagesUpTo<T>(items: seq<T>, k: nat): seq<T>
    decreases k
  {
    if k == 0 then [] else PagesUpTo(items, k - 1) + PageItems(items, k)
  }

  /** Pages 1 to `k` are the first min(6k, n) records. */
  lemma {:induction false} PagesUpToIsPrefix<T>(items: seq<T>, k: nat)
    ensures PagesUpTo(items, k) == items[..Min(k * ItemsPerPage, |items|)]
    decreases k
  {
    if k > 0 {
      PagesUpToIsPrefix(items, k - 1);
      PageItemsSlice(items, k);
      var startIndex := (k - 1) * ItemsPerPage;
      assert startIndex + ItemsPerPage == k * ItemsPerPage;
      var a := Min(startIndex, |items|);
      var b := Min(k * ItemsPerPage, |items|);
      assert 0 <= a <= b <= |items|;
      assert PagesUpTo(items, k) == PagesUpTo(items, k - 1) + PageItems(items, k);
      assert PageItems(items, k) == items[a..b];
      assert items[..a] + items[a..b] == items[..b] by {
        assert items[..b] == items[..a] + items[a..b];
      }
    }
  }

  /** The pages together hold every record once, in order: paging loses and repeats nothing. */
  lemma PagesCoverAll<T>(items: seq<T>)
    ensures PagesUpTo(items, TotalPages(|items|)) == items
  {
    PagesUpToIsPrefix(items, TotalPages(|items|));
    assert items[..|items|] == items;
  }

  /** The number on button `i` of the page window. */
  function PageNumber(totalPages: int, currentPage: int, i: int): int {
    if totalPages <= 5 then i + 1
    else if currentPage <= 3 then i + 1
    else if currentPage >= totalPages - 2 then totalPages - 4 + i
    else currentPage - 2 + i
  }

  /**
   * The page buttons: min(5, totalPages) consecutive page numbers, every one a real page,
   * whatever the current page is.
   */
  function PageWindow(totalPages: nat, currentPage: int): (w: seq<int>)
    ensures |w| == Min(5, totalPages)
    ensures forall i :: 0 <= i < |w| ==> 1 <= w[i] <= totalPages
    ensures forall i :: 0 < i < |w| ==> w[i] == w[i - 1] + 1
  {
    seq(Min(5, totalPages), i => PageNumber(totalPages, currentPage, i))
  }

  /** The window always shows the current page, when that page exists. */
  lemma WindowShowsCurrentPage(totalPages: nat, currentPage: int)
    requires 1 <= currentPage <= totalPages
    ensures currentPage in PageWindow(totalPages, currentPage)
  {
    var w := PageWindow(totalPages, currentPage);
    var first := PageNumber(totalPages, currentPage, 0);
    assert 0 <= currentPage - first < |w|;
    assert w[currentPage - first] == currentPage;
  }

  /** The "previous page" button: one back, but not below page 1. */
  function PrevPage(page: int): (r: int)
    ensures r >= 1
    ensures r <= Max(page, 1)
  {
    Max(page - 1, 1)
  }

  /** The "next page" button: one on, but not past the last page. */
  function NextPage(page: int, totalPages: int): (r: int)
    ensures r <= totalPages
    ensures r <= page + 1
  {
    Min(page + 1, totalPages)
  }

  /**
   * A page in [1, totalPages] stays there under either button, and away from the ends the
   * two buttons undo each other.
   */
  lemma ClampsStayInRange(page: int, totalPages: int)
    requires 1 <= page <= totalPages
    ensures 1 <= PrevPage(page) <= totalPages && 1 <= NextPage(page, totalPages) <= totalPages
    ensures page < totalPages ==> PrevPage(NextPage(page, totalPages)) == page
    ensures page > 1 ==> NextPage(PrevPage(page), totalPages) == page
    ensures page == 1 ==> PrevPage(page) == 1
    ensures page == totalPages ==> NextPage(page, totalPages) == totalPages
  {
  }

  /** `prev.filter(animal => animal.id !== id)`: the delete handler's new list. */
  function RemoveById(animals: seq<Animal>, id: string): (r: seq<Animal>)
    ensures forall a :: a in r <==> a in animals && a.id != id
    ensures IsSubsequence(r, animals)
    ensures forall a: Animal :: a.id != id ==> multiset(r)[a] == multiset(animals)[a]
  {
    FilterMultiset(animals, (a: Animal) => a.id != id);
    Filter(animals, (a: Animal) => a.id != id)
  }

  /** `prev.map(...)` of the edit handler: records with the selected id get the form spread over them. */
  function ApplyEdit(animals: seq<Animal>, targetId: string, patch: AnimalPatch): (r: seq<Animal>)
    ensures |r| == |animals|
    ensures forall i :: 0 <= i < |r| && animals[i].id != targetId ==> r[i] == animals[i]
  {
    seq(|animals|, i requires 0 <= i < |animals| => if animals[i].id == targetId then Merge(animals[i], patch) else animals[i])
  }

  /**
   * The edit leaves every record in place; with a patch that keeps the id, the list of ids
   * is unchanged; an empty patch or an id nobody has changes nothing.
   */
  lemma ApplyEditProperties(animals: seq<Animal>, targetId: string, patch: AnimalPatch)
    ensures forall i :: 0 <= i < |animals| && animals[i].id == targetId ==>
      ApplyEdit(animals, targetId, patch)[i] == Merge(animals[i], patch)
    ensures patch.id.None? ==> forall i :: 0 <= i < |animals| ==> ApplyEdit(animals, targetId, patch)[i].id == animals[i].id
    ensures ApplyEdit(animals, targetId, EmptyPatch) == animals
    ensures (forall a :: a in animals ==> a.id != targetId) ==> ApplyEdit(animals, targetId, patch) == animals
  {
    forall i | 0 <= i < |animals| ensures ApplyEdit(animals, targetId, EmptyPatch)[i] == animals[i] {
      MergeIdentities(animals[i], animals[i]);
    }
  }

  datatype ModalMode = Add | Edit

  /**
   * The page's state. `filtered` is the effect's output; the effect re-runs (and goes back to
   * page 1) whenever the records or one of the four filter settings take a new value.
   */
  class Registry {
    const checkupTime: Animal -> Option<int>
    const nameOrder: (string, string) -> int
    var animals: seq<Animal>
    var filtered: seq<Animal>
    var searchTerm: string
    var selectedType: string
    var selectedStatus: string
    var sortBy: string
    var currentPage: int
    var modalOpen: bool
    var modalMode: ModalMode
    var selectedAnimal: Option<Animal>

    /** The shown list is the pipeline's output, and the current page lies in [1, max(1, totalPages)]. */
    ghost predicate Valid()
      reads this
    {
      && filtered == Displayed(animals, searchTerm, selectedType, selectedStatus, sortBy, checkupTime, nameOrder)
      && 1 <= currentPage <= Max(1, TotalPages(|filtered|))
    }

    /** The records on the current page. */
    function Shown(): seq<Animal>
      reads this
    {
      PageItems(filtered, currentPage)
    }

    /** Mounting with the initial records; the effect runs once. */
    constructor (initial: seq<Animal>, checkupTime: Animal -> Option<int>, nameOrder: (string, string) -> int)
      ensures Valid()
      ensures this.checkupTime == checkupTime && this.nameOrder == nameOrder
      ensures animals == initial && searchTerm == "" && selectedType == AllOption
      ensures selectedStatus == AllOption && sortBy == DefaultSort && currentPage == 1
      ensures !modalOpen && modalMode == Add && selectedAnimal == None
    {
      this.checkupTime := checkupTime;
      this.nameOrder := nameOrder;
      animals := initial;
      searchTerm := "";
      selectedType := AllOption;
      selectedStatus := AllOption;
      sortBy := DefaultSort;
      modalOpen := false;
      modalMode := Add;
      selectedAnimal := None;
      filtered := Displayed(initial, "", AllOption, AllOption, DefaultSort, checkupTime, nameOrder);
      currentPage := 1;
    }

    /** The current page never holds more than six records, and holds some when any record passes. */
    lemma ShownIsAPage()
      requires Valid()
      ensures |Shown()| <= ItemsPerPage
      ensures filtered != [] ==> Shown() != []
    {
      PageItemsRange(filtered, currentPage);
    }

    /** The filter effect: recompute the list and go back to page 1. */
    method RunFilterEffect()
      modifies this`filtered, this`currentPage
      ensures Valid() && currentPage == 1
    {
      filtered := Displayed(animals, searchTerm, selectedType, selectedStatus, sortBy, checkupTime, nameOrder);
      currentPage := 1;
    }

    /** `setAnimals` with a new array: the effect always re-runs on it. */
    method SetAnimals(records: seq<Animal>)
      modifies this`animals, this`filtered, this`currentPage
      ensures Valid() && animals == records && currentPage == 1
    {
      animals := records;
      RunFilterEffect();
    }

    /** Typing in the search box. */
    method SetSearchTerm(term: string)
      requires Valid()
      modifies this`searchTerm, this`filtered, this`currentPage
      ensures Valid() && searchTerm == term
      ensures currentPage == if term != old(searchTerm) then 1 else old(currentPage)
    {
      if term != searchTerm {
        searchTerm := term;
        RunFilterEffect();
      }
    }

    /** Choosing an animal type (or "all"). */
    method SetSelectedType(kind: string)
      requires Valid()
      modifies this`selectedType, this`filtered, this`currentPage
      ensures Valid() && selectedType == kind
      ensures currentPage == if kind != old(selectedType) then 1 else old(currentPage)
    {
      if kind != selectedType {
        selectedType := kind;
        RunFilterEffect();
      }
    }

    /** Choosing a health status (or "all"). */
    method SetSelectedStatus(status: string)
      requires Valid()
      modifies this`selectedStatus, this`filtered, this`currentPage
      ensures Valid() && selectedStatus == status
      ensures currentPage == if status != old(selectedStatus) then 1 else old(currentPage)
    {
      if status != selectedStatus {
        selectedStatus := status;
        RunFilterEffect();
      }
    }

    /** Choosing the sort order. */
    method SetSortBy(order: string)
      requires Valid()
      modifies this`sortBy, this`filtered, this`currentPage
      ensures Valid() && sortBy == order
      ensures currentPage == if order != old(sortBy) then 1 else old(currentPage)
    {
      if order != sortBy {
        sortBy := order;
        RunFilterEffect();
      }
    }

    /** All four filter settings at once, then the effect. */
    method SetFilters(term: string, kind: string, status: string, order: string)
      modifies this`searchTerm, this`selectedType, this`selectedStatus, this`sortBy, this`filtered, this`currentPage
      ensures Valid() && currentPage == 1
      ensures searchTerm == term && selectedType == kind && selectedStatus == status && sortBy == order
    {
      searchTerm := term;
      selectedType := kind;
      selectedStatus := status;
      sortBy := order;
      RunFilterEffect();
    }

    /** `handleClearFilters`: the four defaults; page 1 only if some setting actually changed. */
    method ClearFilters()
      requires Valid()
      modifies this`searchTerm, this`selectedType, this`selectedStatus, this`sortBy, this`filtered, this`currentPage
      ensures Valid()
      ensures searchTerm == "" && selectedType == AllOption && selectedStatus == AllOption && sortBy == DefaultSort
      ensures var changed := old(searchTerm) != "" || old(selectedType) != AllOption
                             || old(selectedStatus) != AllOption || old(sortBy) != DefaultSort;
        currentPage == if changed then 1 else old(currentPage)
    {
      if searchTerm != "" || selectedType != AllOption || selectedStatus != AllOption || sortBy != DefaultSort {
        SetFilters("", AllOption, AllOption, DefaultSort);
      }
    }

    /** `handleDeleteAnimal`, with the answer of the confirmation dialog. */
    method DeleteAnimal(id: string, confirmed: bool)
      requires Valid()
      modifies this`animals, this`filtered, this`currentPage
      ensures Valid()
      ensures confirmed ==> animals == RemoveById(old(animals), id) && currentPage == 1
      ensures !confirmed ==> animals == old(animals) && currentPage == old(currentPage)
    {
      if confirmed {
        SetAnimals(RemoveById(animals, id));
      }
    }

    /** `handleAddAnimal`: open the form empty, in add mode. */
    method OpenAdd()
      modifies this`modalMode, this`selectedAnimal, this`modalOpen
      ensures modalMode == Add && selectedAnimal == None && modalOpen
    {
      modalMode := Add;
      selectedAnimal := None;
      modalOpen := true;
    }

    /** `handleEditAnimal`: open the form on a record, in edit mode. */
    method OpenEdit(a: Animal)
      modifies this`modalMode, this`selectedAnimal, this`modalOpen
      ensures modalMode == Edit && selectedAnimal == Some(a) && modalOpen
    {
      modalMode := Edit;
      selectedAnimal := Some(a);
      modalOpen := true;
    }

    /** The form's close button, and the form itself after saving. */
    method CloseModal()
      modifies this`modalOpen
      ensures !modalOpen
    {
      modalOpen := false;
    }

    /**
     * `handleSaveAnimal`, with the id and date the browser would supply. Add appends one new
     * record; edit spreads the form over the records with the selected id; edit with no
     * selected record does nothing.
     */
    method SaveAnimal(data: AnimalPatch, newId: string, today: string)
      requires Valid()
      requires modalMode == Add ==> CarriesRequiredFields(data)
      modifies this`animals, this`filtered, this`currentPage
      ensures Valid()
      ensures modalMode == Add ==>
        animals == old(animals) + [NewAnimal(data, newId, today)] && currentPage == 1
      ensures modalMode == Edit && selectedAnimal.Some? ==>
        animals == ApplyEdit(old(animals), selectedAnimal.value.id, data) && currentPage == 1
      ensures modalMode == Edit && selectedAnimal.None? ==>
        animals == old(animals) && currentPage == old(currentPage)
    {
      if modalMode == Add {
        var added := NewAnimal(data, newId, today);
        SetAnimals(animals + [added]);
      } else if selectedAnimal.Some? {
        SetAnimals(ApplyEdit(animals, selectedAnimal.value.id, data));
      }
    }

    /** A page-number button; the buttons exist only when there is more than one page. */
    method GoToPage(page: int)
      requires Valid()
      requires TotalPages(|filtered|) > 1
      requires page in PageWindow(TotalPages(|filtered|), currentPage)
      modifies this`currentPage
      ensures Valid() && currentPage == page
    {
      currentPage := page;
    }

    /** The "previous page" button. */
    method StepPageBack()
      requires Valid()
      requires TotalPages(|filtered|) > 1
      modifies this`currentPage
      ensures Valid() && currentPage == PrevPage(old(currentPage))
    {
      currentPage := PrevPage(currentPage);
    }

    /** The "next page" button. */
    method StepPageForward()
      requires Valid()
      requires TotalPages(|filtered|) > 1
      modifies this`currentPage
      ensures Valid() && currentPage == NextPage(old(currentPage), TotalPages(|filtered|))
    {
      currentPage := NextPage(currentPage, TotalPages(|filtered|));
    }
  }
}
