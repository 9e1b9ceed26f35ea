/**
 * The job list page: a job is shown when it passes the search, category
 * and location tests; the category and location dropdowns list the
 * distinct values found in the jobs, sorted.
 */
module JobSearch {
  import opened Wrappers
  import opened Text
  import opened Lists
  import opened JobRecord

  /** The three filter inputs. */
  datatype Filters = Filters(searchTerm: string, category: string, location: string)

  const NoFilters := Filters("", "", "")

  /** The search term, lower-cased, occurs in the lower-cased title, description or category. */
  predicate MatchesSearch(j: Job, term: string)
  {
    || Includes(Lower(j.title), Lower(term))
    || Includes(Lower(j.description), Lower(term))
    || Includes(Lower(j.category), Lower(term))
  }

  /** No category selected, or exactly the job's category. */
  predicate MatchesCategory(j: Job, selected: string)
  {
    !Truthy(selected) || j.category == selected
  }

  /**
   * No location selected, or the lower-cased selection occurs in the
   * lower-cased city or, separately, in the lower-cased country.
   */
  predicate MatchesLocation(j: Job, selected: string)
  {
    || !Truthy(selected)
    || Includes(Lower(j.city), Lower(selected))
    || Includes(Lower(j.country), Lower(selected))
  }

  predicate Keep(j: Job, f: Filters)
  {
    MatchesSearch(j, f.searchTerm) && MatchesCategory(j, f.category) && MatchesLocation(j, f.location)
  }

  /** `filteredJobs`: the jobs that pass all three tests, in their order, unaltered. */
  function FilteredJobs(jobs: seq<Job>, f: Filters): (r: seq<Job>)
    ensures IsSubsequence(r, jobs)
    ensures forall j :: multiset(r)[j] == if Keep(j, f) then multiset(jobs)[j] else 0
    ensures forall j :: j in r <==> j in jobs && Keep(j, f)
  {
    FilterMembers(jobs, j => Keep(j, f));
    FilterIsSubsequence(jobs, j => Keep(j, f));
    Filter(jobs, j => Keep(j, f))
  }

  /** An empty search term matches every job. */
  lemma EmptySearchMatchesAll(j: Job)
    ensures MatchesSearch(j, "")
  {
    IncludesEmpty(Lower(j.title));
  }

  /** With all three filters empty the page shows every job, in order. */
  lemma NoFiltersShowsAll(jobs: seq<Job>)
    ensures FilteredJobs(jobs, NoFilters) == jobs
  {
    forall j | j in jobs
      ensures Keep(j, NoFilters)
    {
      EmptySearchMatchesAll(j);
    }
    FilterKeepsAll(jobs, j => Keep(j, NoFilters));
  }

  /** The search is case-insensitive: changing the case of the term changes nothing. */
  lemma SearchIgnoresCase(j: Job, term: string)
    ensures MatchesSearch(j, Lower(term)) == MatchesSearch(j, term)
  {
    LowerIdempotent(term);
  }

  /** The label a job contributes to the location dropdown: "city, country". */
  function LocationLabel(j: Job): string
  {
    j.city + ", " + j.country
  }

  /** `categories`: the distinct job categories, sorted. */
  function Categories(jobs: seq<Job>): (r: seq<string>)
    ensures StrictlySorted(r)
    ensures forall c :: c in r <==> exists j :: j in jobs && j.category == c
  {
    var all := Map(jobs, (j: Job) => j.category);
    assert forall c :: c in all <==> exists j :: j in jobs && j.category == c by {
      forall c | c in all
        ensures exists j :: j in jobs && j.category == c
      {
        var i :| 0 <= i < |all| && all[i] == c;
        assert jobs[i] in jobs;
      }
      forall j | j in jobs
        ensures j.category in all
      {
        var i :| 0 <= i < |jobs| && jobs[i] == j;
        assert all[i] == j.category;
      }
    }
    SortedDistinct(all)
  }

  /** `locations`: the distinct "city, country" labels, sorted. */
  function Locations(jobs: seq<Job>): (r: seq<string>)
    ensures StrictlySorted(r)
    ensures forall l :: l in r <==> exists j :: j in jobs && LocationLabel(j) == l
  {
    var all := Map(jobs, LocationLabel);
    assert forall l :: l in all <==> exists j :: j in jobs && LocationLabel(j) == l by {
      forall l | l in all
        ensures exists j :: j in jobs && LocationLabel(j) == l
      {
        var i :| 0 <= i < |all| && all[i] == l;
        assert jobs[i] in jobs;
      }
      forall j | j in jobs
        ensures LocationLabel(j) in all
      {
        var i :| 0 <= i < |jobs| && jobs[i] == j;
        assert all[i] == LocationLabel(j);
      }
    }
    SortedDistinct(all)
  }

  /** The categories the jobs carry, as a set. */
  ghost function CategorySet(jobs: seq<Job>): set<string>
  {
    set j | j in jobs :: j.category
  }

  /** The "city, country" labels the jobs carry, as a set. */
  ghost function LocationSet(jobs: seq<Job>): set<string>
  {
    set j | j in jobs :: LocationLabel(j)
  }

  /**
   * The category dropdown depends only on which categories occur: not on
   * the order of the jobs, their number or their other fields.
   */
  lemma CategoriesDetermined(jobs1: seq<Job>, jobs2: seq<Job>)
    requires CategorySet(jobs1) == CategorySet(jobs2)
    ensures Categories(jobs1) == Categories(jobs2)
  {
    forall c
      ensures c in Categories(jobs1) <==> c in Categories(jobs2)
    {
      assert c in Categories(jobs1) <==> c in CategorySet(jobs1);
      assert c in Categories(jobs2) <==> c in CategorySet(jobs2);
    }
    StrictlySortedUnique(Categories(jobs1), Categories(jobs2));
  }

  /** Likewise the location dropdown depends only on which labels occur. */
  lemma LocationsDetermined(jobs1: seq<Job>, jobs2: seq<Job>)
    requires LocationSet(jobs1) == LocationSet(jobs2)
    ensures Locations(jobs1) == Locations(jobs2)
  {
    forall l
      ensures l in Locations(jobs1) <==> l in Locations(jobs2)
    {
      assert l in Locations(jobs1) <==> l in LocationSet(jobs1);
      assert l in Locations(jobs2) <==> l in LocationSet(jobs2);
    }
    StrictlySortedUnique(Locations(jobs1), Locations(jobs2));
  }

  /**
   * As written, choosing a job's own entry in the location dropdown hides
   * that job: the entry "city, country" is longer than the city and than
   * the country, so it occurs in neither.
   */
  lemma OwnLocationEntryHidesJob(jobs: seq<Job>, j: Job)
    requires j in jobs
    ensures LocationLabel(j) in Locations(jobs)
    ensures j !in FilteredJobs(jobs, Filters("", "", LocationLabel(j)))
  {
    var l := Lower(LocationLabel(j));
    if Includes(Lower(j.city), l) { IncludesNotLonger(Lower(j.city), l); }
    if Includes(Lower(j.country), l) { IncludesNotLonger(Lower(j.country), l); }
  }

  /**
   * The location test as evidently intended: the selection occurs in the
   * job's "city, country" label, the very string the dropdown offers.
   */
  predicate MatchesLocationIntended(j: Job, selected: string)
  {
    !Truthy(selected) || Includes(Lower(LocationLabel(j)), Lower(selected))
  }

  /** With the intended test, choosing a job's own dropdown entry keeps the job. */
  lemma IntendedKeepsOwnLocation(j: Job)
    ensures MatchesLocationIntended(j, LocationLabel(j))
  {
    IncludesSelf(Lower(LocationLabel(j)));
  }

  /** The intended test still accepts everything the written one accepts (typed city or country text). */
  lemma IntendedExtendsWritten(j: Job, selected: string)
    requires MatchesLocation(j, selected)
    ensures MatchesLocationIntended(j, selected)
  {
    if Truthy(selected) {
      var s := Lower(selected);
      LowerConcat(j.city + ", ", j.country);
      LowerConcat(j.city, ", ");
      assert Lower(LocationLabel(j)) == Lower(j.city) + Lower(", ") + Lower(j.country);
      if Includes(Lower(j.city), s) {
        IncludesInContext([], Lower(j.city), Lower(", ") + Lower(j.country), s);
        assert [] + Lower(j.city) + (Lower(", ") + Lower(j.country)) == Lower(LocationLabel(j));
      } else {
        IncludesInContext(Lower(j.city) + Lower(", "), Lower(j.country), [], s);
        assert Lower(j.city) + Lower(", ") + Lower(j.country) + [] == Lower(LocationLabel(j));
      }
    }
  }

  /** The `Jobs` component's state. */
  class JobsPage {
    var jobs: seq<Job>
    var searchTerm: string
    var selectedCategory: string
    var selectedLocation: string
    var loading: bool

    function CurrentFilters(): Filters
      reads this
    {
      Filters(searchTerm, selectedCategory, selectedLocation)
    }

    /**
     * The jobs listed once loading has finished; while `loading` holds the
     * page shows placeholder cards instead.
     */
    function Shown(): seq<Job>
      reads this
    {
      FilteredJobs(jobs, CurrentFilters())
    }

    /** The page opens with the search text handed over by the previous page, if any. */
    constructor (handedSearch: Option<string>)
      ensures jobs == [] && loading
      ensures CurrentFilters() == Filters(if handedSearch.Some? then handedSearch.value else "", "", "")
    {
      jobs := [];
      searchTerm := if handedSearch.Some? then handedSearch.value else "";
      selectedCategory, selectedLocation := "", "";
      loading := true;
    }

    /** The fetch of all jobs starts: the placeholder cards are shown. */
    method FetchStarted()
      modifies this`loading
      ensures loading
    {
      loading := true;
    }

    /**
     * The fetch of all jobs has finished: on success the list is the
     * response's jobs, or empty when it has none; on failure nothing
     * changes. Either way loading ends.
     */
    method JobsFetched(response: Option<Option<seq<Job>>>)
      modifies this`jobs, this`loading
      ensures jobs == match response
        case None => old(jobs)
        case Some(None) => []
        case Some(Some(js)) => js
      ensures !loading
    {
      match response {
        case None =>
        case Some(body) => jobs := if body.Some? then body.value else [];
      }
      loading := false;
    }

    method SetSearchTerm(term: string)
      modifies this`searchTerm
      ensures CurrentFilters() == old(CurrentFilters()).(searchTerm := term)
    {
      searchTerm := term;
    }

    method SelectCategory(category: string)
      modifies this`selectedCategory
      ensures CurrentFilters() == old(CurrentFilters()).(category := category)
    {
      selectedCategory := category;
    }

    method SelectLocation(location: string)
      modifies this`selectedLocation
      ensures CurrentFilters() == old(CurrentFilters()).(location := location)
    {
      selectedLocation := location;
    }

    /** The clear button: all three filters emptied, so every job is shown again. */
    method ClearFilters()
      modifies this`searchTerm, this`selectedCategory, this`selectedLocation
      ensures CurrentFilters() == NoFilters
      ensures Shown() == jobs
    {
      searchTerm, selectedCategory, selectedLocation := "", "", "";
      NoFiltersShowsAll(jobs);
    }
  }
}
