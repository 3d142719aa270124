/**
 * The freelancer list view-model (src/components/dashboard/FreelancersList.tsx):
 * a search box, a skill filter and an availability filter narrow the backing
 * list, the result is shown five rows per page, and the skill drop-down is
 * built from every skill that occurs in the list.
 */
module FreelancersList {
  import opened Strings
  import opened Seqs

  datatype Availability = Available | Busy | Unavailable

  /** The string the component keeps in the `availability` field. */
  function AvailabilityName(a: Availability): string
  {
    match a
    case Available => "Available"
    case Busy => "Busy"
    case Unavailable => "Unavailable"
  }

  datatype Freelancer = Freelancer(
    id: string,
    name: string,
    avatar: string,
    skills: seq<string>,
    availability: Availability,
    hourlyRate: int,
    rating: real)

  /** `itemsPerPage`; products with it are written with the literal 5 so that they stay linear arithmetic. */
  const ItemsPerPage: nat := 5

  /** The value both drop-downs use for "no filter". */
  const AllValues: string := "all"

  function Min(a: int, b: int): int { if a <= b then a else b }

  /** Case-insensitive search over the name and every skill. */
  predicate MatchesSearch(f: Freelancer, query: string)
  {
    var q := ToLower(query);
    Contains(ToLower(f.name), q) || exists skill | skill in f.skills :: Contains(ToLower(skill), q)
  }

  /** Some skill equals the filter value, ignoring case; "all" accepts everything. */
  predicate MatchesSkill(f: Freelancer, skillFilter: string)
  {
    skillFilter == AllValues || exists skill | skill in f.skills :: ToLower(skill) == ToLower(skillFilter)
  }

  /** The availability equals the filter value, ignoring case; "all" accepts everything. */
  predicate MatchesAvailability(f: Freelancer, availabilityFilter: string)
  {
    availabilityFilter == AllValues || ToLower(AvailabilityName(f.availability)) == ToLower(availabilityFilter)
  }

  /** The predicate handed to `filter`. */
  function Criteria(query: string, skillFilter: string, availabilityFilter: string): Freelancer -> bool
  {
    f => MatchesSearch(f, query) && MatchesSkill(f, skillFilter) && MatchesAvailability(f, availabilityFilter)
  }

  /** `filteredFreelancers`. */
  function FilterFreelancers(fs: seq<Freelancer>, query: string, skillFilter: string, availabilityFilter: string)
    : (r: seq<Freelancer>)
    ensures IsSubsequence(r, fs)
    ensures forall f :: f in r <==>
      f in fs && MatchesSearch(f, query) && MatchesSkill(f, skillFilter) && MatchesAvailability(f, availabilityFilter)
    ensures forall f :: multiset(r)[f] ==
              if MatchesSearch(f, query) && MatchesSkill(f, skillFilter) && MatchesAvailability(f, availabilityFilter)
              then multiset(fs)[f] else 0
  {
    var c := Criteria(query, skillFilter, availabilityFilter);
    FilterMembers(fs, c);
    FilterMultiplicity(fs, c);
    FilterIsSubsequence(fs, c);
    Filter(fs, c)
  }

  /** An empty search with both filters on "all" shows the whole backing list. */
  lemma NoCriteriaKeepsAll(fs: seq<Freelancer>)
    ensures FilterFreelancers(fs, "", AllValues, AllValues) == fs
  {
    forall f | f in fs
      ensures Criteria("", AllValues, AllValues)(f)
    {
      ContainsEmpty(ToLower(f.name));
    }
    FilterKeepsAll(fs, Criteria("", AllValues, AllValues));
  }

  /** A freelancer found by a query is found by every substring of that query. */
  lemma SearchNarrowing(f: Freelancer, shorter: string, longer: string)
    requires Contains(longer, shorter)
    requires MatchesSearch(f, longer)
    ensures MatchesSearch(f, shorter)
  {
    ContainsToLower(longer, shorter);
    if Contains(ToLower(f.name), ToLower(longer)) {
      ContainsTransitive(ToLower(f.name), ToLower(longer), ToLower(shorter));
    } else {
      var skill :| skill in f.skills && Contains(ToLower(skill), ToLower(longer));
      ContainsTransitive(ToLower(skill), ToLower(longer), ToLower(shorter));
    }
  }

  /** Typing more characters never adds rows: the longer query's result is a subsequence of the shorter's. */
  lemma FilterNarrowing(fs: seq<Freelancer>, shorter: string, longer: string, skillFilter: string, availabilityFilter: string)
    requires Contains(longer, shorter)
    ensures IsSubsequence(FilterFreelancers(fs, longer, skillFilter, availabilityFilter),
                          FilterFreelancers(fs, shorter, skillFilter, availabilityFilter))
    ensures |FilterFreelancers(fs, longer, skillFilter, availabilityFilter)|
         <= |FilterFreelancers(fs, shorter, skillFilter, availabilityFilter)|
  {
    var p, q := Criteria(longer, skillFilter, availabilityFilter), Criteria(shorter, skillFilter, availabilityFilter);
    forall f | f in fs && p(f)
      ensures q(f)
    {
      SearchNarrowing(f, shorter, longer);
    }
    FilterMonotone(fs, p, q);
  }

  /**
   * Choosing a skill option (the lower-cased skill) keeps exactly the
   * freelancers with a skill equal to it ignoring case, unless the skill is
   * spelled "all" in some case, which the drop-down then reads as "no filter".
   */
  lemma SkillOptionSelects(f: Freelancer, skill: string)
    requires ToLower(skill) != AllValues
    ensures MatchesSkill(f, ToLower(skill)) <==> exists s | s in f.skills :: ToLower(s) == ToLower(skill)
  {
    ToLowerIdempotent(skill);
  }

  /** Choosing an availability option (its lower-cased name) keeps exactly the freelancers with that availability. */
  lemma AvailabilityOptionExact(f: Freelancer, a: Availability)
    ensures MatchesAvailability(f, ToLower(AvailabilityName(a))) <==> f.availability == a
  {
    // The three names and "all" have pairwise different lengths, and lower-casing keeps length.
    var name, option := ToLower(AvailabilityName(f.availability)), ToLower(AvailabilityName(a));
    assert |option| != |AllValues|;
    assert f.availability != a ==> |name| != |option|;
  }

  /** `Math.ceil(n / itemsPerPage)`. */
  function TotalPages(n: nat): (pages: nat)
    ensures 5 * pages - 5 < n <= 5 * pages
  {
    (n + ItemsPerPage - 1) / ItemsPerPage
  }

  /** `list.slice((page - 1) * itemsPerPage, page * itemsPerPage)`. */
  function Page<T>(s: seq<T>, page: int): (r: seq<T>)
    ensures page >= 1 ==>
      r == s[Min((page - 1) * 5, |s|)..Min(page * 5, |s|)]
    ensures page >= 1 ==> |r| <= ItemsPerPage
  {
    Slice(s, (page - 1) * 5, page * 5)
  }

  /** Nothing clamps the page number: a page past the last one is empty, and its "Showing" range runs backwards. */
  lemma PageBeyondLastIsEmpty<T>(s: seq<T>, page: int)
    requires page > TotalPages(|s|)
    ensures Page(s, page) == []
    ensures ShowingFrom(page) > ShowingTo(page, |s|)
  {
  }

  /** Page 1, or any page up to the last, shows at least one row of a non-empty list. */
  lemma ExistingPageHasRows<T>(s: seq<T>, page: int)
    requires s != []
    requires page == 1 || 1 <= page <= TotalPages(|s|)
    ensures Page(s, page) != []
  {
    assert (page - 1) * 5 < |s|;
  }

  /** Pages 1..k laid end to end. */
  function PagesUpTo<T>(s: seq<T>, k: nat): seq<T>
  {
    if k == 0 then [] else PagesUpTo(s, k - 1) + Page(s, k)
  }

  lemma {:induction false} PagesUpToIsPrefix<T>(s: seq<T>, k: nat)
    ensures PagesUpTo(s, k) == s[..Min(k * 5, |s|)]
  {
    if k > 0 {
      PagesUpToIsPrefix(s, k - 1);
      var a, b := Min((k - 1) * 5, |s|), Min(k * 5, |s|);
      assert a <= b;
      assert Page(s, k) == s[a..b];
      assert s[..a] + s[a..b] == s[..b];
    }
  }

  /** Pages 1..TotalPages, concatenated, are exactly the list: no row is lost or shown twice. */
  lemma PagesPartitionList<T>(s: seq<T>)
    ensures PagesUpTo(s, TotalPages(|s|)) == s
  {
    PagesUpToIsPrefix(s, TotalPages(|s|));
  }

  /** First row number in "Showing X to Y of N": the 1-based number of the first row of a block of five. */
  function ShowingFrom(page: int): (from: int)
    ensures page >= 1 ==> from >= 1
    ensures (from - 1) % ItemsPerPage == 0
  {
    (page - 1) * 5 + 1
  }

  /** Last row number in "Showing X to Y of N": the end of the page's block, or the row count if smaller. */
  function ShowingTo(page: int, n: nat): (to: int)
    ensures to <= n && to <= page * 5
    ensures to == n || to == page * 5
  {
    Min(page * 5, n)
  }

  /** On every existing page the "Showing" numbers name exactly the rows on that page. */
  lemma ShowingRangeMatchesPage<T>(s: seq<T>, page: int)
    requires 1 <= page <= TotalPages(|s|)
    ensures 1 <= ShowingFrom(page) <= ShowingTo(page, |s|) <= |s|
    ensures Page(s, page) == s[ShowingFrom(page) - 1..ShowingTo(page, |s|)]
    ensures |Page(s, page)| == ShowingTo(page, |s|) - ShowingFrom(page) + 1
  {
  }

  function SkillLists(fs: seq<Freelancer>): (r: seq<seq<string>>)
    ensures |r| == |fs| && forall i :: 0 <= i < |fs| ==> r[i] == fs[i].skills
  {
    seq(|fs|, i requires 0 <= i < |fs| => fs[i].skills)
  }

  /** `allSkills`: every skill of every freelancer, once each. */
  function AllSkills(fs: seq<Freelancer>): (r: seq<string>)
    ensures NoDuplicates(r)
    ensures forall skill :: skill in r <==> exists f :: f in fs && skill in f.skills
  {
    var lists := SkillLists(fs);
    var r := Distinct(Flatten(lists));
    assert forall f :: f in fs ==> exists i :: 0 <= i < |lists| && lists[i] == f.skills;
    r
  }

  /**
   * The component's state: the three inputs and the current page, over a
   * backing list that the component never changes.
   */
  class FreelancersView {
    const freelancers: seq<Freelancer>
    var searchQuery: string
    var skillFilter: string
    var availabilityFilter: string
    var currentPage: int

    /** The page buttons never leave page numbers below 1. */
    ghost predicate Valid()
      reads this
    {
      currentPage >= 1
    }

    constructor (freelancers: seq<Freelancer>)
      ensures Valid()
      ensures this.freelancers == freelancers
      ensures searchQuery == "" && skillFilter == AllValues && availabilityFilter == AllValues
      ensures currentPage == 1
      ensures Filtered() == freelancers
    {
      this.freelancers := freelancers;
      searchQuery := "";
      skillFilter := AllValues;
      availabilityFilter := AllValues;
      currentPage := 1;
      NoCriteriaKeepsAll(freelancers);
    }

    /** `filteredFreelancers` over the current inputs. */
    function Filtered(): (r: seq<Freelancer>)
      reads this
      ensures IsSubsequence(r, freelancers)
      ensures forall f :: f in r <==> f in freelancers && Criteria(searchQuery, skillFilter, availabilityFilter)(f)
    {
      FilterFreelancers(freelancers, searchQuery, skillFilter, availabilityFilter)
    }

    /** `totalPages` over the current inputs. */
    function PageCount(): (pages: nat)
      reads this
      ensures 5 * pages - 5 < |Filtered()| <= 5 * pages
    {
      TotalPages(|Filtered()|)
    }

    /** `paginatedFreelancers`: the rows of the table. */
    function Visible(): (rows: seq<Freelancer>)
      reads this
      ensures currentPage >= 1 ==> |rows| <= ItemsPerPage
      ensures currentPage >= 1 ==> rows == Filtered()[Min((currentPage - 1) * 5, |Filtered()|)..Min(currentPage * 5, |Filtered()|)]
    {
      Page(Filtered(), currentPage)
    }

    /** The options of the skill drop-down. */
    function SkillOptions(): (options: seq<string>)
      reads this
      ensures NoDuplicates(options)
      ensures forall skill :: skill in options <==> exists f :: f in freelancers && skill in f.skills
    {
      AllSkills(freelancers)
    }

    /** The search box's onChange; the page number is not reset. */
    method SetSearchQuery(query: string)
      modifies this
      ensures searchQuery == query
      ensures skillFilter == old(skillFilter) && availabilityFilter == old(availabilityFilter)
      ensures currentPage == old(currentPage)
    {
      searchQuery := query;
    }

    /** The skill drop-down's onValueChange; the page number is not reset. */
    method SetSkillFilter(value: string)
      modifies this
      ensures skillFilter == value
      ensures searchQuery == old(searchQuery) && availabilityFilter == old(availabilityFilter)
      ensures currentPage == old(currentPage)
    {
      skillFilter := value;
    }

    /** The availability drop-down's onValueChange; the page number is not reset. */
    method SetAvailabilityFilter(value: string)
      modifies this
      ensures availabilityFilter == value
      ensures searchQuery == old(searchQuery) && skillFilter == old(skillFilter)
      ensures currentPage == old(currentPage)
    {
      availabilityFilter := value;
    }

    /** `handlePageChange`; every button passes a page of at least 1. */
    method HandlePageChange(page: int)
      requires page >= 1
      modifies this
      ensures Valid() && currentPage == page
      ensures searchQuery == old(searchQuery) && skillFilter == old(skillFilter)
      ensures availabilityFilter == old(availabilityFilter)
    {
      currentPage := page;
    }

    /** The current page has rows whenever the filtered list has any: it is page 1 or a page that exists. */
    predicate PageInRange()
      reads this
    {
      currentPage == 1 || 1 <= currentPage <= PageCount()
    }

    /** The search box with the page reset a narrowing search needs (see the stale-page scenario below). */
    method SetSearchQueryFromFirstPage(query: string)
      modifies this
      ensures searchQuery == query && currentPage == 1
      ensures skillFilter == old(skillFilter) && availabilityFilter == old(availabilityFilter)
      ensures Valid() && PageInRange()
      ensures Filtered() != [] ==> Visible() != []
    {
      searchQuery := query;
      currentPage := 1;
      if Filtered() != [] {
        ExistingPageHasRows(Filtered(), 1);
      }
    }

    /** The "previous" button: shown only when there is more than one page, disabled on page 1. */
    method PreviousPage()
      requires Valid()
      modifies this
      ensures Valid()
      ensures currentPage == if old(PageCount()) > 1 && old(currentPage) != 1 then old(currentPage) - 1 else old(currentPage)
      ensures old(PageInRange()) ==> PageInRange()
      ensures searchQuery == old(searchQuery) && skillFilter == old(skillFilter)
      ensures availabilityFilter == old(availabilityFilter)
    {
      if PageCount() > 1 && currentPage != 1 {
        HandlePageChange(currentPage - 1);
      }
    }

    /** The "next" button: shown only when there is more than one page, disabled on the last page. */
    method NextPage()
      requires Valid()
      modifies this
      ensures Valid()
      ensures currentPage == if old(PageCount()) > 1 && old(currentPage) != old(PageCount()) then old(currentPage) + 1 else old(currentPage)
      ensures old(PageInRange()) ==> PageInRange()
      ensures searchQuery == old(searchQuery) && skillFilter == old(skillFilter)
      ensures availabilityFilter == old(availabilityFilter)
    {
      if PageCount() > 1 && currentPage != PageCount() {
        HandlePageChange(currentPage + 1);
      }
    }
  }

  /**
   * As written, a search does not reset the page: on page 2 of a list of
   * more than five, a query that leaves one to five rows shows an empty table
   * while rows match, and with a single page left the page buttons are gone.
   */
  method StalePageAfterSearch(fs: seq<Freelancer>, query: string) returns (v: FreelancersView)
    requires |fs| > ItemsPerPage
    requires 1 <= |FilterFreelancers(fs, query, AllValues, AllValues)| <= ItemsPerPage
    ensures v.Filtered() != [] && v.Visible() == []
    ensures v.PageCount() == 1 && !v.PageInRange()
  {
    v := new FreelancersView(fs);
    v.HandlePageChange(2);
    v.SetSearchQuery(query);
  }

  /** With the page reset, the same search from page 2 shows the matching rows. */
  method SearchFromFirstPage(fs: seq<Freelancer>, query: string) returns (v: FreelancersView)
    requires |fs| > ItemsPerPage
    requires FilterFreelancers(fs, query, AllValues, AllValues) != []
    ensures v.Visible() != [] && v.PageInRange()
  {
    v := new FreelancersView(fs);
    v.HandlePageChange(2);
    v.SetSearchQueryFromFirstPage(query);
  }
}
