/**
 * The project list view-model (src/components/dashboard/ProjectsList.tsx):
 * a name search combined with an exact status filter, the capitalised status
 * label, and the assigned-freelancer avatars (at most three, then "+k").
 */
module ProjectsList {
  import opened Strings
  import opened Seqs
  import opened Wrappers

  datatype ProjectStatus = Active | Completed | OnHold | Cancelled

  /** The string the component keeps in the `status` field. */
  function StatusName(st: ProjectStatus): string
  {
    match st
    case Active => "active"
    case Completed => "completed"
    case OnHold => "on-hold"
    case Cancelled => "cancelled"
  }

  datatype AssignedFreelancer = AssignedFreelancer(id: string, name: string, avatar: Option<string>, initials: string)

  datatype Project = Project(
    id: string,
    name: string,
    status: ProjectStatus,
    startDate: string,
    endDate: string,
    budget: int,
    budgetUtilization: int,
    assignedFreelancers: seq<AssignedFreelancer>)

  /** The status drop-down's value for "no filter". */
  const AllStatuses: string := "all"

  /** At most this many avatars are drawn. */
  const MaxAvatars: nat := 3

  /** The lower-cased name contains the lower-cased query. */
  predicate MatchesSearch(p: Project, query: string)
  {
    Contains(ToLower(p.name), ToLower(query))
  }

  /** "all", or exactly the status string (no case folding here). */
  predicate MatchesStatus(p: Project, statusFilter: string)
  {
    statusFilter == AllStatuses || StatusName(p.status) == statusFilter
  }

  /** The predicate handed to `filter`. */
  function Criteria(query: string, statusFilter: string): Project -> bool
  {
    p => MatchesSearch(p, query) && MatchesStatus(p, statusFilter)
  }

  /** `filteredProjects`. */
  function FilterProjects(ps: seq<Project>, query: string, statusFilter: string): (r: seq<Project>)
    ensures IsSubsequence(r, ps)
    ensures forall p :: p in r <==> p in ps && MatchesSearch(p, query) && MatchesStatus(p, statusFilter)
    ensures forall p :: multiset(r)[p] ==
              if MatchesSearch(p, query) && MatchesStatus(p, statusFilter) then multiset(ps)[p] else 0
  {
    var c := Criteria(query, statusFilter);
    FilterMembers(ps, c);
    FilterMultiplicity(ps, c);
    FilterIsSubsequence(ps, c);
    Filter(ps, c)
  }

  /** An empty search with the "all" status shows every project. */
  lemma NoCriteriaKeepsAll(ps: seq<Project>)
    ensures FilterProjects(ps, "", AllStatuses) == ps
  {
    forall p | p in ps
      ensures Criteria("", AllStatuses)(p)
    {
      ContainsEmpty(ToLower(p.name));
    }
    FilterKeepsAll(ps, Criteria("", AllStatuses));
  }

  /** A longer query that contains a shorter one keeps a subsequence of the shorter one's rows. */
  lemma FilterNarrowing(ps: seq<Project>, shorter: string, longer: string, statusFilter: string)
    requires Contains(longer, shorter)
    ensures IsSubsequence(FilterProjects(ps, longer, statusFilter), FilterProjects(ps, shorter, statusFilter))
    ensures |FilterProjects(ps, longer, statusFilter)| <= |FilterProjects(ps, shorter, statusFilter)|
  {
    var p, q := Criteria(longer, statusFilter), Criteria(shorter, statusFilter);
    ContainsToLower(longer, shorter);
    forall x | x in ps && p(x)
      ensures q(x)
    {
      ContainsTransitive(ToLower(x.name), ToLower(longer), ToLower(shorter));
    }
    FilterMonotone(ps, p, q);
  }

  /** The projects with one status, found with an empty query. */
  function WithStatus(ps: seq<Project>, st: ProjectStatus): seq<Project>
  {
    FilterProjects(ps, "", StatusName(st))
  }

  /** With an empty query, a status option keeps a project exactly when the project has that status. */
  lemma StatusOptionSelects(p: Project, st: ProjectStatus)
    ensures Criteria("", StatusName(st))(p) <==> p.status == st
  {
    ContainsEmpty(ToLower(p.name));
    var a, b := StatusName(p.status), StatusName(st);
    assert |b| != |AllStatuses|;
    if p.status != st {
      assert |a| != |b| || a[1] != b[1];
    }
  }

  /** Each project shows up under exactly one of the four status options. */
  lemma StatusOptionsPartition(ps: seq<Project>)
    ensures |WithStatus(ps, Active)| + |WithStatus(ps, Completed)|
          + |WithStatus(ps, OnHold)| + |WithStatus(ps, Cancelled)| == |ps|
    ensures multiset(WithStatus(ps, Active)) + multiset(WithStatus(ps, Completed))
          + multiset(WithStatus(ps, OnHold)) + multiset(WithStatus(ps, Cancelled)) == multiset(ps)
  {
    var p1, p2 := Criteria("", StatusName(Active)), Criteria("", StatusName(Completed));
    var p3, p4 := Criteria("", StatusName(OnHold)), Criteria("", StatusName(Cancelled));
    forall i | 0 <= i < |ps|
      ensures Indicator(p1(ps[i])) + Indicator(p2(ps[i])) + Indicator(p3(ps[i])) + Indicator(p4(ps[i])) == 1
    {
      StatusOptionSelects(ps[i], Active);
      StatusOptionSelects(ps[i], Completed);
      StatusOptionSelects(ps[i], OnHold);
      StatusOptionSelects(ps[i], Cancelled);
    }
    FilterPartition4(ps, p1, p2, p3, p4);
  }

  /** `assignedFreelancers.slice(0, 3)`: the avatars that are drawn. */
  function ShownAvatars(fs: seq<AssignedFreelancer>): (r: seq<AssignedFreelancer>)
    ensures |r| == if |fs| < MaxAvatars then |fs| else MaxAvatars
    ensures r <= fs
  {
    Slice(fs, 0, MaxAvatars)
  }

  /** The "+k" label: present only when more than three are assigned, counting the rest. */
  function OverflowCount(fs: seq<AssignedFreelancer>): (k: Option<nat>)
    ensures k.None? ==> ShownAvatars(fs) == fs
    ensures k.Some? ==> k.value >= 1 && |ShownAvatars(fs)| + k.value == |fs|
  {
    if |fs| > MaxAvatars then Some(|fs| - MaxAvatars) else None
  }

  /** The avatars drawn plus the "+k" count account for every assigned freelancer, and "+k" appears iff there are more than three. */
  lemma AvatarsAccountForAll(fs: seq<AssignedFreelancer>)
    ensures OverflowCount(fs).Some? <==> |fs| > MaxAvatars
    ensures OverflowCount(fs).Some? ==> OverflowCount(fs).value >= 1
    ensures |ShownAvatars(fs)| + (if OverflowCount(fs).Some? then OverflowCount(fs).value else 0) == |fs|
  {
  }

  /** The badge text: `status.charAt(0).toUpperCase() + status.slice(1)`. */
  function StatusLabel(st: ProjectStatus): (text: string)
    ensures ToLower(text) == ToLower(StatusName(st))
    ensures |text| > 0 && !IsLower(text[0])
    ensures text[1..] == StatusName(st)[1..]
  {
    CapitalizeSameIgnoringCase(StatusName(st));
    Capitalize(StatusName(st))
  }

  /** The four badge texts; "on-hold" keeps its lower-case "h". */
  lemma StatusLabels()
    ensures StatusLabel(Active) == "Active"
    ensures StatusLabel(Completed) == "Completed"
    ensures StatusLabel(OnHold) == "On-hold"
    ensures StatusLabel(Cancelled) == "Cancelled"
  {
    assert StatusName(OnHold)[1..] == "n-hold";
    assert StatusName(Active)[1..] == "ctive";
    assert StatusName(Completed)[1..] == "ompleted";
    assert StatusName(Cancelled)[1..] == "ancelled";
  }
}
