/** The administrator's complaint list: a cache of complaints loaded from the remote
    store, a view of it narrowed by three filter selections, and the cache updates that
    follow a status change, a deletion or a reload. */
module AdminDashboard {
  import opened Wrappers
  import opened Sequences
  import opened Text
  import opened ComplaintTypes

  // ---------------------------------------------------------------------------
  // The filtered view
  // ---------------------------------------------------------------------------

  /** The search predicate: the lower-cased term occurs in the lower-cased title,
      description or category. */
  predicate SearchMatches(c: Complaint, searchTerm: string) {
    var term := Lower(searchTerm);
    Contains(Lower(c.title), term) || Contains(Lower(c.description), term) || Contains(Lower(c.category), term)
  }

  /** The view the dashboard renders, derived from the cache as the source derives it:
      a status filter unless the selection is "all", then a priority filter unless it is
      "all", then the search filter when the term is not empty. */
  function FilteredView(cache: seq<Complaint>, statusFilter: string, priorityFilter: string, searchTerm: string): (view: seq<Complaint>) {
    var byStatus := if statusFilter != ALL then Filter(cache, (c: Complaint) => StatusName(c.status) == statusFilter) else cache;
    var byPriority := if priorityFilter != ALL then Filter(byStatus, (c: Complaint) => PriorityName(c.priority) == priorityFilter) else byStatus;
    if searchTerm != "" then Filter(byPriority, (c: Complaint) => SearchMatches(c, searchTerm)) else byPriority
  }

  /** A complaint passes every active filter. */
  predicate Passes(c: Complaint, statusFilter: string, priorityFilter: string, searchTerm: string) {
    && (statusFilter == ALL || StatusName(c.status) == statusFilter)
    && (priorityFilter == ALL || PriorityName(c.priority) == priorityFilter)
    && (searchTerm == "" || SearchMatches(c, searchTerm))
  }

  /** Each selection as a predicate that is always applied, and accepts everything when
      the selection is inactive. */
  function StatusStep(statusFilter: string): (step: Complaint -> bool) {
    (c: Complaint) => statusFilter == ALL || StatusName(c.status) == statusFilter
  }

  function PriorityStep(priorityFilter: string): (step: Complaint -> bool) {
    (c: Complaint) => priorityFilter == ALL || PriorityName(c.priority) == priorityFilter
  }

  function SearchStep(searchTerm: string): (step: Complaint -> bool) {
    (c: Complaint) => searchTerm == "" || SearchMatches(c, searchTerm)
  }

  /** Skipping an inactive filter is the same as applying its always-true step. */
  lemma FilteredViewAsChain(cache: seq<Complaint>, statusFilter: string, priorityFilter: string, searchTerm: string)
    ensures FilteredView(cache, statusFilter, priorityFilter, searchTerm)
         == Filter(Filter(Filter(cache, StatusStep(statusFilter)), PriorityStep(priorityFilter)), SearchStep(searchTerm))
  {
    var byStatus := if statusFilter != ALL then Filter(cache, (c: Complaint) => StatusName(c.status) == statusFilter) else cache;
    if statusFilter != ALL {
      FilterCongruent(cache, (c: Complaint) => StatusName(c.status) == statusFilter, StatusStep(statusFilter));
    } else {
      FilterKeepsAll(cache, StatusStep(statusFilter));
    }
    var byPriority := if priorityFilter != ALL then Filter(byStatus, (c: Complaint) => PriorityName(c.priority) == priorityFilter) else byStatus;
    if priorityFilter != ALL {
      FilterCongruent(byStatus, (c: Complaint) => PriorityName(c.priority) == priorityFilter, PriorityStep(priorityFilter));
    } else {
      FilterKeepsAll(byStatus, PriorityStep(priorityFilter));
    }
    if searchTerm != "" {
      FilterCongruent(byPriority, (c: Complaint) => SearchMatches(c, searchTerm), SearchStep(searchTerm));
    } else {
      FilterKeepsAll(byPriority, SearchStep(searchTerm));
    }
  }

  /** The three filters are conjunctive: the view is the cache filtered once by "passes
      every active filter". */
  lemma FilteredViewIsConjunction(cache: seq<Complaint>, statusFilter: string, priorityFilter: string, searchTerm: string)
    ensures FilteredView(cache, statusFilter, priorityFilter, searchTerm)
         == Filter(cache, (c: Complaint) => Passes(c, statusFilter, priorityFilter, searchTerm))
  {
    FilteredViewAsChain(cache, statusFilter, priorityFilter, searchTerm);
    FilterChain3(cache, StatusStep(statusFilter), PriorityStep(priorityFilter), SearchStep(searchTerm),
                 (c: Complaint) => Passes(c, statusFilter, priorityFilter, searchTerm));
  }

  /** A complaint is in the view exactly when it is in the cache and passes every active
      filter. */
  lemma FilteredViewMembership(cache: seq<Complaint>, statusFilter: string, priorityFilter: string, searchTerm: string)
    ensures forall c :: c in FilteredView(cache, statusFilter, priorityFilter, searchTerm)
                    <==> c in cache && Passes(c, statusFilter, priorityFilter, searchTerm)
  {
  }

  /** The view only drops complaints: it is a subsequence of the cache, in cache order. */
  lemma FilteredViewIsSubsequence(cache: seq<Complaint>, statusFilter: string, priorityFilter: string, searchTerm: string)
    ensures IsSubsequence(FilteredView(cache, statusFilter, priorityFilter, searchTerm), cache)
  {
    FilteredViewIsConjunction(cache, statusFilter, priorityFilter, searchTerm);
    FilterIsSubsequence(cache, (c: Complaint) => Passes(c, statusFilter, priorityFilter, searchTerm));
  }

  /** With every filter inactive the view is the whole cache. */
  lemma InactiveFiltersShowAll(cache: seq<Complaint>)
    ensures FilteredView(cache, ALL, ALL, "") == cache
  {
  }

  /** The order in which the three filters are applied does not change the view. */
  lemma FilterOrderIrrelevant(cache: seq<Complaint>, statusFilter: string, priorityFilter: string, searchTerm: string)
    ensures var s, p, q := StatusStep(statusFilter), PriorityStep(priorityFilter), SearchStep(searchTerm);
      var view := FilteredView(cache, statusFilter, priorityFilter, searchTerm);
      && Filter(Filter(Filter(cache, s), p), q) == view
      && Filter(Filter(Filter(cache, s), q), p) == view
      && Filter(Filter(Filter(cache, p), s), q) == view
      && Filter(Filter(Filter(cache, p), q), s) == view
      && Filter(Filter(Filter(cache, q), s), p) == view
      && Filter(Filter(Filter(cache, q), p), s) == view
  {
    var s, p, q := StatusStep(statusFilter), PriorityStep(priorityFilter), SearchStep(searchTerm);
    var pass := (c: Complaint) => Passes(c, statusFilter, priorityFilter, searchTerm);
    FilteredViewAsChain(cache, statusFilter, priorityFilter, searchTerm);
    FilteredViewIsConjunction(cache, statusFilter, priorityFilter, searchTerm);
    FilterChain3(cache, s, q, p, pass);
    FilterChain3(cache, p, s, q, pass);
    FilterChain3(cache, p, q, s, pass);
    FilterChain3(cache, q, s, p, pass);
    FilterChain3(cache, q, p, s, pass);
  }

  /** The search ignores case: two terms that lower-case alike give the same view. */
  lemma SearchIsCaseInsensitive(cache: seq<Complaint>, statusFilter: string, priorityFilter: string, term1: string, term2: string)
    requires Lower(term1) == Lower(term2)
    ensures FilteredView(cache, statusFilter, priorityFilter, term1) == FilteredView(cache, statusFilter, priorityFilter, term2)
  {
    FilteredViewIsConjunction(cache, statusFilter, priorityFilter, term1);
    FilteredViewIsConjunction(cache, statusFilter, priorityFilter, term2);
    assert |term1| == |term2|;
    FilterCongruent(cache, (c: Complaint) => Passes(c, statusFilter, priorityFilter, term1),
                           (c: Complaint) => Passes(c, statusFilter, priorityFilter, term2));
  }

  /** A term that occurs verbatim in a title, description or category is found by the
      case-insensitive search. */
  lemma SearchFindsVerbatimOccurrence(c: Complaint, searchTerm: string)
    requires Contains(c.title, searchTerm) || Contains(c.description, searchTerm) || Contains(c.category, searchTerm)
    ensures SearchMatches(c, searchTerm)
  {
    if Contains(c.title, searchTerm) {
      ContainsLower(c.title, searchTerm);
    } else if Contains(c.description, searchTerm) {
      ContainsLower(c.description, searchTerm);
    } else {
      ContainsLower(c.category, searchTerm);
    }
  }

  // ---------------------------------------------------------------------------
  // Cache updates
  // ---------------------------------------------------------------------------

  /** The cache after a confirmed status update: every record with the given id has the
      new status, and nothing else differs. */
  function WithStatus(cache: seq<Complaint>, id: string, newStatus: Status): (r: seq<Complaint>)
    ensures |r| == |cache|
    ensures forall i :: 0 <= i < |r| ==> r[i].status == (if cache[i].id == id then newStatus else cache[i].status)
    ensures forall i :: 0 <= i < |r| ==> r[i].(status := cache[i].status) == cache[i]
    ensures forall i :: 0 <= i < |r| && cache[i].id != id ==> r[i] == cache[i]
  {
    seq(|cache|, i requires 0 <= i < |cache| => if cache[i].id == id then cache[i].(status := newStatus) else cache[i])
  }

  /** The cache after a confirmed delete: the records with the given id are gone and the
      rest keep their order. */
  function WithoutId(cache: seq<Complaint>, id: string): (r: seq<Complaint>)
    ensures forall c :: c in r <==> c in cache && c.id != id
    ensures IsSubsequence(r, cache)
  {
    FilterIsSubsequence(cache, (c: Complaint) => c.id != id);
    Filter(cache, (c: Complaint) => c.id != id)
  }

  /** A later status update of the same id overrides an earlier one. */
  lemma LastStatusUpdateWins(cache: seq<Complaint>, id: string, first: Status, second: Status)
    ensures WithStatus(WithStatus(cache, id, first), id, second) == WithStatus(cache, id, second)
  {
  }

  /** Updating the status of an id the cache does not hold changes nothing. */
  lemma UpdateOfAbsentIdIsNoOp(cache: seq<Complaint>, id: string, newStatus: Status)
    requires forall i :: 0 <= i < |cache| ==> cache[i].id != id
    ensures WithStatus(cache, id, newStatus) == cache
  {
  }

  /** Ids are unique within the cache, as the store assigns them. */
  predicate UniqueIds(cache: seq<Complaint>) {
    forall i, j :: 0 <= i < j < |cache| ==> cache[i].id != cache[j].id
  }

  /** A delete removes exactly as many records as carry the id. */
  lemma DeleteRemovesEveryMatch(cache: seq<Complaint>, id: string)
    ensures |WithoutId(cache, id)| == |cache| - Count(cache, (c: Complaint) => c.id == id)
  {
    FilterLength(cache, (c: Complaint) => c.id != id);
    CountComplement(cache, (c: Complaint) => c.id == id, (c: Complaint) => c.id != id);
  }

  /** With unique ids, deleting a present id removes exactly one record. */
  lemma {:induction false} DeleteRemovesExactlyOne(cache: seq<Complaint>, id: string)
    requires UniqueIds(cache)
    requires exists i :: 0 <= i < |cache| && cache[i].id == id
    ensures |WithoutId(cache, id)| == |cache| - 1
  {
    var keep := (c: Complaint) => c.id != id;
    if cache[0].id == id {
      assert forall i :: 0 <= i < |cache[1..]| ==> cache[1..][i].id != id by {
        forall i | 0 <= i < |cache[1..]| ensures cache[1..][i].id != id {
          assert cache[1..][i] == cache[i + 1];
        }
      }
      FilterKeepsAll(cache[1..], keep);
    } else {
      var k :| 0 <= k < |cache| && cache[k].id == id;
      assert cache[1..][k - 1].id == id;
      DeleteRemovesExactlyOne(cache[1..], id);
    }
  }

  /** Deleting twice is deleting once. */
  lemma DeleteIsIdempotent(cache: seq<Complaint>, id: string)
    ensures WithoutId(WithoutId(cache, id), id) == WithoutId(cache, id)
  {
    var once := WithoutId(cache, id);
    assert forall i :: 0 <= i < |once| ==> once[i].id != id by {
      forall i | 0 <= i < |once| ensures once[i].id != id {
        assert once[i] in once;
      }
    }
    FilterKeepsAll(once, (c: Complaint) => c.id != id);
  }

  /** Deleting from the cache and then filtering shows what deleting from the view would. */
  lemma DeleteCommutesWithView(cache: seq<Complaint>, id: string, statusFilter: string, priorityFilter: string, searchTerm: string)
    ensures FilteredView(WithoutId(cache, id), statusFilter, priorityFilter, searchTerm)
         == WithoutId(FilteredView(cache, statusFilter, priorityFilter, searchTerm), id)
  {
    var pass := (c: Complaint) => Passes(c, statusFilter, priorityFilter, searchTerm);
    FilteredViewIsConjunction(WithoutId(cache, id), statusFilter, priorityFilter, searchTerm);
    FilteredViewIsConjunction(cache, statusFilter, priorityFilter, searchTerm);
    FilterCommute(cache, (c: Complaint) => c.id != id, pass);
  }

  // ---------------------------------------------------------------------------
  // Badge colours
  // ---------------------------------------------------------------------------

  const DESTRUCTIVE_BADGE: string := "bg-destructive text-destructive-foreground"
  const WARNING_BADGE: string := "bg-warning text-warning-foreground"
  const MUTED_BADGE: string := "bg-muted text-muted-foreground"
  const SUCCESS_BADGE: string := "bg-success text-success-foreground"

  /** The badge class for a priority; any value other than High or Medium, known or not,
      gets the muted badge. */
  function PriorityColor(priority: string): (r: string)
    ensures r == DESTRUCTIVE_BADGE <==> priority == "High"
    ensures r == WARNING_BADGE <==> priority == "Medium"
    ensures r == MUTED_BADGE <==> priority != "High" && priority != "Medium"
  {
    if priority == "High" then DESTRUCTIVE_BADGE
    else if priority == "Medium" then WARNING_BADGE
    else if priority == "Low" then MUTED_BADGE
    else MUTED_BADGE
  }

  /** The badge class for a status; any value other than Resolved or In Progress, known or
      not, gets the muted badge. */
  function StatusColor(status: string): (r: string)
    ensures r == SUCCESS_BADGE <==> status == "Resolved"
    ensures r == WARNING_BADGE <==> status == "In Progress"
    ensures r == MUTED_BADGE <==> status != "Resolved" && status != "In Progress"
  {
    if status == "Resolved" then SUCCESS_BADGE
    else if status == "In Progress" then WARNING_BADGE
    else if status == "Pending" then MUTED_BADGE
    else MUTED_BADGE
  }

  /** Every priority and every status a complaint can hold has its own badge. */
  lemma BadgesDistinguishValues()
    ensures forall p, q: Priority :: PriorityColor(PriorityName(p)) == PriorityColor(PriorityName(q)) ==> p == q
    ensures forall s, t: Status :: StatusColor(StatusName(s)) == StatusColor(StatusName(t)) ==> s == t
  {
  }

  // ---------------------------------------------------------------------------
  // The controller
  // ---------------------------------------------------------------------------

  /** The failure a handler reports to the user. */
  datatype ListError = FetchError | UpdateError | DeleteError

  /** What the store answers to the load query: rows (possibly null) or an error. */
  datatype FetchReply = Rows(data: Option<seq<Complaint>>) | FetchFailed

  /** The dashboard component's state and its handlers. Each remote call is an input:
      the reply to the query, or whether the store accepted the update or delete. */
  class ListController {
    var complaints: seq<Complaint>
    var isLoading: bool
    var statusFilter: string
    var priorityFilter: string
    var searchTerm: string

    /** The state when the component mounts: an empty cache, loading, no filters. */
    constructor ()
      ensures complaints == [] && isLoading
      ensures statusFilter == ALL && priorityFilter == ALL && searchTerm == ""
    {
      complaints := [];
      isLoading := true;
      statusFilter := ALL;
      priorityFilter := ALL;
      searchTerm := "";
    }

    /** The complaints on screen: those of the cache that pass every active filter, in
        cache order. */
    function FilteredComplaints(): (r: seq<Complaint>)
      reads this
      ensures IsSubsequence(r, complaints)
      ensures forall c :: c in r <==> c in complaints && Passes(c, statusFilter, priorityFilter, searchTerm)
      ensures var sf, pf, st := statusFilter, priorityFilter, searchTerm;
        r == Filter(complaints, (c: Complaint) => Passes(c, sf, pf, st))
    {
      FilteredViewIsConjunction(complaints, statusFilter, priorityFilter, searchTerm);
      FilteredViewIsSubsequence(complaints, statusFilter, priorityFilter, searchTerm);
      FilteredViewMembership(complaints, statusFilter, priorityFilter, searchTerm);
      FilteredView(complaints, statusFilter, priorityFilter, searchTerm)
    }

    /** Load: rows replace the cache (null rows give the empty cache), an error keeps it;
        loading ends either way. */
    method FetchComplaints(reply: FetchReply) returns (error: Option<ListError>)
      modifies this`complaints, this`isLoading
      ensures complaints == (if reply.Rows? then reply.data.GetOr([]) else old(complaints))
      ensures !isLoading
      ensures error == (if reply.Rows? then None else Some(FetchError))
    {
      if reply.Rows? {
        complaints := reply.data.GetOr([]);
        error := None;
      } else {
        error := Some(FetchError);
      }
      isLoading := false;
    }

    /** Status update: when the store accepts it, the records with that id take the new
        status; when it refuses, the cache is kept and an error is reported. */
    method UpdateComplaintStatus(id: string, newStatus: Status, storeAccepts: bool) returns (error: Option<ListError>)
      modifies this`complaints
      ensures complaints == (if storeAccepts then WithStatus(old(complaints), id, newStatus) else old(complaints))
      ensures error == (if storeAccepts then None else Some(UpdateError))
    {
      if !storeAccepts {
        return Some(UpdateError);
      }
      complaints := WithStatus(complaints, id, newStatus);
      error := None;
    }

    /** Delete: without the user's confirmation no request is made; with it, the store's
        acceptance removes the records with that id and a refusal keeps the cache. */
    method DeleteComplaint(id: string, confirmed: bool, storeAccepts: bool) returns (requested: bool, error: Option<ListError>)
      modifies this`complaints
      ensures requested == confirmed
      ensures complaints == (if confirmed && storeAccepts then WithoutId(old(complaints), id) else old(complaints))
      ensures error == (if confirmed && !storeAccepts then Some(DeleteError) else None)
    {
      if !confirmed {
        return false, None;
      }
      requested := true;
      if !storeAccepts {
        return requested, Some(DeleteError);
      }
      complaints := WithoutId(complaints, id);
      error := None;
    }

    method SetStatusFilter(value: string)
      modifies this`statusFilter
      ensures statusFilter == value
    {
      statusFilter := value;
    }

    method SetPriorityFilter(value: string)
      modifies this`priorityFilter
      ensures priorityFilter == value
    {
      priorityFilter := value;
    }

    method SetSearchTerm(value: string)
      modifies this`searchTerm
      ensures searchTerm == value
    {
      searchTerm := value;
    }
  }

  // ---------------------------------------------------------------------------
  // A worked example: two complaints, newest first
  // ---------------------------------------------------------------------------

  function BillingIssue(): (c: Complaint) {
    Complaint("1", "Billing issue", "Charged twice", "Product", High, Pending, None, "2024-03-02", "2024-03-02")
  }

  function LateDelivery(): (c: Complaint) {
    Complaint("2", "Late delivery", "Parcel arrived late", "Service", Low, Resolved, None, "2024-03-01", "2024-03-01")
  }

  /** Selecting status Pending shows only the pending complaint. */
  lemma ExampleStatusFilter()
    ensures FilteredView([BillingIssue(), LateDelivery()], "Pending", ALL, "") == [BillingIssue()]
  {
  }

  /** Searching for "billing" finds "Billing issue" despite the capital letter, and
      nothing else. */
  lemma ExampleSearch()
    ensures FilteredView([BillingIssue(), LateDelivery()], ALL, ALL, "billing") == [BillingIssue()]
  {
    var cache := [BillingIssue(), LateDelivery()];
    assert cache[1..] == [LateDelivery()];
    ExampleSearchHit();
    ExampleSearchMiss();
  }

  lemma ExampleSearchHit()
    ensures SearchMatches(BillingIssue(), "billing")
  {
    var title := Lower("Billing issue");
    assert title[0] == 'b';
    assert title[..7] == "billing";
    assert Lower("billing") == "billing";
    assert OccursAt(title, "billing", 0);
  }

  lemma ExampleSearchMiss()
    ensures !SearchMatches(LateDelivery(), "billing")
  {
    var late := LateDelivery();
    var term := Lower("billing");
    assert term[0] == 'b';
    NotInLower(late.title, 'b');
    NotInLower(late.description, 'b');
    NotInLower(late.category, 'b');
    if Contains(Lower(late.title), term) { ContainsFirstChar(Lower(late.title), term); }
    if Contains(Lower(late.description), term) { ContainsFirstChar(Lower(late.description), term); }
    if Contains(Lower(late.category), term) { ContainsFirstChar(Lower(late.category), term); }
  }

  /** Updating complaint 2 to In Progress changes its status and nothing else. */
  lemma ExampleStatusUpdate()
    ensures WithStatus([BillingIssue(), LateDelivery()], "2", InProgress)
         == [BillingIssue(), LateDelivery().(status := InProgress)]
  {
  }

  /** The handlers driven in sequence: load, filter, update, and a delete the store
      refuses. */
  method DashboardExample() {
    var dashboard := new ListController();
    var error := dashboard.FetchComplaints(Rows(Some([BillingIssue(), LateDelivery()])));
    assert error.None? && !dashboard.isLoading;
    dashboard.SetStatusFilter("Pending");
    ExampleStatusFilter();
    assert dashboard.FilteredComplaints() == [BillingIssue()];
    dashboard.SetStatusFilter(ALL);
    error := dashboard.UpdateComplaintStatus("2", InProgress, true);
    ExampleStatusUpdate();
    assert dashboard.complaints == [BillingIssue(), LateDelivery().(status := InProgress)];
    var requested;
    requested, error := dashboard.DeleteComplaint("1", true, false);
    assert requested && error == Some(DeleteError);
    assert dashboard.complaints[0] == BillingIssue();
    requested, error := dashboard.DeleteComplaint("1", false, true);
    assert !requested && error.None? && |dashboard.complaints| == 2;
  }
}
