/** The admin lead list of `src/components/LeadsManager.tsx`: the search and filters over
    the loaded leads, the per-status counts on the status cards, and the local effect of a
    status change and of a reload. The database answers are parameters. */
module LeadsManager {
  import opened Types
  import opened Text
  import opened Seqs

  // ---------------------------------------------------------------------------------------
  // filtered

  /** The search box: empty, or found in the name or the email ignoring case, or in the
      phone number as typed. */
  predicate MatchesSearch(lead: Lead, search: string)
  {
    search == ""
    || Contains(Lower(lead.name), Lower(search))
    || Contains(Lower(lead.email), Lower(search))
    || Contains(lead.phone, search)
  }

  /** The test of `filtered`: the search, and the status and interest filters, each of which
      is empty or the wire name of the value to keep. */
  predicate Matches(lead: Lead, search: string, filterStatus: string, filterInterest: string)
  {
    && MatchesSearch(lead, search)
    && (filterStatus == "" || StatusName(lead.status) == filterStatus)
    && (filterInterest == "" || InterestName(lead.interest) == filterInterest)
  }

  /** `filtered` */
  function Filtered(leads: seq<Lead>, search: string, filterStatus: string, filterInterest: string): seq<Lead>
  {
    Filter(leads, lead => Matches(lead, search, filterStatus, filterInterest))
  }

  /** A lead is listed exactly when it is loaded and passes all three tests, and the list
      keeps the loaded order. */
  lemma FilteredSpec(leads: seq<Lead>, search: string, filterStatus: string, filterInterest: string, lead: Lead)
    ensures lead in Filtered(leads, search, filterStatus, filterInterest) <==>
      lead in leads && Matches(lead, search, filterStatus, filterInterest)
    ensures IsSubsequence(Filtered(leads, search, filterStatus, filterInterest), leads)
  {
    FilterMembers(leads, l => Matches(l, search, filterStatus, filterInterest), lead);
    FilterIsSubsequence(leads, l => Matches(l, search, filterStatus, filterInterest));
  }

  /** With no search and no filter every loaded lead is listed. */
  lemma NoFilterListsAll(leads: seq<Lead>)
    ensures Filtered(leads, "", "", "") == leads
  {
    FilterKeepsAll(leads, l => Matches(l, "", "", ""));
  }

  // ---------------------------------------------------------------------------------------
  // counts

  predicate HasStatus(st: LeadStatus, lead: Lead) { lead.status == st }

  /** The number of loaded leads with a status. */
  function CountOf(leads: seq<Lead>, st: LeadStatus): nat
  {
    Count(leads, lead => HasStatus(st, lead))
  }

  /** `counts`: one number per status card. */
  datatype StatusCounts = StatusCounts(newCount: nat, contactedCount: nat, qualifiedCount: nat, closedCount: nat)

  function Counts(leads: seq<Lead>): StatusCounts
  {
    StatusCounts(CountOf(leads, New), CountOf(leads, Contacted), CountOf(leads, Qualified), CountOf(leads, Closed))
  }

  /** The four cards add up to the number of loaded leads, since every lead has exactly one
      of the four statuses. */
  lemma {:induction false} CountsSum(leads: seq<Lead>)
    ensures var c := Counts(leads); c.newCount + c.contactedCount + c.qualifiedCount + c.closedCount == |leads|
  {
    if leads != [] {
      CountsSum(leads[1..]);
      assert leads == [leads[0]] + leads[1..];
      forall st: LeadStatus
        ensures CountOf(leads, st) == (if leads[0].status == st then 1 else 0) + CountOf(leads[1..], st)
      {
        assert Filter(leads, l => HasStatus(st, l))
          == (if HasStatus(st, leads[0]) then [leads[0]] else []) + Filter(leads[1..], l => HasStatus(st, l));
      }
    }
  }

  /** A card's number is the length of the list shown when only that card's filter is set. */
  lemma CardCountIsListLength(leads: seq<Lead>, st: LeadStatus)
    ensures CountOf(leads, st) == |Filtered(leads, "", StatusName(st), "")|
  {
    forall i | 0 <= i < |leads|
      ensures HasStatus(st, leads[i]) == Matches(leads[i], "", StatusName(st), "")
    {
      StatusNameInjective(leads[i].status, st);
    }
    FilterCongruent(leads, l => HasStatus(st, l), l => Matches(l, "", StatusName(st), ""));
  }

  // ---------------------------------------------------------------------------------------
  // updateLeadStatus

  /** `prev.map((l) => (l.id === id ? { ...l, status } : l))` */
  function SetStatus(leads: seq<Lead>, id: string, status: LeadStatus): (r: seq<Lead>)
    ensures |r| == |leads|
  {
    if leads == [] then []
    else [if leads[0].id == id then leads[0].(status := status) else leads[0]] + SetStatus(leads[1..], id, status)
  }

  /** Only the leads with the given id change, and of them only the status: the order, the
      length and every other lead are kept. */
  lemma {:induction false} SetStatusChangesOnlyThatLead(leads: seq<Lead>, id: string, status: LeadStatus)
    ensures var r := SetStatus(leads, id, status);
      forall i :: 0 <= i < |leads| ==>
        (leads[i].id == id ==> r[i] == leads[i].(status := status))
        && (leads[i].id != id ==> r[i] == leads[i])
  {
    if leads != [] {
      SetStatusChangesOnlyThatLead(leads[1..], id, status);
      var r := SetStatus(leads, id, status);
      assert r[1..] == SetStatus(leads[1..], id, status);
      forall i | 1 <= i < |leads|
        ensures r[i] == SetStatus(leads[1..], id, status)[i - 1]
      {
      }
    }
  }

  /** Lead ids are the table's primary key: no two loaded leads share one. */
  predicate UniqueIds(leads: seq<Lead>)
  {
    forall i, j :: 0 <= i < j < |leads| ==> leads[i].id != leads[j].id
  }

  /** With unique ids, the update replaces one element, and the lead moves from its old
      status card to the new one: every other card keeps its number. */
  lemma StatusMovesBetweenCards(leads: seq<Lead>, k: nat, status: LeadStatus, st: LeadStatus)
    requires UniqueIds(leads) && k < |leads|
    ensures SetStatus(leads, leads[k].id, status) == leads[k := leads[k].(status := status)]
    ensures CountOf(SetStatus(leads, leads[k].id, status), st) + (if leads[k].status == st then 1 else 0)
      == CountOf(leads, st) + (if status == st then 1 else 0)
  {
    var r := SetStatus(leads, leads[k].id, status);
    SetStatusChangesOnlyThatLead(leads, leads[k].id, status);
    assert r == leads[k := leads[k].(status := status)];
    CountUpdate(leads, k, leads[k].(status := status), l => HasStatus(st, l));
  }

  /** Updating an id that no loaded lead has changes nothing. */
  lemma SetStatusUnknownId(leads: seq<Lead>, id: string, status: LeadStatus)
    requires forall i :: 0 <= i < |leads| ==> leads[i].id != id
    ensures SetStatus(leads, id, status) == leads
  {
    SetStatusChangesOnlyThatLead(leads, id, status);
  }

  // ---------------------------------------------------------------------------------------
  // The status cards

  /** A card's click: the selected card clears the filter, any other selects its status. */
  function ToggleStatusFilter(filterStatus: string, st: LeadStatus): (f: string)
    ensures f == "" <==> filterStatus == StatusName(st)
    ensures f != "" ==> f == StatusName(st)
  {
    if filterStatus == StatusName(st) then "" else StatusName(st)
  }

  /** Clicking the same card twice restores a filter that was empty or set to that card. */
  lemma ToggleTwice(filterStatus: string, st: LeadStatus)
    requires filterStatus == "" || filterStatus == StatusName(st)
    ensures ToggleStatusFilter(ToggleStatusFilter(filterStatus, st), st) == filterStatus
  {
  }

  // ---------------------------------------------------------------------------------------
  // The component's state

  /** The answer of the `leads` query: an error, or rows that may be missing. */
  datatype QueryAnswer = QueryFailed(message: string) | Rows(data: Option<seq<Lead>>)

  const LoadFailedPrefix: string := "Failed to load leads: "
  const UpdateFailedPrefix: string := "Failed to update status: "

  datatype ManagerView = ManagerView(
    leads: seq<Lead>, loading: bool, search: string, filterStatus: string, filterInterest: string,
    updatingStatus: Option<string>)

  /** `fetchLeads`: an error keeps the leads, rows replace them (no rows: an empty list);
      loading ends either way. */
  function Fetched(v: ManagerView, answer: QueryAnswer): ManagerView
  {
    match answer
    case QueryFailed(_) => v.(loading := false)
    case Rows(data) => v.(leads := data.GetOr([]), loading := false)
  }

  /** `updateLeadStatus`: an error keeps the leads, success sets the status of the lead with
      that id; the update marker is cleared either way. */
  function StatusUpdated(v: ManagerView, id: string, status: LeadStatus, error: Option<string>): ManagerView
  {
    if error.Some? then v.(updatingStatus := None)
    else v.(leads := SetStatus(v.leads, id, status), updatingStatus := None)
  }

  /** What a reload and a status change do to the list, by outcome. */
  lemma OutcomesOnLeads(v: ManagerView, answer: QueryAnswer, id: string, status: LeadStatus, error: Option<string>)
    ensures answer.QueryFailed? ==> Fetched(v, answer).leads == v.leads
    ensures answer == Rows(None) ==> Fetched(v, answer).leads == []
    ensures answer.Rows? && answer.data.Some? ==> Fetched(v, answer).leads == answer.data.value
    ensures !Fetched(v, answer).loading
    ensures error.Some? ==> StatusUpdated(v, id, status, error).leads == v.leads
    ensures StatusUpdated(v, id, status, error).updatingStatus.None?
    ensures |StatusUpdated(v, id, status, error).leads| == |v.leads|
  {
  }

  /** The notice passed to `onMessage` for a failed query. */
  function FailureNotice(prefix: string, error: Option<string>): (n: Option<string>)
    ensures n.Some? <==> error.Some?
    ensures n.Some? ==> StartsWith(n.value, prefix)
  {
    if error.Some? then Some(prefix + error.value) else None
  }

  class Manager {
    var leads: seq<Lead>
    var loading: bool
    var search: string
    var filterStatus: string
    var filterInterest: string
    var updatingStatus: Option<string>

    ghost function View(): ManagerView
      reads this
    {
      ManagerView(leads, loading, search, filterStatus, filterInterest, updatingStatus)
    }

    /** The state on mount: nothing loaded yet, the spinner shown, no filter. */
    constructor()
      ensures View() == ManagerView([], true, "", "", "", None)
    {
      leads := [];
      loading := true;
      search := "";
      filterStatus := "";
      filterInterest := "";
      updatingStatus := None;
    }

    /** `fetchLeads`, with the answer of the query as a parameter; returns the notice. */
    method FetchLeads(answer: QueryAnswer) returns (notice: Option<string>)
      modifies this
      ensures View() == Fetched(old(View()), answer)
      ensures notice == FailureNotice(LoadFailedPrefix,
        if answer.QueryFailed? then Some(answer.message) else None)
    {
      loading := true;
      match answer {
        case QueryFailed(message) =>
          notice := Some(LoadFailedPrefix + message);
        case Rows(data) =>
          notice := None;
          leads := data.GetOr([]);
      }
      loading := false;
    }

    /** `updateLeadStatus`, with the error of the update as a parameter; returns the notice. */
    method UpdateLeadStatus(id: string, status: LeadStatus, error: Option<string>) returns (notice: Option<string>)
      modifies this
      ensures View() == StatusUpdated(old(View()), id, status, error)
      ensures notice == FailureNotice(UpdateFailedPrefix, error)
    {
      updatingStatus := Some(id);
      if error.Some? {
        notice := Some(UpdateFailedPrefix + error.value);
      } else {
        notice := None;
        leads := SetStatus(leads, id, status);
      }
      updatingStatus := None;
    }

    /** A status card's `onClick`. */
    method ClickStatusCard(st: LeadStatus)
      modifies this
      ensures View() == old(View()).(filterStatus := ToggleStatusFilter(old(filterStatus), st))
    {
      filterStatus := if filterStatus == StatusName(st) then "" else StatusName(st);
    }

  }
}
