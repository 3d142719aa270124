/**
 * The approval queue (src/components/dashboard/ApprovalsQueue.tsx): a list of
 * submissions whose `status` is replaced by id on approve or reject, the
 * per-type "pending" tabs derived from it, and the amount label.
 */
module ApprovalsQueue {
  import opened Seqs
  import opened Wrappers

  datatype SubmissionType = Time | Expense | Deliverable

  datatype ApprovalStatus = Pending | Approved | Rejected

  datatype ApprovalItem = ApprovalItem(
    id: string,
    freelancerName: string,
    freelancerAvatar: Option<string>,
    projectName: string,
    submissionType: SubmissionType,
    date: string,
    amount: Option<real>,
    description: Option<string>,
    status: ApprovalStatus)

  /**
   * `items.map(item => item.id === id ? { ...item, status } : item)`: every item
   * with that id gets the new status, whatever it had before; nothing else changes.
   */
  function SetStatusById(items: seq<ApprovalItem>, id: string, status: ApprovalStatus): (r: seq<ApprovalItem>)
    ensures |r| == |items|
    ensures forall i :: 0 <= i < |items| && items[i].id == id ==> r[i] == items[i].(status := status)
    ensures forall i :: 0 <= i < |items| && items[i].id != id ==> r[i] == items[i]
  {
    if items == [] then []
    else
      var head := if items[0].id == id then items[0].(status := status) else items[0];
      [head] + SetStatusById(items[1..], id, status)
  }

  /** A second update of the same id overrides the first; with equal statuses this is idempotence. */
  lemma SetStatusLastWins(items: seq<ApprovalItem>, id: string, first: ApprovalStatus, second: ApprovalStatus)
    ensures SetStatusById(SetStatusById(items, id, first), id, second) == SetStatusById(items, id, second)
  {
  }

  /** An id that no item has (such as the "" fallback of the dialog) leaves the list as it was. */
  lemma SetStatusUnknownId(items: seq<ApprovalItem>, id: string, status: ApprovalStatus)
    requires forall i :: 0 <= i < |items| ==> items[i].id != id
    ensures SetStatusById(items, id, status) == items
  {
  }

  predicate IsPending(item: ApprovalItem)
  {
    item.status == Pending
  }

  /** The predicate of one type tab. */
  function PendingOfType(t: SubmissionType): ApprovalItem -> bool
  {
    (item: ApprovalItem) => item.submissionType == t && item.status == Pending
  }

  /** The "All" tab: `approvals.filter(a => a.status === "pending")`. */
  function AllPending(items: seq<ApprovalItem>): (r: seq<ApprovalItem>)
    ensures IsSubsequence(r, items)
    ensures forall x :: x in r <==> x in items && x.status == Pending
    ensures forall x :: multiset(r)[x] == if x.status == Pending then multiset(items)[x] else 0
  {
    FilterMembers(items, IsPending);
    FilterMultiplicity(items, IsPending);
    FilterIsSubsequence(items, IsPending);
    Filter(items, IsPending)
  }

  /** `timeSubmissions`, `expenseClaims` and `deliverables`. */
  function TypeTab(items: seq<ApprovalItem>, t: SubmissionType): (r: seq<ApprovalItem>)
    ensures IsSubsequence(r, items)
    ensures forall x :: x in r <==> x in items && x.submissionType == t && x.status == Pending
    ensures forall x :: multiset(r)[x] == if x.submissionType == t && x.status == Pending then multiset(items)[x] else 0
  {
    FilterMembers(items, PendingOfType(t));
    FilterMultiplicity(items, PendingOfType(t));
    FilterIsSubsequence(items, PendingOfType(t));
    Filter(items, PendingOfType(t))
  }

  /** The "All" count is the sum of the three type counts: every pending item has exactly one type. */
  lemma {:induction false} AllCountIsSumOfTabs(items: seq<ApprovalItem>)
    ensures |AllPending(items)| == |TypeTab(items, Time)| + |TypeTab(items, Expense)| + |TypeTab(items, Deliverable)|
  {
    if items != [] {
      AllCountIsSumOfTabs(items[1..]);
    }
  }

  /** After approving or rejecting by id, no item with that id is left in the "All" tab. */
  lemma DecidedItemLeavesPending(items: seq<ApprovalItem>, id: string, status: ApprovalStatus)
    requires status != Pending
    ensures forall x :: x in AllPending(SetStatusById(items, id, status)) ==> x.id != id
  {
    var r := SetStatusById(items, id, status);
    forall x | x in AllPending(r)
      ensures x.id != id
    {
      var i :| 0 <= i < |r| && r[i] == x;
      assert items[i].id == id ==> x.status == status;
    }
  }

  /** Deciding a pending item whose id is unique lowers the "All" count by exactly one. */
  lemma DecidingUniquePendingDecrementsCount(items: seq<ApprovalItem>, k: nat, status: ApprovalStatus)
    requires k < |items| && items[k].status == Pending && status != Pending
    requires forall j :: 0 <= j < |items| && j != k ==> items[j].id != items[k].id
    ensures |AllPending(SetStatusById(items, items[k].id, status))| == |AllPending(items)| - 1
  {
    PendingFilterDecrements(items, k, status);
  }

  /** The induction behind DecidingUniquePendingDecrementsCount, on the filter itself. */
  lemma {:induction false} PendingFilterDecrements(items: seq<ApprovalItem>, k: nat, status: ApprovalStatus)
    requires k < |items| && items[k].status == Pending && status != Pending
    requires forall j :: 0 <= j < |items| && j != k ==> items[j].id != items[k].id
    ensures |Filter(SetStatusById(items, items[k].id, status), IsPending)| == |Filter(items, IsPending)| - 1
  {
    var id, rest := items[k].id, items[1..];
    assert SetStatusById(items, id, status) == [SetStatusById(items, id, status)[0]] + SetStatusById(rest, id, status);
    if k == 0 {
      forall j | 0 <= j < |rest|
        ensures rest[j].id != id
      {
        assert rest[j] == items[j + 1];
      }
      SetStatusUnknownId(rest, id, status);
    } else {
      forall j | 0 <= j < |rest| && j != k - 1
        ensures rest[j].id != rest[k - 1].id
      {
        assert rest[j] == items[j + 1];
      }
      PendingFilterDecrements(rest, k - 1, status);
    }
  }

  /** What `formatAmount` chooses; the number formatting itself is not modelled. */
  datatype AmountLabel = HoursLabel(hours: real) | DollarLabel(dollars: real) | NoLabel

  /** JavaScript truthiness of an optional number (NaN is not modelled). */
  predicate Truthy(amount: Option<real>)
  {
    amount.Some? && amount.value != 0.0
  }

  /** `formatAmount`: hours for time items, dollars for expenses, and "" otherwise. */
  function FormatAmount(item: ApprovalItem): (shown: AmountLabel)
    ensures shown.HoursLabel? <==> item.submissionType == Time && Truthy(item.amount)
    ensures shown.DollarLabel? <==> item.submissionType == Expense && Truthy(item.amount)
    ensures !shown.NoLabel? <==> item.submissionType != Deliverable && Truthy(item.amount)
    ensures shown.HoursLabel? ==> shown.hours == item.amount.value
    ensures shown.DollarLabel? ==> shown.dollars == item.amount.value
  {
    if !Truthy(item.amount) then NoLabel
    else match item.submissionType
      case Time => HoursLabel(item.amount.value)
      case Expense => DollarLabel(item.amount.value)
      case Deliverable => NoLabel
  }

  /**
   * The component's state: the approval list, the item shown in the details
   * dialog, and whether that dialog is open.
   */
  class ApprovalsQueueView {
    var approvals: seq<ApprovalItem>
    var selectedItem: Option<ApprovalItem>
    var isDetailsOpen: bool

    constructor (initial: seq<ApprovalItem>)
      ensures approvals == initial && selectedItem == None && !isDetailsOpen
    {
      approvals := initial;
      selectedItem := None;
      isDetailsOpen := false;
    }

    /** The count on the "All" tab. */
    function PendingCount(): (count: nat)
      reads this
      ensures count == |TypeTab(approvals, Time)| + |TypeTab(approvals, Expense)| + |TypeTab(approvals, Deliverable)|
    {
      AllCountIsSumOfTabs(approvals);
      |AllPending(approvals)|
    }

    /** `selectedItem?.id || ""`. */
    function SelectedId(): (id: string)
      reads this
      ensures selectedItem.Some? && selectedItem.value.id != "" ==> id == selectedItem.value.id
      ensures id == "" || (selectedItem.Some? && id == selectedItem.value.id)
    {
      if selectedItem.Some? && selectedItem.value.id != "" then selectedItem.value.id else ""
    }

    /** `handleApprove`. */
    method HandleApprove(id: string)
      modifies this
      ensures approvals == SetStatusById(old(approvals), id, Approved)
      ensures selectedItem == old(selectedItem) && isDetailsOpen == old(isDetailsOpen)
    {
      approvals := SetStatusById(approvals, id, Approved);
    }

    /** `handleReject`: also closes the details dialog. */
    method HandleReject(id: string)
      modifies this
      ensures approvals == SetStatusById(old(approvals), id, Rejected)
      ensures selectedItem == old(selectedItem) && !isDetailsOpen
    {
      approvals := SetStatusById(approvals, id, Rejected);
      isDetailsOpen := false;
    }

    /** `viewDetails`: the eye and the cross buttons of a row. */
    method ViewDetails(item: ApprovalItem)
      modifies this
      ensures selectedItem == Some(item) && isDetailsOpen
      ensures approvals == old(approvals)
    {
      selectedItem := Some(item);
      isDetailsOpen := true;
    }

    /** The dialog's Approve button: approve the selected id (or "") and close. */
    method ApproveSelected()
      modifies this
      ensures approvals == SetStatusById(old(approvals), old(SelectedId()), Approved)
      ensures selectedItem == old(selectedItem) && !isDetailsOpen
    {
      HandleApprove(SelectedId());
      isDetailsOpen := false;
    }

    /** The dialog's Reject button: reject the selected id (or ""); handleReject closes the dialog. */
    method RejectSelected()
      modifies this
      ensures approvals == SetStatusById(old(approvals), old(SelectedId()), Rejected)
      ensures selectedItem == old(selectedItem) && !isDetailsOpen
    {
      HandleReject(SelectedId());
    }

    /** The dialog's Cancel button. */
    method CloseDetails()
      modifies this
      ensures approvals == old(approvals) && selectedItem == old(selectedItem) && !isDetailsOpen
    {
      isDetailsOpen := false;
    }
  }
}
