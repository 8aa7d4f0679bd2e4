/**
 * The complaint history view: its sample records with their timelines, the
 * status and priority badge classes, and the search/status filter.
 */
module ComplaintHistory {
  import opened Wrappers
  import opened Text
  import opened Seqs
  import opened Domain

  /** One step of a complaint's timeline. */
  datatype TimelineEvent = TimelineEvent(date: string, event: string, status: Status)

  /** A complaint as the history view shows it: the record, its resolution date and its timeline. */
  datatype HistoryRecord = HistoryRecord(complaint: Complaint, dateResolved: Option<string>, timeline: seq<TimelineEvent>)

  const MockComplaints: seq<HistoryRecord> := [
    HistoryRecord(
      Complaint("CC001234", "Pothole on Main Street", "road-safety",
        "Large pothole causing traffic issues near the city center.",
        "Main Street, Near City Mall", Some(High), Resolved, "2024-01-10", Some("John Smith"), None),
      Some("2024-01-18"),
      [ TimelineEvent("2024-01-10", "Complaint submitted", Pending),
        TimelineEvent("2024-01-12", "Assigned to John Smith", Assigned),
        TimelineEvent("2024-01-15", "Work started", InProgress),
        TimelineEvent("2024-01-18", "Issue resolved", Resolved) ]),
    HistoryRecord(
      Complaint("CC001235", "Broken Street Light", "street-light",
        "Street light has been non-functional for the past week.",
        "Sector 5, Near Park", Some(Medium), InProgress, "2024-01-14", Some("Mary Johnson"), None),
      None,
      [ TimelineEvent("2024-01-14", "Complaint submitted", Pending),
        TimelineEvent("2024-01-16", "Assigned to Mary Johnson", Assigned),
        TimelineEvent("2024-01-18", "Work started", InProgress) ]),
    HistoryRecord(
      Complaint("CC001236", "Garbage Overflow", "garbage",
        "Garbage bins overflowing, creating unhygienic conditions.",
        "Park Avenue, Sector 12", Some(Medium), Pending, "2024-01-19", None, None),
      None,
      [ TimelineEvent("2024-01-19", "Complaint submitted", Pending) ])
  ]

  /** The lifecycle order of the statuses. */
  const Lifecycle: seq<Status> := [Pending, Assigned, InProgress, Resolved]

  /**
   * A timeline that starts at pending, steps through the lifecycle without
   * skipping a status and ends at the record's own status; only resolved
   * records carry a resolution date.
   */
  ghost predicate TimelineConsistent(r: HistoryRecord) {
    && 1 <= |r.timeline| <= |Lifecycle|
    && (forall i :: 0 <= i < |r.timeline| ==> r.timeline[i].status == Lifecycle[i])
    && r.timeline[|r.timeline| - 1].status == r.complaint.status
    && (r.dateResolved.Some? <==> r.complaint.status == Resolved)
  }

  /** Every sample record's timeline is consistent with its status. */
  lemma MockTimelinesConsistent()
    ensures forall k :: 0 <= k < |MockComplaints| ==> TimelineConsistent(MockComplaints[k])
  {
    assert TimelineConsistent(MockComplaints[0]);
    assert TimelineConsistent(MockComplaints[1]);
    assert TimelineConsistent(MockComplaints[2]);
  }

  /** In a consistent timeline, the i-th entry's status is the i-th lifecycle status, so the timeline length fixes the status. */
  lemma ConsistentStatusIsTimelineLength(r: HistoryRecord)
    requires TimelineConsistent(r)
    ensures r.complaint.status == Lifecycle[|r.timeline| - 1]
    ensures r.complaint.status == Resolved <==> |r.timeline| == |Lifecycle|
  {
  }

  const PendingStyle := "bg-yellow-100 text-yellow-800"
  const AssignedStyle := "bg-blue-100 text-blue-800"
  const InProgressStyle := "bg-orange-100 text-orange-800"
  const ResolvedStyle := "bg-green-100 text-green-800"
  const GrayStyle := "bg-gray-100 text-gray-800"

  /** `getStatusColor` of the history view. */
  function StatusColor(status: string): string {
    if status == "pending" then PendingStyle
    else if status == "assigned" then AssignedStyle
    else if status == "in-progress" then InProgressStyle
    else if status == "resolved" then ResolvedStyle
    else GrayStyle
  }

  /** The four statuses get four distinct badge classes; anything else gets the gray default. */
  lemma StatusColorSpec(status: string)
    ensures forall a: Status, b: Status :: StatusColor(a.Name()) == StatusColor(b.Name()) ==> a == b
    ensures forall s: Status :: StatusColor(s.Name()) != GrayStyle
    ensures (forall s: Status :: status != s.Name()) ==> StatusColor(status) == GrayStyle
  {
    assert PendingStyle[3] == 'y' && AssignedStyle[3] == 'b' && InProgressStyle[3] == 'o';
    assert ResolvedStyle[3] == 'g' && GrayStyle[4] == 'r' && ResolvedStyle[4] == 'r';
    assert GrayStyle[5] == 'a' && ResolvedStyle[5] == 'e';
    if forall s: Status :: status != s.Name() {
      assert status != Pending.Name() && status != Assigned.Name();
      assert status != InProgress.Name() && status != Resolved.Name();
    }
  }

  /** `getPriorityColor` of the history view. */
  function PriorityColor(priority: string): string {
    if priority == "high" then "bg-red-100 text-red-800"
    else if priority == "medium" then "bg-yellow-100 text-yellow-800"
    else if priority == "low" then "bg-green-100 text-green-800"
    else GrayStyle
  }

  /** The three priorities get three distinct badge classes, none of them the gray default. */
  lemma PriorityColorSpec(priority: string)
    ensures forall a: Priority, b: Priority :: PriorityColor(a.Name()) == PriorityColor(b.Name()) ==> a == b
    ensures forall p: Priority :: PriorityColor(p.Name()) != GrayStyle
    ensures (forall p: Priority :: priority != p.Name()) ==> PriorityColor(priority) == GrayStyle
  {
    assert "bg-red-100 text-red-800"[3] == 'r' && "bg-yellow-100 text-yellow-800"[3] == 'y';
    assert "bg-green-100 text-green-800"[4] == 'r' && GrayStyle[4] == 'r';
    assert "bg-green-100 text-green-800"[5] == 'e' && GrayStyle[5] == 'a';
    if forall p: Priority :: priority != p.Name() {
      assert priority != Low.Name() && priority != Medium.Name() && priority != High.Name();
    }
  }

  /** A status badge's text: `status.replace('-', ' ')`, which replaces the first hyphen only. */
  function StatusLabel(status: string): string {
    ReplaceFirst(status, '-', ' ')
  }

  /** The one status name with a hyphen. */
  lemma InProgressLabel(name: string)
    requires name == "in-progress"
    ensures StatusLabel(name) == "in progress"
  {
    var tail := name[2..];
    assert tail[0] == '-' && tail[1..] == "progress";
    assert ReplaceFirst(tail, '-', ' ') == " progress";
    assert name[1..][1..] == tail;
    assert ReplaceFirst(name[1..], '-', ' ') == "n progress";
  }

  /** Only "in-progress" changes on the badge, to "in progress"; the other names are shown as they are. */
  lemma StatusLabelSpec(s: Status)
    ensures StatusLabel(s.Name()) == if s == InProgress then "in progress" else s.Name()
  {
    var name := s.Name();
    if s == InProgress {
      InProgressLabel(name);
    } else {
      assert forall i :: 0 <= i < |name| ==> name[i] != '-';
      ReplaceFirstSpec(name, '-', ' ');
    }
  }

  /** The search box: the term occurs in the title or the location, ignoring ASCII case. */
  predicate MatchesSearch(r: HistoryRecord, searchTerm: string) {
    Contains(Lower(r.complaint.title), Lower(searchTerm)) ||
    Contains(Lower(r.complaint.location), Lower(searchTerm))
  }

  /** The status select: "all", or the record's status by name. */
  predicate MatchesStatus(r: HistoryRecord, statusFilter: string) {
    statusFilter == "all" || r.complaint.status.Name() == statusFilter
  }

  predicate Matches(r: HistoryRecord, searchTerm: string, statusFilter: string) {
    MatchesSearch(r, searchTerm) && MatchesStatus(r, statusFilter)
  }

  /** `filteredComplaints`. */
  function FilterComplaints(records: seq<HistoryRecord>, searchTerm: string, statusFilter: string): seq<HistoryRecord> {
    Filter(r => Matches(r, searchTerm, statusFilter), records)
  }

  /**
   * The filtered list is an order-preserving subsequence of the records;
   * every kept record matches the term and the status, and every matching
   * record is kept, as many times as it occurs.
   */
  lemma FilterComplaintsSpec(records: seq<HistoryRecord>, searchTerm: string, statusFilter: string)
    ensures var kept := FilterComplaints(records, searchTerm, statusFilter);
      && IsSubsequence(kept, records)
      && (forall k :: 0 <= k < |kept| ==> MatchesSearch(kept[k], searchTerm))
      && (statusFilter != "all" ==> forall k :: 0 <= k < |kept| ==> kept[k].complaint.status.Name() == statusFilter)
      && (forall k :: 0 <= k < |records| && Matches(records[k], searchTerm, statusFilter) ==> records[k] in kept)
      && (forall r :: multiset(kept)[r] == if Matches(r, searchTerm, statusFilter) then multiset(records)[r] else 0)
  {
    var p := r => Matches(r, searchTerm, statusFilter);
    FilterIsSubsequence(p, records);
    FilterMultiplicity(p, records);
    forall k | 0 <= k < |records| && Matches(records[k], searchTerm, statusFilter)
      ensures records[k] in FilterComplaints(records, searchTerm, statusFilter)
    {
      FilterKeepsEveryMatch(p, records, k);
    }
  }

  /** With status "all" and an empty search term every record is shown. */
  lemma EmptySearchShowsAll(records: seq<HistoryRecord>)
    ensures FilterComplaints(records, "", "all") == records
  {
    FilterAllKept(r => Matches(r, "", "all"), records);
  }

  /** Applying the filter to its own result changes nothing. */
  lemma FilterComplaintsIdempotent(records: seq<HistoryRecord>, searchTerm: string, statusFilter: string)
    ensures var once := FilterComplaints(records, searchTerm, statusFilter);
            FilterComplaints(once, searchTerm, statusFilter) == once
  {
    FilterIdempotent(r => Matches(r, searchTerm, statusFilter), records);
  }

  /** The search ignores ASCII case: a term and its lower-cased form select the same records. */
  lemma SearchIgnoresCase(records: seq<HistoryRecord>, searchTerm: string, statusFilter: string)
    ensures FilterComplaints(records, searchTerm, statusFilter) ==
            FilterComplaints(records, Lower(searchTerm), statusFilter)
  {
    LowerIdempotent(searchTerm);
    FilterCongruent(r => Matches(r, searchTerm, statusFilter), r => Matches(r, Lower(searchTerm), statusFilter), records);
  }
}
