/**
 * The applications table a candidate sees: the counts by status, the status badge, the
 * progress timeline of one application, and the row numbers. Statuses arrive as strings.
 */
module ApplicationsTable {
  import opened Seqs
  import opened Strings
  import opened Model

  /** One row of the table as the component reads it. */
  datatype Entry = Entry(id: AppId, status: string, appliedAt: int)

  function HasStatus(s: string): Entry -> bool { (e: Entry) => e.status == s }

  /** The `stats` object: the number of rows and the number with each status. */
  function Stats(entries: seq<Entry>): StatusTally
  {
    StatusTally(|entries|,
      Count(entries, HasStatus("PENDING")), Count(entries, HasStatus("VIEWED")),
      Count(entries, HasStatus("SHORTLISTED")), Count(entries, HasStatus("REJECTED")))
  }

  /** A row as the candidate applications endpoint sends it. */
  function EntryOf(a: Application): Entry
  {
    Entry(a.id, StatusName(a.status), a.appliedAt)
  }

  function KnownStatus(e: Entry): bool { ParseStatus(e.status).Some? }

  function PendingOrViewed(e: Entry): bool { e.status == "PENDING" || e.status == "VIEWED" }

  function NotRejected(e: Entry): bool { PendingOrViewed(e) || e.status == "SHORTLISTED" }

  /**
   * The four status counts never exceed the total, and add up to it exactly when every row
   * carries one of the four statuses.
   */
  lemma StatsAddUp(entries: seq<Entry>)
    ensures var t := Stats(entries);
      && t.pending + t.viewed + t.shortlisted + t.rejected == Count(entries, KnownStatus)
      && t.pending + t.viewed + t.shortlisted + t.rejected <= t.total
      && ((forall i :: 0 <= i < |entries| ==> KnownStatus(entries[i])) ==>
            t.pending + t.viewed + t.shortlisted + t.rejected == t.total)
  {
    CountDisjoint(entries, HasStatus("PENDING"), HasStatus("VIEWED"), PendingOrViewed);
    CountDisjoint(entries, PendingOrViewed, HasStatus("SHORTLISTED"), NotRejected);
    CountDisjoint(entries, NotRejected, HasStatus("REJECTED"), KnownStatus);
    if forall i :: 0 <= i < |entries| ==> KnownStatus(entries[i]) {
      FilterKeepsAll(entries, KnownStatus);
    }
  }

  /** Counting rows with a status name counts the applications with that status. */
  lemma {:induction false} CountEntries(apps: seq<Application>, s: AppStatus)
    ensures Count(Map(apps, EntryOf), HasStatus(StatusName(s))) == Count(apps, AppHasStatus(s))
  {
    if apps != [] {
      var t := apps[1..];
      var p := HasStatus(StatusName(s));
      CountEntries(t, s);
      assert apps == [apps[0]] + t;
      MapConcat([apps[0]], t, EntryOf);
      FilterConcat([EntryOf(apps[0])], Map(t, EntryOf), p);
      FilterConcat([apps[0]], t, AppHasStatus(s));
      assert p(EntryOf(apps[0])) == AppHasStatus(s)(apps[0]) by {
        ParseStatusName(s);
        ParseStatusName(apps[0].status);
      }
    }
  }

  /** For the rows the endpoint sends, the table's counts are the endpoint's own tally. */
  lemma StatsOfEndpointRows(apps: seq<Application>)
    ensures Stats(Map(apps, EntryOf)) == Tally(apps)
  {
    CountEntries(apps, PENDING);
    CountEntries(apps, VIEWED);
    CountEntries(apps, SHORTLISTED);
    CountEntries(apps, REJECTED);
  }

  /** The badge text: a known status capitalised, any other status as it is. */
  function StatusLabel(status: string): string
  {
    match status
    case "PENDING" => "Pending"
    case "VIEWED" => "Viewed"
    case "SHORTLISTED" => "Shortlisted"
    case "REJECTED" => "Rejected"
    case _ => status
  }

  /**
   * The badge shows the raw status exactly when the status is not one of the four; a known
   * status is shown as a word of the same length and the same initial.
   */
  lemma StatusLabelIff(status: string)
    ensures StatusLabel(status) == status <==> ParseStatus(status).None?
    ensures ParseStatus(status).Some? ==>
      |StatusLabel(status)| == |status| && StatusLabel(status)[0] == status[0]
  {
    if ParseStatus(status).Some? {
      assert StatusLabel(status)[1] != status[1];
    }
  }

  /** The timeline: the first step is lit unless the application was rejected. */
  predicate AppliedLit(status: string) { status != "REJECTED" }

  /** The middle step is lit once the application has been viewed or shortlisted. */
  predicate ViewedLit(status: string) { status == "VIEWED" || status == "SHORTLISTED" }

  /** The last step is lit for a shortlisted application. */
  predicate FinalLit(status: string) { status == "SHORTLISTED" }

  function FinalLabel(status: string): string
  {
    if status == "REJECTED" then "Rejected" else "Shortlisted"
  }

  /** How the final step's circle is drawn: green with a check, red with a cross, or muted. */
  datatype StepLook = Done | Refused | Muted

  function FinalLook(status: string): StepLook
  {
    if status == "SHORTLISTED" then Done else if status == "REJECTED" then Refused else Muted
  }

  function LitSteps(status: string): nat
  {
    (if AppliedLit(status) then 1 else 0) + (if ViewedLit(status) then 1 else 0)
      + (if FinalLit(status) then 1 else 0)
  }

  /**
   * The lit steps always form a prefix of the timeline. A rejected application lights no
   * step; instead its last step is drawn red with a cross and labelled 'Rejected', which
   * happens for no other status. Along the forward path pending, viewed, shortlisted one
   * more step lights up each time, and the last one is drawn green exactly when it is lit.
   */
  lemma TimelineIsPrefix(status: string)
    ensures FinalLit(status) ==> ViewedLit(status)
    ensures ViewedLit(status) ==> AppliedLit(status)
    ensures FinalLabel(status) == "Rejected" <==> status == "REJECTED"
    ensures FinalLook(status) == Refused <==> status == "REJECTED"
    ensures FinalLook(status) == Done <==> FinalLit(status)
    ensures status == "REJECTED" ==> LitSteps(status) == 0
    ensures LitSteps("PENDING") == 1 && LitSteps("VIEWED") == 2 && LitSteps("SHORTLISTED") == 3
  {
  }
}
