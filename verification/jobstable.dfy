/**
 * The job table a candidate browses: the job-type badge, the skills preview, and the apply
 * dialog, whose state the component keeps and updates.
 */
module JobsTable {
  import opened Wrappers
  import opened Seqs
  import opened Strings
  import opened Model

  /** The badge colours of the known job types. */
  const TypeColours: map<string, string> := map[
    "Full-time" := "bg-emerald-500/10 text-emerald-400 border-emerald-500/30",
    "Part-time" := "bg-blue-500/10 text-blue-400 border-blue-500/30",
    "Contract" := "bg-purple-500/10 text-purple-400 border-purple-500/30",
    "Internship" := "bg-orange-500/10 text-orange-400 border-orange-500/30",
    "Remote" := "bg-cyan-500/10 text-cyan-400 border-cyan-500/30"]

  const DefaultColour := "bg-muted/50 text-muted-foreground border-border"

  /** A badge: its text and its colour classes. */
  datatype Badge = Badge(text: string, colour: string)

  /** `getJobTypeBadge`: nothing for a null or empty type, otherwise the type in its colour. */
  function JobTypeBadge(jobType: Option<string>): Option<Badge>
  {
    if !Present(jobType) then None
    else
      var t := jobType.value;
      Some(Badge(t, if t in TypeColours then TypeColours[t] else DefaultColour))
  }

  /**
   * A badge is shown exactly for a non-empty type and shows that type; a type without a
   * colour of its own gets the default colour.
   */
  lemma BadgeIff(jobType: Option<string>)
    ensures JobTypeBadge(jobType).Some? <==> jobType.Some? && jobType.value != ""
    ensures JobTypeBadge(jobType).Some? ==> JobTypeBadge(jobType).value.text == jobType.value
    ensures JobTypeBadge(jobType).Some? && jobType.value !in TypeColours ==>
      JobTypeBadge(jobType).value.colour == DefaultColour
  {
  }

  /** `parts.join(sep)` */
  function Joined(parts: seq<string>, sep: string): string
  {
    if parts == [] then "" else if |parts| == 1 then parts[0] else parts[0] + sep + Joined(parts[1..], sep)
  }

  /** Joining one more part appends the separator and that part. */
  lemma {:induction false} JoinedSnoc(parts: seq<string>, x: string, sep: string)
    requires parts != []
    ensures Joined(parts + [x], sep) == Joined(parts, sep) + sep + x
  {
    if |parts| > 1 {
      JoinedSnoc(parts[1..], x, sep);
      assert (parts + [x])[1..] == parts[1..] + [x];
    } else {
      assert (parts + [x])[1..] == [x];
    }
  }

  /** The mobile preview: the first three skills, shown only when the job lists any. */
  function MobileSkills(skills: seq<string>): Option<string>
  {
    if |skills| > 0 then Some(Joined(Take(skills, 3), ", ")) else None
  }

  /** The desktop preview: the first two skills, always rendered. */
  function DesktopSkills(skills: seq<string>): string
  {
    Joined(Take(skills, 2), ", ")
  }

  /**
   * The mobile preview appears exactly when there are skills; it starts with the first skill,
   * and the desktop preview is a prefix of it, with the third skill added after a comma when
   * there is one.
   */
  lemma PreviewsAgree(skills: seq<string>)
    ensures MobileSkills(skills).Some? <==> |skills| > 0
    ensures |skills| > 0 ==> StartsWith(MobileSkills(skills).value, skills[0])
    ensures |skills| > 0 ==> StartsWith(MobileSkills(skills).value, DesktopSkills(skills))
    ensures |skills| >= 3 ==> MobileSkills(skills).value == DesktopSkills(skills) + ", " + skills[2]
    ensures |skills| <= 2 ==> MobileSkills(skills) == (if skills == [] then None else Some(DesktopSkills(skills)))
  {
    if |skills| >= 3 {
      assert Take(skills, 3) == Take(skills, 2) + [skills[2]];
      JoinedSnoc(Take(skills, 2), skills[2], ", ");
    }
    if |skills| > 0 {
      var m := MobileSkills(skills).value;
      var d := DesktopSkills(skills);
      if |skills| == 1 {
        assert d == skills[0] && m == skills[0];
      } else {
        var t := Take(skills, 2);
        assert t == [skills[0], skills[1]];
        assert t[1..] == [skills[1]];
        assert Joined(t[1..], ", ") == skills[1];
        assert d == skills[0] + ", " + skills[1];
        assert d[..|skills[0]|] == skills[0];
        assert m[..|d|] == d;
        assert m[..|skills[0]|] == d[..|skills[0]|];
      }
    }
  }

  /** What the dialog hands to the parent's `onApply`. */
  datatype Submission = Submission(jobId: JobId, coverLetter: string)

  /** The dialog's state: the selected job, the cover letter typed so far, and the busy flag. */
  class ApplyDialog {
    var selectedJob: Option<JobId>
    var coverLetter: string
    var isApplying: bool

    constructor ()
      ensures selectedJob.None? && coverLetter == "" && !isApplying
    {
      selectedJob := None;
      coverLetter := "";
      isApplying := false;
    }

    /** `openJobModal`: select a job with an empty cover letter. */
    method Open(id: JobId)
      modifies this
      ensures selectedJob == Some(id) && coverLetter == "" && isApplying == old(isApplying)
    {
      selectedJob := Some(id);
      coverLetter := "";
    }

    /** `closeJobModal`: clear the selection and the cover letter. */
    method Close()
      modifies this
      ensures selectedJob.None? && coverLetter == "" && isApplying == old(isApplying)
    {
      selectedJob := None;
      coverLetter := "";
    }

    /**
     * `handleApply`. Without a selected job or an `onApply` handler nothing happens. Otherwise
     * the selection and the cover letter go to the handler; whether it throws is `applyFails`.
     * On success the dialog closes; on failure the selection and the letter stay as they were;
     * either way the busy flag ends cleared.
     */
    method HandleApply(hasHandler: bool, applyFails: bool) returns (sent: Option<Submission>)
      modifies this
      ensures old(selectedJob).None? || !hasHandler ==>
        sent.None? && selectedJob == old(selectedJob) && coverLetter == old(coverLetter)
        && isApplying == old(isApplying)
      ensures old(selectedJob).Some? && hasHandler ==>
        && sent == Some(Submission(old(selectedJob).value, old(coverLetter)))
        && !isApplying
        && (!applyFails ==> selectedJob.None? && coverLetter == "")
        && (applyFails ==> selectedJob == old(selectedJob) && coverLetter == old(coverLetter))
    {
      if selectedJob.None? || !hasHandler {
        return None;
      }
      isApplying := true;
      sent := Some(Submission(selectedJob.value, coverLetter));
      if !applyFails {
        Close();
      }
      isApplying := false;
    }
  }
}
