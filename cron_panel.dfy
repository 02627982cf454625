/** The cron panel's job list: the enable switch of one job and the single expanded job. */
module CronPanel {
  import opened Wrappers

  datatype CronJob = CronJob(id: string, name: string, schedule: string, enabled: bool,
                             lastRun: Option<string>, nextRun: Option<string>)

  /** `mockJobs`, the list the panel starts with. */
  const InitialJobs := [
    CronJob("1", "Morning Briefing", "0 8 * * *", true,
            Some("2026-01-28 08:00"), Some("2026-01-29 08:00")),
    CronJob("2", "LinkedIn Daily Post", "0 9 * * 1-5", true,
            Some("2026-01-28 09:00"), Some("2026-01-29 09:00")),
    CronJob("3", "Email Triage", "0 */4 * * *", false,
            Some("2026-01-28 16:00"), Some("-"))
  ]

  /** `toggleJob(id)`: every job with that id has its switch flipped; every other job, the
      length and the order stay as they were. */
  function ToggleJob(jobs: seq<CronJob>, id: string): (r: seq<CronJob>)
    ensures |r| == |jobs|
    ensures forall i :: 0 <= i < |jobs| ==>
      if jobs[i].id == id then r[i] == jobs[i].(enabled := !jobs[i].enabled) else r[i] == jobs[i]
  {
    if jobs == [] then []
    else
      var job := jobs[|jobs| - 1];
      ToggleJob(jobs[..|jobs| - 1], id) + [if job.id == id then job.(enabled := !job.enabled) else job]
  }

  /** Toggling the same job twice restores the list. */
  lemma ToggleTwice(jobs: seq<CronJob>, id: string)
    ensures ToggleJob(ToggleJob(jobs, id), id) == jobs
  {
    var r := ToggleJob(ToggleJob(jobs, id), id);
    assert forall i :: 0 <= i < |jobs| ==> r[i] == jobs[i];
  }

  /** An id no job has leaves the list as it was. */
  lemma ToggleUnknown(jobs: seq<CronJob>, id: string)
    requires forall i :: 0 <= i < |jobs| ==> jobs[i].id != id
    ensures ToggleJob(jobs, id) == jobs
  {
    var r := ToggleJob(jobs, id);
    assert forall i :: 0 <= i < |jobs| ==> r[i] == jobs[i];
  }

  /** Toggles of different jobs commute. */
  lemma TogglesCommute(jobs: seq<CronJob>, a: string, b: string)
    ensures ToggleJob(ToggleJob(jobs, a), b) == ToggleJob(ToggleJob(jobs, b), a)
  {
    var l := ToggleJob(ToggleJob(jobs, a), b);
    var r := ToggleJob(ToggleJob(jobs, b), a);
    assert forall i :: 0 <= i < |jobs| ==> l[i] == r[i];
  }

  /** The expand button of job `id`: it collapses that job when it is the expanded one and
      otherwise expands it, collapsing any other. */
  function ToggleExpanded(expanded: Option<string>, id: string): (r: Option<string>)
    ensures r == Some(id) <==> expanded != Some(id)
    ensures r.None? <==> expanded == Some(id)
  {
    if expanded == Some(id) then None else Some(id)
  }

  /** Pressing the same expand button twice restores the previous choice only when it was
      that job or none. */
  lemma ExpandTwice(expanded: Option<string>, id: string)
    ensures ToggleExpanded(ToggleExpanded(expanded, id), id) == expanded
      <==> expanded == None || expanded == Some(id)
  {
  }

  /** The mock jobs have distinct ids, so each card's switch flips exactly its own job. */
  lemma SwitchFlipsOneJob(k: nat)
    requires k < |InitialJobs|
    ensures forall i :: 0 <= i < |InitialJobs| ==>
      ToggleJob(InitialJobs, InitialJobs[k].id)[i].enabled == (InitialJobs[i].enabled != (i == k))
  {
  }
}
