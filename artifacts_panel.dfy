/** The artifacts panel: a type filter over the artifact list, toggled by the type buttons. */
module ArtifactsPanel {
  import opened Wrappers
  import Seqs

  /** An artifact card; `kind` is the source's `type`. */
  datatype Artifact = Artifact(id: string, name: string, kind: string, modified: string,
                               preview: Option<string>)

  /** `mockArtifacts`, the list the panel shows. */
  const Artifacts := [
    Artifact("1", "MEMORY.md", "memory", "2026-01-28", Some("Long-term memory and notes...")),
    Artifact("2", "2026-01-28.md", "memory", "2026-01-28", Some("Daily log for January 28...")),
    Artifact("3", "LinkedIn Draft - AI Integration", "draft", "2026-01-28",
             Some("The real challenge in healthcare AI isn't the models...")),
    Artifact("4", "Novara Weekly Report", "report", "2026-01-27", Some("Weekly metrics summary..."))
  ]

  /** The filter buttons, in order. */
  const FilterTypes := ["memory", "draft", "report"]

  /** `filteredArtifacts`: the whole list when no (truthy) type is selected, otherwise the
      artifacts of that type. */
  function Filtered(artifacts: seq<Artifact>, selected: Option<string>): (r: seq<Artifact>)
    ensures selected.None? || selected.value == "" ==> r == artifacts
    ensures forall k :: 0 <= k < |r| ==>
      selected.Some? && selected.value != "" ==> r[k].kind == selected.value
  {
    if selected.None? || selected.value == "" then artifacts
    else Seqs.Filter(artifacts, (a: Artifact) => a.kind == selected.value)
  }

  /** With a type selected the panel shows exactly the artifacts of that type, each as often
      as it occurs and in the list's order. */
  lemma FilteredIsTypeSubsequence(artifacts: seq<Artifact>, t: string)
    requires t != ""
    ensures Seqs.IsSubsequence(Filtered(artifacts, Some(t)), artifacts)
    ensures |Filtered(artifacts, Some(t))| == Seqs.Count(artifacts, (a: Artifact) => a.kind == t)
    ensures forall a :: a in Filtered(artifacts, Some(t)) <==> a in artifacts && a.kind == t
  {
    var keep := (a: Artifact) => a.kind == t;
    Seqs.FilterSpec(artifacts, keep);
    forall a ensures a in Filtered(artifacts, Some(t)) <==> a in artifacts && a.kind == t {
      Seqs.FilterMembers(artifacts, keep, a);
    }
  }

  /** A type button: pressing the selected type clears the filter, any other selects it. */
  function SelectType(selected: Option<string>, t: string): (r: Option<string>)
    ensures r.None? <==> selected == Some(t)
    ensures r.Some? ==> r.value == t
  {
    if selected == Some(t) then None else Some(t)
  }

  /** Pressing the same button twice from no filter gives no filter again. */
  lemma SelectTwice(t: string)
    ensures SelectType(SelectType(None, t), t) == None
  {
  }

  /** Every filter button selects something; none is hidden by an empty type. */
  lemma ButtonsFilter(k: nat)
    requires k < |FilterTypes|
    ensures FilterTypes[k] != ""
    ensures SelectType(None, FilterTypes[k]) == Some(FilterTypes[k])
  {
  }

  /** On the panel's own list every filter button shows at least one artifact. */
  lemma ButtonsShowArtifacts(k: nat)
    requires k < |FilterTypes|
    ensures Filtered(Artifacts, Some(FilterTypes[k])) != []
  {
    var t := FilterTypes[k];
    var i := if k == 0 then 0 else if k == 1 then 2 else 3;
    assert Artifacts[i].kind == t;
    FilteredIsTypeSubsequence(Artifacts, t);
    assert Artifacts[i] in Filtered(Artifacts, Some(t));
  }
}
