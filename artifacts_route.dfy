/** The artifact list route: today's and yesterday's daily memory files followed by the
    fixed workspace files, each given its list position as id. */
module ArtifactsRoute {
  import Text
  import Calendar

  /** A file the panel can show; `kind` is the source's `type`. */
  datatype FileEntry = FileEntry(path: string, name: string, kind: string)

  /** A listed file with its id. */
  datatype Artifact = Artifact(id: string, path: string, name: string, kind: string)

  /** `WORKSPACE_FILES`. */
  const WorkspaceFiles: seq<FileEntry> := [
    FileEntry("/Users/bourbon/clawd/MEMORY.md", "MEMORY.md", "memory"),
    FileEntry("/Users/bourbon/clawd/SOUL.md", "SOUL.md", "document"),
    FileEntry("/Users/bourbon/clawd/USER.md", "USER.md", "document"),
    FileEntry("/Users/bourbon/clawd/AGENTS.md", "AGENTS.md", "document"),
    FileEntry("/Users/bourbon/clawd/TOOLS.md", "TOOLS.md", "config"),
    FileEntry("/Users/bourbon/clawd/IDENTITY.md", "IDENTITY.md", "document"),
    FileEntry("/Users/bourbon/clawd/HEARTBEAT.md", "HEARTBEAT.md", "config"),
    FileEntry("/Users/bourbon/clawd/memory/heartbeat-state.json", "heartbeat-state.json", "config")
  ]

  const MemoryDir := "/Users/bourbon/clawd/memory/"

  /** The daily memory file for a `YYYY-MM-DD` date text. */
  function MemoryFile(date: string): (f: FileEntry)
    ensures f.name == date + ".md" && f.path == MemoryDir + f.name && f.kind == "memory"
  {
    FileEntry(MemoryDir + date + ".md", date + ".md", "memory")
  }

  /** `getTodayMemoryFile` for the time value `now` (milliseconds since the epoch). */
  function TodayMemoryFile(now: int): (f: FileEntry)
    ensures f == MemoryFile(Calendar.IsoDate(now / Calendar.MsPerDay))
  {
    Calendar.DatePart(now);
    MemoryFile(Calendar.BeforeT(Calendar.IsoString(now)))
  }

  /** `getYesterdayMemoryFile`: the same instant one day earlier. */
  function YesterdayMemoryFile(now: int): (f: FileEntry)
    ensures f == MemoryFile(Calendar.IsoDate(now / Calendar.MsPerDay - 1))
  {
    var yesterday := now - Calendar.MsPerDay;
    assert yesterday / Calendar.MsPerDay == now / Calendar.MsPerDay - 1;
    Calendar.DatePart(yesterday);
    MemoryFile(Calendar.BeforeT(Calendar.IsoString(yesterday)))
  }

  /** One listed entry: `{ id: String(i), ...f }`. */
  function Tagged(i: nat, f: FileEntry): Artifact {
    Artifact(Text.Decimal(i), f.path, f.name, f.kind)
  }

  /** `.map((f, i) => ...)`: every entry keeps its fields and gets its position as id. */
  function WithIds(files: seq<FileEntry>): (r: seq<Artifact>)
    ensures |r| == |files|
    ensures forall i :: 0 <= i < |files| ==> r[i] == Tagged(i, files[i])
  {
    if files == [] then []
    else WithIds(files[..|files| - 1]) + [Tagged(|files| - 1, files[|files| - 1])]
  }

  /** The list `GET` returns for the two daily memory files. */
  function FileList(today: FileEntry, yesterday: FileEntry): (r: seq<Artifact>)
    ensures |r| == 10
    ensures r[0] == Tagged(0, today) && r[1] == Tagged(1, yesterday)
    ensures forall k :: 0 <= k < |WorkspaceFiles| ==> r[k + 2] == Tagged(k + 2, WorkspaceFiles[k])
  {
    WithIds([today, yesterday] + WorkspaceFiles)
  }

  /** `GET` at the time value `now`: today, yesterday, then the workspace files. */
  function Get(now: int): (r: seq<Artifact>)
    ensures |r| == 10
    ensures forall i :: 0 <= i < |r| ==> r[i].id == Text.Decimal(i)
    ensures r[0].name != r[1].name && r[0].kind == r[1].kind == "memory"
  {
    MemoryFilesDistinct(now);
    IdsDistinct([TodayMemoryFile(now), YesterdayMemoryFile(now)] + WorkspaceFiles);
    FileList(TodayMemoryFile(now), YesterdayMemoryFile(now))
  }

  /** Ids follow list position, so no two entries of a list share one. */
  lemma IdsDistinct(files: seq<FileEntry>)
    ensures forall i :: 0 <= i < |files| ==> WithIds(files)[i].id == Text.Decimal(i)
    ensures forall i, j :: 0 <= i < j < |files| ==> WithIds(files)[i].id != WithIds(files)[j].id
  {
    var r := WithIds(files);
    forall i, j | 0 <= i < j < |files| ensures r[i].id != r[j].id {
      if r[i].id == r[j].id {
        Text.DecimalInjective(i, j);
      }
    }
  }

  /** Today's and yesterday's memory files are always two different files, and neither is
      one of the workspace files. */
  lemma MemoryFilesDistinct(now: int)
    ensures TodayMemoryFile(now).name != YesterdayMemoryFile(now).name
    ensures TodayMemoryFile(now) !in WorkspaceFiles
    ensures YesterdayMemoryFile(now) !in WorkspaceFiles
  {
    var d := now / Calendar.MsPerDay;
    var today := Calendar.IsoDate(d);
    var yesterday := Calendar.IsoDate(d - 1);
    if today + ".md" == yesterday + ".md" {
      assert today == (today + ".md")[..|today|];
      assert yesterday == (yesterday + ".md")[..|yesterday|];
      Calendar.IsoDateInjective(d, d - 1);
    }
    NotWorkspace(today);
    NotWorkspace(yesterday);
  }

  /** A memory file's name has a `-` six characters before `.md`; no workspace file does. */
  lemma NotWorkspace(date: string)
    requires |date| >= 10 && date[|date| - 6] == '-'
    ensures MemoryFile(date) !in WorkspaceFiles
  {
    var n := date + ".md";
    assert n[|n| - 9] == '-';
    forall k | 0 <= k < |WorkspaceFiles| ensures WorkspaceFiles[k] != MemoryFile(date) {
      var w := WorkspaceFiles[k].name;
      assert |w| < 9 || w[|w| - 9] != '-';
    }
  }
}
