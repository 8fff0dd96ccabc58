/** The JSON record store over a shared data folder: who the current user
    is, the project files and their in-memory cache, the append-only daily
    time files, the per-user starred sets, and the aggregations computed
    from the time files (project totals, per-user last activity, recency
    order of projects). */
module DataService {
  import opened Common
  import opened Dates
  import opened Models

  /** What `json.load` followed by the record constructor makes of a file;
      the `Bad…` values stand for a file that fails to decode or to build. */
  datatype TimeDoc = TimeJson(userId: Option<string>, date: Option<string>, entries: seq<RawEntry>) | BadTimeJson
  datatype ProjectDoc = ProjectJson(project: Project) | BadProjectJson
  datatype StarredDoc = StarredJson(starred: seq<string>) | BadStarredJson
  datatype TeamDoc = TeamJson(data: TeamData) | BadTeamJson

  /** The data folder. Each list holds its files in the order a directory
      listing yields them and is keyed by the file name without ".json":
      `time/<stem>.json`, `projects/<stem>.json`, and `<user>_starred.json`
      keyed by the user. */
  datatype Folder = Folder(
    timeFiles: seq<(string, TimeDoc)>,
    projectFiles: seq<(string, ProjectDoc)>,
    starredFiles: seq<(string, StarredDoc)>,
    teamFile: Option<TeamDoc>)

  // ---------------------------------------------------------------------------
  // File naming
  // ---------------------------------------------------------------------------

  /** `time/<user>_<YYYY-MM-DD>.json`, without the directory and extension. */
  function TimeFileStem(user: string, d: Date): string
    requires ValidDate(d)
  {
    user + "_" + StrftimeYmd(d)
  }

  lemma StrftimeHasNoUnderscore(d: Date)
    requires ValidDate(d)
    ensures '_' !in StrftimeYmd(d)
  {
    var s := StrftimeYmd(d);
    forall i | 0 <= i < |s| ensures s[i] != '_' {
      var y := Decimal(d.year);
      if i < |y| {
        assert s[i] == y[i];
      }
    }
  }

  /** A time file's name determines its user and its date: distinct (user,
      date) pairs never share a file, and a pair always names the same one. */
  lemma TimeFileStemInjective(u1: string, d1: Date, u2: string, d2: Date)
    requires ValidDate(d1) && ValidDate(d2) && d1.year >= 1000 && d2.year >= 1000
    requires TimeFileStem(u1, d1) == TimeFileStem(u2, d2)
    ensures u1 == u2 && d1 == d2
  {
    StrftimeHasNoUnderscore(d1);
    StrftimeHasNoUnderscore(d2);
    SplitLastOfJoined(u1, '_', StrftimeYmd(d1));
    SplitLastOfJoined(u2, '_', StrftimeYmd(d2));
    assert u1 + "_" + StrftimeYmd(d1) == u1 + ['_'] + StrftimeYmd(d1);
    assert u2 + "_" + StrftimeYmd(d2) == u2 + ['_'] + StrftimeYmd(d2);
    ParseYmdOfStrftime(d1);
    ParseYmdOfStrftime(d2);
  }

  // ---------------------------------------------------------------------------
  // Loading projects
  // ---------------------------------------------------------------------------

  /** The cache `load_projects` builds: each readable file in listing order
      stores its project under the project's id; a later file with the same
      id replaces the earlier one in place. */
  function LoadedProjects(files: seq<(string, ProjectDoc)>): seq<(string, Project)> {
    if files == [] then []
    else
      var rest := LoadedProjects(files[..|files| - 1]);
      match files[|files| - 1].1
      case ProjectJson(p) => Put(rest, p.id, p)
      case BadProjectJson => rest
  }

  /** The project of the last readable file whose project has this id. */
  function LastProjectWithId(files: seq<(string, ProjectDoc)>, id: string): Option<Project> {
    if files == [] then None
    else
      var doc := files[|files| - 1].1;
      if doc.ProjectJson? && doc.project.id == id then Some(doc.project)
      else LastProjectWithId(files[..|files| - 1], id)
  }

  /** Unreadable files are skipped and every readable one is kept: the cache
      holds, for each id, the project of the last readable file with that id. */
  lemma {:induction false} LoadedProjectsLookup(files: seq<(string, ProjectDoc)>, id: string)
    ensures Lookup(LoadedProjects(files), id) == LastProjectWithId(files, id)
  {
    if files != [] {
      var prefix := files[..|files| - 1];
      LoadedProjectsLookup(prefix, id);
      var doc := files[|files| - 1].1;
      if doc.ProjectJson? {
        if doc.project.id == id {
          LookupPut(LoadedProjects(prefix), id, doc.project);
        } else {
          LookupPutOther(LoadedProjects(prefix), doc.project.id, doc.project, id);
        }
      }
    }
  }

  /** A cache is keyed by project id, each id once. */
  predicate KeyedById(cache: seq<(string, Project)>) {
    NoDup(Keys(cache)) && forall x :: x in cache ==> x.1.id == x.0
  }

  lemma PutKeyedById(cache: seq<(string, Project)>, p: Project)
    requires KeyedById(cache)
    ensures KeyedById(Put(cache, p.id, p))
  {
    PutMembers(cache, p.id, p);
    PutNoDup(cache, p.id, p);
  }

  lemma {:induction false} LoadedProjectsKeyed(files: seq<(string, ProjectDoc)>)
    ensures KeyedById(LoadedProjects(files))
  {
    if files != [] {
      LoadedProjectsKeyed(files[..|files| - 1]);
      var doc := files[|files| - 1].1;
      if doc.ProjectJson? {
        PutKeyedById(LoadedProjects(files[..|files| - 1]), doc.project);
      }
    }
  }

  lemma LastProjectWithIdPut(files: seq<(string, ProjectDoc)>, name: string, p: Project)
    requires NoDup(Keys(files))
    requires forall x :: x in files && x.0 != name && x.1.ProjectJson? ==> x.1.project.id != p.id
    ensures LastProjectWithId(Put(files, name, ProjectJson(p)), p.id) == Some(p)
  {
    var r := Put(files, name, ProjectJson(p));
    PutMembers(files, name, ProjectJson(p));
    PutReplaces(files, name, ProjectJson(p));
    LookupPut(files, name, ProjectJson(p));
    LookupFound(r, name);
    LastIsSaved(r, name, p);
  }

  /** In a listing holding the project file `name`, the last file with that
      project's id is `name`'s, when no other file holds that id. */
  lemma {:induction false} LastIsSaved(files: seq<(string, ProjectDoc)>, name: string, p: Project)
    requires (name, ProjectJson(p)) in files
    requires forall x :: x in files && x != (name, ProjectJson(p)) && x.1.ProjectJson? ==> x.1.project.id != p.id
    ensures LastProjectWithId(files, p.id) == Some(p)
    decreases |files|
  {
    var last := files[|files| - 1];
    if last != (name, ProjectJson(p)) {
      var prefix := files[..|files| - 1];
      assert files == prefix + [last];
      assert (name, ProjectJson(p)) in prefix;
      LastIsSaved(prefix, name, p);
    }
  }

  /** After a project is written to its file, loading the folder again gives
      it back under its id, provided no other project file holds a project
      with the same id (file names in a folder are distinct). */
  lemma LoadAfterSave(files: seq<(string, ProjectDoc)>, p: Project)
    requires NoDup(Keys(files))
    requires forall x :: x in files && x.0 != GetFileId(p) && x.1.ProjectJson? ==> x.1.project.id != p.id
    ensures Lookup(LoadedProjects(Put(files, GetFileId(p), ProjectJson(p))), p.id) == Some(p)
  {
    LastProjectWithIdPut(files, GetFileId(p), p);
    LoadedProjectsLookup(Put(files, GetFileId(p), ProjectJson(p)), p.id);
  }

  /** The project cache's values in insertion order. */
  function Values(cache: seq<(string, Project)>): (r: seq<Project>)
    ensures |r| == |cache| && forall i :: 0 <= i < |cache| ==> r[i] == cache[i].1
  {
    if cache == [] then [] else [cache[0].1] + Values(cache[1..])
  }

  // ---------------------------------------------------------------------------
  // Per-user last activity
  // ---------------------------------------------------------------------------

  /** How the time files of a user are chosen: by the glob `<user>_*.json`
      as written, or by the user part of the name (everything before the last
      underscore) as the report screen reads it. */
  datatype Scan = ByGlob | ByOwner

  predicate Selects(scan: Scan, user: string, stem: string) {
    match scan
    case ByGlob => StartsWith(stem, user + "_")
    case ByOwner => SplitLast(stem, '_').Some? && SplitLast(stem, '_').value.0 == user
  }

  /** The entries of the chosen, readable files, file after file. */
  function ScannedEntries(files: seq<(string, TimeDoc)>, scan: Scan, user: string): seq<RawEntry> {
    if files == [] then []
    else
      var last := files[|files| - 1];
      ScannedEntries(files[..|files| - 1], scan, user)
        + (if Selects(scan, user, last.0) && last.1.TimeJson? then last.1.entries else [])
  }

  /** When an entry happened: `created_at`, else `date`, else `end_time`, else "". */
  function EntryTime(e: RawEntry): (t: string)
    ensures Truthy(e.createdAt) ==> t == e.createdAt.value
    ensures !Truthy(e.createdAt) && Truthy(e.date) ==> t == e.date.value
    ensures !Truthy(e.createdAt) && !Truthy(e.date) ==> t == e.endTime.GetOr("")
  {
    if Truthy(e.createdAt) then e.createdAt.value
    else if Truthy(e.date) then e.date.value
    else e.endTime.GetOr("")
  }

  /** An entry counts towards project pid when its project_id is pid and non-empty. */
  predicate EntryFor(e: RawEntry, pid: string) {
    Truthy(e.projectId) && e.projectId.value == pid
  }

  /** One step of the scan: a newer time for the entry's project replaces the
      recorded one; an equal or older one does not. */
  function Touch(activity: seq<(string, string)>, e: RawEntry): seq<(string, string)> {
    if !Truthy(e.projectId) then activity
    else
      var pid, t := e.projectId.value, EntryTime(e);
      match Lookup(activity, pid)
      case None => Put(activity, pid, t)
      case Some(prev) => if LexLess(prev, t) then Put(activity, pid, t) else activity
  }

  function ActivityOf(es: seq<RawEntry>): seq<(string, string)> {
    if es == [] then [] else Touch(ActivityOf(es[..|es| - 1]), es[|es| - 1])
  }

  /** The greatest time, in string order, of the entries for pid; of equal
      times the first one seen stays. */
  function Latest(es: seq<RawEntry>, pid: string): Option<string> {
    if es == [] then None
    else
      var prev := Latest(es[..|es| - 1], pid);
      var e := es[|es| - 1];
      if !EntryFor(e, pid) then prev
      else if prev.None? || LexLess(prev.value, EntryTime(e)) then Some(EntryTime(e))
      else prev
  }

  lemma TouchLookup(activity: seq<(string, string)>, e: RawEntry, pid: string)
    ensures Lookup(Touch(activity, e), pid)
      == if !EntryFor(e, pid) then Lookup(activity, pid)
         else if Lookup(activity, pid).None? || LexLess(Lookup(activity, pid).value, EntryTime(e)) then Some(EntryTime(e))
         else Lookup(activity, pid)
  {
    if Truthy(e.projectId) {
      var q := e.projectId.value;
      if q == pid {
        LookupPut(activity, q, EntryTime(e));
      } else {
        LookupPutOther(activity, q, EntryTime(e), pid);
      }
    }
  }

  /** The dictionary the scan builds holds, for each project, Latest of its entries. */
  lemma {:induction false} ActivityLookup(es: seq<RawEntry>, pid: string)
    ensures Lookup(ActivityOf(es), pid) == Latest(es, pid)
  {
    if es != [] {
      ActivityLookup(es[..|es| - 1], pid);
      TouchLookup(ActivityOf(es[..|es| - 1]), es[|es| - 1], pid);
    }
  }

  lemma NotLessAfter(prev: string, t: string, x: string)
    requires LexLess(prev, t) && !LexLess(prev, x)
    ensures !LexLess(t, x)
  {
    if LexLess(t, x) {
      LexLessTransitive(prev, t, x);
    }
  }

  /** Latest is defined exactly when some entry is for the project, is the
      time of one of them, and no entry for it is later. */
  lemma {:induction false} LatestIsMax(es: seq<RawEntry>, pid: string)
    ensures Latest(es, pid).Some? <==> exists k :: 0 <= k < |es| && EntryFor(es[k], pid)
    ensures Latest(es, pid).Some? ==> exists k :: 0 <= k < |es| && EntryFor(es[k], pid) && EntryTime(es[k]) == Latest(es, pid).value
    ensures Latest(es, pid).Some? ==> forall k :: 0 <= k < |es| && EntryFor(es[k], pid) ==> !LexLess(Latest(es, pid).value, EntryTime(es[k]))
  {
    if es != [] {
      var prefix, e := es[..|es| - 1], es[|es| - 1];
      LatestIsMax(prefix, pid);
      var prev := Latest(prefix, pid);
      assert forall k :: 0 <= k < |prefix| ==> prefix[k] == es[k];
      if EntryFor(e, pid) {
        var t := EntryTime(e);
        if prev.None? || LexLess(prev.value, t) {
          assert Latest(es, pid) == Some(t);
          forall k | 0 <= k < |es| && EntryFor(es[k], pid) ensures !LexLess(t, EntryTime(es[k])) {
            if k < |prefix| {
              assert EntryFor(prefix[k], pid);
              NotLessAfter(prev.value, t, EntryTime(es[k]));
            } else {
              LexLessIrreflexive(t);
            }
          }
        } else {
          assert Latest(es, pid) == prev;
        }
      } else {
        assert Latest(es, pid) == prev;
      }
    }
  }

  /** The scan's result on the files as the glob lists them. */
  function LastActivity(files: seq<(string, TimeDoc)>, scan: Scan, user: string): seq<(string, string)> {
    ActivityOf(ScannedEntries(files, scan, user))
  }

  /** Last activity maps a project to the latest time among the scanned
      entries for it, and maps only projects that have such an entry. */
  lemma LastActivityIsLatest(files: seq<(string, TimeDoc)>, scan: Scan, user: string, pid: string)
    ensures var es := ScannedEntries(files, scan, user);
      var t := Lookup(LastActivity(files, scan, user), pid);
      (t.Some? <==> exists k :: 0 <= k < |es| && EntryFor(es[k], pid))
      && (t.Some? ==> exists k :: 0 <= k < |es| && EntryFor(es[k], pid) && EntryTime(es[k]) == t.value)
      && (t.Some? ==> forall k :: 0 <= k < |es| && EntryFor(es[k], pid) ==> !LexLess(t.value, EntryTime(es[k])))
  {
    var es := ScannedEntries(files, scan, user);
    ActivityLookup(es, pid);
    LatestIsMax(es, pid);
    assert Lookup(LastActivity(files, scan, user), pid) == Latest(es, pid);
  }

  lemma ScannedEntriesStep(files: seq<(string, TimeDoc)>, i: nat, scan: Scan, user: string)
    requires i < |files|
    ensures ScannedEntries(files[..i + 1], scan, user)
      == ScannedEntries(files[..i], scan, user)
         + (if Selects(scan, user, files[i].0) && files[i].1.TimeJson? then files[i].1.entries else [])
  {
    assert files[..i + 1][..i] == files[..i];
  }

  lemma ActivityOfStep(es: seq<RawEntry>, e: RawEntry)
    ensures ActivityOf(es + [e]) == Touch(ActivityOf(es), e)
  {
    assert (es + [e])[..|es|] == es;
  }

  /** The name of a time file of user `u_x` starts with `u_`, so the glob of
      user u takes it, although its user part is `u_x`, not u. */
  lemma GlobSelectsLongerOwner(u: string, x: string, t: string)
    requires '_' !in t
    ensures Selects(ByGlob, u, u + "_" + x + "_" + t)
    ensures SplitLast(u + "_" + x + "_" + t, '_') == Some((u + "_" + x, t))
    ensures !Selects(ByOwner, u, u + "_" + x + "_" + t)
  {
    var owner := u + "_" + x;
    var stem := owner + "_" + t;
    assert stem == owner + ['_'] + t;
    SplitLastOfJoined(owner, '_', t);
    assert stem[..|u| + 1] == u + "_";
    assert |owner| != |u|;
  }

  /** One entry for P1 at a given time. */
  function ReviewEntry(): RawEntry {
    RawEntry(Some("e1"), Some("P1"), Some("Review"), Some(2), None,
             Some("2024-01-01"), Some(""), Some("2024-01-01T09:00:00"), None, None, false)
  }

  /** The glob `alice_*.json` also takes the file of user `alice_bob`:
      alice's last activity then records a project she never logged. */
  lemma GlobTakesOtherUsersFiles()
    ensures var files := [("alice" + "_" + "bob" + "_" + "2024-01-01",
                           TimeJson(Some("alice_bob"), Some("2024-01-01"), [ReviewEntry()]))];
      Lookup(LastActivity(files, ByGlob, "alice"), "P1") == Some("2024-01-01T09:00:00")
      && Lookup(LastActivity(files, ByOwner, "alice"), "P1") == None
  {
    var e := ReviewEntry();
    var t := "2024-01-01";
    var files := [("alice" + "_" + "bob" + "_" + t, TimeJson(Some("alice_bob"), Some(t), [e]))];
    assert '_' !in t;
    GlobSelectsLongerOwner("alice", "bob", t);
    assert files[..0] == [];
    assert ScannedEntries(files, ByGlob, "alice") == [e];
    assert ScannedEntries(files, ByOwner, "alice") == [];
    assert [e][..0] == [];
    assert ActivityOf([e]) == Touch([], e);
    assert EntryTime(e) == "2024-01-01T09:00:00";
    LookupPut([], "P1", EntryTime(e));
  }

  /** The inner loop of `_get_user_last_activity` over one file's entries. */
  method TouchAll(activity: seq<(string, string)>, ghost done: seq<RawEntry>, es: seq<RawEntry>)
    returns (r: seq<(string, string)>)
    requires activity == ActivityOf(done)
    ensures r == ActivityOf(done + es)
  {
    r := activity;
    assert done + es[..0] == done;
    var j := 0;
    while j < |es|
      invariant 0 <= j <= |es|
      invariant r == ActivityOf(done + es[..j])
    {
      ActivityOfStep(done + es[..j], es[j]);
      assert done + es[..j + 1] == done + es[..j] + [es[j]];
      var e := es[j];
      if Truthy(e.projectId) {
        var pid, t := e.projectId.value, EntryTime(e);
        var known := Lookup(r, pid);
        if known.None? || LexLess(known.value, t) {
          r := Put(r, pid, t);
        }
      }
      j := j + 1;
    }
    assert es[..|es|] == es;
  }

  /** Under the owner scan, only files whose user part is the user count. */
  lemma {:induction false} OwnerScanOnlyOwnFiles(files: seq<(string, TimeDoc)>, user: string, e: RawEntry)
    requires e in ScannedEntries(files, ByOwner, user)
    ensures exists i :: 0 <= i < |files| && files[i].1.TimeJson? && e in files[i].1.entries
                        && SplitLast(files[i].0, '_').Some? && SplitLast(files[i].0, '_').value.0 == user
  {
    var prefix := files[..|files| - 1];
    var last := files[|files| - 1];
    if e in ScannedEntries(prefix, ByOwner, user) {
      OwnerScanOnlyOwnFiles(prefix, user, e);
      var i :| 0 <= i < |prefix| && prefix[i].1.TimeJson? && e in prefix[i].1.entries
               && SplitLast(prefix[i].0, '_').Some? && SplitLast(prefix[i].0, '_').value.0 == user;
      assert files[i] == prefix[i];
    } else {
      assert files[|files| - 1] == last;
    }
  }

  // ---------------------------------------------------------------------------
  // Project totals
  // ---------------------------------------------------------------------------

  /** Hours that a list of entries logs against project pid. */
  function EntriesHours(es: seq<RawEntry>, pid: string): int {
    if es == [] then 0
    else
      EntriesHours(es[..|es| - 1], pid)
        + (if es[|es| - 1].projectId == Some(pid) then EntryHours(es[|es| - 1]) else 0)
  }

  function DocHours(doc: TimeDoc, pid: string): int {
    if doc.TimeJson? then EntriesHours(doc.entries, pid) else 0
  }

  /** Hours logged against project pid over every readable time file, all
      users together. */
  function FilesHours(files: seq<(string, TimeDoc)>, pid: string): int {
    if files == [] then 0 else DocHours(files[0].1, pid) + FilesHours(files[1..], pid)
  }

  lemma {:induction false} FilesHoursStep(files: seq<(string, TimeDoc)>, i: nat, pid: string)
    requires i < |files|
    ensures FilesHours(files[..i + 1], pid) == FilesHours(files[..i], pid) + DocHours(files[i].1, pid)
  {
    if i > 0 {
      FilesHoursStep(files[1..], i - 1, pid);
      assert files[1..][..i] == files[..i + 1][1..];
      assert files[1..][..i - 1] == files[..i][1..];
    }
  }

  lemma EntriesHoursStep(es: seq<RawEntry>, e: RawEntry, pid: string)
    ensures EntriesHours(es + [e], pid) == EntriesHours(es, pid) + (if e.projectId == Some(pid) then EntryHours(e) else 0)
  {
    assert (es + [e])[..|es|] == es;
  }

  /** Replacing one file's document changes the total by the difference of
      the two documents' hours. */
  lemma {:induction false} FilesHoursPut(files: seq<(string, TimeDoc)>, stem: string, doc: TimeDoc, pid: string)
    ensures FilesHours(Put(files, stem, doc), pid)
      == FilesHours(files, pid) + DocHours(doc, pid)
         - (match Lookup(files, stem) case Some(d) => DocHours(d, pid) case None => 0)
  {
    if files != [] && files[0].0 != stem {
      FilesHoursPut(files[1..], stem, doc, pid);
      assert Put(files, stem, doc)[1..] == Put(files[1..], stem, doc);
    }
  }

  /** The worked example: one entry of 3 hours and one legacy entry of 120
      minutes make 5 hours. */
  lemma ProjectTotalExample()
    ensures var a := RawEntry(Some("a"), Some("P"), Some("Review"), Some(3), None, Some("2024-03-04"), None, None, None, None, false);
      var b := RawEntry(None, Some("P"), Some("Review"), None, Some(120), None, None, None, Some("2024-03-04T09:00"), None, false);
      FilesHours([("u_2024-03-04", TimeJson(Some("u"), Some("2024-03-04"), [a])),
                  ("v_2024-03-05", TimeJson(Some("v"), Some("2024-03-05"), [b]))], "P") == 5
  {
    var a := RawEntry(Some("a"), Some("P"), Some("Review"), Some(3), None, Some("2024-03-04"), None, None, None, None, false);
    var b := RawEntry(None, Some("P"), Some("Review"), None, Some(120), None, None, None, Some("2024-03-04T09:00"), None, false);
    assert [a][..0] == [] && [b][..0] == [];
    assert EntriesHours([a], "P") == 3;
    assert EntriesHours([b], "P") == 2;
    var files := [("u_2024-03-04", TimeJson(Some("u"), Some("2024-03-04"), [a])),
                  ("v_2024-03-05", TimeJson(Some("v"), Some("2024-03-05"), [b]))];
    assert files[1..][1..] == [];
    assert FilesHours(files[1..], "P") == 2;
  }

  /** The entries a time file holds before an append; a missing file holds none. */
  function PriorEntries(found: Option<TimeDoc>): seq<RawEntry> {
    if found.Some? && found.value.TimeJson? then found.value.entries else []
  }

  /** The hours of one entry of a day file. */
  function TimeEntryHours(t: TimeEntry): int {
    t.hours
  }

  /** `sum(e.hours for e in entries)`. */
  function DayTotal(es: seq<TimeEntry>): int {
    SumOf(es, TimeEntryHours)
  }

  /** One more entry adds its hours to the day's total. */
  lemma DayTotalAppend(es: seq<TimeEntry>, e: TimeEntry)
    ensures DayTotal(es + [e]) == DayTotal(es) + e.hours
  {
    assert (es + [e])[..|es|] == es;
  }

  /** The time file `save_time_entry` writes: the user, the entry's date, and
      the prior entries followed by the new one. */
  function AppendedDoc(found: Option<TimeDoc>, user: string, e: TimeEntry): TimeDoc {
    TimeJson(Some(user), Some(e.date), PriorEntries(found) + [EncodeEntry(e)])
  }

  /** Appending an entry raises its project's total by the entry's hours and
      leaves every other project's total as it was. */
  lemma TotalAfterAppend(files: seq<(string, TimeDoc)>, stem: string, user: string, e: TimeEntry, pid: string)
    requires Lookup(files, stem) != Some(BadTimeJson)
    ensures FilesHours(Put(files, stem, AppendedDoc(Lookup(files, stem), user, e)), pid)
      == FilesHours(files, pid) + (if e.projectId == pid then e.hours else 0)
  {
    var found := Lookup(files, stem);
    FilesHoursPut(files, stem, AppendedDoc(found, user, e), pid);
    EntriesHoursStep(PriorEntries(found), EncodeEntry(e), pid);
    EntryHoursOfEncoded(e);
  }

  // ---------------------------------------------------------------------------
  // Recency order of projects
  // ---------------------------------------------------------------------------

  /** Python's comparison of the pairs (last activity, modified_at). */
  predicate PairLess(a: (string, string), b: (string, string)) {
    LexLess(a.0, b.0) || (a.0 == b.0 && LexLess(a.1, b.1))
  }

  function RecencyKey(activity: seq<(string, string)>, p: Project): (string, string) {
    (Lookup(activity, p.id).GetOr(""), p.modifiedAt)
  }

  /** The order `sort(key=…, reverse=True)` produces: a may come before b
      when a's key is not smaller than b's. */
  predicate MoreRecent(activity: seq<(string, string)>, a: Project, b: Project) {
    !PairLess(RecencyKey(activity, a), RecencyKey(activity, b))
  }

  lemma PairLessStrictOrder(a: (string, string), b: (string, string), c: (string, string))
    ensures !PairLess(a, a)
    ensures PairLess(a, b) ==> !PairLess(b, a)
    ensures a != b ==> PairLess(a, b) || PairLess(b, a)
    ensures PairLess(a, b) && PairLess(b, c) ==> PairLess(a, c)
  {
    LexLessIrreflexive(a.0);
    LexLessIrreflexive(a.1);
    if LexLess(a.0, b.0) { LexLessAsymmetric(a.0, b.0); }
    if LexLess(a.1, b.1) { LexLessAsymmetric(a.1, b.1); }
    LexLessTotal(a.0, b.0);
    LexLessTotal(a.1, b.1);
    if LexLess(a.0, b.0) && LexLess(b.0, c.0) { LexLessTransitive(a.0, b.0, c.0); }
    if LexLess(a.1, b.1) && LexLess(b.1, c.1) { LexLessTransitive(a.1, b.1, c.1); }
  }

  lemma MoreRecentIsTotalPreorder(activity: seq<(string, string)>)
    ensures TotalPreorder((a: Project, b: Project) => MoreRecent(activity, a, b))
  {
    var le := (a: Project, b: Project) => MoreRecent(activity, a, b);
    forall a: Project, b: Project ensures le(a, b) || le(b, a) {
      PairLessStrictOrder(RecencyKey(activity, a), RecencyKey(activity, b), RecencyKey(activity, b));
    }
    forall a: Project, b: Project, c: Project | le(a, b) && le(b, c) ensures le(a, c) {
      var ka, kb, kc := RecencyKey(activity, a), RecencyKey(activity, b), RecencyKey(activity, c);
      PairLessStrictOrder(ka, kb, kc);
      PairLessStrictOrder(kc, kb, ka);
      PairLessStrictOrder(ka, kc, kb);
      PairLessStrictOrder(kb, ka, kc);
    }
  }

  // ---------------------------------------------------------------------------
  // The service
  // ---------------------------------------------------------------------------

  /** The data service; `folder` is None while no data folder is configured.
      The OS user name and the clock are inputs. */
  class DataService {
    const osUser: string
    var folder: Option<Folder>
    var teamData: Option<TeamData>
    var currentUserIdField: Option<string>
    var currentUser: Option<Employee>
    var projects: seq<(string, Project)>
    var todayEntries: Option<DailyTimeFile>

    /** The project cache is keyed by project id. */
    ghost predicate Valid()
      reads this
    {
      KeyedById(projects)
    }

    constructor (osUser: string, folder: Option<Folder>)
      ensures Valid()
      ensures this.osUser == osUser && this.folder == folder
      ensures teamData.None? && currentUserIdField.None? && currentUser.None?
      ensures projects == [] && todayEntries.None?
    {
      this.osUser := osUser;
      this.folder := folder;
      teamData := None;
      currentUserIdField := None;
      currentUser := None;
      projects := [];
      todayEntries := None;
    }

    /** `current_user_id`: the id chosen from the roster, else the OS name. */
    function CurrentUserId(): (r: string)
      reads this`currentUserIdField
      ensures Truthy(currentUserIdField) ==> r == currentUserIdField.value
      ensures !Truthy(currentUserIdField) ==> r == osUser
    {
      if Truthy(currentUserIdField) then currentUserIdField.value else osUser
    }

    /** `identify_user`: the first roster entry whose id is the OS user
        becomes the current user. */
    method IdentifyUser() returns (r: Option<Employee>)
      requires Valid()
      modifies this
      ensures Valid()
      ensures folder == old(folder) && teamData == old(teamData)
      ensures projects == old(projects) && todayEntries == old(todayEntries)
      ensures old(teamData).None? ==> r.None? && unchanged(this)
      ensures old(teamData).Some? ==>
        var emps := old(teamData).value.employees;
        match FindFirst(emps, (e: Employee) => e.id == osUser)
        case Some(i) => r == Some(emps[i]) && currentUser == r && currentUserIdField == Some(osUser)
        case None => r.None? && currentUser == old(currentUser) && currentUserIdField == old(currentUserIdField)
      ensures r.Some? ==> CurrentUserId() == osUser
    {
      if teamData.None? {
        return None;
      }
      var emps := teamData.value.employees;
      var i := 0;
      while i < |emps|
        invariant 0 <= i <= |emps|
        invariant forall j :: 0 <= j < i ==> emps[j].id != osUser
      {
        if emps[i].id == osUser {
          currentUserIdField := Some(emps[i].id);
          currentUser := Some(emps[i]);
          return currentUser;
        }
        i := i + 1;
      }
      return None;
    }

    /** `set_current_user`: the first roster entry with that id becomes the
        current user; an unknown id changes nothing. */
    method SetCurrentUser(employeeId: string)
      requires Valid()
      modifies this
      ensures Valid()
      ensures folder == old(folder) && teamData == old(teamData)
      ensures projects == old(projects) && todayEntries == old(todayEntries)
      ensures old(teamData).None? ==> unchanged(this)
      ensures old(teamData).Some? ==>
        var emps := old(teamData).value.employees;
        match FindFirst(emps, (e: Employee) => e.id == employeeId)
        case Some(i) => currentUser == Some(emps[i]) && currentUserIdField == Some(employeeId)
        case None => currentUser == old(currentUser) && currentUserIdField == old(currentUserIdField)
    {
      if teamData.None? {
        return;
      }
      var emps := teamData.value.employees;
      var i := 0;
      while i < |emps|
        invariant 0 <= i <= |emps|
        invariant forall j :: 0 <= j < i ==> emps[j].id != employeeId
      {
        if emps[i].id == employeeId {
          currentUserIdField := Some(emps[i].id);
          currentUser := Some(emps[i]);
          return;
        }
        i := i + 1;
      }
    }

    /** `load_team_data`: Ok(None) without a folder or team file; a file that
        does not decode raises. */
    method LoadTeamData() returns (r: Result<Option<TeamData>>)
      requires Valid()
      modifies this
      ensures Valid()
      ensures folder == old(folder) && projects == old(projects) && todayEntries == old(todayEntries)
      ensures currentUserIdField == old(currentUserIdField) && currentUser == old(currentUser)
      ensures match old(folder)
        case None => r == Ok(None) && teamData == old(teamData)
        case Some(f) =>
          match f.teamFile
          case None => r == Ok(None) && teamData == old(teamData)
          case Some(BadTeamJson) => r.Err? && teamData == old(teamData)
          case Some(TeamJson(td)) => r == Ok(Some(td)) && teamData == Some(td)
    {
      if folder.None? || folder.value.teamFile.None? {
        return Ok(None);
      }
      match folder.value.teamFile.value
      case BadTeamJson =>
        return Err("team_data.json does not decode");
      case TeamJson(td) =>
        teamData := Some(td);
        return Ok(Some(td));
    }

    /** `save_team_data`: writes the file and adopts the data; nothing
        without a folder. */
    method SaveTeamData(td: TeamData)
      requires Valid()
      modifies this
      ensures Valid()
      ensures old(folder).None? ==> unchanged(this)
      ensures old(folder).Some? ==>
        folder == Some(old(folder).value.(teamFile := Some(TeamJson(td)))) && teamData == Some(td)
      ensures projects == old(projects) && todayEntries == old(todayEntries)
      ensures currentUserIdField == old(currentUserIdField) && currentUser == old(currentUser)
    {
      if folder.None? {
        return;
      }
      folder := Some(folder.value.(teamFile := Some(TeamJson(td))));
      teamData := Some(td);
    }

    /** `load_projects`: rebuilds the cache from the readable project files;
        without a folder it returns an empty dictionary and keeps the cache. */
    method LoadProjects() returns (r: seq<(string, Project)>)
      requires Valid()
      modifies this
      ensures Valid()
      ensures old(folder).None? ==> r == [] && unchanged(this)
      ensures old(folder).Some? ==> projects == LoadedProjects(old(folder).value.projectFiles) && r == projects
      ensures folder == old(folder) && teamData == old(teamData) && todayEntries == old(todayEntries)
      ensures currentUserIdField == old(currentUserIdField) && currentUser == old(currentUser)
    {
      if folder.None? {
        return [];
      }
      var files := folder.value.projectFiles;
      var cache := [];
      var i := 0;
      while i < |files|
        invariant 0 <= i <= |files|
        invariant cache == LoadedProjects(files[..i])
      {
        assert files[..i + 1][..i] == files[..i];
        if files[i].1.ProjectJson? {
          var p := files[i].1.project;
          cache := Put(cache, p.id, p);
        }
        i := i + 1;
      }
      assert files[..|files|] == files;
      LoadedProjectsKeyed(files);
      projects := cache;
      return projects;
    }

    /** `get_project`. */
    function GetProject(id: string): (r: Option<Project>)
      reads this
      requires Valid()
      ensures r.Some? ==> r.value.id == id && (id, r.value) in projects
      ensures r.None? ==> forall x :: x in projects ==> x.0 != id
    {
      var r := Lookup(projects, id);
      LookupKeys(projects, id);
      if r.Some? then
        LookupFound(projects, id);
        assert (id, r.value) in projects;
        r
      else
        KeysMembers(projects);
        r
    }

    /** `save_project`: stamps the modification time and the current user,
        writes `projects/<file id>.json` and caches the project under its id.
        Without a folder nothing happens and the project is not stamped. */
    method SaveProject(p: Project, nowIso: string) returns (saved: Project)
      requires Valid()
      modifies this
      ensures Valid()
      ensures old(folder).None? ==> saved == p && unchanged(this)
      ensures old(folder).Some? ==>
        saved == p.(modifiedAt := nowIso, modifiedBy := old(CurrentUserId()))
        && folder == Some(old(folder).value.(projectFiles := Put(old(folder).value.projectFiles, GetFileId(saved), ProjectJson(saved))))
        && projects == Put(old(projects), saved.id, saved)
        && GetProject(p.id) == Some(saved)
      ensures old(folder).Some? ==> forall id :: id != p.id ==> GetProject(id) == old(GetProject(id))
      ensures teamData == old(teamData) && todayEntries == old(todayEntries)
      ensures currentUserIdField == old(currentUserIdField) && currentUser == old(currentUser)
    {
      if folder.None? {
        return p;
      }
      saved := p.(modifiedAt := nowIso, modifiedBy := CurrentUserId());
      var f := folder.value;
      folder := Some(f.(projectFiles := Put(f.projectFiles, GetFileId(saved), ProjectJson(saved))));
      PutKeyedById(projects, saved);
      LookupPut(projects, saved.id, saved);
      forall id | id != p.id ensures Lookup(Put(old(projects), saved.id, saved), id) == Lookup(old(projects), id) {
        LookupPutOther(old(projects), saved.id, saved, id);
      }
      projects := Put(projects, saved.id, saved);
    }

    /** `_get_user_last_activity`, choosing the user's files by the user part
        of their names: for each project, the latest time of the current
        user's entries for it. */
    method GetUserLastActivity() returns (activity: seq<(string, string)>)
      ensures activity == if folder.None? || CurrentUserId() == "" then []
                          else LastActivity(folder.value.timeFiles, ByOwner, CurrentUserId())
    {
      if folder.None? || CurrentUserId() == "" {
        return [];
      }
      var user := CurrentUserId();
      var files := folder.value.timeFiles;
      activity := [];
      var i := 0;
      while i < |files|
        invariant 0 <= i <= |files|
        invariant activity == ActivityOf(ScannedEntries(files[..i], ByOwner, user))
      {
        ScannedEntriesStep(files, i, ByOwner, user);
        ghost var done := ScannedEntries(files[..i], ByOwner, user);
        if Selects(ByOwner, user, files[i].0) && files[i].1.TimeJson? {
          activity := TouchAll(activity, done, files[i].1.entries);
        } else {
          assert ScannedEntries(files[..i + 1], ByOwner, user) == done + [];
          assert done + [] == done;
        }
        i := i + 1;
      }
      assert files[..|files|] == files;
    }

    /** The current user's last activity per project, as `get_all_projects`
        sees it (the corrected, owner-only scan). */
    function ScanActivity(): seq<(string, string)>
      reads this
    {
      if folder.None? || CurrentUserId() == "" then []
      else LastActivity(folder.value.timeFiles, ByOwner, CurrentUserId())
    }

    /** The cached projects in the order `get_all_projects` returns them. */
    function RecentFirst(): seq<Project>
      reads this
    {
      var activity := ScanActivity();
      SortBy(Values(projects), (a: Project, b: Project) => MoreRecent(activity, a, b))
    }

    /** `get_all_projects`: the cached projects, most recent first by the
        current user's last activity and then by modification time; equal
        keys keep the cache's order. */
    method GetAllProjects() returns (r: seq<Project>)
      ensures r == RecentFirst()
      ensures multiset(r) == multiset(Values(projects))
      ensures forall i, j :: 0 <= i < j < |r| ==> !PairLess(RecencyKey(ScanActivity(), r[i]), RecencyKey(ScanActivity(), r[j]))
    {
      var all := Values(projects);
      var activity := GetUserLastActivity();
      var le := (a: Project, b: Project) => MoreRecent(activity, a, b);
      MoreRecentIsTotalPreorder(activity);
      SortBySorted(all, le);
      r := SortBy(all, le);
      assert SortedBy(r, le);
    }

    /** `load_today_entries`: the current user's file for today, read into
        time entries; a missing file gives an empty day. A file that does
        not decode, an entry the dataclass rejects, or a missing user_id or
        date raises, and the cached day is kept. */
    method LoadTodayEntries(today: Date) returns (r: Result<Option<DailyTimeFile>>)
      requires Valid() && ValidDate(today)
      modifies this`todayEntries
      ensures old(folder).None? || CurrentUserId() == "" ==> r == Ok(None) && todayEntries == old(todayEntries)
      ensures old(folder).Some? && CurrentUserId() != "" ==>
        var found: Option<TimeDoc> := Lookup(folder.value.timeFiles, TimeFileStem(CurrentUserId(), today));
        match found
        case None =>
          r == Ok(Some(DailyTimeFile(CurrentUserId(), StrftimeYmd(today), []))) && todayEntries == r.value
        case Some(BadTimeJson) => r.Err? && todayEntries == old(todayEntries)
        case Some(TimeJson(u, d, es)) =>
          match DecodeEntries(es)
          case Some(decoded) =>
            if u.Some? && d.Some? then r == Ok(Some(DailyTimeFile(u.value, d.value, decoded))) && todayEntries == r.value
            else r.Err? && todayEntries == old(todayEntries)
          case None => r.Err? && todayEntries == old(todayEntries)
    {
      if folder.None? || CurrentUserId() == "" {
        return Ok(None);
      }
      var user := CurrentUserId();
      var found: Option<TimeDoc> := Lookup(folder.value.timeFiles, TimeFileStem(user, today));
      match found
      case None =>
        todayEntries := Some(DailyTimeFile(user, StrftimeYmd(today), []));
        return Ok(todayEntries);
      case Some(BadTimeJson) =>
        return Err("today's time file does not decode");
      case Some(TimeJson(u, d, es)) =>
        var decoded := DecodeEntriesLoop(es);
        if decoded.None? {
          return Err("TypeError: an entry is not a TimeEntry");
        }
        if u.None? || d.None? {
          return Err("KeyError: user_id or date");
        }
        todayEntries := Some(DailyTimeFile(u.value, d.value, decoded.value));
        return Ok(todayEntries);
    }

    /** `save_time_entry`: appends the entry to the current user's file for
        the entry's date, creating it if missing, and rewrites the file with
        that user and date; if the date is today the day is reloaded.
        Ok(false): no folder or no user; Err: the date is not YYYY-MM-DD, the
        file does not decode, or the reload raises. */
    method SaveTimeEntry(e: TimeEntry, today: Date) returns (r: Result<bool>)
      requires Valid() && ValidDate(today)
      modifies this`folder, this`todayEntries
      ensures old(folder).None? || CurrentUserId() == "" ==> r == Ok(false) && unchanged(this)
      ensures old(folder).Some? && CurrentUserId() != "" && ParseIso(e.date).None? ==> r.Err? && unchanged(this)
      ensures old(folder).Some? && CurrentUserId() != "" && ParseIso(e.date).Some? ==>
        var stem := TimeFileStem(CurrentUserId(), ParseIso(e.date).value);
        var files := old(folder).value.timeFiles;
        var found := Lookup(files, stem);
        (found == Some(BadTimeJson) ==> r.Err? && unchanged(this))
        && (found != Some(BadTimeJson) ==>
              folder == Some(old(folder).value.(timeFiles := Put(files, stem, AppendedDoc(found, CurrentUserId(), e))))
              && (forall s :: s != stem ==> Lookup(folder.value.timeFiles, s) == Lookup(files, s)))
        && (found != Some(BadTimeJson) && ParseIso(e.date).value != today ==>
              r == Ok(true) && todayEntries == old(todayEntries))
        && (found != Some(BadTimeJson) && ParseIso(e.date).value == today ==>
              (r.Ok? <==> DecodeEntries(PriorEntries(found)).Some?)
              && (r.Ok? ==> r == Ok(true) && todayEntries.Some?
                            && todayEntries.value.entries == DecodeEntries(PriorEntries(found)).value + [e]
                            && GetTodayTotalHours() == DayTotal(DecodeEntries(PriorEntries(found)).value) + e.hours)
              && (r.Err? ==> todayEntries == old(todayEntries)))
    {
      if folder.None? || CurrentUserId() == "" {
        return Ok(false);
      }
      var user := CurrentUserId();
      var date := ParseIso(e.date);
      if date.None? {
        return Err("ValueError: invalid isoformat string");
      }
      var stem := TimeFileStem(user, date.value);
      var files := folder.value.timeFiles;
      var found: Option<TimeDoc> := Lookup(files, stem);
      if found == Some(BadTimeJson) {
        return Err("time file does not decode");
      }
      var entries := PriorEntries(found);
      ghost var prior := entries;
      entries := entries + [EncodeEntry(e)];
      var doc := TimeJson(Some(user), Some(e.date), entries);
      assert doc == AppendedDoc(found, user, e);
      folder := Some(folder.value.(timeFiles := Put(files, stem, doc)));
      forall s | s != stem ensures Lookup(Put(files, stem, doc), s) == Lookup(files, s) {
        LookupPutOther(files, stem, doc, s);
      }
      LookupPut(files, stem, doc);
      if date.value == today {
        DecodeEntriesAppend(prior, e);
        var reloaded := LoadTodayEntries(today);
        if reloaded.Err? {
          return Err(reloaded.error);
        }
        DayTotalAppend(DecodeEntries(prior).value, e);
      }
      return Ok(true);
    }

    /** `get_today_total_hours`: the hours of today's cached entries, 0 when
        no day is loaded. */
    function GetTodayTotalHours(): (r: int)
      reads this
      ensures r == DayTotal(if todayEntries.Some? then todayEntries.value.entries else [])
    {
      if todayEntries.None? then 0 else DayTotal(todayEntries.value.entries)
    }

    /** `get_project_total_hours`: hours logged against the project in every
        readable time file, by the `hours`, else `duration_minutes // 60`,
        rule; 0 without a folder. */
    method GetProjectTotalHours(pid: string) returns (total: int)
      ensures total == if folder.None? then 0 else FilesHours(folder.value.timeFiles, pid)
    {
      if folder.None? {
        return 0;
      }
      var files := folder.value.timeFiles;
      total := 0;
      var i := 0;
      while i < |files|
        invariant 0 <= i <= |files|
        invariant total == FilesHours(files[..i], pid)
      {
        FilesHoursStep(files, i, pid);
        if files[i].1.TimeJson? {
          var es := files[i].1.entries;
          ghost var before := total;
          var j := 0;
          while j < |es|
            invariant 0 <= j <= |es|
            invariant total == before + EntriesHours(es[..j], pid)
          {
            EntriesHoursStep(es[..j], es[j], pid);
            assert es[..j + 1] == es[..j] + [es[j]];
            if es[j].projectId == Some(pid) {
              if es[j].hours.Some? {
                total := total + es[j].hours.value;
              } else if es[j].durationMinutes.Some? {
                total := total + es[j].durationMinutes.value / 60;
              }
            }
            j := j + 1;
          }
          assert es[..|es|] == es;
        }
        i := i + 1;
      }
      assert files[..|files|] == files;
    }

    /** `get_starred_projects`: the ids in the current user's starred file;
        a missing folder, user, file or an unreadable file gives the empty set. */
    function GetStarredProjects(): (r: set<string>)
      reads this
      ensures folder.None? || CurrentUserId() == "" ==> r == {}
    {
      if folder.None? || CurrentUserId() == "" then {}
      else
        var found: Option<StarredDoc> := Lookup(folder.value.starredFiles, CurrentUserId());
        match found
        case Some(StarredJson(ids)) => set x | x in ids
        case _ => {}
    }

    /** `set_project_starred`: adds or removes one id and rewrites only the
        current user's starred file. */
    method SetProjectStarred(pid: string, starred: bool)
      requires Valid()
      modifies this`folder
      ensures old(folder).None? || CurrentUserId() == "" ==> unchanged(this)
      ensures old(folder).Some? && CurrentUserId() != "" ==>
        GetStarredProjects() == (if starred then old(GetStarredProjects()) + {pid} else old(GetStarredProjects()) - {pid})
        && folder.Some? && folder.value.timeFiles == old(folder).value.timeFiles
        && folder.value.projectFiles == old(folder).value.projectFiles
        && folder.value.teamFile == old(folder).value.teamFile
        && forall u :: u != CurrentUserId() ==> Lookup(folder.value.starredFiles, u) == Lookup(old(folder).value.starredFiles, u)
    {
      if folder.None? || CurrentUserId() == "" {
        return;
      }
      var user := CurrentUserId();
      var current := GetStarredProjects();
      if starred {
        current := current + {pid};
      } else {
        current := current - {pid};
      }
      var ids := SetToSeq(current);
      var f := folder.value;
      var doc := StarredJson(ids);
      forall u | u != user ensures Lookup(Put(f.starredFiles, user, doc), u) == Lookup(f.starredFiles, u) {
        LookupPutOther(f.starredFiles, user, doc, u);
      }
      LookupPut(f.starredFiles, user, doc);
      folder := Some(f.(starredFiles := Put(f.starredFiles, user, doc)));
      assert (set x | x in ids) == current;
    }

    /** `is_project_starred`. */
    function IsProjectStarred(pid: string): bool
      reads this
    {
      pid in GetStarredProjects()
    }

    /** `reload_all`: team data, user, projects and today's entries, in that
        order; an exception from the team file stops the reload there. */
    method ReloadAll(today: Date) returns (r: Result<bool>)
      requires Valid() && ValidDate(today)
      modifies this
      ensures Valid()
      ensures folder == old(folder)
      ensures old(folder).None? ==> r == Ok(false) && unchanged(this)
      ensures old(folder).Some? && r.Ok? ==> r == Ok(true) && projects == LoadedProjects(folder.value.projectFiles)
    {
      if folder.None? {
        return Ok(false);
      }
      var td := LoadTeamData();
      if td.Err? {
        return Err(td.error);
      }
      var _ := IdentifyUser();
      var _ := LoadProjects();
      var day := LoadTodayEntries(today);
      if day.Err? {
        return Err(day.error);
      }
      return Ok(true);
    }
  }

  /** `[TimeEntry(**e) for e in entries]`: None when any entry is rejected. */
  function DecodeEntries(es: seq<RawEntry>): (r: Option<seq<TimeEntry>>)
    ensures r.Some? ==> |r.value| == |es| && forall i :: 0 <= i < |es| ==> DecodeEntry(es[i]) == Some(r.value[i])
    ensures r.None? ==> exists i :: 0 <= i < |es| && DecodeEntry(es[i]).None?
  {
    if es == [] then Some([])
    else
      var init := DecodeEntries(es[..|es| - 1]);
      match DecodeEntry(es[|es| - 1])
      case None => None
      case Some(e) =>
        match init
        case None =>
          ghost var i :| 0 <= i < |es[..|es| - 1]| && DecodeEntry(es[..|es| - 1][i]).None?;
          assert es[i] == es[..|es| - 1][i];
          None
        case Some(s) =>
          assert forall i :: 0 <= i < |es| - 1 ==> es[i] == es[..|es| - 1][i];
          Some(s + [e])
  }

  lemma DecodeEntriesAppend(es: seq<RawEntry>, e: TimeEntry)
    ensures DecodeEntries(es + [EncodeEntry(e)]) == if DecodeEntries(es).Some? then Some(DecodeEntries(es).value + [e]) else None
  {
    assert (es + [EncodeEntry(e)])[..|es|] == es;
  }

  /** The comprehension, element by element. */
  method DecodeEntriesLoop(es: seq<RawEntry>) returns (r: Option<seq<TimeEntry>>)
    ensures r == DecodeEntries(es)
  {
    var out: seq<TimeEntry> := [];
    var i := 0;
    while i < |es|
      invariant 0 <= i <= |es|
      invariant DecodeEntries(es[..i]) == Some(out)
    {
      assert es[..i + 1][..i] == es[..i];
      var d := DecodeEntry(es[i]);
      if d.None? {
        DecodeEntriesNone(es, i);
        return None;
      }
      out := out + [d.value];
      i := i + 1;
    }
    assert es[..|es|] == es;
    return Some(out);
  }

  lemma {:induction false} DecodeEntriesNone(es: seq<RawEntry>, i: nat)
    requires i < |es| && DecodeEntry(es[i]).None?
    ensures DecodeEntries(es) == None
  {
    if i < |es| - 1 {
      assert es[..|es| - 1][i] == es[i];
      DecodeEntriesNone(es[..|es| - 1], i);
    }
  }
}
