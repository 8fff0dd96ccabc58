/** The report screen's engine: which time files and entries a report
    covers (the file name gives user and date, the window and the user
    filter choose), the summary figures, the by-project and by-work-type
    groupings, and the calendar presets of the period selector. Dates of
    the window are day numbers (see Dates.Ordinal). */
module Reports {
  import opened Common
  import opened Dates
  import opened Models
  import opened DataService

  // ---------------------------------------------------------------------------
  // Which files and entries a report covers
  // ---------------------------------------------------------------------------

  /** An entry as the report keeps it, with the user and the date text taken
      from its file's name (`_user`, `_date`). */
  datatype Tagged = Tagged(entry: RawEntry, user: string, date: string)

  /** The "User" selector: every user's files, or only the current user's. */
  datatype UserFilter = AllUsers | MyTime

  /** A file name without ".json" split at its last '_' into user and date
      text, the date read by strptime("%Y-%m-%d"); None when there is no '_'
      or the date does not parse. */
  function ParseStem(stem: string): (r: Option<(string, string, Date)>)
  {
    match SplitLast(stem, '_')
    case None => None
    case Some((user, text)) =>
      match ParseYmd(text)
      case None => None
      case Some(d) => Some((user, text, d))
  }

  /** A parsed name is the user, '_' and the date text, which holds no '_'
      and reads as the date; a name fails to parse exactly when it has no
      '_' or its last part is not a date. */
  lemma ParseStemSpec(stem: string)
    ensures var r := ParseStem(stem);
      (r.Some? ==> stem == r.value.0 + "_" + r.value.1 && '_' !in r.value.1
                   && ParseYmd(r.value.1) == Some(r.value.2) && ValidDate(r.value.2))
      && (r.None? <==> '_' !in stem || ParseYmd(SplitLast(stem, '_').value.1).None?)
  {
  }

  /** The report reads back the user and date of every time file the store
      names, user ids with underscores included. */
  lemma ParseStemOfTimeFileStem(user: string, d: Date)
    requires ValidDate(d) && d.year >= 1000
    ensures ParseStem(TimeFileStem(user, d)) == Some((user, StrftimeYmd(d), d))
  {
    StrftimeHasNoUnderscore(d);
    assert TimeFileStem(user, d) == user + ['_'] + StrftimeYmd(d);
    SplitLastOfJoined(user, '_', StrftimeYmd(d));
    ParseYmdOfStrftime(d);
  }

  /** A file passes when its name parses, its date lies in the inclusive
      window and, under "My Time", its user is the current user. */
  predicate Passes(stem: string, fromDay: int, toDay: int, filter: UserFilter, me: string) {
    var parsed := ParseStem(stem);
    parsed.Some?
    && fromDay <= Ordinal(parsed.value.2) <= toDay
    && (filter == MyTime ==> parsed.value.0 == me)
  }

  /** Every entry of a file, tagged with the file's user and date text. */
  function Tag(es: seq<RawEntry>, user: string, date: string): (r: seq<Tagged>)
    ensures |r| == |es| && forall i :: 0 <= i < |es| ==> r[i] == Tagged(es[i], user, date)
  {
    if es == [] then [] else [Tagged(es[0], user, date)] + Tag(es[1..], user, date)
  }

  /** What one file contributes: its entries, tagged, when it passes and decodes. */
  function Kept(file: (string, TimeDoc), fromDay: int, toDay: int, filter: UserFilter, me: string): seq<Tagged> {
    if Passes(file.0, fromDay, toDay, filter, me) && file.1.TimeJson?
    then Tag(file.1.entries, ParseStem(file.0).value.0, ParseStem(file.0).value.1)
    else []
  }

  /** The report's entries, file after file in listing order; files that
      do not pass or do not decode contribute nothing. */
  function Selected(files: seq<(string, TimeDoc)>, fromDay: int, toDay: int, filter: UserFilter, me: string): seq<Tagged> {
    if files == [] then []
    else Selected(files[..|files| - 1], fromDay, toDay, filter, me) + Kept(files[|files| - 1], fromDay, toDay, filter, me)
  }

  lemma SelectedStep(files: seq<(string, TimeDoc)>, i: nat, fromDay: int, toDay: int, filter: UserFilter, me: string)
    requires i < |files|
    ensures Selected(files[..i + 1], fromDay, toDay, filter, me)
            == Selected(files[..i], fromDay, toDay, filter, me) + Kept(files[i], fromDay, toDay, filter, me)
  {
    assert files[..i + 1][..i] == files[..i];
  }

  /** Where a kept entry comes from: a passing, readable file that holds it
      and whose name gives its user and date. */
  predicate FromFile(t: Tagged, file: (string, TimeDoc), fromDay: int, toDay: int, filter: UserFilter, me: string) {
    Passes(file.0, fromDay, toDay, filter, me) && file.1.TimeJson?
    && t.entry in file.1.entries
    && t.user == ParseStem(file.0).value.0 && t.date == ParseStem(file.0).value.1
  }

  lemma TagMembers(es: seq<RawEntry>, user: string, date: string, t: Tagged)
    ensures t in Tag(es, user, date) <==> t.entry in es && t.user == user && t.date == date
  {
    var r := Tag(es, user, date);
    if t.entry in es && t.user == user && t.date == date {
      var i :| 0 <= i < |es| && es[i] == t.entry;
      assert r[i] == t;
    }
  }

  /** An entry is in the report exactly when some passing, readable file
      holds it, tagged with that file's user and date. */
  lemma {:induction false} SelectedMembers(files: seq<(string, TimeDoc)>, fromDay: int, toDay: int, filter: UserFilter, me: string, t: Tagged)
    ensures t in Selected(files, fromDay, toDay, filter, me)
            <==> exists i :: 0 <= i < |files| && FromFile(t, files[i], fromDay, toDay, filter, me)
  {
    if t in Selected(files, fromDay, toDay, filter, me) {
      SelectedFrom(files, fromDay, toDay, filter, me, t);
    }
    if exists i :: 0 <= i < |files| && FromFile(t, files[i], fromDay, toDay, filter, me) {
      var i :| 0 <= i < |files| && FromFile(t, files[i], fromDay, toDay, filter, me);
      SelectedHas(files, i, fromDay, toDay, filter, me, t);
    }
  }

  lemma {:induction false} SelectedFrom(files: seq<(string, TimeDoc)>, fromDay: int, toDay: int, filter: UserFilter, me: string, t: Tagged)
    requires t in Selected(files, fromDay, toDay, filter, me)
    ensures exists i :: 0 <= i < |files| && FromFile(t, files[i], fromDay, toDay, filter, me)
  {
    var prefix, last := files[..|files| - 1], files[|files| - 1];
    if t in Selected(prefix, fromDay, toDay, filter, me) {
      SelectedFrom(prefix, fromDay, toDay, filter, me, t);
      var i :| 0 <= i < |prefix| && FromFile(t, prefix[i], fromDay, toDay, filter, me);
      assert files[i] == prefix[i];
    } else {
      KeptMembers(last, fromDay, toDay, filter, me, t);
      assert files[|files| - 1] == last;
    }
  }

  lemma {:induction false} SelectedHas(files: seq<(string, TimeDoc)>, i: nat, fromDay: int, toDay: int, filter: UserFilter, me: string, t: Tagged)
    requires i < |files| && FromFile(t, files[i], fromDay, toDay, filter, me)
    ensures t in Selected(files, fromDay, toDay, filter, me)
  {
    var prefix := files[..|files| - 1];
    if i == |files| - 1 {
      KeptMembers(files[i], fromDay, toDay, filter, me, t);
    } else {
      assert prefix[i] == files[i];
      SelectedHas(prefix, i, fromDay, toDay, filter, me, t);
    }
  }

  lemma KeptMembers(file: (string, TimeDoc), fromDay: int, toDay: int, filter: UserFilter, me: string, t: Tagged)
    ensures t in Kept(file, fromDay, toDay, filter, me) <==> FromFile(t, file, fromDay, toDay, filter, me)
  {
    if Passes(file.0, fromDay, toDay, filter, me) && file.1.TimeJson? {
      TagMembers(file.1.entries, ParseStem(file.0).value.0, ParseStem(file.0).value.1, t);
    }
  }

  /** `{p.id: p for p in projects}`: one item per id, the last project with
      that id winning. */
  function IndexById(ps: seq<Project>): (r: seq<(string, Project)>)
    ensures forall x :: x in r ==> x.1.id == x.0 && x.1 in ps
    ensures forall p :: p in ps ==> p.id in Keys(r)
  {
    if ps == [] then []
    else
      var prefix := IndexById(ps[..|ps| - 1]);
      var p := ps[|ps| - 1];
      PutMembers(prefix, p.id, p);
      assert forall q :: q in ps ==> q in ps[..|ps| - 1] || q == p;
      Put(prefix, p.id, p)
  }

  // ---------------------------------------------------------------------------
  // Summary
  // ---------------------------------------------------------------------------

  /** Hours of a kept entry, by the `hours`, else `duration_minutes // 60`, rule. */
  function TaggedHours(t: Tagged): int {
    EntryHours(t.entry)
  }

  function TotalHours(es: seq<Tagged>): int {
    SumOf(es, TaggedHours)
  }

  /** `set(e.get('project_id') for e in entries)`: None stands for a missing key. */
  function ProjectIds(es: seq<Tagged>): (r: set<Option<string>>)
    ensures forall t :: t in es ==> t.entry.projectId in r
    ensures forall p :: p in r ==> exists t :: t in es && t.entry.projectId == p
  {
    set t | t in es :: t.entry.projectId
  }

  /** Hours of the entries whose project_id is pid. */
  function ProjectHours(es: seq<Tagged>, pid: string): int {
    if es == [] then 0
    else ProjectHours(es[..|es| - 1], pid)
         + (if es[|es| - 1].entry.projectId == Some(pid) then TaggedHours(es[|es| - 1]) else 0)
  }

  /** A project a ratio is taken for: present in the cache with a positive target. */
  predicate HasTarget(cache: seq<(string, Project)>, pid: string) {
    Lookup(cache, pid).Some? && Lookup(cache, pid).value.targetHours > 0.0
  }

  /** The summary cards. The average per day is shown for a non-empty
      window; the average ratio is taken over `ratioHours` (project id to
      its hours, for the projects with a target) and is "—" when that is
      empty. The float divisions themselves are not modelled. */
  datatype Summary = Summary(totalHours: int, numProjects: nat, numDays: int, averagesPerDay: bool,
                             ratioHours: map<string, int>, showsRatio: bool)

  /** `_update_summary`. */
  function UpdateSummary(es: seq<Tagged>, cache: seq<(string, Project)>, fromDay: int, toDay: int): (s: Summary)
    ensures s.totalHours == SumOf(es, TaggedHours)
    ensures s.numProjects == |ProjectIds(es)|
    ensures s.numDays == toDay - fromDay + 1 && (s.averagesPerDay <==> fromDay <= toDay)
    ensures forall pid :: pid in s.ratioHours <==> HasTarget(cache, pid) && exists t :: t in es && t.entry.projectId == Some(pid)
    ensures forall pid :: pid in s.ratioHours ==> s.ratioHours[pid] == ProjectHours(es, pid)
    ensures s.showsRatio <==> exists t :: t in es && t.entry.projectId.Some? && HasTarget(cache, t.entry.projectId.value)
  {
    var ids := ProjectIds(es);
    var numDays := toDay - fromDay + 1;
    var named := set t | t in es && t.entry.projectId.Some? :: t.entry.projectId.value;
    var ratioHours := map pid | pid in named && HasTarget(cache, pid) :: ProjectHours(es, pid);
    Summary(TotalHours(es), |ids|, numDays, numDays > 0, ratioHours, |ratioHours| > 0)
  }

  /** The status line's counts: entries and distinct project ids. */
  function StatusCounts(es: seq<Tagged>): (r: (nat, nat))
    ensures r.0 == |es| && r.1 == |ProjectIds(es)|
    ensures r.1 <= r.0
  {
    ProjectIdsBound(es);
    (|es|, |ProjectIds(es)|)
  }

  /** There are no more distinct project ids than entries. */
  lemma {:induction false} ProjectIdsBound(es: seq<Tagged>)
    ensures |ProjectIds(es)| <= |es|
  {
    if es != [] {
      var prefix := es[..|es| - 1];
      ProjectIdsBound(prefix);
      var x := es[|es| - 1].entry.projectId;
      assert |ProjectIds(prefix) + {x}| <= |ProjectIds(prefix)| + 1 by {
        if x in ProjectIds(prefix) {
          assert ProjectIds(prefix) + {x} == ProjectIds(prefix);
        }
      }
      assert ProjectIds(es) <= ProjectIds(prefix) + {x} by {
        forall p | p in ProjectIds(es) ensures p in ProjectIds(prefix) + {es[|es| - 1].entry.projectId} {
          var t :| t in es && t.entry.projectId == p;
          var i :| 0 <= i < |es| && es[i] == t;
          if i < |prefix| {
            assert prefix[i] == t;
          }
        }
      }
      SubsetCard(ProjectIds(es), ProjectIds(prefix) + {x});
    }
  }

  // ---------------------------------------------------------------------------
  // Groupings
  // ---------------------------------------------------------------------------

  /** The key an entry is grouped by; a missing key groups as "Unknown". */
  datatype Grouping = ByProject | ByWorkType

  function GroupKey(g: Grouping, t: Tagged): string {
    match g
    case ByProject => t.entry.projectId.GetOr("Unknown")
    case ByWorkType => t.entry.workType.GetOr("Unknown")
  }

  /** The grouping dictionary after one more entry: a new key goes last
      with the entry's hours, a known key's hours grow by them. */
  function AddHours(groups: seq<(string, int)>, key: string, h: int): (r: seq<(string, int)>)
    ensures r != []
  {
    if groups == [] then [(key, h)]
    else if groups[0].0 == key then [(key, groups[0].1 + h)] + groups[1..]
    else [groups[0]] + AddHours(groups[1..], key, h)
  }

  /** AddHours is `d[k] = d.get(k, 0) + h`. */
  lemma {:induction false} AddHoursIsPut(groups: seq<(string, int)>, key: string, h: int)
    ensures AddHours(groups, key, h) == Put(groups, key, Lookup(groups, key).GetOr(0) + h)
  {
    if groups != [] && groups[0].0 != key {
      AddHoursIsPut(groups[1..], key, h);
    }
  }

  /** One more entry adds its hours to the sum of the groups. */
  lemma {:induction false} SumAddHours(groups: seq<(string, int)>, key: string, h: int)
    ensures SumOf(AddHours(groups, key, h), Second<string>) == SumOf(groups, Second<string>) + h
  {
    if groups == [] {
      SumOfSingle((key, h), Second<string>);
    } else {
      assert groups == [groups[0]] + groups[1..];
      SumOfCons(groups[0], groups[1..], Second<string>);
      if groups[0].0 == key {
        SumOfCons((key, groups[0].1 + h), groups[1..], Second<string>);
      } else {
        SumAddHours(groups[1..], key, h);
        SumOfCons(groups[0], AddHours(groups[1..], key, h), Second<string>);
      }
    }
  }

  lemma LookupAddHours(groups: seq<(string, int)>, key: string, h: int, k: string)
    ensures Lookup(AddHours(groups, key, h), k)
            == if k == key then Some(Lookup(groups, key).GetOr(0) + h) else Lookup(groups, k)
  {
    AddHoursIsPut(groups, key, h);
    if k == key {
      LookupPut(groups, key, Lookup(groups, key).GetOr(0) + h);
    } else {
      LookupPutOther(groups, key, Lookup(groups, key).GetOr(0) + h, k);
    }
  }

  /** The grouping dictionary, in first-seen order of the keys. */
  function Grouped(es: seq<Tagged>, g: Grouping): seq<(string, int)> {
    if es == [] then []
    else
      var last := es[|es| - 1];
      AddHours(Grouped(es[..|es| - 1], g), GroupKey(g, last), TaggedHours(last))
  }

  /** Hours of the entries with the given key. */
  function KeyHours(es: seq<Tagged>, g: Grouping, key: string): int {
    if es == [] then 0
    else KeyHours(es[..|es| - 1], g, key)
         + (if GroupKey(g, es[|es| - 1]) == key then TaggedHours(es[|es| - 1]) else 0)
  }

  predicate HasKey(es: seq<Tagged>, g: Grouping, key: string) {
    exists i :: 0 <= i < |es| && GroupKey(g, es[i]) == key
  }

  lemma HasKeyStep(es: seq<Tagged>, g: Grouping, key: string)
    requires es != []
    ensures HasKey(es, g, key) <==> HasKey(es[..|es| - 1], g, key) || GroupKey(g, es[|es| - 1]) == key
  {
    var prefix := es[..|es| - 1];
    if HasKey(prefix, g, key) {
      var i :| 0 <= i < |prefix| && GroupKey(g, prefix[i]) == key;
      assert es[i] == prefix[i];
    }
    if HasKey(es, g, key) && GroupKey(g, es[|es| - 1]) != key {
      var i :| 0 <= i < |es| && GroupKey(g, es[i]) == key;
      assert prefix[i] == es[i];
    }
  }

  /** A key has a group exactly when some entry has that key, and the group
      holds the hours of all entries with that key. */
  lemma {:induction false} KeyHoursWithoutKey(es: seq<Tagged>, g: Grouping, key: string)
    requires !HasKey(es, g, key)
    ensures KeyHours(es, g, key) == 0
  {
    if es != [] {
      HasKeyStep(es, g, key);
      KeyHoursWithoutKey(es[..|es| - 1], g, key);
    }
  }

  lemma {:induction false} GroupedLookup(es: seq<Tagged>, g: Grouping, key: string)
    ensures Lookup(Grouped(es, g), key) == if HasKey(es, g, key) then Some(KeyHours(es, g, key)) else None
  {
    if es != [] {
      var prefix, last := es[..|es| - 1], es[|es| - 1];
      GroupedLookup(prefix, g, key);
      HasKeyStep(es, g, key);
      LookupAddHours(Grouped(prefix, g), GroupKey(g, last), TaggedHours(last), key);
      if GroupKey(g, last) == key && !HasKey(prefix, g, key) {
        KeyHoursWithoutKey(prefix, g, key);
      }
    }
  }

  /** Each key has one group. */
  lemma {:induction false} GroupedNoDup(es: seq<Tagged>, g: Grouping)
    ensures NoDup(Keys(Grouped(es, g)))
  {
    if es != [] {
      var prefix, last := es[..|es| - 1], es[|es| - 1];
      GroupedNoDup(prefix, g);
      var before := Grouped(prefix, g);
      AddHoursIsPut(before, GroupKey(g, last), TaggedHours(last));
      PutNoDup(before, GroupKey(g, last), Lookup(before, GroupKey(g, last)).GetOr(0) + TaggedHours(last));
    }
  }

  /** The groups' hours add up to the report's total hours. */
  lemma {:induction false} GroupedTotal(es: seq<Tagged>, g: Grouping)
    ensures SumOf(Grouped(es, g), Second<string>) == TotalHours(es)
  {
    if es != [] {
      var prefix, last := es[..|es| - 1], es[|es| - 1];
      GroupedTotal(prefix, g);
      SumAddHours(Grouped(prefix, g), GroupKey(g, last), TaggedHours(last));
    }
  }

  /** The ratio's per-project hours are the by-project group's hours, for
      every id other than the "Unknown" that missing ids are grouped under. */
  lemma {:induction false} ProjectHoursIsGroup(es: seq<Tagged>, pid: string)
    requires pid != "Unknown"
    ensures ProjectHours(es, pid) == KeyHours(es, ByProject, pid)
  {
    if es != [] {
      ProjectHoursIsGroup(es[..|es| - 1], pid);
    }
  }

  /** `sorted(..., key=hours, reverse=True)`: a may precede b when its hours
      are at least b's. */
  predicate HoursAtLeast(a: (string, int), b: (string, int)) {
    a.1 >= b.1
  }

  lemma HoursAtLeastIsTotalPreorder()
    ensures TotalPreorder(HoursAtLeast)
  {
  }

  /** The groups of a grouping, most hours first. */
  function SortedGroups(es: seq<Tagged>, g: Grouping): seq<(string, int)> {
    SortBy(Grouped(es, g), HoursAtLeast)
  }

  /** Sorting keeps every group and its hours: the sorted groups are the
      groups, one per key, with non-increasing hours, adding up to the total. */
  lemma SortedGroupsProperties(es: seq<Tagged>, g: Grouping)
    ensures multiset(SortedGroups(es, g)) == multiset(Grouped(es, g))
    ensures forall i, j :: 0 <= i < j < |SortedGroups(es, g)| ==> SortedGroups(es, g)[i].1 >= SortedGroups(es, g)[j].1
    ensures SumOf(SortedGroups(es, g), Second<string>) == TotalHours(es)
  {
    HoursAtLeastIsTotalPreorder();
    SortBySorted(Grouped(es, g), HoursAtLeast);
    SumOfSortBy(Grouped(es, g), HoursAtLeast, Second<string>);
    GroupedTotal(es, g);
  }

  /** Both groupings split the same total. */
  lemma GroupingsAgree(es: seq<Tagged>)
    ensures SumOf(SortedGroups(es, ByProject), Second<string>) == SumOf(SortedGroups(es, ByWorkType), Second<string>)
    ensures SumOf(SortedGroups(es, ByProject), Second<string>) == UpdateSummary(es, [], 0, 0).totalHours
  {
    SortedGroupsProperties(es, ByProject);
    SortedGroupsProperties(es, ByWorkType);
  }

  /** The grouping loop of `_update_by_project` and `_update_by_work_type`. */
  method GroupHours(es: seq<Tagged>, g: Grouping) returns (groups: seq<(string, int)>)
    ensures groups == Grouped(es, g)
  {
    groups := [];
    var i := 0;
    while i < |es|
      invariant 0 <= i <= |es|
      invariant groups == Grouped(es[..i], g)
    {
      assert es[..i + 1][..i] == es[..i];
      var key := GroupKey(g, es[i]);
      groups := AddHours(groups, key, TaggedHours(es[i]));
      i := i + 1;
    }
    assert es[..|es|] == es;
  }

  /** One row of the By Project table: the project's name when it is
      cached, else the id; the target when there is one; `over` when the
      ratio exceeds 1 (shown in red). */
  datatype ProjectRow = ProjectRow(name: string, hours: int, target: real, hasTarget: bool, over: bool)

  function MakeRow(cache: seq<(string, Project)>, group: (string, int)): (row: ProjectRow)
    ensures row.hours == group.1
    ensures Lookup(cache, group.0).Some? ==> row.name == Lookup(cache, group.0).value.name
    ensures Lookup(cache, group.0).Some? ==> row.target == Lookup(cache, group.0).value.targetHours
    ensures Lookup(cache, group.0).None? ==> row.name == group.0 && row.target == 0.0
    ensures row.hasTarget <==> HasTarget(cache, group.0)
    ensures row.over <==> row.hasTarget && group.1 as real > row.target
  {
    var found := Lookup(cache, group.0);
    var target := if found.Some? then found.value.targetHours else 0.0;
    ProjectRow(if found.Some? then found.value.name else group.0, group.1, target,
               target > 0.0, target > 0.0 && group.1 as real > target)
  }

  function Rows(cache: seq<(string, Project)>, groups: seq<(string, int)>): (rows: seq<ProjectRow>)
    ensures |rows| == |groups| && forall i :: 0 <= i < |groups| ==> rows[i] == MakeRow(cache, groups[i])
  {
    if groups == [] then [] else [MakeRow(cache, groups[0])] + Rows(cache, groups[1..])
  }

  /** The By Work Type panel: "No data for selected period", or one bar per
      work type, most hours first, with the total and the largest hours the
      percentages are taken against. */
  datatype WorkTypeView = NoData | Bars(bars: seq<(string, int)>, total: int, most: int)

  // ---------------------------------------------------------------------------
  // Calendar presets
  // ---------------------------------------------------------------------------

  /** The window `_on_period_changed` sets for a preset, as (from, to) day
      numbers; None for "Custom" (and any other text), which leaves the
      dates alone. */
  function PresetRange(period: string, today: Date): (r: Option<(int, int)>)
    requires ValidDate(today)
  {
    var t := Ordinal(today);
    if period == "Today" then Some((t, t))
    else if period == "Yesterday" then Some((t - 1, t - 1))
    else if period == "This Week" then Some((t - (DayOfWeek(t) - 1), t))
    else if period == "Last 7 Days" then Some((t - 6, t))
    else if period == "This Month" then Some((Ordinal(Date(today.year, today.month, 1)), t))
    else if period == "Last 30 Days" then Some((t - 29, t))
    else if period == "This Quarter" then Some((Ordinal(Date(today.year, QuarterStartMonth(today.month), 1)), t))
    else None
  }

  /** `((m - 1) // 3) * 3 + 1`. */
  function QuarterStartMonth(m: int): (q: int)
    requires 1 <= m <= 12
    ensures q in {1, 4, 7, 10} && q <= m < q + 3
  {
    ((m - 1) / 3) * 3 + 1
  }

  /** What each preset means as a window ending at or before today. */
  lemma PresetMeaning(period: string, today: Date)
    requires ValidDate(today)
    ensures var t := Ordinal(today);
      var r := PresetRange(period, today);
      (period == "Custom" ==> r.None?)
      && (period == "Today" ==> r == Some((t, t)))
      && (period == "Yesterday" ==> r == Some((t - 1, t - 1)))
      && (period == "Last 7 Days" ==> r == Some((t - 6, t)) && r.value.1 - r.value.0 + 1 == 7)
      && (period == "Last 30 Days" ==> r == Some((t - 29, t)) && r.value.1 - r.value.0 + 1 == 30)
      && (period == "This Week" ==> r.Some? && r.value.1 == t && DayOfWeek(r.value.0) == 1 && t - 6 <= r.value.0 <= t)
      && (period == "This Month" ==> r.Some? && r.value == (t - (today.day - 1), t))
      && (period == "This Quarter" ==>
            r.Some? && r.value.1 == t
            && r.value.0 == Ordinal(Date(today.year, QuarterStartMonth(today.month), 1))
            && r.value.0 <= t)
  {
    var t := Ordinal(today);
    if period == "This Week" {
      WeekStartIsMonday(t);
    } else if period == "This Month" {
      MonthStart(today);
    } else if period == "This Quarter" {
      var q := Date(today.year, QuarterStartMonth(today.month), 1);
      OrdinalOrder(q, today);
    }
  }

  lemma WeekStartIsMonday(t: int)
    ensures DayOfWeek(t - (DayOfWeek(t) - 1)) == 1
    ensures 0 <= DayOfWeek(t) - 1 <= 6
  {
    var k := (t - 1) % 7;
    assert t - 1 == (t - 1) / 7 * 7 + k;
    assert t - (DayOfWeek(t) - 1) - 1 == (t - 1) / 7 * 7;
  }

  /** Every preset window is non-empty and ends today or, for "Yesterday",
      the day before. */
  lemma PresetNonEmpty(period: string, today: Date)
    requires ValidDate(today) && PresetRange(period, today).Some?
    ensures PresetRange(period, today).value.0 <= PresetRange(period, today).value.1
    ensures PresetRange(period, today).value.1 == Ordinal(today) - (if period == "Yesterday" then 1 else 0)
  {
    PresetMeaning(period, today);
  }

  /** The period selector as the source wires it: moving a date edit fires
      `_on_custom_date`, which sets the selector to "Custom", also while a
      preset is being applied. */
  function ComboTextAfterPreset(period: string, before: (int, int), after: (int, int)): string {
    if period != "Custom" && after != before then "Custom" else period
  }

  /** On Wednesday 2024-01-03, choosing "This Week" after "Last 7 Days"
      moves the start date, and the selector then reads "Custom". */
  lemma PresetShowsCustom()
    ensures var today := Date(2024, 1, 3);
      ValidDate(today)
      && PresetRange("Last 7 Days", today).Some? && PresetRange("This Week", today).Some?
      && ComboTextAfterPreset("This Week", PresetRange("Last 7 Days", today).value,
                              PresetRange("This Week", today).value) == "Custom"
  {
    var today := Date(2024, 1, 3);
    var t := Ordinal(today);
    assert t == 738888;
    assert DayOfWeek(t) == 3;
  }

  // ---------------------------------------------------------------------------
  // The screen
  // ---------------------------------------------------------------------------

  class ReportsScreen {
    var period: string
    var fromDay: int
    var toDay: int
    var userFilter: UserFilter
    var entries: seq<Tagged>
    var projectsCache: seq<(string, Project)>

    /** The selectors start on "Last 7 Days", from a week before today to
        today, over all users, with nothing loaded. */
    constructor (today: Date)
      requires ValidDate(today)
      ensures period == "Last 7 Days" && fromDay == Ordinal(today) - 7 && toDay == Ordinal(today)
      ensures userFilter == AllUsers && entries == [] && projectsCache == []
    {
      period := "Last 7 Days";
      fromDay := Ordinal(today) - 7;
      toDay := Ordinal(today);
      userFilter := AllUsers;
      entries := [];
      projectsCache := [];
    }

    /** `_on_period_changed`: a preset sets both dates; "Custom" keeps them.
        The selector keeps showing the chosen period. `reload` says whether
        the data is loaded again (every period but "Custom"). */
    method OnPeriodChanged(p: string, today: Date) returns (reload: bool)
      requires ValidDate(today)
      modifies this`period, this`fromDay, this`toDay
      ensures period == p && reload == (p != "Custom")
      ensures PresetRange(p, today).Some? ==> (fromDay, toDay) == PresetRange(p, today).value
      ensures PresetRange(p, today).None? ==> fromDay == old(fromDay) && toDay == old(toDay)
    {
      period := p;
      var range := PresetRange(p, today);
      if range.Some? {
        fromDay, toDay := range.value.0, range.value.1;
      }
      reload := p != "Custom";
    }

    /** `_on_custom_date`: the user moved a date edit. */
    method OnCustomDate(newFrom: int, newTo: int)
      modifies this`period, this`fromDay, this`toDay
      ensures period == "Custom" && fromDay == newFrom && toDay == newTo
    {
      fromDay, toDay := newFrom, newTo;
      period := "Custom";
    }

    /** `_on_filter_changed`: a new user filter, after which the data is
        loaded again with it (`LoadData`'s inputs are the parameters). */
    method OnFilterChanged(f: UserFilter, folder: Option<Folder>, me: string, allProjects: seq<Project>)
      modifies this`userFilter, this`entries, this`projectsCache
      ensures userFilter == f && fromDay == old(fromDay) && toDay == old(toDay)
      ensures folder.None? ==> entries == old(entries) && projectsCache == old(projectsCache)
      ensures folder.Some? ==>
        entries == Selected(folder.value.timeFiles, fromDay, toDay, f, me)
        && projectsCache == IndexById(allProjects)
    {
      userFilter := f;
      LoadData(folder, me, allProjects);
    }

    /** `_load_data`: without a folder nothing changes; otherwise the
        entries of the passing files in listing order, and the projects by id. */
    method LoadData(folder: Option<Folder>, me: string, allProjects: seq<Project>)
      modifies this`entries, this`projectsCache
      ensures folder.None? ==> entries == old(entries) && projectsCache == old(projectsCache)
      ensures folder.Some? ==>
        entries == Selected(folder.value.timeFiles, fromDay, toDay, userFilter, me)
        && projectsCache == IndexById(allProjects)
    {
      if folder.None? {
        return;
      }
      var files := folder.value.timeFiles;
      var from, to, filter := fromDay, toDay, userFilter;
      var loaded: seq<Tagged> := [];
      var i := 0;
      while i < |files|
        invariant 0 <= i <= |files|
        invariant loaded == Selected(files[..i], from, to, filter, me)
      {
        SelectedStep(files, i, from, to, filter, me);
        var parsed := ParseStem(files[i].0);
        if parsed.Some? {
          var day := Ordinal(parsed.value.2);
          if from <= day <= to && !(filter == MyTime && parsed.value.0 != me) {
            if files[i].1.TimeJson? {
              loaded := loaded + Tag(files[i].1.entries, parsed.value.0, parsed.value.1);
            }
          }
        }
        i := i + 1;
      }
      assert files[..|files|] == files;
      entries := loaded;
      projectsCache := IndexById(allProjects);
    }

    /** `_update_by_project`: one row per project id, most hours first;
        the rows' hours add up to the total. */
    method UpdateByProject() returns (rows: seq<ProjectRow>)
      ensures |rows| == |Grouped(entries, ByProject)|
      ensures forall i :: 0 <= i < |rows| ==>
        rows[i] == MakeRow(projectsCache, SortedGroups(entries, ByProject)[i])
      ensures forall i, j :: 0 <= i < j < |rows| ==> rows[i].hours >= rows[j].hours
      ensures forall i :: 0 <= i < |rows| ==> (SortedGroups(entries, ByProject)[i].0, rows[i].hours) in Grouped(entries, ByProject)
    {
      var groups := GroupHours(entries, ByProject);
      var sorted := SortBy(groups, HoursAtLeast);
      SortedGroupsProperties(entries, ByProject);
      forall i | 0 <= i < |sorted| ensures sorted[i] in groups {
        assert sorted[i] in multiset(sorted);
      }
      rows := Rows(projectsCache, sorted);
    }

    /** `_update_by_work_type`: "No data" exactly when no entry was loaded;
        otherwise the work types, most hours first, whose hours add up to the
        total, with the largest first. */
    method UpdateByWorkType() returns (view: WorkTypeView)
      ensures view.NoData? <==> entries == []
      ensures view.Bars? ==>
        view.bars == SortedGroups(entries, ByWorkType)
        && view.total == TotalHours(entries)
        && |view.bars| > 0 && view.most == view.bars[0].1
        && forall i :: 0 <= i < |view.bars| ==> view.bars[i].1 <= view.most
    {
      var es := entries;
      var groups := GroupHours(es, ByWorkType);
      if |groups| == 0 {
        return NoData;
      }
      var sorted := SortBy(groups, HoursAtLeast);
      SortedGroupsProperties(es, ByWorkType);
      GroupedTotal(es, ByWorkType);
      view := Bars(sorted, SumOf(groups, Second<string>), sorted[0].1);
    }
  }
}
