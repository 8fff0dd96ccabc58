/** The home screen: the quick-entry form that logs hours, and the project
    list split into a starred section and the rest, one card per project. */
module Home {
  import opened Common
  import opened Dates
  import opened Models
  import opened DataService
  import ProjectDetail

  // ---------------------------------------------------------------------------
  // Starred and other projects
  // ---------------------------------------------------------------------------

  /** `starred_projects`: the projects whose id is starred, in list order. */
  function StarredSection(ps: seq<Project>, ids: set<string>): seq<Project> {
    Filter(ps, (p: Project) => p.id in ids)
  }

  /** `other_projects`: the remaining projects, in list order. */
  function OtherSection(ps: seq<Project>, ids: set<string>): seq<Project> {
    Filter(ps, (p: Project) => p.id !in ids)
  }

  /** The two sections split the list: each project is in exactly the one
      its id says, together they hold every project as often as the list
      does, and each keeps the list's order. */
  lemma PartitionProperties(ps: seq<Project>, ids: set<string>)
    ensures forall p :: p in StarredSection(ps, ids) <==> p in ps && p.id in ids
    ensures forall p :: p in OtherSection(ps, ids) <==> p in ps && p.id !in ids
    ensures multiset(StarredSection(ps, ids)) + multiset(OtherSection(ps, ids)) == multiset(ps)
    ensures SubsequenceOf(StarredSection(ps, ids), ps) && SubsequenceOf(OtherSection(ps, ids), ps)
  {
    var isStarred := (p: Project) => p.id in ids;
    var isOther := (p: Project) => p.id !in ids;
    forall p ensures p in StarredSection(ps, ids) <==> p in ps && p.id in ids {
      FilterMembership(ps, isStarred, p);
    }
    forall p ensures p in OtherSection(ps, ids) <==> p in ps && p.id !in ids {
      FilterMembership(ps, isOther, p);
    }
    FilterSplit(ps, isStarred, isOther);
    FilterIsSubsequence(ps, isStarred);
    FilterIsSubsequence(ps, isOther);
  }

  // ---------------------------------------------------------------------------
  // Card breadcrumb
  // ---------------------------------------------------------------------------

  /** The values of a dictionary's items, in order. */
  function FieldValues(fields: seq<(string, string)>): seq<string> {
    seq(|fields|, i requires 0 <= i < |fields| => fields[i].1)
  }

  /** `list(custom_fields.keys())[:3]`, with their values. */
  function Leading(fields: seq<(string, string)>): seq<(string, string)> {
    if |fields| <= 3 then fields else fields[..3]
  }

  /** The card's crumbs: the non-empty values among the first three custom
      fields, else the non-empty campus, offer and sub-offer. */
  function CardCrumbs(p: Project): seq<string> {
    var fromFields := ProjectDetail.NonEmpty(FieldValues(Leading(p.customFields)));
    if fromFields != [] then fromFields else ProjectDetail.NonEmpty([p.campus, p.offer, p.subOffer])
  }

  /** The card's breadcrumb line. */
  function CardBreadcrumb(p: Project): string {
    var crumbs := CardCrumbs(p);
    if crumbs == [] then "No category" else Join(crumbs, ProjectDetail.Chevron)
  }

  lemma {:induction false} NonEmptyLength(values: seq<string>)
    ensures |ProjectDetail.NonEmpty(values)| <= |values|
  {
    if values != [] {
      NonEmptyLength(values[1..]);
    }
  }

  lemma {:induction false} NonEmptyAppend(values: seq<string>, v: string)
    ensures ProjectDetail.NonEmpty(values + [v]) == ProjectDetail.NonEmpty(values) + (if v != "" then [v] else [])
  {
    if values == [] {
      assert ProjectDetail.NonEmpty([v][1..]) == [];
    } else {
      assert (values + [v])[1..] == values[1..] + [v];
      NonEmptyAppend(values[1..], v);
    }
  }

  /** Nothing survives exactly when every value is empty. */
  lemma NonEmptyNone(values: seq<string>)
    ensures ProjectDetail.NonEmpty(values) == [] <==> forall i :: 0 <= i < |values| ==> values[i] == ""
  {
    var r := ProjectDetail.NonEmpty(values);
    if r != [] {
      assert r[0] in r;
    }
    if exists i :: 0 <= i < |values| && values[i] != "" {
      var i :| 0 <= i < |values| && values[i] != "";
      assert values[i] in values;
    }
  }

  /** No leading custom field has a value. */
  predicate NoFieldCrumbs(p: Project) {
    forall i :: 0 <= i < |p.customFields| && i < 3 ==> p.customFields[i].1 == ""
  }

  /** At most three crumbs, none empty; the custom fields win over the
      campus, offer and sub-offer whenever one of the first three has a
      value; and there are no crumbs exactly when every source is empty. */
  lemma CardCrumbsProperties(p: Project)
    ensures |CardCrumbs(p)| <= 3
    ensures forall c :: c in CardCrumbs(p) ==> c != ""
    ensures !NoFieldCrumbs(p) ==> CardCrumbs(p) == ProjectDetail.NonEmpty(FieldValues(Leading(p.customFields)))
    ensures NoFieldCrumbs(p) ==> CardCrumbs(p) == ProjectDetail.NonEmpty([p.campus, p.offer, p.subOffer])
    ensures CardCrumbs(p) == [] <==> NoFieldCrumbs(p) && p.campus == "" && p.offer == "" && p.subOffer == ""
  {
    var lead := FieldValues(Leading(p.customFields));
    NonEmptyLength(lead);
    NonEmptyLength([p.campus, p.offer, p.subOffer]);
    NonEmptyNone(lead);
    NonEmptyNone([p.campus, p.offer, p.subOffer]);
    assert |lead| == if |p.customFields| <= 3 then |p.customFields| else 3;
    assert forall i :: 0 <= i < |lead| ==> lead[i] == p.customFields[i].1;
    assert NoFieldCrumbs(p) <==> forall i :: 0 <= i < |lead| ==> lead[i] == "";
    var legacy := [p.campus, p.offer, p.subOffer];
    assert legacy[0] == p.campus && legacy[1] == p.offer && legacy[2] == p.subOffer;
  }

  /** Without custom-field crumbs, course type or effort type, the card
      shows the same breadcrumb as the project screen's info bar (with its
      separators as intended). */
  lemma CardMatchesInfoBar(p: Project)
    requires NoFieldCrumbs(p) && p.courseType == "" && p.effortType == ""
    requires p.campus != "" || p.offer != "" || p.subOffer != ""
    ensures CardBreadcrumb(p) == ProjectDetail.InfoBreadcrumb(p)
  {
    CardCrumbsProperties(p);
    NonEmptyNone([p.courseType, p.effortType]);
  }

  /** For the same project, the card and the info bar as written disagree. */
  lemma CardDiffersFromInfoBarAsWritten()
    ensures CardBreadcrumb(ProjectDetail.MainOnline()) != ProjectDetail.InfoBreadcrumbAsWritten(ProjectDetail.MainOnline())
  {
    CardMatchesInfoBar(ProjectDetail.MainOnline());
    ProjectDetail.InfoBreadcrumbShowsGarbage();
  }

  /** The breadcrumb loop of `ProjectCard.__init__`: collects the leading
      custom-field values, else the campus, offer and sub-offer. */
  method BuildBreadcrumb(p: Project) returns (text: string)
    ensures text == CardBreadcrumb(p)
  {
    var crumbs: seq<string> := [];
    var fields := p.customFields;
    var n := if |fields| <= 3 then |fields| else 3;
    assert Leading(fields) == fields[..n];
    var i := 0;
    while i < n
      invariant 0 <= i <= n
      invariant crumbs == ProjectDetail.NonEmpty(FieldValues(fields[..i]))
    {
      var v := fields[i].1;
      assert FieldValues(fields[..i + 1]) == FieldValues(fields[..i]) + [v];
      NonEmptyAppend(FieldValues(fields[..i]), v);
      if v != "" {
        crumbs := crumbs + [v];
      }
      i := i + 1;
    }
    if crumbs == [] {
      crumbs := LegacyCrumbs(p);
    }
    text := if crumbs == [] then "No category" else Join(crumbs, ProjectDetail.Chevron);
  }

  /** The fallback of the breadcrumb loop: campus, offer and sub-offer,
      each when set. */
  method LegacyCrumbs(p: Project) returns (crumbs: seq<string>)
    ensures crumbs == ProjectDetail.NonEmpty([p.campus, p.offer, p.subOffer])
  {
    var c, o, u := p.campus, p.offer, p.subOffer;
    NonEmptyAppend([], c);
    NonEmptyAppend([c], o);
    NonEmptyAppend([c, o], u);
    assert [] + [c] == [c] && [c] + [o] == [c, o] && [c, o] + [u] == [c, o, u];
    crumbs := [];
    if c != "" {
      crumbs := crumbs + [c];
    }
    if o != "" {
      crumbs := crumbs + [o];
    }
    if u != "" {
      crumbs := crumbs + [u];
    }
  }

  /** A project card: its project id and its star, which clicking toggles. */
  class ProjectCard {
    const projectId: string
    const breadcrumb: string
    const hoursLogged: int
    var isStarred: bool

    constructor (p: Project, hoursLogged: int, isStarred: bool)
      ensures projectId == p.id && this.hoursLogged == hoursLogged && this.isStarred == isStarred
      ensures breadcrumb == CardBreadcrumb(p)
    {
      var text := BuildBreadcrumb(p);
      projectId := p.id;
      this.hoursLogged := hoursLogged;
      this.isStarred := isStarred;
      breadcrumb := text;
    }

    /** `_on_star_clicked`: the star flips and the new state is emitted
        with the project id. */
    method OnStarClicked() returns (emitted: (string, bool))
      modifies this`isStarred
      ensures isStarred == !old(isStarred)
      ensures emitted == (projectId, isStarred)
    {
      isStarred := !isStarred;
      emitted := (projectId, isStarred);
    }
  }

  // ---------------------------------------------------------------------------
  // The screen
  // ---------------------------------------------------------------------------

  /** QSpinBox clamps a value set on it into its range. */
  function Clamp(v: int, lo: int, hi: int): (r: int)
    requires lo <= hi
    ensures lo <= r <= hi
    ensures lo <= v <= hi ==> r == v
  {
    if v < lo then lo else if v > hi then hi else v
  }

  /** The position of the first project item with that id, as `findData`. */
  function FindProjectItem(items: seq<(string, string)>, id: string): Option<nat> {
    FindFirst(items, (item: (string, string)) => item.1 == id)
  }

  function FindText(items: seq<string>, text: string): Option<nat> {
    FindFirst(items, (item: string) => item == text)
  }

  /** `(name, id)` for each project, as `addItem(project.name, project.id)`. */
  function ProjectItems(ps: seq<Project>): (r: seq<(string, string)>)
    ensures |r| == |ps| && forall i :: 0 <= i < |ps| ==> r[i] == (ps[i].name, ps[i].id)
  {
    seq(|ps|, i requires 0 <= i < |ps| => (ps[i].name, ps[i].id))
  }

  /** The home screen. The combos are their items and current index (-1 for
      none: both show a placeholder, so adding items never selects one);
      `hours` is the spin box, `date` the date edit; the sections are the
      projects whose cards were last built. */
  class HomeScreen {
    var hours: int
    var projectItems: seq<(string, string)>
    var projectIndex: int
    var workTypes: seq<string>
    var workTypeIndex: int
    var date: Date
    var starredSection: seq<Project>
    var otherSection: seq<Project>

    /** The spin box holds 1 to 8 and each index is -1 or in range. */
    ghost predicate Valid()
      reads this
    {
      1 <= hours <= 8 && -1 <= projectIndex < |projectItems| && -1 <= workTypeIndex < |workTypes|
    }

    /** The quick-entry form as built: 1 hour, no project, no work type,
        today's date. */
    constructor (today: Date)
      ensures Valid()
      ensures hours == 1 && projectItems == [] && projectIndex == -1 && workTypes == [] && workTypeIndex == -1
      ensures date == today && starredSection == [] && otherSection == []
    {
      hours := 1;
      projectItems := [];
      projectIndex := -1;
      workTypes := [];
      workTypeIndex := -1;
      date := today;
      starredSection := [];
      otherSection := [];
    }

    /** `currentData()` of the project combo. */
    function CurrentProjectId(): Option<string>
      reads this
    {
      if 0 <= projectIndex < |projectItems| then Some(projectItems[projectIndex].1) else None
    }

    /** `currentText()` of the work-type combo. */
    function CurrentWorkType(): string
      reads this
    {
      if 0 <= workTypeIndex < |workTypes| then workTypes[workTypeIndex] else ""
    }

    /** The checks of `_on_log_time`: a project, a work type, at least an hour. */
    predicate Loggable()
      reads this
    {
      Truthy(CurrentProjectId()) && CurrentWorkType() != "" && hours >= 1
    }

    /** The entry `create_simple` makes from the form: the chosen date in
        ISO form, no notes. */
    function FormEntry(today: Date, entryId: string, nowIso: string): (e: TimeEntry)
      reads this
      requires Loggable() && ValidDate(date) && ValidDate(today)
      ensures e == TimeEntry(entryId, CurrentProjectId().value, CurrentWorkType(), hours, IsoFormat(date), "", nowIso)
    {
      CreateSimple(CurrentProjectId().value, CurrentWorkType(), hours, "", Some(IsoFormat(date)), today, entryId, nowIso)
    }

    /** The user sets the spin box; it keeps the value within 1..8. */
    method SetHours(v: int)
      requires Valid()
      modifies this`hours
      ensures Valid()
      ensures hours == Clamp(v, 1, 8)
    {
      hours := Clamp(v, 1, 8);
    }

    /** `_on_log_time`: with a project, a work type and at least an hour,
        the entry `create_simple` makes for the chosen date is saved and the
        form reset to 1 hour, no project, no work type and today's date; an
        error from saving propagates and leaves the form. Otherwise nothing
        happens. The refresh that follows is `Refresh`. */
    method OnLogTime(ds: DataService, today: Date, entryId: string, nowIso: string)
      returns (entry: Option<TimeEntry>, r: Result<bool>)
      requires Valid() && ds.Valid() && ValidDate(today) && ValidDate(date)
      modifies this`hours, this`projectIndex, this`workTypeIndex, this`date, ds`folder, ds`todayEntries
      ensures Valid()
      ensures !old(Loggable()) ==> entry.None? && r == Ok(false) && unchanged(this) && unchanged(ds)
      ensures old(Loggable()) ==> entry == Some(old(FormEntry(today, entryId, nowIso)))
      ensures old(Loggable()) && r.Ok? ==>
        hours == 1 && projectIndex == -1 && workTypeIndex == -1 && date == today
      ensures old(Loggable()) && r.Err? ==>
        hours == old(hours) && projectIndex == old(projectIndex) && workTypeIndex == old(workTypeIndex)
        && date == old(date)
    {
      if !Loggable() {
        return None, Ok(false);
      }
      var e := FormEntry(today, entryId, nowIso);
      entry := Some(e);
      r := SaveAndReset(ds, e, today);
    }

    /** The tail of `_on_log_time`: the entry is saved and, unless saving
        raised, the form goes back to 1 hour, no project, no work type and
        today's date. */
    method SaveAndReset(ds: DataService, e: TimeEntry, today: Date) returns (r: Result<bool>)
      requires Valid() && ds.Valid() && ValidDate(today)
      modifies this`hours, this`projectIndex, this`workTypeIndex, this`date, ds`folder, ds`todayEntries
      ensures Valid()
      ensures r.Ok? ==> hours == 1 && projectIndex == -1 && workTypeIndex == -1 && date == today
      ensures r.Err? ==>
        hours == old(hours) && projectIndex == old(projectIndex) && workTypeIndex == old(workTypeIndex)
        && date == old(date)
    {
      r := ds.SaveTimeEntry(e, today);
      if r.Ok? {
        hours := 1;
        projectIndex := -1;
        workTypeIndex := -1;
        date := today;
      }
    }

    /** `_refresh_dropdowns`: the combos are refilled from the projects and
        the team's work types; each previous selection comes back only if
        its project id or work type is still listed, at its first
        position, and otherwise nothing is selected. */
    method RefreshDropdowns(projects: seq<Project>, teamData: Option<TeamData>)
      requires Valid()
      modifies this`projectItems, this`projectIndex, this`workTypes, this`workTypeIndex
      ensures Valid()
      ensures projectItems == ProjectItems(projects)
      ensures workTypes == (if teamData.Some? then teamData.value.workTypes else [])
      ensures -1 <= projectIndex < |projectItems| && -1 <= workTypeIndex < |workTypes|
      ensures projectIndex >= 0 ==> Truthy(old(CurrentProjectId())) && CurrentProjectId() == old(CurrentProjectId())
      ensures Truthy(old(CurrentProjectId())) && FindProjectItem(projectItems, old(CurrentProjectId()).value).Some? ==>
        projectIndex == FindProjectItem(projectItems, old(CurrentProjectId()).value).value
      ensures workTypeIndex >= 0 ==> old(CurrentWorkType()) != "" && CurrentWorkType() == old(CurrentWorkType())
      ensures old(CurrentWorkType()) != "" && FindText(workTypes, old(CurrentWorkType())).Some? ==>
        workTypeIndex == FindText(workTypes, old(CurrentWorkType())).value
    {
      var current := CurrentProjectId();
      var currentType := CurrentWorkType();
      projectItems := ProjectItems(projects);
      projectIndex := -1;
      if Truthy(current) {
        var idx := FindProjectItem(projectItems, current.value);
        if idx.Some? {
          projectIndex := idx.value;
        }
      }
      workTypes := if teamData.Some? then teamData.value.workTypes else [];
      workTypeIndex := -1;
      if currentType != "" {
        var idx := FindText(workTypes, currentType);
        if idx.Some? {
          workTypeIndex := idx.value;
        }
      }
    }

    /** `_refresh_project_list`: the cards are rebuilt, starred projects
        first. */
    method RefreshProjectList(projects: seq<Project>, starred: set<string>)
      requires Valid()
      modifies this`starredSection, this`otherSection
      ensures Valid()
      ensures starredSection == StarredSection(projects, starred)
      ensures otherSection == OtherSection(projects, starred)
    {
      starredSection := StarredSection(projects, starred);
      otherSection := OtherSection(projects, starred);
    }

    /** `refresh`: nothing without a data folder; otherwise the dropdowns
        and the project list from `get_all_projects` (most recent first)
        and the starred ids. */
    method Refresh(ds: DataService)
      requires Valid() && ds.Valid()
      modifies this`projectItems, this`projectIndex, this`workTypes, this`workTypeIndex
      modifies this`starredSection, this`otherSection
      ensures Valid()
      ensures old(ds.folder).None? ==> unchanged(this)
      ensures ds.folder.Some? ==>
        starredSection == StarredSection(ds.RecentFirst(), ds.GetStarredProjects())
        && otherSection == OtherSection(ds.RecentFirst(), ds.GetStarredProjects())
      ensures ds.folder.Some? ==>
        multiset(starredSection) + multiset(otherSection) == multiset(Values(ds.projects))
        && (forall p :: p in starredSection ==> p.id in ds.GetStarredProjects())
        && (forall p :: p in otherSection ==> p.id !in ds.GetStarredProjects())
        && |projectItems| == |Values(ds.projects)|
    {
      if ds.folder.None? {
        return;
      }
      var all := ds.GetAllProjects();
      RefreshDropdowns(all, ds.teamData);
      RefreshProjectList(all, ds.GetStarredProjects());
      SectionsCover(all, ds.GetStarredProjects(), Values(ds.projects));
    }

    /** `_on_star_toggled`: the star is recorded for the current user (only
        that user's starred file changes) and the list is rebuilt from the
        cached projects, most recent first, so the project's card moves to
        the section the star now says. */
    method OnStarToggled(ds: DataService, pid: string, isStarred: bool)
      requires Valid() && ds.Valid()
      modifies ds`folder, this`starredSection, this`otherSection
      ensures Valid()
      ensures starredSection == StarredSection(ds.RecentFirst(), ds.GetStarredProjects())
      ensures otherSection == OtherSection(ds.RecentFirst(), ds.GetStarredProjects())
      ensures old(ds.folder).None? || ds.CurrentUserId() == "" ==> unchanged(ds)
      ensures old(ds.folder).Some? && ds.CurrentUserId() != "" ==>
        (pid in ds.GetStarredProjects() <==> isStarred)
        && (forall p :: p in Values(ds.projects) && p.id == pid ==>
             (p in starredSection <==> isStarred) && (p in otherSection <==> !isStarred))
        && ds.folder.Some? && ds.folder.value.timeFiles == old(ds.folder).value.timeFiles
        && ds.folder.value.projectFiles == old(ds.folder).value.projectFiles
        && ds.folder.value.teamFile == old(ds.folder).value.teamFile
        && forall u :: u != ds.CurrentUserId() ==>
             Lookup(ds.folder.value.starredFiles, u) == Lookup(old(ds.folder).value.starredFiles, u)
    {
      ds.SetProjectStarred(pid, isStarred);
      var all := ds.GetAllProjects();
      RefreshProjectList(all, ds.GetStarredProjects());
      CardPlacement(all, ds.GetStarredProjects(), Values(ds.projects), pid);
    }
  }

  /** The sections of a reordering of the projects cover the projects. */
  lemma SectionsCover(all: seq<Project>, ids: set<string>, projects: seq<Project>)
    requires multiset(all) == multiset(projects)
    ensures multiset(StarredSection(all, ids)) + multiset(OtherSection(all, ids)) == multiset(projects)
    ensures forall p :: p in StarredSection(all, ids) ==> p.id in ids
    ensures forall p :: p in OtherSection(all, ids) ==> p.id !in ids
    ensures |all| == |projects|
  {
    PartitionProperties(all, ids);
    assert |multiset(all)| == |multiset(projects)|;
  }

  /** A project of the list lands in the section its id's star says. */
  lemma CardPlacement(all: seq<Project>, ids: set<string>, projects: seq<Project>, pid: string)
    requires multiset(all) == multiset(projects)
    ensures forall p :: p in projects && p.id == pid ==>
      (p in StarredSection(all, ids) <==> pid in ids) && (p in OtherSection(all, ids) <==> pid !in ids)
  {
    PartitionProperties(all, ids);
    forall p | p in projects ensures p in all {
      assert p in multiset(projects);
    }
  }

  /** The form can always pass the hours check: the spin box never holds
      less than 1. */
  lemma HoursAlwaysSuffice(h: HomeScreen)
    requires h.Valid()
    ensures h.Loggable() <==> Truthy(h.CurrentProjectId()) && h.CurrentWorkType() != ""
  {
  }
}
