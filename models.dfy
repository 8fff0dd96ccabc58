/** The records of the time tracker: employees, projects with their custom
    fields and training modules, time entries as they appear in the daily
    time files, and the shared team configuration. */
module Models {
  import opened Common
  import opened Dates

  datatype Employee = Employee(id: string, name: string, role: string)

  /** One element of a project's `tms` list: a JSON object whose keys may be
      missing, or some other JSON value. */
  datatype Tm = TmObject(number: Option<int>, name: Option<string>, status: Option<string>) | TmOther

  /** A project record; `customFields` and `teamAssignments` are dictionaries
      in insertion order. The legacy fields after `modifiedBy` are kept for
      projects written by older versions. */
  datatype Project = Project(
    id: string, name: string, projectId: string, status: string, targetHours: real,
    teamAssignments: seq<(string, string)>, customFields: seq<(string, string)>,
    tms: seq<Tm>, tags: seq<string>, notes: string,
    createdAt: string, createdBy: string, modifiedAt: string, modifiedBy: string,
    campus: string, offer: string, subOffer: string, courseId: string,
    effortType: string, courseType: string, courseDurationMinutes: int,
    lpo: string, sme: string, lxo: string)

  /** `Project(id=id, name=name)`: every other field at its declared default. */
  function NewProject(id: string, name: string): (p: Project)
    ensures p.id == id && p.name == name && p.projectId == "" && p.status == "Not Started"
    ensures p.targetHours == 0.0 && p.customFields == [] && p.tms == [] && p.courseId == ""
  {
    Project(id, name, "", "Not Started", 0.0, [], [], [], [], "", "", "", "", "",
            "", "", "", "", "", "", 0, "", "", "")
  }

  // ---------------------------------------------------------------------------
  // Project helpers
  // ---------------------------------------------------------------------------

  /** The name of the project's file: the external project id, else the
      legacy course id, else the internal id. */
  function GetFileId(p: Project): (r: string)
    ensures p.projectId != "" ==> r == p.projectId
    ensures p.projectId == "" && p.courseId != "" ==> r == p.courseId
    ensures p.projectId == "" && p.courseId == "" ==> r == p.id
    ensures r == "" <==> p.projectId == "" && p.courseId == "" && p.id == ""
  {
    if p.projectId != "" then p.projectId
    else if p.courseId != "" then p.courseId
    else p.id
  }

  /** `getattr(project, key)` for the attributes of a project that hold a
      string, named as in the record's JSON form. */
  function StringAttribute(p: Project, key: string): Option<string> {
    if key == "id" then Some(p.id)
    else if key == "name" then Some(p.name)
    else if key == "project_id" then Some(p.projectId)
    else if key == "status" then Some(p.status)
    else if key == "notes" then Some(p.notes)
    else if key == "created_at" then Some(p.createdAt)
    else if key == "created_by" then Some(p.createdBy)
    else if key == "modified_at" then Some(p.modifiedAt)
    else if key == "modified_by" then Some(p.modifiedBy)
    else if key == "campus" then Some(p.campus)
    else if key == "offer" then Some(p.offer)
    else if key == "sub_offer" then Some(p.subOffer)
    else if key == "course_id" then Some(p.courseId)
    else if key == "effort_type" then Some(p.effortType)
    else if key == "course_type" then Some(p.courseType)
    else if key == "lpo" then Some(p.lpo)
    else if key == "sme" then Some(p.sme)
    else if key == "lxo" then Some(p.lxo)
    else None
  }

  /** A custom field's value: the custom-field dictionary wins, even over a
      legacy attribute of the same name; then the legacy attribute; then the
      default. */
  function GetCustomField(p: Project, key: string, default: string): (r: string)
    ensures Lookup(p.customFields, key).Some? ==> r == Lookup(p.customFields, key).value
    ensures Lookup(p.customFields, key).None? && StringAttribute(p, key).Some? ==> r == StringAttribute(p, key).value
    ensures Lookup(p.customFields, key).None? && StringAttribute(p, key).None? ==> r == default
  {
    match Lookup(p.customFields, key)
    case Some(v) => v
    case None => StringAttribute(p, key).GetOr(default)
  }

  /** `project.custom_fields[key] = value`. */
  function SetCustomField(p: Project, key: string, value: string): (q: Project)
    ensures q == p.(customFields := q.customFields)
    ensures key in Keys(p.customFields) ==> Keys(q.customFields) == Keys(p.customFields)
    ensures key !in Keys(p.customFields) ==> Keys(q.customFields) == Keys(p.customFields) + [key]
  {
    p.(customFields := Put(p.customFields, key, value))
  }

  /** After setting a field, reading it gives the value set, whatever the
      legacy attributes hold. */
  lemma GetAfterSetCustomField(p: Project, key: string, value: string, default: string)
    ensures GetCustomField(SetCustomField(p, key, value), key, default) == value
  {
    LookupPut(p.customFields, key, value);
  }

  /** Setting one field leaves every other field's value as it was. */
  lemma SetCustomFieldOther(p: Project, key: string, value: string, other: string, default: string)
    requires other != key
    ensures GetCustomField(SetCustomField(p, key, value), other, default) == GetCustomField(p, other, default)
  {
    LookupPutOther(p.customFields, key, value, other);
  }

  // ---------------------------------------------------------------------------
  // Generated project ids: PRJ-<YYYYMMDDHHMMSS>-<4 upper-case hex digits>
  // ---------------------------------------------------------------------------

  predicate IsUpperHex(c: char) {
    '0' <= c <= '9' || 'A' <= c <= 'F'
  }

  function HexChar(n: int): (c: char)
    requires 0 <= n < 16
    ensures IsUpperHex(c)
  {
    "0123456789ABCDEF"[n]
  }

  /** Four hex digits, most significant first, upper case. */
  function Hex4(n: int): (s: string)
    requires 0 <= n < 65536
    ensures |s| == 4 && forall i :: 0 <= i < 4 ==> IsUpperHex(s[i])
  {
    [HexChar(n / 4096), HexChar(n / 256 % 16), HexChar(n / 16 % 16), HexChar(n % 16)]
  }

  /** `generate_id()` at instant `now`, where `random` stands for the first
      sixteen bits of the fresh uuid4. */
  function GenerateId(now: DateTime, random: int): string
    requires ValidDateTime(now) && 0 <= random < 65536
  {
    "PRJ-" + Decimal(now.date.year) + Pad2(now.date.month) + Pad2(now.date.day)
      + Pad2(now.hour) + Pad2(now.minute) + Pad2(now.second) + "-" + Hex4(random)
  }

  lemma HexCharInjective(a: int, b: int)
    requires 0 <= a < 16 && 0 <= b < 16 && HexChar(a) == HexChar(b)
    ensures a == b
  {
  }

  lemma HexDigitsRebuild(n: int)
    requires 0 <= n < 65536
    ensures n == (n / 4096) * 4096 + (n / 256 % 16) * 256 + (n / 16 % 16) * 16 + n % 16
  {
    assert n == (n / 16) * 16 + n % 16;
    assert n / 16 == (n / 256) * 16 + n / 16 % 16;
    assert n / 256 == (n / 4096) * 16 + n / 256 % 16;
  }

  lemma Hex4Injective(a: int, b: int)
    requires 0 <= a < 65536 && 0 <= b < 65536 && Hex4(a) == Hex4(b)
    ensures a == b
  {
    var x, y := Hex4(a), Hex4(b);
    assert x[0] == y[0] && x[1] == y[1] && x[2] == y[2] && x[3] == y[3];
    HexCharInjective(a / 4096, b / 4096);
    HexCharInjective(a / 256 % 16, b / 256 % 16);
    HexCharInjective(a / 16 % 16, b / 16 % 16);
    HexCharInjective(a % 16, b % 16);
    HexDigitsRebuild(a);
    HexDigitsRebuild(b);
  }

  lemma Pad2Injective(a: int, b: int)
    requires 0 <= a <= 99 && 0 <= b <= 99 && Pad2(a) == Pad2(b)
    ensures a == b
  {
    Pad2RoundTrip(a);
    Pad2RoundTrip(b);
  }

  /** For years from 1000 on, a generated id has the documented shape. */
  lemma GenerateIdFormat(now: DateTime, random: int)
    requires ValidDateTime(now) && 0 <= random < 65536 && now.date.year >= 1000
    ensures var s := GenerateId(now, random);
      |s| == 23 && s[..4] == "PRJ-" && s[18] == '-'
      && (forall i :: 4 <= i < 18 ==> IsDigit(s[i]))
      && (forall i :: 19 <= i < 23 ==> IsUpperHex(s[i]))
  {
    DecimalOfFourDigits(now.date.year);
  }

  /** Two ids generated at different seconds, or with different random
      bits, differ. */
  /** The pieces of a generated id, for years from 1000 on. */
  lemma GenerateIdPieces(t: DateTime, r: int)
    requires ValidDateTime(t) && 0 <= r < 65536 && t.date.year >= 1000
    ensures var s := GenerateId(t, r);
      |s| == 23 && s[4..8] == Pad4(t.date.year) && s[8..10] == Pad2(t.date.month)
      && s[10..12] == Pad2(t.date.day) && s[12..14] == Pad2(t.hour)
      && s[14..16] == Pad2(t.minute) && s[16..18] == Pad2(t.second) && s[19..] == Hex4(r)
  {
    DecimalOfFourDigits(t.date.year);
  }

  lemma GenerateIdInjective(t1: DateTime, r1: int, t2: DateTime, r2: int)
    requires ValidDateTime(t1) && 0 <= r1 < 65536 && t1.date.year >= 1000
    requires ValidDateTime(t2) && 0 <= r2 < 65536 && t2.date.year >= 1000
    requires GenerateId(t1, r1) == GenerateId(t2, r2)
    ensures t1 == t2 && r1 == r2
  {
    GenerateIdPieces(t1, r1);
    GenerateIdPieces(t2, r2);
    Pad4RoundTrip(t1.date.year);
    Pad4RoundTrip(t2.date.year);
    Pad2Injective(t1.date.month, t2.date.month);
    Pad2Injective(t1.date.day, t2.date.day);
    Pad2Injective(t1.hour, t2.hour);
    Pad2Injective(t1.minute, t2.minute);
    Pad2Injective(t1.second, t2.second);
    Hex4Injective(r1, r2);
  }

  // ---------------------------------------------------------------------------
  // Time entries
  // ---------------------------------------------------------------------------

  datatype TimeEntry = TimeEntry(
    id: string, projectId: string, workType: string, hours: int,
    date: string, notes: string, createdAt: string)

  /** An element of a time file's `entries` list, key by key; `otherKeys`
      says whether the object has keys beyond these. Files written by older
      versions carry `duration_minutes`, `start_time` and `end_time`. */
  datatype RawEntry = RawEntry(
    id: Option<string>, projectId: Option<string>, workType: Option<string>,
    hours: Option<int>, durationMinutes: Option<int>, date: Option<string>,
    notes: Option<string>, createdAt: Option<string>,
    startTime: Option<string>, endTime: Option<string>, otherKeys: bool)

  /** `asdict(entry)`. */
  function EncodeEntry(e: TimeEntry): (r: RawEntry)
    ensures r.projectId == Some(e.projectId) && r.hours == Some(e.hours)
  {
    RawEntry(Some(e.id), Some(e.projectId), Some(e.workType), Some(e.hours), None,
             Some(e.date), Some(e.notes), Some(e.createdAt), None, None, false)
  }

  /** `TimeEntry(**raw)`: the five required keys must be present and no key
      outside the dataclass's fields may be; otherwise TypeError (None). */
  function DecodeEntry(raw: RawEntry): (r: Option<TimeEntry>)
    ensures r.Some? <==> raw.id.Some? && raw.projectId.Some? && raw.workType.Some?
                         && raw.hours.Some? && raw.date.Some? && raw.durationMinutes.None?
                         && raw.startTime.None? && raw.endTime.None? && !raw.otherKeys
    ensures r.Some? ==> r.value.hours == raw.hours.value && r.value.projectId == raw.projectId.value
  {
    if raw.id.None? || raw.projectId.None? || raw.workType.None? || raw.hours.None? || raw.date.None?
       || raw.durationMinutes.Some? || raw.startTime.Some? || raw.endTime.Some? || raw.otherKeys
    then None
    else Some(TimeEntry(raw.id.value, raw.projectId.value, raw.workType.value, raw.hours.value,
                        raw.date.value, raw.notes.GetOr(""), raw.createdAt.GetOr("")))
  }

  /** An entry written to a file reads back as the same entry. */
  lemma DecodeEncodeEntry(e: TimeEntry)
    ensures DecodeEntry(EncodeEntry(e)) == Some(e)
  {
  }

  /** A decodable object with notes and created_at is exactly what writing
      its entry produces. */
  lemma EncodeDecodeEntry(raw: RawEntry)
    requires DecodeEntry(raw).Some? && raw.notes.Some? && raw.createdAt.Some?
    ensures EncodeEntry(DecodeEntry(raw).value) == raw
  {
  }

  /** The hours an entry counts for: `hours` when that key is present, else
      the legacy `duration_minutes // 60`, else nothing. */
  function EntryHours(raw: RawEntry): (h: int)
    ensures raw.hours.Some? ==> h == raw.hours.value
    ensures raw.hours.None? && raw.durationMinutes.Some? ==>
      h * 60 <= raw.durationMinutes.value < h * 60 + 60
    ensures raw.hours.None? && raw.durationMinutes.None? ==> h == 0
  {
    if raw.hours.Some? then raw.hours.value
    else if raw.durationMinutes.Some? then raw.durationMinutes.value / 60
    else 0
  }

  lemma EntryHoursOfEncoded(e: TimeEntry)
    ensures EntryHours(EncodeEntry(e)) == e.hours
  {
  }

  /** Python's int() of a quotient: truncation toward zero. */
  function TruncDiv(a: int, b: int): (q: int)
    requires b > 0
    ensures a >= 0 ==> q * b <= a < q * b + b
    ensures a < 0 ==> q <= 0 && q * b - b < a <= q * b
  {
    if a >= 0 then a / b else -((-a) / b)
  }

  /** `TimeEntry.create`: whole hours between start and end, truncated, at
      least 1; dated on the start's day. */
  function CreateEntry(projectId: string, workType: string, start: DateTime, end: DateTime,
                       notes: string, id: string, nowIso: string): (e: TimeEntry)
    requires ValidDateTime(start) && ValidDateTime(end)
    ensures e.hours >= 1
    ensures var secs := Seconds(end) - Seconds(start);
      (secs >= 3600 ==> e.hours * 3600 <= secs < e.hours * 3600 + 3600)
      && (secs < 3600 ==> e.hours == 1)
    ensures e.date == IsoFormat(start.date)
    ensures e.projectId == projectId && e.workType == workType && e.notes == notes
  {
    var durationHours := TruncDiv(Seconds(end) - Seconds(start), 3600);
    var hours := if durationHours < 1 then 1 else durationHours;
    TimeEntry(id, projectId, workType, hours, IsoFormat(start.date), notes, nowIso)
  }

  /** `TimeEntry.create_simple`: the given values unchanged, dated `entryDate`
      when one is given and today otherwise. */
  function CreateSimple(projectId: string, workType: string, hours: int, notes: string,
                        entryDate: Option<string>, today: Date, id: string, nowIso: string): (e: TimeEntry)
    requires ValidDate(today)
    ensures e.projectId == projectId && e.workType == workType && e.hours == hours && e.notes == notes
    ensures entryDate.Some? ==> e.date == entryDate.value
    ensures entryDate.None? ==> ParseIso(e.date) == Some(today)
    ensures e.id == id && e.createdAt == nowIso
  {
    ParseIsoFormat(today);
    TimeEntry(id, projectId, workType, hours, entryDate.GetOr(IsoFormat(today)), notes, nowIso)
  }

  /** The contents of a daily time file that was written by this program. */
  datatype DailyTimeFile = DailyTimeFile(userId: string, date: string, entries: seq<TimeEntry>)

  // ---------------------------------------------------------------------------
  // Team configuration
  // ---------------------------------------------------------------------------

  /** An element of `project_fields`: normally `{key, label, values}`. */
  datatype FieldDef = FieldObject(key: Option<string>, labelText: Option<string>, values: Option<seq<string>>) | FieldOther

  datatype TeamData = TeamData(
    workTypes: seq<string>, employees: seq<Employee>, projectStatuses: seq<string>,
    tags: seq<string>, projectFields: seq<FieldDef>, teamRoles: seq<string>,
    campuses: seq<string>, offers: seq<string>, subOffers: seq<string>,
    effortTypes: seq<string>, courseTypes: seq<string>)

  predicate DefinesKey(pf: FieldDef, key: string) {
    pf.FieldObject? && pf.key == Some(key)
  }

  /** The first field definition whose key matches. */
  function FieldByKey(td: TeamData, key: string): (r: Option<FieldDef>)
    ensures r.None? <==> forall i :: 0 <= i < |td.projectFields| ==> !DefinesKey(td.projectFields[i], key)
    ensures r.Some? ==>
      exists i :: 0 <= i < |td.projectFields| && td.projectFields[i] == r.value && DefinesKey(r.value, key)
        && forall j :: 0 <= j < i ==> !DefinesKey(td.projectFields[j], key)
  {
    match FindFirst(td.projectFields, pf => DefinesKey(pf, key))
    case None => None
    case Some(i) => Some(td.projectFields[i])
  }

  /** `get_project_field`: a search that returns at the first match. */
  method GetProjectField(td: TeamData, key: string) returns (r: Option<FieldDef>)
    ensures r == FieldByKey(td, key)
  {
    var i := 0;
    while i < |td.projectFields|
      invariant 0 <= i <= |td.projectFields|
      invariant forall j :: 0 <= j < i ==> !DefinesKey(td.projectFields[j], key)
    {
      if DefinesKey(td.projectFields[i], key) {
        return Some(td.projectFields[i]);
      }
      i := i + 1;
    }
    return None;
  }

  /** `getattr(team_data, key)` for the attributes that hold a list of strings. */
  function StringListAttribute(td: TeamData, key: string): Option<seq<string>> {
    if key == "work_types" then Some(td.workTypes)
    else if key == "project_statuses" then Some(td.projectStatuses)
    else if key == "tags" then Some(td.tags)
    else if key == "team_roles" then Some(td.teamRoles)
    else if key == "campuses" then Some(td.campuses)
    else if key == "offers" then Some(td.offers)
    else if key == "sub_offers" then Some(td.subOffers)
    else if key == "effort_types" then Some(td.effortTypes)
    else if key == "course_types" then Some(td.courseTypes)
    else None
  }

  /** The allowed values of a field: those of the first matching definition
      (none when it lists none), else the legacy list of that name, else
      none. */
  function GetFieldValues(td: TeamData, key: string): (r: seq<string>)
    ensures FieldByKey(td, key).Some? ==> r == FieldByKey(td, key).value.values.GetOr([])
    ensures FieldByKey(td, key).None? && StringListAttribute(td, key).Some? ==> r == StringListAttribute(td, key).value
    ensures FieldByKey(td, key).None? && StringListAttribute(td, key).None? ==> r == []
  {
    match FieldByKey(td, key)
    case Some(pf) => pf.values.GetOr([])
    case None => StringListAttribute(td, key).GetOr([])
  }

  /** A field defined in project_fields always takes precedence over a legacy
      list of the same name. */
  lemma FieldValuesPreferDefinition(td: TeamData, key: string, i: nat)
    requires i < |td.projectFields| && DefinesKey(td.projectFields[i], key)
    requires forall j :: 0 <= j < i ==> !DefinesKey(td.projectFields[j], key)
    ensures GetFieldValues(td, key) == td.projectFields[i].values.GetOr([])
  {
    var r := FieldByKey(td, key);
    assert r.Some?;
    var k :| 0 <= k < |td.projectFields| && td.projectFields[k] == r.value
      && DefinesKey(r.value, key) && forall j :: 0 <= j < k ==> !DefinesKey(td.projectFields[j], key);
    assert k == i;
  }
}
