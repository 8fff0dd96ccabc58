/** The admin screen: the editable lists of the team configuration (one
    string list per panel) and the employee roster. Each panel shows a list,
    edits it in place and writes it back to the team data. */
module Admin {
  import opened Common
  import opened Models

  // ---------------------------------------------------------------------------
  // Import with de-duplication (shared by both panels)
  // ---------------------------------------------------------------------------

  /** The keys of the elements, in order. */
  function MapKey<T>(s: seq<T>, key: T -> string): (r: seq<string>)
    ensures |r| == |s| && forall i :: 0 <= i < |s| ==> r[i] == key(s[i])
  {
    if s == [] then [] else [key(s[0])] + MapKey(s[1..], key)
  }

  lemma {:induction false} MapKeyAppend<T>(a: seq<T>, b: seq<T>, key: T -> string)
    ensures MapKey(a + b, key) == MapKey(a, key) + MapKey(b, key)
  {
  }

  /** The candidates an import adds, in order: those with a non-empty key
      that is neither already present nor taken by an earlier candidate. */
  function Fresh<T>(cands: seq<T>, key: T -> string, seen: set<string>): (r: seq<T>)
    ensures |r| <= |cands|
  {
    if cands == [] then []
    else
      var k := key(cands[0]);
      if k != "" && k !in seen then [cands[0]] + Fresh(cands[1..], key, seen + {k})
      else Fresh(cands[1..], key, seen)
  }

  /** Added candidates have non-empty keys that were not present, and they
      keep their order among the candidates. */
  lemma {:induction false} FreshIsNew<T>(cands: seq<T>, key: T -> string, seen: set<string>)
    ensures forall x :: x in Fresh(cands, key, seen) ==> key(x) != "" && key(x) !in seen
    ensures SubsequenceOf(Fresh(cands, key, seen), cands)
  {
    if cands != [] {
      var k := key(cands[0]);
      if k != "" && k !in seen {
        FreshIsNew(cands[1..], key, seen + {k});
        assert ([cands[0]] + Fresh(cands[1..], key, seen + {k}))[1..] == Fresh(cands[1..], key, seen + {k});
      } else {
        FreshIsNew(cands[1..], key, seen);
        SubsequenceDropHead(Fresh(cands[1..], key, seen), cands);
      }
    }
  }

  /** Appending an element whose key is new keeps the keys distinct. */
  lemma AppendNewKey<T>(list: seq<T>, c: T, key: T -> string, seen: set<string>)
    requires NoDup(MapKey(list, key))
    requires forall i :: 0 <= i < |list| ==> key(list[i]) in seen
    requires key(c) !in seen
    ensures NoDup(MapKey(list + [c], key))
    ensures forall i :: 0 <= i < |list + [c]| ==> key((list + [c])[i]) in seen + {key(c)}
  {
    var m := MapKey(list + [c], key);
    forall i, j | 0 <= i < j < |m|
      ensures m[i] != m[j]
    {
      if j == |list| {
        assert m[i] == key(list[i]);
      } else {
        assert m[i] == MapKey(list, key)[i] && m[j] == MapKey(list, key)[j];
      }
    }
  }

  /** Appending the fresh candidates keeps the keys of a list distinct. */
  lemma {:induction false} FreshKeepsKeysDistinct<T>(list: seq<T>, cands: seq<T>, key: T -> string, seen: set<string>)
    requires NoDup(MapKey(list, key))
    requires forall i :: 0 <= i < |list| ==> key(list[i]) in seen
    ensures NoDup(MapKey(list + Fresh(cands, key, seen), key))
    decreases |cands|
  {
    if cands == [] {
      assert list + [] == list;
    } else {
      var c := cands[0];
      var k := key(c);
      if k != "" && k !in seen {
        var list' := list + [c];
        AppendNewKey(list, c, key, seen);
        FreshKeepsKeysDistinct(list', cands[1..], key, seen + {k});
        assert list' + Fresh(cands[1..], key, seen + {k}) == list + Fresh(cands, key, seen);
      } else {
        FreshKeepsKeysDistinct(list, cands[1..], key, seen);
      }
    }
  }

  /** Every candidate with a non-empty key ends up present: it was there
      already or it is added. */
  lemma {:induction false} FreshCovers<T>(cands: seq<T>, key: T -> string, seen: set<string>)
    ensures forall i :: 0 <= i < |cands| && key(cands[i]) != "" ==>
      key(cands[i]) in seen || key(cands[i]) in MapKey(Fresh(cands, key, seen), key)
  {
    if cands != [] {
      var k := key(cands[0]);
      var seen' := if k != "" && k !in seen then seen + {k} else seen;
      FreshCovers(cands[1..], key, seen');
      var r := Fresh(cands, key, seen);
      if k != "" && k !in seen {
        MapKeyAppend([cands[0]], Fresh(cands[1..], key, seen'), key);
      }
      forall i | 0 <= i < |cands| && key(cands[i]) != ""
        ensures key(cands[i]) in seen || key(cands[i]) in MapKey(r, key)
      {
        if i > 0 {
          assert cands[1..][i - 1] == cands[i];
        }
      }
    }
  }

  /** The import loop of both panels: each candidate is added when its key
      is non-empty and not yet present, and counted as added or skipped. */
  method AppendFresh<T>(list: seq<T>, cands: seq<T>, key: T -> string, seen: set<string>)
    returns (out: seq<T>, added: nat, skipped: nat)
    ensures out == list + Fresh(cands, key, seen)
    ensures added == |Fresh(cands, key, seen)| && added + skipped == |cands|
  {
    out, added, skipped := list, 0, 0;
    var existing := seen;
    var i := 0;
    while i < |cands|
      invariant 0 <= i <= |cands|
      invariant out + Fresh(cands[i..], key, existing) == list + Fresh(cands, key, seen)
      invariant added + |Fresh(cands[i..], key, existing)| == |Fresh(cands, key, seen)|
      invariant added + skipped == i
    {
      var k := key(cands[i]);
      assert cands[i..][0] == cands[i] && cands[i..][1..] == cands[i + 1..];
      if k != "" && k !in existing {
        out := out + [cands[i]];
        existing := existing + {k};
        added := added + 1;
      } else {
        skipped := skipped + 1;
      }
      i := i + 1;
    }
  }

  // ---------------------------------------------------------------------------
  // Import files
  // ---------------------------------------------------------------------------

  /** An element of a JSON array: a string, an object (its values as `str()`
      prints them), or anything else. */
  datatype JsonItem = JString(text: string) | JObject(fields: seq<(string, string)>) | JOther

  /** The file chosen in the import dialog, as read: none chosen, a file
      that fails to read, a JSON document (`None` when it is not an array),
      a CSV file as its rows, or a file of another type. */
  datatype ImportFile =
    | NoFile
    | Unreadable
    | Json(array: Option<seq<JsonItem>>)
    | Csv(rows: seq<seq<string>>)
    | OtherType

  /** The value of the first of `keys` the object has. */
  function FirstPresent(fields: seq<(string, string)>, keys: seq<string>): Option<string> {
    if keys == [] then None
    else
      match Lookup(fields, keys[0])
      case Some(v) => Some(v)
      case None => FirstPresent(fields, keys[1..])
  }

  /** FirstPresent takes the first key the object has, and nothing when it
      has none of them. */
  lemma {:induction false} FirstPresentMeaning(fields: seq<(string, string)>, keys: seq<string>, i: nat)
    requires i < |keys| && keys[i] in Keys(fields)
    requires forall j :: 0 <= j < i ==> keys[j] !in Keys(fields)
    ensures FirstPresent(fields, keys) == Lookup(fields, keys[i])
  {
    LookupKeys(fields, keys[0]);
    if i > 0 {
      FirstPresentMeaning(fields, keys[1..], i - 1);
    }
  }

  lemma {:induction false} FirstPresentNone(fields: seq<(string, string)>, keys: seq<string>)
    requires forall j :: 0 <= j < |keys| ==> keys[j] !in Keys(fields)
    ensures FirstPresent(fields, keys).None?
  {
    if keys != [] {
      LookupKeys(fields, keys[0]);
      FirstPresentNone(fields, keys[1..]);
    }
  }

  /** `data_path[:-1]`: the list's name without its last character. */
  function Singular(dataPath: string): string {
    if dataPath == [] then [] else dataPath[..|dataPath| - 1]
  }

  /** The keys an imported object is read by, in order of preference. */
  function PreferredKeys(dataPath: string): seq<string> {
    ["name", "value", "label", "title", Singular(dataPath)]
  }

  function JsonListItems(items: seq<JsonItem>, dataPath: string): seq<string> {
    if items == [] then []
    else
      var first :=
        match items[0]
        case JString(t) => [Strip(t)]
        case JObject(f) =>
          (match FirstPresent(f, PreferredKeys(dataPath))
           case Some(v) => [Strip(v)]
           case None => [])
        case JOther => [];
      first + JsonListItems(items[1..], dataPath)
  }

  function CsvListItems(rows: seq<seq<string>>): seq<string> {
    if rows == [] then []
    else (if rows[0] != [] && Strip(rows[0][0]) != "" then [Strip(rows[0][0])] else [])
         + CsvListItems(rows[1..])
  }

  /** `new_items` of `EditableListPanel._on_import`. */
  function ListCandidates(file: ImportFile, dataPath: string): seq<string> {
    match file
    case Json(Some(items)) => JsonListItems(items, dataPath)
    case Csv(rows) => CsvListItems(rows[..])
    case _ => []
  }

  /** The first column of a CSV row counts only when it is not blank. */
  lemma CsvItemsAreNotBlank(rows: seq<seq<string>>)
    ensures forall x :: x in CsvListItems(rows) ==> x != ""
  {
  }

  /** An object with a "name" is imported by its name; a list named
      "campuses" also takes the key "campuse". */
  lemma JsonObjectKeys(fields: seq<(string, string)>, dataPath: string)
    ensures "name" in Keys(fields) ==>
      (Lookup(fields, "name").Some? &&
       JsonListItems([JObject(fields)], dataPath) == [Strip(Lookup(fields, "name").value)])
    ensures Singular("campuses") == "campuse"
  {
    if "name" in Keys(fields) {
      FirstPresentMeaning(fields, PreferredKeys(dataPath), 0);
      LookupKeys(fields, "name");
    }
  }

  // ---------------------------------------------------------------------------
  // Editable string lists
  // ---------------------------------------------------------------------------

  function Self(s: string): string {
    s
  }

  /** The elements of a list, as a set. */
  function ElemSet<T>(s: seq<T>): set<T> {
    set x | x in s
  }

  /** What became of a request. */
  datatype Outcome = Ignored | Rejected(reason: string) | Changed

  /** Exchanging two neighbours is a permutation. */
  lemma SwapIsPermutation<T>(s: seq<T>, i: nat)
    requires i + 1 < |s|
    ensures multiset(s[i := s[i + 1]][i + 1 := s[i]]) == multiset(s)
  {
    var t := s[i := s[i + 1]][i + 1 := s[i]];
    assert s == s[..i] + [s[i], s[i + 1]] + s[i + 2..];
    assert t == s[..i] + [s[i + 1], s[i]] + s[i + 2..];
  }

  /** `EditableListPanel` for one list of the team data, such as the work
      types. `items` is the list widget; `stored` is the list in the team
      data (None while no team data is loaded, when saving does nothing).
      `row` arguments are the widget's current row, -1 for none. */
  class EditableListPanel {
    const dataPath: string
    var items: seq<string>
    var stored: Option<seq<string>>

    /** The panel after `refresh`. */
    constructor (dataPath: string, stored: Option<seq<string>>)
      ensures this.dataPath == dataPath && this.stored == stored
      ensures items == stored.GetOr([])
    {
      this.dataPath := dataPath;
      this.stored := stored;
      items := stored.GetOr([]);
    }

    /** `_save`: the widget's items become the stored list, when team data
        is loaded. */
    method Save() returns (saved: bool)
      modifies this`stored
      ensures saved <==> old(stored).Some?
      ensures stored == if saved then Some(items) else None
    {
      saved := stored.Some?;
      if saved {
        stored := Some(items);
      }
    }

    /** `_on_add_item`: blank input is ignored and a duplicate rejected;
        otherwise the stripped text is appended and saved. */
    method OnAddItem(input: string) returns (r: Outcome)
      modifies this`items, this`stored
      ensures Strip(input) == "" ==> r == Ignored && items == old(items) && stored == old(stored)
      ensures Strip(input) != "" && Strip(input) in old(items) ==>
        r.Rejected? && items == old(items) && stored == old(stored)
      ensures Strip(input) != "" && Strip(input) !in old(items) ==>
        r == Changed && items == old(items) + [Strip(input)]
        && stored == (if old(stored).Some? then Some(items) else None)
      ensures NoDup(old(items)) ==> NoDup(items)
    {
      var text := Strip(input);
      if text == "" {
        return Ignored;
      }
      if text in items {
        return Rejected("'" + text + "' already exists.");
      }
      items := items + [text];
      var _ := Save();
      r := Changed;
    }

    /** `_on_edit_item` as written: an accepted, non-blank text replaces
        the item, even when another item already has that text. */
    method OnEditItemAsWritten(row: int, accepted: bool, newText: string) returns (r: Outcome)
      requires 0 <= row < |items|
      modifies this`items, this`stored
      ensures accepted && Strip(newText) != "" ==>
        r == Changed && items == old(items)[row := Strip(newText)]
        && stored == (if old(stored).Some? then Some(items) else None)
      ensures !(accepted && Strip(newText) != "") ==>
        r == Ignored && items == old(items) && stored == old(stored)
    {
      var text := Strip(newText);
      if accepted && text != "" {
        items := items[row := text];
        var _ := Save();
        return Changed;
      }
      return Ignored;
    }

    /** `_on_edit_item` as evidently intended: like adding, an edit that
        would duplicate another item is rejected, so the list stays
        duplicate-free. */
    method OnEditItem(row: int, accepted: bool, newText: string) returns (r: Outcome)
      requires 0 <= row < |items|
      modifies this`items, this`stored
      ensures accepted && Strip(newText) != "" && !DuplicateElsewhere(old(items), row, Strip(newText)) ==>
        r == Changed && items == old(items)[row := Strip(newText)]
        && stored == (if old(stored).Some? then Some(items) else None)
      ensures !(accepted && Strip(newText) != "") ==>
        r == Ignored && items == old(items) && stored == old(stored)
      ensures accepted && Strip(newText) != "" && DuplicateElsewhere(old(items), row, Strip(newText)) ==>
        r.Rejected? && items == old(items) && stored == old(stored)
      ensures NoDup(old(items)) ==> NoDup(items)
    {
      var text := Strip(newText);
      if !(accepted && text != "") {
        return Ignored;
      }
      if DuplicateElsewhere(items, row, text) {
        return Rejected("'" + text + "' already exists.");
      }
      items := items[row := text];
      var _ := Save();
      r := Changed;
    }

    /** `_on_remove_item`: with a row selected and the removal confirmed,
        exactly that row goes. */
    method OnRemoveItem(row: int, confirmed: bool) returns (r: Outcome)
      requires -1 <= row < |items|
      modifies this`items, this`stored
      ensures row < 0 || !confirmed ==> r == Ignored && items == old(items) && stored == old(stored)
      ensures row >= 0 && confirmed ==>
        r == Changed && items == old(items)[..row] + old(items)[row + 1..]
        && stored == (if old(stored).Some? then Some(items) else None)
      ensures NoDup(old(items)) ==> NoDup(items)
    {
      if row < 0 || !confirmed {
        return Ignored;
      }
      items := items[..row] + items[row + 1..];
      var _ := Save();
      r := Changed;
    }

    /** `_on_move_up`: the selected row trades places with the one above;
        the top row and no selection change nothing. */
    method OnMoveUp(row: int) returns (newRow: int, r: Outcome)
      requires -1 <= row < |items|
      modifies this`items, this`stored
      ensures row <= 0 ==> r == Ignored && newRow == row && items == old(items) && stored == old(stored)
      ensures row > 0 ==> (r == Changed && newRow == row - 1
        && items == old(items)[row - 1 := old(items)[row]][row := old(items)[row - 1]]
        && stored == (if old(stored).Some? then Some(items) else None))
      ensures multiset(items) == multiset(old(items))
    {
      if row <= 0 {
        return row, Ignored;
      }
      var item := items[row];
      items := items[..row] + items[row + 1..];
      items := items[..row - 1] + [item] + items[row - 1..];
      assert items == old(items)[row - 1 := old(items)[row]][row := old(items)[row - 1]];
      SwapIsPermutation(old(items), row - 1);
      var _ := Save();
      newRow, r := row - 1, Changed;
    }

    /** `_on_move_down`: the selected row trades places with the one below
        unless it is the last. With no row selected (row -1) the take and
        insert do nothing, yet row 0 becomes current and the list is saved. */
    method OnMoveDown(row: int) returns (newRow: int, r: Outcome)
      requires -1 <= row < |items|
      modifies this`items, this`stored
      ensures row >= |items| - 1 ==> r == Ignored && newRow == row && items == old(items) && stored == old(stored)
      ensures 0 <= row < |old(items)| - 1 ==> (r == Changed && newRow == row + 1
        && items == old(items)[row := old(items)[row + 1]][row + 1 := old(items)[row]]
        && stored == (if old(stored).Some? then Some(items) else None))
      ensures row == -1 && |old(items)| > 0 ==> (r == Changed && newRow == 0 && items == old(items)
        && stored == (if old(stored).Some? then Some(items) else None))
      ensures multiset(items) == multiset(old(items))
    {
      if row >= |items| - 1 {
        return row, Ignored;
      }
      if row >= 0 {
        var item := items[row];
        items := items[..row] + items[row + 1..];
        items := items[..row + 1] + [item] + items[row + 1..];
        assert items == old(items)[row := old(items)[row + 1]][row + 1 := old(items)[row]];
        SwapIsPermutation(old(items), row);
      }
      var _ := Save();
      newRow, r := row + 1, Changed;
    }

    /** `_on_import`: the candidates that are non-empty and new, each once,
        are appended in order; `added + skipped` counts every candidate and
        the list is saved only when something was added. A file that fails
        to read changes nothing. */
    method OnImport(file: ImportFile) returns (added: nat, skipped: nat, r: Outcome)
      modifies this`items, this`stored
      ensures file.NoFile? || file.Unreadable? ==>
        added == 0 && skipped == 0 && items == old(items) && stored == old(stored)
      ensures !(file.NoFile? || file.Unreadable?) ==>
        var cands := ListCandidates(file, dataPath);
        items == old(items) + Fresh(cands, Self, ElemSet(old(items)))
        && added == |Fresh(cands, Self, ElemSet(old(items)))| && added + skipped == |cands|
        && stored == (if added > 0 && old(stored).Some? then Some(items) else old(stored))
      ensures NoDup(old(items)) ==> NoDup(items)
    {
      if file.NoFile? {
        return 0, 0, Ignored;
      }
      if file.Unreadable? {
        return 0, 0, Rejected("Failed to import file");
      }
      var cands := ListCandidates(file, dataPath);
      var out;
      out, added, skipped := AppendFresh(items, cands, Self, ElemSet(items));
      ghost var before := items;
      items := out;
      if added > 0 {
        var _ := Save();
      }
      r := Changed;
      ImportKeepsDistinct(before, cands);
    }
  }

  /** Another row than `row` already holds `text`. */
  predicate DuplicateElsewhere(items: seq<string>, row: int, text: string) {
    exists j :: 0 <= j < |items| && j != row && items[j] == text
  }

  lemma ImportKeepsDistinct(items: seq<string>, cands: seq<string>)
    ensures NoDup(items) ==> NoDup(items + Fresh(cands, Self, ElemSet(items)))
  {
    if NoDup(items) {
      assert MapKey(items, Self) == items;
      assert forall i :: 0 <= i < |items| ==> Self(items[i]) in ElemSet(items);
      FreshKeepsKeysDistinct(items, cands, Self, ElemSet(items));
      var out := items + Fresh(cands, Self, ElemSet(items));
      assert MapKey(out, Self) == out;
    }
  }

  /** After an import every non-empty candidate is in the list. */
  lemma ImportCoversCandidates(items: seq<string>, cands: seq<string>)
    ensures forall c :: c in cands && c != "" ==> c in items + Fresh(cands, Self, ElemSet(items))
  {
    FreshCovers(cands, Self, ElemSet(items));
    var f := Fresh(cands, Self, ElemSet(items));
    assert MapKey(f, Self) == f;
    forall c | c in cands && c != "" ensures c in items + f {
      var i :| 0 <= i < |cands| && cands[i] == c;
      assert Self(cands[i]) == c;
    }
  }

  /** Importing the same file twice adds nothing the second time. */
  lemma ImportTwiceAddsNothing(items: seq<string>, cands: seq<string>)
    ensures Fresh(cands, Self, ElemSet(items + Fresh(cands, Self, ElemSet(items)))) == []
  {
    ImportCoversCandidates(items, cands);
    NothingFresh(cands, ElemSet(items + Fresh(cands, Self, ElemSet(items))));
  }

  lemma {:induction false} NothingFresh(cands: seq<string>, seen: set<string>)
    requires forall c :: c in cands && c != "" ==> c in seen
    ensures Fresh(cands, Self, seen) == []
  {
    if cands != [] {
      assert cands[0] in cands;
      assert forall c :: c in cands[1..] ==> c in cands;
      NothingFresh(cands[1..], seen);
    }
  }

  /** As written, editing "B" into "A" gives the list two "A"s. */
  lemma EditCanDuplicate()
    ensures !NoDup(["A", "B"][1 := Strip("A")])
    ensures DuplicateElsewhere(["A", "B"], 1, Strip("A"))
  {
    var a := "A";
    assert !IsSpace(a[0]);
    assert LStrip(a) == a;
    assert RStrip(a) == a;
    assert Strip(a) == a;
    var items := ["A", "B"];
    assert items[1 := a][0] == items[1 := a][1];
  }

  /** The corrected edit keeps a duplicate-free list duplicate-free. */
  lemma EditKeepsDistinct(items: seq<string>, row: int, text: string)
    requires 0 <= row < |items| && NoDup(items) && !DuplicateElsewhere(items, row, text)
    ensures NoDup(items[row := text])
  {
  }

  // ---------------------------------------------------------------------------
  // Employees
  // ---------------------------------------------------------------------------

  function EmployeeId(e: Employee): string {
    e.id
  }

  /** The roster's ids are unique. */
  predicate UniqueIds(es: seq<Employee>) {
    NoDup(MapKey(es, EmployeeId))
  }

  /** Some employee other than the one at `row` has that id. */
  predicate IdElsewhere(es: seq<Employee>, row: int, id: string) {
    exists j :: 0 <= j < |es| && j != row && es[j].id == id
  }

  /** A CSV file read as `csv.DictReader` does: the first row names the
      columns; each later non-empty row maps names to values, a repeated
      name keeping its last value and a short row lacking the rest. */
  function Zip(header: seq<string>, row: seq<string>): seq<(string, string)>
  {
    if header == [] || row == [] then []
    else if |header| <= |row| then
      Put(Zip(header[..|header| - 1], row[..|header| - 1]), header[|header| - 1], row[|header| - 1])
    else Zip(header[..|row|], row)
  }

  function DictRows(rows: seq<seq<string>>): seq<seq<(string, string)>> {
    if |rows| <= 1 then [] else DictRowsOf(rows[0], rows[1..])
  }

  function DictRowsOf(header: seq<string>, rows: seq<seq<string>>): seq<seq<(string, string)>> {
    if rows == [] then []
    else (if rows[0] == [] then [] else [Zip(header, rows[0])]) + DictRowsOf(header, rows[1..])
  }

  /** One imported JSON object: it needs an "id"; the role defaults to SME
      when the key is missing. */
  function JsonEmployee(f: seq<(string, string)>): Option<Employee> {
    match Lookup(f, "id")
    case None => None
    case Some(id) =>
      Some(Employee(Strip(id), Strip(Lookup(f, "name").GetOr("")), Strip(Lookup(f, "role").GetOr("SME"))))
  }

  /** One CSV row: the id from "id", "username" or "ID", the name from
      "name", "Name" or "display_name", else the id; the role from "role" or
      "Role", else SME; rows without an id are dropped. */
  function CsvEmployee(row: seq<(string, string)>): Option<Employee> {
    var id := OrElse(OrElse(Lookup(row, "id"), Lookup(row, "username")), Lookup(row, "ID")).GetOr("");
    var name := OrElse(OrElse(Lookup(row, "name"), Lookup(row, "Name")), Lookup(row, "display_name")).GetOr("");
    var role := OrElse(Lookup(row, "role"), Lookup(row, "Role"));
    if Strip(id) == "" then None
    else Some(Employee(Strip(id), if Strip(name) != "" then Strip(name) else Strip(id),
                       Strip(if Truthy(role) then role.value else "SME")))
  }

  function JsonEmployees(items: seq<JsonItem>): seq<Employee> {
    if items == [] then []
    else
      (match items[0]
       case JObject(f) => (match JsonEmployee(f) case Some(e) => [e] case None => [])
       case _ => [])
      + JsonEmployees(items[1..])
  }

  function CsvEmployees(rows: seq<seq<(string, string)>>): seq<Employee> {
    if rows == [] then []
    else (match CsvEmployee(rows[0]) case Some(e) => [e] case None => []) + CsvEmployees(rows[1..])
  }

  /** `new_employees` of `EmployeesPanel._on_import`. */
  function EmployeeCandidates(file: ImportFile): seq<Employee> {
    match file
    case Json(Some(items)) => JsonEmployees(items)
    case Csv(rows) => CsvEmployees(DictRows(rows))
    case _ => []
  }

  /** A CSV row with only an id column gives an employee named by the id,
      in role SME. */
  lemma CsvEmployeeDefaults(id: string)
    requires Strip(id) != ""
    ensures CsvEmployee([("id", id)]) == Some(Employee(Strip(id), Strip(id), "SME"))
  {
    var row := [("id", id)];
    assert Lookup(row, "id") == Some(id);
    assert Lookup(row, "name") == None && Lookup(row, "Name") == None && Lookup(row, "display_name") == None;
    assert Lookup(row, "role") == None && Lookup(row, "Role") == None;
    assert Lookup(row, "username") == None && Lookup(row, "ID") == None;
    var sme := "SME";
    assert !IsSpace(sme[0]) && !IsSpace(sme[2]);
    assert LStrip(sme) == sme;
    assert RStrip(sme) == sme;
    assert Strip(sme) == sme;
  }

  /** Imported employees from CSV always have a non-empty id and name. */
  lemma {:induction false} CsvEmployeesNamed(rows: seq<seq<(string, string)>>)
    ensures forall e :: e in CsvEmployees(rows) ==> e.id != "" && e.name != ""
  {
    if rows != [] {
      CsvEmployeesNamed(rows[1..]);
    }
  }

  /** The employee the add and edit dialogs give: every field stripped,
      and nothing when the username or the name is blank. */
  function Entered(idText: string, nameText: string, roleText: string): Option<Employee> {
    var id, name := Strip(idText), Strip(nameText);
    if id == "" || name == "" then None else Some(Employee(id, name, Strip(roleText)))
  }

  /** `EmployeesPanel`: the roster as the list widget holds it; `stored` is
      the team data's roster (None while no team data is loaded). */
  class EmployeesPanel {
    var employees: seq<Employee>
    var stored: Option<seq<Employee>>

    constructor (stored: Option<seq<Employee>>)
      ensures this.stored == stored && employees == stored.GetOr([])
    {
      this.stored := stored;
      employees := stored.GetOr([]);
    }

    method Save() returns (saved: bool)
      modifies this`stored
      ensures saved <==> old(stored).Some?
      ensures stored == if saved then Some(employees) else None
    {
      saved := stored.Some?;
      if saved {
        stored := Some(employees);
      }
    }

    /** The add button's effect on an entered employee: an id already on
        the roster is rejected; otherwise the employee is appended and saved. */
    method AddEntered(e: Employee) returns (r: Outcome)
      modifies this`employees, this`stored
      ensures
        if !IdElsewhere(old(employees), -1, e.id) then
          r == Changed && employees == old(employees) + [e]
          && stored == (if old(stored).Some? then Some(employees) else None)
        else r.Rejected? && employees == old(employees) && stored == old(stored)
      ensures UniqueIds(old(employees)) ==> UniqueIds(employees)
    {
      var taken := HasId(employees, e.id);
      if taken {
        r := Rejected("Username '" + e.id + "' already exists.");
      } else {
        if UniqueIds(employees) {
          UniqueIdsAppend(employees, e);
        }
        employees := employees + [e];
        var _ := Save();
        r := Changed;
      }
    }

    /** `_on_add_employee`: id and name are required (after strip) and an id
        already on the roster is rejected; otherwise the employee is
        appended and saved. */
    method OnAddEmployee(idText: string, nameText: string, roleText: string) returns (r: Outcome)
      modifies this`employees, this`stored
      ensures
        if Entered(idText, nameText, roleText).Some? && !IdElsewhere(old(employees), -1, Entered(idText, nameText, roleText).value.id) then
          r == Changed && employees == old(employees) + [Entered(idText, nameText, roleText).value]
          && stored == (if old(stored).Some? then Some(employees) else None)
        else r.Rejected? && employees == old(employees) && stored == old(stored)
      ensures UniqueIds(old(employees)) ==> UniqueIds(employees)
    {
      var e := Entered(idText, nameText, roleText);
      if e.None? {
        r := Rejected("Username and Name are required.");
      } else {
        r := AddEntered(e.value);
      }
    }

    /** `_on_edit_employee` as written: accepted values with an id and a
        name replace the employee, even when another employee has that id. */
    method OnEditEmployeeAsWritten(row: int, accepted: bool, idText: string, nameText: string, roleText: string)
      returns (r: Outcome)
      requires 0 <= row < |employees|
      modifies this`employees, this`stored
      ensures
        if accepted && Entered(idText, nameText, roleText).Some? then
          r == Changed && employees == old(employees)[row := Entered(idText, nameText, roleText).value]
          && stored == (if old(stored).Some? then Some(employees) else None)
        else r == Ignored && employees == old(employees) && stored == old(stored)
    {
      var e := Entered(idText, nameText, roleText);
      if accepted && e.Some? {
        r := ReplaceAt(row, e.value);
      } else {
        r := Ignored;
      }
    }

    /** Puts `e` in place of the employee at `row` and saves. */
    method ReplaceAt(row: int, e: Employee) returns (r: Outcome)
      requires 0 <= row < |employees|
      modifies this`employees, this`stored
      ensures r == Changed && employees == old(employees)[row := e]
      ensures stored == (if old(stored).Some? then Some(employees) else None)
    {
      employees := employees[row := e];
      var _ := Save();
      r := Changed;
    }

    /** The corrected edit's effect on an entered employee: an id another
        employee has is rejected; otherwise it replaces the one at `row`. */
    method EditEntered(row: int, e: Employee) returns (r: Outcome)
      requires 0 <= row < |employees|
      modifies this`employees, this`stored
      ensures
        if IdElsewhere(old(employees), row, e.id) then
          r.Rejected? && employees == old(employees) && stored == old(stored)
        else
          r == Changed && employees == old(employees)[row := e]
          && stored == (if old(stored).Some? then Some(employees) else None)
      ensures UniqueIds(old(employees)) ==> UniqueIds(employees)
    {
      if IdElsewhere(employees, row, e.id) {
        r := Rejected("Username '" + e.id + "' already exists.");
      } else {
        if UniqueIds(employees) {
          EditEmployeeKeepsUnique(employees, row, e);
        }
        r := ReplaceAt(row, e);
      }
    }

    /** `_on_edit_employee` as evidently intended: an id another employee
        has is rejected, as when adding. */
    method OnEditEmployee(row: int, accepted: bool, idText: string, nameText: string, roleText: string)
      returns (r: Outcome)
      requires 0 <= row < |employees|
      modifies this`employees, this`stored
      ensures
        if !(accepted && Entered(idText, nameText, roleText).Some?) then
          r == Ignored && employees == old(employees) && stored == old(stored)
        else if IdElsewhere(old(employees), row, Entered(idText, nameText, roleText).value.id) then
          r.Rejected? && employees == old(employees) && stored == old(stored)
        else
          r == Changed && employees == old(employees)[row := Entered(idText, nameText, roleText).value]
          && stored == (if old(stored).Some? then Some(employees) else None)
      ensures UniqueIds(old(employees)) ==> UniqueIds(employees)
    {
      var e := Entered(idText, nameText, roleText);
      if !(accepted && e.Some?) {
        r := Ignored;
      } else {
        r := EditEntered(row, e.value);
      }
    }

    /** `_on_remove_employee`. */
    method OnRemoveEmployee(row: int, confirmed: bool) returns (r: Outcome)
      requires -1 <= row < |employees|
      modifies this`employees, this`stored
      ensures row < 0 || !confirmed ==> r == Ignored && employees == old(employees) && stored == old(stored)
      ensures row >= 0 && confirmed ==>
        r == Changed && employees == old(employees)[..row] + old(employees)[row + 1..]
        && stored == (if old(stored).Some? then Some(employees) else None)
    {
      if row < 0 || !confirmed {
        return Ignored;
      }
      employees := employees[..row] + employees[row + 1..];
      var _ := Save();
      r := Changed;
    }

    /** Appends the candidates whose id is neither on the roster nor taken
        by an earlier candidate, in order, and saves when any was added. */
    method AppendCandidates(cands: seq<Employee>) returns (added: nat, skipped: nat)
      modifies this`employees, this`stored
      ensures var ids := ElemSet(MapKey(old(employees), EmployeeId));
        employees == old(employees) + Fresh(cands, EmployeeId, ids)
        && added == |Fresh(cands, EmployeeId, ids)| && added + skipped == |cands|
        && stored == (if added > 0 && old(stored).Some? then Some(employees) else old(stored))
      ensures UniqueIds(old(employees)) ==> UniqueIds(employees)
    {
      var ids := CollectIds(employees);
      var out;
      out, added, skipped := AppendFresh(employees, cands, EmployeeId, ids);
      if UniqueIds(employees) {
        FreshKeepsKeysDistinct(employees, cands, EmployeeId, ids);
      }
      employees := out;
      if added > 0 {
        var _ := Save();
      }
    }

    /** `_on_import`: the candidates with a non-empty id not yet on the
        roster, nor taken by an earlier candidate, are appended in order. */
    method OnImport(file: ImportFile) returns (added: nat, skipped: nat, r: Outcome)
      modifies this`employees, this`stored
      ensures file.NoFile? || file.Unreadable? ==>
        added == 0 && skipped == 0 && employees == old(employees) && stored == old(stored)
      ensures !(file.NoFile? || file.Unreadable?) ==>
        var cands := EmployeeCandidates(file);
        var ids := ElemSet(MapKey(old(employees), EmployeeId));
        employees == old(employees) + Fresh(cands, EmployeeId, ids)
        && added == |Fresh(cands, EmployeeId, ids)| && added + skipped == |cands|
        && stored == (if added > 0 && old(stored).Some? then Some(employees) else old(stored))
      ensures UniqueIds(old(employees)) ==> UniqueIds(employees)
    {
      if file.NoFile? {
        return 0, 0, Ignored;
      }
      if file.Unreadable? {
        return 0, 0, Rejected("Failed to import file");
      }
      added, skipped := AppendCandidates(EmployeeCandidates(file));
      r := Changed;
    }
  }

  /** Whether some employee has the id: the scan of `_on_add_employee`. */
  method HasId(es: seq<Employee>, id: string) returns (found: bool)
    ensures found <==> IdElsewhere(es, -1, id)
  {
    found := false;
    var i := 0;
    while i < |es| && !found
      invariant 0 <= i <= |es|
      invariant found <==> exists j :: 0 <= j < i && es[j].id == id
    {
      found := es[i].id == id;
      i := i + 1;
    }
  }

  /** `existing_ids`, collected row by row. */
  method CollectIds(es: seq<Employee>) returns (ids: set<string>)
    ensures ids == ElemSet(MapKey(es, EmployeeId))
    ensures forall i :: 0 <= i < |es| ==> es[i].id in ids
  {
    ids := {};
    var i := 0;
    while i < |es|
      invariant 0 <= i <= |es|
      invariant ids == set j | 0 <= j < i :: es[j].id
    {
      ids := ids + {es[i].id};
      i := i + 1;
    }
    var keys := MapKey(es, EmployeeId);
    assert forall x :: x in keys <==> exists j :: 0 <= j < |es| && es[j].id == x;
  }

  /** As written, renaming the second of two employees to the first's id
      leaves the roster with a repeated id. */
  lemma EditEmployeeCanDuplicate()
    ensures var es := [Employee("dsmith", "Dan Smith", "LPO"), Employee("ajones", "Ann Jones", "SME")];
      UniqueIds(es) && !UniqueIds(es[1 := Employee("dsmith", "Ann Jones", "SME")])
      && IdElsewhere(es, 1, "dsmith")
  {
    var es := [Employee("dsmith", "Dan Smith", "LPO"), Employee("ajones", "Ann Jones", "SME")];
    var es' := es[1 := Employee("dsmith", "Ann Jones", "SME")];
    assert MapKey(es, EmployeeId) == ["dsmith", "ajones"];
    assert MapKey(es', EmployeeId)[0] == MapKey(es', EmployeeId)[1];
  }

  /** Adding an employee whose id is not on the roster keeps ids unique. */
  lemma UniqueIdsAppend(es: seq<Employee>, e: Employee)
    requires UniqueIds(es) && !IdElsewhere(es, -1, e.id)
    ensures UniqueIds(es + [e])
  {
    MapKeyAppend(es, [e], EmployeeId);
    var k := MapKey(es, EmployeeId);
    var k' := MapKey(es + [e], EmployeeId);
    assert k' == k + [e.id];
    forall i, j | 0 <= i < j < |k'| ensures k'[i] != k'[j] {
      if j == |k| {
        assert k'[i] == es[i].id;
      }
    }
  }

  /** The corrected edit keeps ids unique. */
  lemma EditEmployeeKeepsUnique(es: seq<Employee>, row: int, e: Employee)
    requires 0 <= row < |es| && UniqueIds(es) && !IdElsewhere(es, row, e.id)
    ensures UniqueIds(es[row := e])
  {
    var k := MapKey(es, EmployeeId);
    var k' := MapKey(es[row := e], EmployeeId);
    assert k' == k[row := e.id];
  }
}
