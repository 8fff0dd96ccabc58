/** The project detail screen: the training-module cards, the employee
    pickers of the details form, the time log of one project, saving the
    form, and the info bar above the tabs. */
module ProjectDetail {
  import opened Common
  import opened Dates
  import opened Models
  import opened DataService

  // ---------------------------------------------------------------------------
  // Training modules
  // ---------------------------------------------------------------------------

  /** `tm.get('number', 0)` on a module object; any other value sorts as 0. */
  function NumberKey(t: Tm): int {
    if t.TmObject? then t.number.GetOr(0) else 0
  }

  /** `isinstance(tm, dict) and tm.get('number') == number`. */
  predicate HasNumber(t: Tm, number: int) {
    t.TmObject? && t.number == Some(number)
  }

  /** The numbers in use: `tm.get('number', 0)` of every module object. */
  function NumbersOf(tms: seq<Tm>): (r: set<int>)
  {
    if tms == [] then {}
    else
      var last := tms[|tms| - 1];
      NumbersOf(tms[..|tms| - 1]) + (if last.TmObject? then {NumberKey(last)} else {})
  }

  /** Some module object carries number n (one without a number counts as 0). */
  predicate InUse(tms: seq<Tm>, n: int) {
    exists i :: 0 <= i < |tms| && tms[i].TmObject? && NumberKey(tms[i]) == n
  }

  /** A number is in use exactly when some module object carries it. */
  lemma {:induction false} NumbersOfMembers(tms: seq<Tm>, n: int)
    ensures n in NumbersOf(tms) <==> InUse(tms, n)
  {
    if tms != [] {
      var k := |tms| - 1;
      NumbersOfMembers(tms[..k], n);
      if n in NumbersOf(tms[..k]) {
        var i :| 0 <= i < k && tms[..k][i].TmObject? && NumberKey(tms[..k][i]) == n;
        assert tms[i] == tms[..k][i];
      }
      if InUse(tms, n) {
        var i :| 0 <= i < |tms| && tms[i].TmObject? && NumberKey(tms[i]) == n;
        if i < k {
          assert tms[..k][i] == tms[i];
        }
      }
    }
  }

  /** n is the smallest positive number not in `used`. */
  ghost predicate SmallestFree(used: set<int>, n: int) {
    n >= 1 && n !in used && forall k :: 1 <= k < n ==> k in used
  }

  /** {1, …, n}. */
  function Range(n: nat): (r: set<int>)
    ensures |r| == n
    ensures forall k :: k in r <==> 1 <= k <= n
  {
    if n == 0 then {} else Range(n - 1) + {n}
  }

  /** `while next_number in existing_numbers: next_number += 1`, from 1. */
  method NextNumber(used: set<int>) returns (n: int)
    ensures SmallestFree(used, n)
  {
    n := 1;
    while n in used
      invariant n >= 1 && n - 1 <= |used|
      invariant forall k :: 1 <= k < n ==> k in used
      decreases |used| - (n - 1)
    {
      assert Range(n) <= used;
      SubsetCard(Range(n), used);
      n := n + 1;
    }
  }

  /** Smallest free numbers are unique. */
  lemma SmallestFreeUnique(used: set<int>, a: int, b: int)
    requires SmallestFree(used, a) && SmallestFree(used, b)
    ensures a == b
  {
  }

  /** `existing_numbers` built by the loop of `_on_add_tm`. */
  method CollectNumbers(tms: seq<Tm>) returns (used: set<int>)
    ensures used == NumbersOf(tms)
  {
    used := {};
    var i := 0;
    while i < |tms|
      invariant 0 <= i <= |tms|
      invariant used == NumbersOf(tms[..i])
    {
      assert tms[..i + 1][..i] == tms[..i];
      if tms[i].TmObject? {
        used := used + {NumberKey(tms[i])};
      }
      i := i + 1;
    }
    assert tms[..|tms|] == tms;
  }

  /** The index of the first module object with that number. */
  function FirstWithNumber(tms: seq<Tm>, number: int): (r: Option<nat>)
    ensures r.Some? ==> r.value < |tms| && HasNumber(tms[r.value], number)
                        && forall j :: 0 <= j < r.value ==> !HasNumber(tms[j], number)
    ensures r.None? ==> forall j :: 0 <= j < |tms| ==> !HasNumber(tms[j], number)
  {
    if tms == [] then None
    else if HasNumber(tms[0], number) then Some(0)
    else
      match FirstWithNumber(tms[1..], number)
      case None => None
      case Some(i) => Some(i + 1)
  }

  /** The loop of `_update_tm`: the first module object with that number
      gets the new name and status, and every other module stays. */
  function UpdatedTms(tms: seq<Tm>, number: int, name: string, status: string): (r: seq<Tm>)
    ensures |r| == |tms|
    ensures forall j :: 0 <= j < |tms| && FirstWithNumber(tms, number) != Some(j) ==> r[j] == tms[j]
  {
    match FirstWithNumber(tms, number)
    case None => tms
    case Some(i) => tms[i := TmObject(Some(number), Some(name), Some(status))]
  }

  /** Editing a module never changes which numbers are in use. */
  lemma UpdateKeepsNumbers(tms: seq<Tm>, number: int, name: string, status: string)
    ensures NumbersOf(UpdatedTms(tms, number, name, status)) == NumbersOf(tms)
  {
    var r := UpdatedTms(tms, number, name, status);
    forall j | 0 <= j < |tms|
      ensures r[j].TmObject? == tms[j].TmObject? && NumberKey(r[j]) == NumberKey(tms[j])
    {
    }
    forall n
      ensures n in NumbersOf(r) <==> n in NumbersOf(tms)
    {
      NumbersOfMembers(r, n);
      NumbersOfMembers(tms, n);
    }
  }

  /** The list comprehension of `_delete_tm`: every module object with that
      number goes, everything else stays in order. */
  function WithoutNumber(tms: seq<Tm>, number: int): (r: seq<Tm>)
  {
    Filter(tms, t => !HasNumber(t, number))
  }

  lemma WithoutNumberProperties(tms: seq<Tm>, number: int)
    ensures forall t :: t in WithoutNumber(tms, number) <==> t in tms && !HasNumber(t, number)
    ensures SubsequenceOf(WithoutNumber(tms, number), tms)
    ensures FirstWithNumber(tms, number).None? ==> WithoutNumber(tms, number) == tms
  {
    var p := (t: Tm) => !HasNumber(t, number);
    forall t ensures t in Filter(tms, p) <==> t in tms && p(t) {
      FilterMembership(tms, p, t);
    }
    FilterIsSubsequence(tms, p);
    if FirstWithNumber(tms, number).None? {
      FilterAll(tms, p);
    }
  }

  /** Keeping every element keeps the sequence. */
  lemma {:induction false} FilterAll<T>(s: seq<T>, p: T -> bool)
    requires forall j :: 0 <= j < |s| ==> p(s[j])
    ensures Filter(s, p) == s
  {
    if s != [] {
      FilterAll(s[1..], p);
      assert s == [s[0]] + s[1..];
    }
  }

  /** The modules in card order: by number, stable. */
  predicate NumberAtMost(a: Tm, b: Tm) {
    NumberKey(a) <= NumberKey(b)
  }

  function SortedTms(tms: seq<Tm>): seq<Tm> {
    SortBy(tms, NumberAtMost)
  }

  /** The sorted modules are the modules, by non-decreasing number. */
  lemma SortedTmsProperties(tms: seq<Tm>)
    ensures multiset(SortedTms(tms)) == multiset(tms)
    ensures forall i, j :: 0 <= i < j < |SortedTms(tms)| ==>
      NumberKey(SortedTms(tms)[i]) <= NumberKey(SortedTms(tms)[j])
  {
    assert TotalPreorder(NumberAtMost);
    SortBySorted(tms, NumberAtMost);
  }

  /** A card of the grid: what it shows and where it sits. */
  datatype Card = Card(number: int, name: string, status: string, row: int, col: int)

  /** The card for the module object at position i of the sorted list:
      two cards per row, below the row of the empty-state label. */
  function CardAt(t: Tm, i: nat): Card
    requires t.TmObject?
  {
    Card(t.number.GetOr(i + 1), t.name.GetOr(""), t.status.GetOr("Not Started"), i / 2 + 1, i % 2)
  }

  /** The cards for the sorted list, in order; a value that is not a module
      object leaves its position empty. */
  function Layout(tms: seq<Tm>): (cards: seq<Card>)
    ensures |cards| <= |tms|
  {
    if tms == [] then []
    else
      var i := |tms| - 1;
      Layout(tms[..i]) + (if tms[i].TmObject? then [CardAt(tms[i], i)] else [])
  }

  /** The position of a card in reading order. */
  function Cell(c: Card): int {
    (c.row - 1) * 2 + c.col
  }

  /** Card i sits in row i / 2 + 1 (row 0 holds the empty-state label),
      column i % 2: its cell in reading order is i. */
  lemma CardAtCell(t: Tm, i: nat)
    requires t.TmObject?
    ensures CardAt(t, i).row >= 1 && 0 <= CardAt(t, i).col < 2 && Cell(CardAt(t, i)) == i
  {
  }

  /** Cards fill the grid in reading order: every card has its own cell, one
      of the first |tms|, and later cards sit in later cells. */
  lemma {:induction false} LayoutCells(tms: seq<Tm>)
    ensures forall j :: 0 <= j < |Layout(tms)| ==> 0 <= Cell(Layout(tms)[j]) < |tms|
    ensures forall j, k :: 0 <= j < k < |Layout(tms)| ==> Cell(Layout(tms)[j]) < Cell(Layout(tms)[k])
  {
    if tms != [] {
      var k := |tms| - 1;
      LayoutCells(tms[..k]);
      if tms[k].TmObject? {
        CardAtCell(tms[k], k);
      }
    }
  }

  /** When every module is an object, each gets the card of its position. */
  lemma {:induction false} LayoutOfObjects(tms: seq<Tm>)
    requires forall t :: t in tms ==> t.TmObject?
    ensures |Layout(tms)| == |tms|
    ensures forall i :: 0 <= i < |tms| ==> Layout(tms)[i] == CardAt(tms[i], i)
  {
    if tms != [] {
      var k := |tms| - 1;
      assert forall t :: t in tms[..k] ==> t in tms;
      LayoutOfObjects(tms[..k]);
      assert tms[k] in tms;
    }
  }

  /** The card loop of `_rebuild_cards` over the sorted modules. */
  method BuildCards(tms: seq<Tm>) returns (cards: seq<Card>)
    ensures cards == Layout(tms)
  {
    cards := [];
    var i := 0;
    while i < |tms|
      invariant 0 <= i <= |tms|
      invariant cards == Layout(tms[..i])
    {
      assert tms[..i + 1][..i] == tms[..i];
      if tms[i].TmObject? {
        cards := cards + [CardAt(tms[i], i)];
      }
      i := i + 1;
    }
    assert tms[..|tms|] == tms;
  }

  /** The modules of the shown project, if any. */
  function TmsOf(p: Option<Project>): seq<Tm> {
    if p.Some? then p.value.tms else []
  }

  /** What the module dialog returns: the stripped name and the status on
      "Save", "Delete" (edit dialog only), or nothing. */
  datatype TmDialog = Accepted(nameText: string, status: string) | DeleteRequested | Cancelled

  /** The training-modules tab. `project` is the project it shows. */
  class TMsTab {
    var project: Option<Project>
    var cards: seq<Card>
    var emptyShown: bool

    constructor ()
      ensures project.None? && cards == [] && emptyShown
    {
      project := None;
      cards := [];
      emptyShown := true;
    }

    /** `set_project`. */
    method SetProject(p: Option<Project>)
      modifies this
      ensures project == p
      ensures cards == Layout(SortedTms(TmsOf(p))) && (emptyShown <==> TmsOf(p) == [])
    {
      project := p;
      RebuildCards();
    }

    /** `_rebuild_cards`: the modules sorted by number, one card each, two
        per row; the empty-state label shows exactly when there are none. */
    method RebuildCards()
      modifies this`cards, this`emptyShown
      ensures cards == Layout(SortedTms(TmsOf(project)))
      ensures emptyShown <==> TmsOf(project) == []
    {
      var tms := SortedTms(TmsOf(project));
      cards := BuildCards(tms);
      emptyShown := |tms| == 0;
    }

    /** `_on_add_tm`: the dialog opens with the smallest free number; on
        "Save" the new module is appended last with that number. `emitted`
        says whether `project_updated` (which saves the project) fires. */
    method AddTm(dialog: TmDialog) returns (number: int, emitted: bool)
      modifies this
      ensures old(project).None? ==>
        !emitted && project == old(project) && cards == old(cards) && emptyShown == old(emptyShown)
      ensures old(project).Some? ==> SmallestFree(NumbersOf(old(project).value.tms), number)
      ensures old(project).Some? && dialog.Accepted? ==>
        project == Some(old(project).value.(tms := old(project).value.tms
                          + [TmObject(Some(number), Some(dialog.nameText), Some(dialog.status))]))
        && cards == Layout(SortedTms(TmsOf(project))) && !emptyShown && emitted
      ensures old(project).Some? && !dialog.Accepted? ==>
        !emitted && project == old(project) && cards == old(cards) && emptyShown == old(emptyShown)
    {
      emitted := false;
      number := 0;
      if project.None? {
        return;
      }
      var p := project.value;
      var used := CollectNumbers(p.tms);
      number := NextNumber(used);
      if dialog.Accepted? {
        project := Some(p.(tms := p.tms + [TmObject(Some(number), Some(dialog.nameText), Some(dialog.status))]));
        RebuildCards();
        emitted := true;
      }
    }

    /** `_update_tm`: only the first module object with that number gets the
        new name and status; nothing happens without a project or modules. */
    method UpdateTm(number: int, name: string, status: string) returns (emitted: bool)
      modifies this
      ensures TmsOf(old(project)) == [] ==>
        !emitted && project == old(project) && cards == old(cards) && emptyShown == old(emptyShown)
      ensures TmsOf(old(project)) != [] ==>
        emitted && project == Some(old(project).value.(tms := UpdatedTms(old(project).value.tms, number, name, status)))
        && cards == Layout(SortedTms(TmsOf(project)))
    {
      emitted := false;
      if project.None? || project.value.tms == [] {
        return;
      }
      var p := project.value;
      var tms := p.tms;
      var i := 0;
      while i < |tms| && !HasNumber(tms[i], number)
        invariant 0 <= i <= |tms|
        invariant forall j :: 0 <= j < i ==> !HasNumber(tms[j], number)
      {
        i := i + 1;
      }
      if i < |tms| {
        assert FirstWithNumber(tms, number) == Some(i);
        tms := tms[i := TmObject(tms[i].number, Some(name), Some(status))];
      }
      project := Some(p.(tms := tms));
      RebuildCards();
      emitted := true;
    }

    /** `_delete_tm`: after confirmation every module object with that
        number is removed and the others keep their order. */
    method DeleteTm(number: int, confirmed: bool) returns (emitted: bool)
      modifies this
      ensures TmsOf(old(project)) == [] || !confirmed ==>
        !emitted && project == old(project) && cards == old(cards) && emptyShown == old(emptyShown)
      ensures TmsOf(old(project)) != [] && confirmed ==>
        (emitted && project == Some(old(project).value.(tms := WithoutNumber(old(project).value.tms, number)))
         && cards == Layout(SortedTms(TmsOf(project))))
    {
      emitted := false;
      if project.None? || project.value.tms == [] || !confirmed {
        return;
      }
      var p := project.value;
      project := Some(p.(tms := WithoutNumber(p.tms, number)));
      RebuildCards();
      emitted := true;
    }

    /** `_on_tm_clicked`: the dialog opens with the first matching module's
        name and status (or "" and "Not Started"); "Save" updates and
        "Delete" deletes after confirmation. */
    method OnTmClicked(number: int, dialog: TmDialog, confirmed: bool)
      returns (shownName: string, shownStatus: string, emitted: bool)
      modifies this
      ensures project.None? <==> old(project).None?
      ensures match FirstWithNumber(TmsOf(old(project)), number)
        case Some(i) => var t := TmsOf(old(project))[i];
          shownName == t.name.GetOr("") && shownStatus == t.status.GetOr("Not Started")
        case None => shownName == "" && shownStatus == "Not Started"
      ensures old(project).None? || dialog.Cancelled? ==>
        !emitted && project == old(project) && cards == old(cards)
      ensures old(project).Some? && dialog.Accepted? ==>
        (if old(project).value.tms == [] then
           !emitted && project == old(project) && cards == old(cards)
         else
           emitted && project == Some(old(project).value.(tms := UpdatedTms(old(project).value.tms, number, dialog.nameText, dialog.status)))
           && cards == Layout(SortedTms(TmsOf(project))))
      ensures old(project).Some? && dialog.DeleteRequested? ==>
        (if old(project).value.tms == [] || !confirmed then
           !emitted && project == old(project) && cards == old(cards)
         else
           emitted && project == Some(old(project).value.(tms := WithoutNumber(old(project).value.tms, number)))
           && cards == Layout(SortedTms(TmsOf(project))))
    {
      shownName, shownStatus := "", "Not Started";
      emitted := false;
      if project.None? {
        return;
      }
      var match_ := FirstWithNumber(project.value.tms, number);
      if match_.Some? {
        var t := project.value.tms[match_.value];
        shownName, shownStatus := t.name.GetOr(""), t.status.GetOr("Not Started");
      }
      match dialog
      case Accepted(name, status) =>
        emitted := UpdateTm(number, name, status);
      case DeleteRequested =>
        emitted := DeleteTm(number, confirmed);
      case Cancelled =>
    }
  }

  /** Adding a module never reuses a number in use, and the number is the
      smallest one free. */
  lemma AddedNumberIsNew(tms: seq<Tm>, n: int)
    requires SmallestFree(NumbersOf(tms), n)
    ensures forall i :: 0 <= i < |tms| && tms[i].TmObject? ==> NumberKey(tms[i]) != n
    ensures forall k :: 1 <= k < n ==> InUse(tms, k)
  {
    forall i | 0 <= i < |tms| && tms[i].TmObject? ensures NumberKey(tms[i]) != n {
      NumbersOfMembers(tms, NumberKey(tms[i]));
    }
    forall k | 1 <= k < n ensures InUse(tms, k) {
      NumbersOfMembers(tms, k);
    }
  }

  /** After a delete, no module object carries that number and every other
      module is still there, in its order. */
  lemma DeleteRemovesAll(tms: seq<Tm>, number: int)
    ensures FirstWithNumber(WithoutNumber(tms, number), number).None?
    ensures forall t :: t in tms && !HasNumber(t, number) ==> t in WithoutNumber(tms, number)
    ensures SubsequenceOf(WithoutNumber(tms, number), tms)
  {
    WithoutNumberProperties(tms, number);
    var r := WithoutNumber(tms, number);
    forall j | 0 <= j < |r| ensures !HasNumber(r[j], number) {
      assert r[j] in r;
    }
  }

  /** Deleting a number twice is deleting it once. */
  lemma DeleteIdempotent(tms: seq<Tm>, number: int)
    ensures WithoutNumber(WithoutNumber(tms, number), number) == WithoutNumber(tms, number)
  {
    DeleteRemovesAll(tms, number);
    WithoutNumberProperties(WithoutNumber(tms, number), number);
  }

  // ---------------------------------------------------------------------------
  // Employee pickers
  // ---------------------------------------------------------------------------

  /** The items of an employee combo: "" then "name (id)" per employee. */
  function EmployeeItems(employees: seq<Employee>): (items: seq<string>)
    ensures |items| == |employees| + 1 && items[0] == ""
    ensures forall i :: 0 <= i < |employees| ==>
      items[i + 1] == employees[i].name + " (" + employees[i].id + ")"
  {
    if employees == [] then [""]
    else
      var k := |employees| - 1;
      EmployeeItems(employees[..k]) + [employees[k].name + " (" + employees[k].id + ")"]
  }

  /** `_get_employee_id`: for text holding both '(' and ')', what follows
      the last '(' without its trailing ')'s; any other text as it is. */
  function GetEmployeeId(text: string): (r: string)
    ensures !('(' in text && ')' in text) ==> r == text
    ensures '(' in text && ')' in text ==>
      '(' !in r && (r == [] || r[|r| - 1] != ')') && |r| < |text|
  {
    if '(' in text && ')' in text then RStripChar(SplitLast(text, '(').value.1, ')')
    else text
  }

  /** Reading back the item of an employee gives the id, for every id
      without parentheses, whatever the name holds. */
  lemma GetEmployeeIdOfItem(name: string, id: string)
    requires '(' !in id && ')' !in id
    ensures GetEmployeeId(name + " (" + id + ")") == id
  {
    var head, tail := name + " ", id + ")";
    var text := name + " (" + id + ")";
    assert text == head + ['('] + tail;
    assert '(' !in tail;
    SplitLastOfJoined(head, '(', tail);
    assert '(' in text by { assert text[|head|] == '('; }
    assert ')' in text by { assert text[|text| - 1] == ')'; }
    assert tail[..|tail| - 1] == id;
    assert RStripChar(id, ')') == id;
  }

  /** An id from `_get_employee_id` holds no '(' and reads back as itself
      when it holds no ')' either. */
  lemma GetEmployeeIdIdempotent(text: string)
    requires ')' !in GetEmployeeId(text)
    ensures GetEmployeeId(GetEmployeeId(text)) == GetEmployeeId(text)
  {
  }

  /** The combo's text after setting it: the chosen item, or the id typed in. */
  function ComboText(items: seq<string>, chosen: Option<nat>, typed: string): string
    requires chosen.Some? ==> chosen.value < |items|
  {
    if chosen.Some? then items[chosen.value] else typed
  }

  /** `_set_employee_combo` as written: the first item that CONTAINS the id
      is chosen; an empty id chooses item 0, which an empty combo (no team
      data to fill it) does not have, so nothing is chosen then. */
  method SetEmployeeComboAsWritten(items: seq<string>, empId: string) returns (chosen: Option<nat>)
    ensures empId == "" ==> chosen == (if |items| > 0 then Some(0) else None)
    ensures empId != "" ==> match chosen
      case Some(i) => i < |items| && Contains(items[i], empId)
                      && forall j :: 0 <= j < i ==> !Contains(items[j], empId)
      case None => forall j :: 0 <= j < |items| ==> !Contains(items[j], empId)
  {
    if empId == "" {
      return if |items| > 0 then Some(0) else None;
    }
    var i := 0;
    while i < |items|
      invariant 0 <= i <= |items|
      invariant forall j :: 0 <= j < i ==> !Contains(items[j], empId)
    {
      if Contains(items[i], empId) {
        return Some(i);
      }
      i := i + 1;
    }
    return None;
  }

  /** `_set_employee_combo` as evidently intended: the first item whose id
      (as `_get_employee_id` reads it) equals the id is chosen. */
  method SetEmployeeCombo(items: seq<string>, empId: string) returns (chosen: Option<nat>)
    ensures empId == "" ==> chosen == (if |items| > 0 then Some(0) else None)
    ensures empId != "" ==> match chosen
      case Some(i) => i < |items| && GetEmployeeId(items[i]) == empId
                      && forall j :: 0 <= j < i ==> GetEmployeeId(items[j]) != empId
      case None => forall j :: 0 <= j < |items| ==> GetEmployeeId(items[j]) != empId
  {
    if empId == "" {
      return if |items| > 0 then Some(0) else None;
    }
    var i := 0;
    while i < |items|
      invariant 0 <= i <= |items|
      invariant forall j :: 0 <= j < i ==> GetEmployeeId(items[j]) != empId
    {
      var id := GetEmployeeId(items[i]);
      if id == empId {
        return Some(i);
      }
      i := i + 1;
    }
    return None;
  }

  /** With the corrected matching, loading a project's employee into the
      form and reading the form back gives the same id, for every id without
      parentheses: the chosen item's id, the empty first item, or the id as
      typed into an editable combo that lists no such employee. */
  method CorrectedComboRoundTrip(items: seq<string>, empId: string) returns (readBack: string)
    requires |items| > 0 ==> items[0] == ""
    requires '(' !in empId && ')' !in empId
    ensures readBack == empId
  {
    var chosen := SetEmployeeCombo(items, empId);
    readBack := GetEmployeeId(ComboText(items, chosen, empId));
  }

  /** The substring match picks the wrong employee: with "Dan Brown (dbrown)"
      listed before "Ann Lee (an)", the id "an" selects Dan Brown (his name
      contains "an"), and saving the form then stores "dbrown". */
  lemma SubstringPicksWrongEmployee()
    ensures var items := EmployeeItems([Employee("dbrown", "Dan Brown", "LPO"), Employee("an", "Ann Lee", "SME")]);
      !Contains(items[0], "an") && Contains(items[1], "an")
      && GetEmployeeId(items[1]) == "dbrown" && GetEmployeeId(items[2]) == "an"
  {
    var items := EmployeeItems([Employee("dbrown", "Dan Brown", "LPO"), Employee("an", "Ann Lee", "SME")]);
    assert items[1] == "Dan Brown (dbrown)";
    assert items[2] == "Ann Lee (an)";
    assert items[1][1..][..2] == "an";
    assert Contains(items[1][1..], "an");
    GetEmployeeIdOfItem("Dan Brown", "dbrown");
    GetEmployeeIdOfItem("Ann Lee", "an");
  }

  // ---------------------------------------------------------------------------
  // Time log
  // ---------------------------------------------------------------------------

  /** One row of the time log. */
  datatype LogRow = LogRow(userId: string, date: string, workType: string, hours: int, notes: string)

  /** `entry.get('date') or entry.get('start_time', '')[:10]`. */
  function EntryDate(e: RawEntry): (d: string)
    ensures Truthy(e.date) ==> d == e.date.value
    ensures !Truthy(e.date) ==> (StartsWith(e.startTime.GetOr(""), d)
      && |d| == (if |e.startTime.GetOr("")| < 10 then |e.startTime.GetOr("")| else 10))
  {
    if Truthy(e.date) then e.date.value
    else
      var s := e.startTime.GetOr("");
      if |s| < 10 then s else s[..10]
  }

  function RowOf(user: string, e: RawEntry): LogRow {
    LogRow(user, EntryDate(e), e.workType.GetOr(""), EntryHours(e), e.notes.GetOr(""))
  }

  /** The rows one file contributes: its entries for the project, in order. */
  function EntryRows(user: string, es: seq<RawEntry>, pid: string): seq<LogRow> {
    if es == [] then []
    else
      var k := |es| - 1;
      EntryRows(user, es[..k], pid) + (if es[k].projectId == Some(pid) then [RowOf(user, es[k])] else [])
  }

  function DocRows(doc: TimeDoc, pid: string): seq<LogRow> {
    if doc.TimeJson? then EntryRows(doc.userId.GetOr(""), doc.entries, pid) else []
  }

  /** The rows of every readable time file, file after file. */
  function FileRows(files: seq<(string, TimeDoc)>, pid: string): seq<LogRow> {
    if files == [] then []
    else FileRows(files[..|files| - 1], pid) + DocRows(files[|files| - 1].1, pid)
  }

  /** Newest first: a may come before b when a's date is not smaller. */
  predicate DateAtLeast(a: LogRow, b: LogRow) {
    !LexLess(a.date, b.date)
  }

  lemma DateAtLeastIsTotalPreorder()
    ensures TotalPreorder(DateAtLeast)
  {
    forall a: LogRow, b: LogRow ensures DateAtLeast(a, b) || DateAtLeast(b, a) {
      if LexLess(a.date, b.date) {
        LexLessAsymmetric(a.date, b.date);
      }
    }
    forall a: LogRow, b: LogRow, c: LogRow | DateAtLeast(a, b) && DateAtLeast(b, c)
      ensures DateAtLeast(a, c)
    {
      LexLessTotal(a.date, b.date);
      LexLessTotal(b.date, c.date);
      if LexLess(a.date, c.date) {
        if b.date != a.date && c.date != b.date {
          LexLessTransitive(c.date, b.date, a.date);
          LexLessAsymmetric(c.date, a.date);
        }
      }
    }
  }

  /** `entries.sort(key=date, reverse=True)`. */
  function LogRows(files: seq<(string, TimeDoc)>, pid: string): seq<LogRow> {
    SortBy(FileRows(files, pid), DateAtLeast)
  }

  function RowHours(r: LogRow): int {
    r.hours
  }

  lemma {:induction false} EntryRowsTotal(user: string, es: seq<RawEntry>, pid: string)
    ensures SumOf(EntryRows(user, es, pid), RowHours) == EntriesHours(es, pid)
  {
    if es != [] {
      var k := |es| - 1;
      EntryRowsTotal(user, es[..k], pid);
      var last := if es[k].projectId == Some(pid) then [RowOf(user, es[k])] else [];
      SumOfAppend(EntryRows(user, es[..k], pid), last, RowHours);
      if last != [] {
        SumOfSingle(RowOf(user, es[k]), RowHours);
      }
    }
  }

  lemma {:induction false} FileRowsTotal(files: seq<(string, TimeDoc)>, pid: string)
    ensures SumOf(FileRows(files, pid), RowHours) == FilesHours(files, pid)
  {
    if files != [] {
      var k := |files| - 1;
      FileRowsTotal(files[..k], pid);
      SumOfAppend(FileRows(files[..k], pid), DocRows(files[k].1, pid), RowHours);
      if files[k].1.TimeJson? {
        EntryRowsTotal(files[k].1.userId.GetOr(""), files[k].1.entries, pid);
      }
      FilesHoursStep(files, k, pid);
      assert files[..k + 1] == files;
    }
  }

  /** The time log is every row of the project, newest first, and its total
      is the project total the data service reports. */
  lemma LogRowsProperties(files: seq<(string, TimeDoc)>, pid: string)
    ensures multiset(LogRows(files, pid)) == multiset(FileRows(files, pid))
    ensures forall i, j :: 0 <= i < j < |LogRows(files, pid)| ==>
      !LexLess(LogRows(files, pid)[i].date, LogRows(files, pid)[j].date)
    ensures SumOf(LogRows(files, pid), RowHours) == FilesHours(files, pid)
  {
    DateAtLeastIsTotalPreorder();
    SortBySorted(FileRows(files, pid), DateAtLeast);
    SumOfSortBy(FileRows(files, pid), DateAtLeast, RowHours);
    FileRowsTotal(files, pid);
  }

  /** The rows of one file's entries, by the inner loop of `_load_entries`. */
  method CollectRows(user: string, es: seq<RawEntry>, pid: string) returns (rows: seq<LogRow>)
    ensures rows == EntryRows(user, es, pid)
  {
    rows := [];
    var j := 0;
    while j < |es|
      invariant 0 <= j <= |es|
      invariant rows == EntryRows(user, es[..j], pid)
    {
      assert es[..j + 1][..j] == es[..j];
      if es[j].projectId == Some(pid) {
        rows := rows + [RowOf(user, es[j])];
      }
      j := j + 1;
    }
    assert es[..|es|] == es;
  }

  /** `total_hours += entry['hours']` over the rows. */
  method AddUp(rows: seq<LogRow>) returns (total: int)
    ensures total == SumOf(rows, RowHours)
  {
    total := 0;
    var k := 0;
    while k < |rows|
      invariant 0 <= k <= |rows|
      invariant total == SumOf(rows[..k], RowHours)
    {
      assert rows[..k + 1][..k] == rows[..k];
      total := total + rows[k].hours;
      k := k + 1;
    }
    assert rows[..|rows|] == rows;
  }

  /** The time-log tab of the shown project. */
  class TimeLogTab {
    var project: Option<Project>
    var rows: seq<LogRow>
    var total: int

    constructor ()
      ensures project.None? && rows == [] && total == 0
    {
      project := None;
      rows := [];
      total := 0;
    }

    /** `_load_entries` over the data folder: every entry of the project in
        every readable time file, newest first, and their total. */
    method LoadEntries(folder: Option<Folder>)
      modifies this`rows, this`total
      ensures project.None? || folder.None? ==> rows == [] && total == 0
      ensures project.Some? && folder.Some? ==>
        rows == LogRows(folder.value.timeFiles, project.value.id)
        && total == FilesHours(folder.value.timeFiles, project.value.id)
    {
      rows, total := [], 0;
      if project.None? || folder.None? {
        return;
      }
      var pid := project.value.id;
      var files := folder.value.timeFiles;
      var found: seq<LogRow> := [];
      var i := 0;
      while i < |files|
        invariant 0 <= i <= |files|
        invariant found == FileRows(files[..i], pid)
      {
        assert files[..i + 1][..i] == files[..i];
        if files[i].1.TimeJson? {
          var more := CollectRows(files[i].1.userId.GetOr(""), files[i].1.entries, pid);
          found := found + more;
        }
        i := i + 1;
      }
      assert files[..|files|] == files;
      var sorted := SortBy(found, DateAtLeast);
      var sum := AddUp(sorted);
      LogRowsProperties(files, pid);
      rows, total := sorted, sum;
    }

    /** `set_project`: remember the project, then load its entries. */
    method SetProject(p: Option<Project>, folder: Option<Folder>)
      modifies this`project, this`rows, this`total
      ensures project == p
      ensures p.None? || folder.None? ==> rows == [] && total == 0
      ensures p.Some? && folder.Some? ==>
        rows == LogRows(folder.value.timeFiles, p.value.id)
        && total == FilesHours(folder.value.timeFiles, p.value.id)
    {
      project := p;
      LoadEntries(folder);
    }
  }

  // ---------------------------------------------------------------------------
  // Saving the details form
  // ---------------------------------------------------------------------------

  /** What the details form's widgets hold. */
  datatype Form = Form(
    courseId: string, name: string, campus: string, offer: string, subOffer: string,
    effortType: string, courseType: string, durationMinutes: int, targetHours: real,
    lpoText: string, smeText: string, lxoText: string, status: string)

  /** `get_project_data`: the text fields stripped, the team members read
      back as ids. */
  function ProjectData(f: Form): Form {
    f.(courseId := Strip(f.courseId), name := Strip(f.name), campus := Strip(f.campus),
       offer := Strip(f.offer), subOffer := Strip(f.subOffer),
       lpoText := GetEmployeeId(f.lpoText), smeText := GetEmployeeId(f.smeText),
       lxoText := GetEmployeeId(f.lxoText))
  }

  /** The project `_on_save` hands to `save_project`: a new project takes the
      course id as its id when there is one, else the generated id, and is
      stamped as created now by the user; then the form's values apply. */
  function Applied(p: Project, isNew: bool, d: Form, generatedId: string, nowIso: string, user: string): Project
  {
    var stamped :=
      if isNew then
        p.(id := if d.courseId != "" then d.courseId else generatedId, createdAt := nowIso, createdBy := user)
      else p;
    stamped.(name := d.name, courseId := d.courseId, campus := d.campus, offer := d.offer,
             subOffer := d.subOffer, effortType := d.effortType, courseType := d.courseType,
             courseDurationMinutes := d.durationMinutes, targetHours := d.targetHours,
             lpo := d.lpoText, sme := d.smeText, lxo := d.lxoText, status := d.status)
  }

  /** The validation and edits of `_on_save` before `save_project`. */
  function PrepareSave(p: Project, isNew: bool, form: Form, generatedId: string, nowIso: string, user: string): Result<Project>
  {
    var d := ProjectData(form);
    if d.name == "" then Err("Course Name is required.")
    else Ok(Applied(p, isNew, d, generatedId, nowIso, user))
  }

  /** A form whose name is blank after strip is rejected; any other form
      yields the edited project. */
  lemma PrepareSaveRule(p: Project, isNew: bool, form: Form, generatedId: string, nowIso: string, user: string)
    ensures PrepareSave(p, isNew, form, generatedId, nowIso, user).Err?
            <==> forall i :: 0 <= i < |form.name| ==> IsSpace(form.name[i])
    ensures PrepareSave(p, isNew, form, generatedId, nowIso, user).Ok? ==>
      PrepareSave(p, isNew, form, generatedId, nowIso, user).value
        == Applied(p, isNew, ProjectData(form), generatedId, nowIso, user)
  {
    StripEmptyIffBlank(form.name);
  }

  /** The screen around the tabs. `project` is the project shown. */
  class ProjectDetailScreen {
    var project: Option<Project>
    var isNew: bool

    constructor (p: Option<Project>, isNew: bool)
      ensures project == p && this.isNew == isNew
    {
      project := p;
      this.isNew := isNew;
    }

    /** `_on_save`: the prepared project is saved, after which the service
        finds it under its id, and the project is no longer new; without a
        data folder the prepared project is kept as it is and the service
        does not change; a rejected form changes nothing. `generatedId` stands for what `generate_id`
        returns at that moment. */
    method OnSave(form: Form, generatedId: string, nowIso: string, ds: DataService)
      returns (r: Result<Project>)
      requires project.Some? && ds.Valid()
      modifies this, ds
      ensures ds.Valid()
      ensures r.Err? ==> r == PrepareSave(old(project).value, old(isNew), form, generatedId, nowIso, old(ds.CurrentUserId()))
                         && project == old(project) && isNew == old(isNew) && unchanged(ds)
      ensures r.Ok? ==> project == Some(r.value) && !isNew
      ensures r.Ok? ==>
        PrepareSave(old(project).value, old(isNew), form, generatedId, nowIso, old(ds.CurrentUserId())).Ok?
      ensures r.Ok? && old(ds.folder).None? ==>
        r.value == PrepareSave(old(project).value, old(isNew), form, generatedId, nowIso, old(ds.CurrentUserId())).value
        && unchanged(ds)
      ensures r.Ok? && old(ds.folder).Some? ==>
        var q := PrepareSave(old(project).value, old(isNew), form, generatedId, nowIso, old(ds.CurrentUserId()));
        q.Ok? && r.value == q.value.(modifiedAt := nowIso, modifiedBy := old(ds.CurrentUserId()))
        && ds.GetProject(q.value.id) == Some(r.value)
    {
      var prepared := PrepareSave(project.value, isNew, form, generatedId, nowIso, ds.CurrentUserId());
      if prepared.Err? {
        return prepared;
      }
      var saved := Commit(prepared.value, nowIso, ds);
      r := Ok(saved);
    }

    /** The end of `_on_save`: save, and the project is no longer new. */
    method Commit(q: Project, nowIso: string, ds: DataService) returns (saved: Project)
      requires ds.Valid()
      modifies this, ds
      ensures ds.Valid()
      ensures project == Some(saved) && !isNew
      ensures old(ds.folder).None? ==> saved == q && unchanged(ds)
      ensures old(ds.folder).Some? ==>
        saved == q.(modifiedAt := nowIso, modifiedBy := old(ds.CurrentUserId())) && ds.GetProject(q.id) == Some(saved)
    {
      saved := ds.SaveProject(q, nowIso);
      project := Some(saved);
      isNew := false;
    }

    /** `_on_project_updated`: a change made in the modules tab saves the
        project. The screen and the tab hold one project object in the
        program, so what is saved is the tab's project with its change, and
        afterwards both show the stamped project. */
    method OnProjectUpdated(tab: TMsTab, nowIso: string, ds: DataService)
      requires ds.Valid()
      requires project.Some? <==> tab.project.Some?
      modifies this, ds, tab`project
      ensures ds.Valid()
      ensures old(project).None? ==> unchanged(ds) && project == old(project) && tab.project == old(tab.project)
      ensures old(project).Some? && old(ds.folder).None? ==>
        unchanged(ds) && project == old(tab.project) && tab.project == old(tab.project)
      ensures old(project).Some? && old(ds.folder).Some? ==>
        project.Some? && project.value == old(tab.project).value.(modifiedAt := nowIso, modifiedBy := old(ds.CurrentUserId()))
        && tab.project == project
        && ds.GetProject(project.value.id) == project
    {
      if project.None? {
        return;
      }
      var saved := ds.SaveProject(tab.project.value, nowIso);
      project := Some(saved);
      tab.project := Some(saved);
    }
  }

  /** The save rule: a new project takes the course id when there is one,
      else the generated id, and is stamped as created now by the user; an
      existing project keeps its id and creation stamp; the form's values
      replace the edited fields and the rest of the project stays. */
  lemma AppliedProperties(p: Project, isNew: bool, d: Form, generatedId: string, nowIso: string, user: string)
    ensures var q := Applied(p, isNew, d, generatedId, nowIso, user);
      (isNew && d.courseId != "" ==> q.id == d.courseId && q.courseId == q.id)
      && (isNew && d.courseId == "" ==> q.id == generatedId)
      && (!isNew ==> q.id == p.id && q.createdAt == p.createdAt && q.createdBy == p.createdBy)
      && (isNew ==> q.createdAt == nowIso && q.createdBy == user)
      && q.name == d.name && q.courseId == d.courseId && q.status == d.status
      && q.lpo == d.lpoText && q.sme == d.smeText && q.lxo == d.lxoText
      && q.tms == p.tms && q.customFields == p.customFields && q.projectId == p.projectId
  {
  }

  // ---------------------------------------------------------------------------
  // Info bar
  // ---------------------------------------------------------------------------

  /** UTF-8 of a character below U+10000. */
  function Utf8(c: char): (bytes: seq<int>)
    requires c as int < 0x10000
    ensures forall i :: 0 <= i < |bytes| ==> 0 <= bytes[i] < 256
  {
    var n := c as int;
    if n < 0x80 then [n]
    else if n < 0x800 then [0xC0 + n / 64, 0x80 + n % 64]
    else [0xE0 + n / 4096, 0x80 + n / 64 % 64, 0x80 + n % 64]
  }

  /** A byte read as Windows-1252 (the five bytes it leaves undefined read
      as the C1 control of the same number). */
  function Cp1252(b: int): (c: char)
    requires 0 <= b < 256
  {
    if b == 0x80 then '\U{20AC}' else if b == 0x82 then '\U{201A}' else if b == 0x83 then '\U{0192}'
    else if b == 0x84 then '\U{201E}' else if b == 0x85 then '\U{2026}' else if b == 0x86 then '\U{2020}'
    else if b == 0x87 then '\U{2021}' else if b == 0x88 then '\U{02C6}' else if b == 0x89 then '\U{2030}'
    else if b == 0x8A then '\U{0160}' else if b == 0x8B then '\U{2039}' else if b == 0x8C then '\U{0152}'
    else if b == 0x8E then '\U{017D}' else if b == 0x91 then '\U{2018}' else if b == 0x92 then '\U{2019}'
    else if b == 0x93 then '\U{201C}' else if b == 0x94 then '\U{201D}' else if b == 0x95 then '\U{2022}'
    else if b == 0x96 then '\U{2013}' else if b == 0x97 then '\U{2014}' else if b == 0x98 then '\U{02DC}'
    else if b == 0x99 then '\U{2122}' else if b == 0x9A then '\U{0161}' else if b == 0x9B then '\U{203A}'
    else if b == 0x9C then '\U{0153}' else if b == 0x9E then '\U{017E}' else if b == 0x9F then '\U{0178}'
    else b as char
  }

  /** Text saved as UTF-8 and read back as Windows-1252. */
  function Garbled(s: string): (r: string)
    requires forall i :: 0 <= i < |s| ==> s[i] as int < 0x10000
  {
    if s == [] then []
    else
      var bytes := Utf8(s[0]);
      seq(|bytes|, i requires 0 <= i < |bytes| => Cp1252(bytes[i])) + Garbled(s[1..])
  }

  const Chevron: string := " \U{203A} "
  const Bullet: string := " \U{2022} "
  const Dash: string := "\U{2014}"

  /** The separators and placeholder as the info bar's source text has them. */
  const ChevronAsWritten: string := " \U{00E2}\U{20AC}\U{00BA} "
  const BulletAsWritten: string := " \U{00E2}\U{20AC}\U{00A2} "
  const DashAsWritten: string := "\U{00E2}\U{20AC}\U{201D}"

  /** Each as-written string is the intended one garbled. */
  lemma SeparatorsAreGarbled()
    ensures ChevronAsWritten == Garbled(Chevron)
    ensures BulletAsWritten == Garbled(Bullet)
    ensures DashAsWritten == Garbled(Dash)
  {
    assert Utf8('\U{203A}') == [0xE2, 0x80, 0xBA];
    assert Utf8('\U{2022}') == [0xE2, 0x80, 0xA2];
    assert Utf8('\U{2014}') == [0xE2, 0x80, 0x94];
    assert Chevron[1..][1..][1..] == [];
    assert Bullet[1..][1..][1..] == [];
    assert Dash[1..] == [];
  }

  /** The non-empty values, in order. */
  function NonEmpty(values: seq<string>): (r: seq<string>)
    ensures forall v :: v in r <==> v in values && v != ""
  {
    if values == [] then []
    else (if values[0] != "" then [values[0]] else []) + NonEmpty(values[1..])
  }

  /** The breadcrumb of `_update_info_bar` with the given separators: the
      non-empty campus, offer and sub-offer joined, then the non-empty course
      type and effort type, each after the second separator. */
  function InfoBreadcrumbWith(p: Project, sep: string, extraSep: string): string {
    var crumbs := NonEmpty([p.campus, p.offer, p.subOffer]);
    var extra := NonEmpty([p.courseType, p.effortType]);
    Join(crumbs, sep) + (if extra != [] then extraSep + Join(extra, extraSep) else "")
  }

  /** As written: the garbled separators. */
  function InfoBreadcrumbAsWritten(p: Project): string {
    InfoBreadcrumbWith(p, ChevronAsWritten, BulletAsWritten)
  }

  /** As intended: " › " between the crumbs and " • " before each extra. */
  function InfoBreadcrumb(p: Project): string {
    InfoBreadcrumbWith(p, Chevron, Bullet)
  }

  /** A project in campus "Main", offer "Online", nothing else set. */
  function MainOnline(): Project {
    NewProject("p1", "Course").(campus := "Main", offer := "Online")
  }

  /** As written, the crumbs are separated by the five characters " â€º "
      instead of " › ". */
  lemma InfoBreadcrumbShowsGarbage()
    ensures InfoBreadcrumbAsWritten(MainOnline()) == "Main" + ChevronAsWritten + "Online"
    ensures |InfoBreadcrumbAsWritten(MainOnline())| == 15
    ensures InfoBreadcrumbAsWritten(MainOnline()) != InfoBreadcrumb(MainOnline())
  {
    var p := MainOnline();
    assert NonEmpty([p.campus, p.offer, p.subOffer]) == ["Main", "Online"];
    assert NonEmpty([p.courseType, p.effortType]) == [];
    assert InfoBreadcrumb(p) == "Main" + Chevron + "Online";
    assert InfoBreadcrumb(p)[5] == '\U{203A}';
    assert InfoBreadcrumbAsWritten(p)[5] == '\U{00E2}';
  }

  /** As intended, two crumbs read "a › b", one character between the
      spaces. */
  lemma InfoBreadcrumbTwoCrumbs(p: Project)
    requires p.campus != "" && p.offer != "" && p.subOffer == "" && p.courseType == "" && p.effortType == ""
    ensures InfoBreadcrumb(p) == p.campus + " \U{203A} " + p.offer
    ensures |InfoBreadcrumb(p)| == |p.campus| + |p.offer| + 3
  {
    var crumbs := [p.campus, p.offer, p.subOffer];
    assert crumbs[1..][1..][1..] == [];
    assert NonEmpty(crumbs[1..][1..]) == [];
    assert NonEmpty(crumbs[1..]) == [p.offer];
    assert NonEmpty(crumbs) == [p.campus, p.offer];
    var extra := [p.courseType, p.effortType];
    assert extra[1..][1..] == [];
    assert NonEmpty(extra) == [];
    assert [p.campus, p.offer][1..] == [p.offer];
    assert Join([p.campus, p.offer], Chevron) == p.campus + Chevron + p.offer;
  }

  /** The breadcrumb is empty exactly when campus, offer, sub-offer, course
      type and effort type are all blank. */
  lemma InfoBreadcrumbEmpty(p: Project)
    ensures InfoBreadcrumb(p) == "" <==>
      p.campus == "" && p.offer == "" && p.subOffer == "" && p.courseType == "" && p.effortType == ""
  {
    var crumbs := NonEmpty([p.campus, p.offer, p.subOffer]);
    var extra := NonEmpty([p.courseType, p.effortType]);
    if crumbs != [] {
      assert crumbs[0] in crumbs;
      JoinNonEmpty(crumbs, Chevron);
    } else {
      assert p.campus !in crumbs && p.offer !in crumbs && p.subOffer !in crumbs;
    }
    if extra != [] {
      assert |Bullet + Join(extra, Bullet)| >= |Bullet|;
    } else {
      assert p.courseType !in extra && p.effortType !in extra;
    }
  }

  /** What the info bar shows. `logged` is the project's total hours. */
  datatype InfoBar = InfoBar(
    title: string, courseLabel: string, breadcrumb: string,
    badge: string, badgeColor: string, badgeTextColor: string,
    ratioShown: bool, overTarget: bool)

  /** `_update_info_bar` (its other texts are number formatting). */
  function InfoBarOf(p: Project, logged: int): (bar: InfoBar)
    ensures bar.title == (if p.name != "" then p.name else "New Project")
    ensures bar.courseLabel == (if p.courseId != "" then p.courseId else p.id)
    ensures bar.ratioShown <==> p.targetHours > 0.0
    ensures bar.overTarget <==> p.targetHours > 0.0 && logged as real > p.targetHours
    ensures bar.breadcrumb == InfoBreadcrumb(p)
    ensures p.status != "" ==> bar.badge == p.status
    ensures p.status == "" ==> bar.badge == "Not Started"
    ensures bar.badgeColor == "#28a745" <==> p.status == "Complete"
    ensures bar.badgeColor == "#ffc107" <==> p.status == "In Progress"
    ensures bar.badgeColor == "#6c757d" <==> p.status != "Complete" && p.status != "In Progress"
    ensures bar.badgeTextColor == (if p.status == "In Progress" then "black" else "white")
  {
    var status := if p.status != "" then p.status else "Not Started";
    var color := if status == "Complete" then "#28a745"
                 else if status == "In Progress" then "#ffc107" else "#6c757d";
    var shown := p.targetHours > 0.0;
    var over := shown && (assert p.targetHours != 0.0; OverOne(logged as real, p.targetHours));
    InfoBar(if p.name != "" then p.name else "New Project",
            if p.courseId != "" then p.courseId else p.id,
            InfoBreadcrumb(p), status, color,
            if status == "In Progress" then "black" else "white", shown, over)
  }

  /** `logged / target > 1` for a positive target. */
  function OverOne(logged: real, target: real): (r: bool)
    requires target > 0.0
    ensures r <==> logged > target
  {
    assert logged / target * target == logged;
    logged / target > 1.0
  }
}
