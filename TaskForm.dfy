/**
 * The add/edit task dialog of client/src/components/AddTaskModal.tsx.  Its
 * state is five form fields; the checklist edits are map, filter and append
 * over the checklist field, and saving is a guard followed by `onSave` and
 * `onClose`, in that order.
 */
module TaskForm {
  import opened Js

  datatype Priority = High | Medium | Low

  /** A checklist entry of the form; its id is the clock reading when it was added. */
  datatype Item = Item(id: int, title: string, completed: bool)

  /** The task handed to the dialog when it edits rather than creates. */
  datatype ExistingTask = ExistingTask(
    id: Option<string>,
    title: Option<string>,
    priority: Option<Priority>,
    assignee: Option<string>,
    checklist: Option<seq<Item>>,
    dueDate: Option<string>)

  /** What `onSave` receives. */
  datatype Payload = Payload(title: string, priority: Priority, assignee: string, checklist: seq<Item>, dueDate: string)

  /** What the dialog does that others see. */
  datatype ModalEffect = Alert(message: string) | OnSave(payload: Payload, taskId: Option<string>) | OnClose

  const RequiredMessage := "Please fill all required fields."

  // ---------------------------------------------------------------------------
  // Checklist edits
  // ---------------------------------------------------------------------------

  /** `handleSubtaskChange`: the entries with the id get the new title; nothing else changes. */
  function RenameItem(c: seq<Item>, id: int, title: string): (r: seq<Item>)
    ensures |r| == |c|
    ensures forall i :: 0 <= i < |c| ==>
      r[i].id == c[i].id && r[i].completed == c[i].completed
      && r[i].title == (if c[i].id == id then title else c[i].title)
  {
    if c == [] then []
    else [if c[0].id == id then c[0].(title := title) else c[0]] + RenameItem(c[1..], id, title)
  }

  /** The checkbox: the entries with the id have their flag flipped; nothing else changes. */
  function ToggleItem(c: seq<Item>, id: int): (r: seq<Item>)
    ensures |r| == |c|
    ensures forall i :: 0 <= i < |c| ==>
      r[i].id == c[i].id && r[i].title == c[i].title
      && r[i].completed == (if c[i].id == id then !c[i].completed else c[i].completed)
  {
    if c == [] then []
    else [if c[0].id == id then c[0].(completed := !c[0].completed) else c[0]] + ToggleItem(c[1..], id)
  }

  /** `addNewSubtask`: one blank, unticked entry at the end. */
  function AddItem(c: seq<Item>, stamp: int): (r: seq<Item>)
    ensures |r| == |c| + 1 && r[..|c|] == c && r[|c|] == Item(stamp, "", false)
  {
    c + [Item(stamp, "", false)]
  }

  /** Whether some entry carries the id. */
  predicate HasItem(c: seq<Item>, id: int)
  {
    exists i :: 0 <= i < |c| && c[i].id == id
  }

  /**
   * `removeSubtask`: no entry with the id is left, every other entry is kept,
   * and nothing new appears.
   */
  function RemoveItem(c: seq<Item>, id: int): (r: seq<Item>)
    ensures |r| <= |c|
    ensures forall i :: 0 <= i < |r| ==> r[i].id != id && r[i] in c
    ensures forall x :: x in c && x.id != id ==> x in r
    ensures |r| == |c| <==> !HasItem(c, id)
  {
    if c == [] then []
    else if c[0].id == id then RemoveItem(c[1..], id)
    else
      var rest := RemoveItem(c[1..], id);
      assert HasItem(c, id) ==> HasItem(c[1..], id) by {
        if HasItem(c, id) {
          var i :| 0 <= i < |c| && c[i].id == id;
          assert c[1..][i - 1].id == id;
        }
      }
      [c[0]] + rest
  }

  /** Removal keeps the relative order: it works piece by piece. */
  lemma {:induction false} RemoveConcat(a: seq<Item>, b: seq<Item>, id: int)
    ensures RemoveItem(a + b, id) == RemoveItem(a, id) + RemoveItem(b, id)
  {
    if a == [] {
      assert a + b == b;
    } else {
      assert (a + b)[0] == a[0] && (a + b)[1..] == a[1..] + b;
      RemoveConcat(a[1..], b, id);
    }
  }

  /** Removing what was just added, under an id no other entry has, gives back the checklist. */
  lemma AddThenRemove(c: seq<Item>, stamp: int)
    requires !HasItem(c, stamp)
    ensures RemoveItem(AddItem(c, stamp), stamp) == c
  {
    RemoveConcat(c, [Item(stamp, "", false)], stamp);
    assert RemoveItem([Item(stamp, "", false)], stamp) == [];
    assert |RemoveItem(c, stamp)| == |c|;
    NoMatchRemove(c, stamp);
  }

  /** Removing an id no entry has changes nothing. */
  lemma {:induction false} NoMatchRemove(c: seq<Item>, id: int)
    requires !HasItem(c, id)
    ensures RemoveItem(c, id) == c
  {
    if c != [] {
      assert !HasItem(c[1..], id) by {
        forall i | 0 <= i < |c[1..]| ensures c[1..][i].id != id {
          assert c[1..][i] == c[i + 1];
        }
      }
      NoMatchRemove(c[1..], id);
    }
  }

  /** Ticking the same box twice gives back the checklist. */
  lemma ToggleTwice(c: seq<Item>, id: int)
    ensures ToggleItem(ToggleItem(c, id), id) == c
  {
  }

  /** Of two renames of the same entry, the later wins outright. */
  lemma RenameTwice(c: seq<Item>, id: int, a: string, b: string)
    ensures RenameItem(RenameItem(c, id, a), id, b) == RenameItem(c, id, b)
  {
  }

  // ---------------------------------------------------------------------------
  // The save guard
  // ---------------------------------------------------------------------------

  /** How many entries have a title that is not blank once trimmed. */
  function CountFilled(c: seq<Item>): (n: nat)
    ensures n <= |c|
    ensures n >= 1 <==> exists i :: 0 <= i < |c| && !IsBlank(c[i].title)
  {
    if c == [] then 0
    else
      var rest := CountFilled(c[1..]);
      assert (exists i :: 0 <= i < |c| && !IsBlank(c[i].title))
        <==> !IsBlank(c[0].title) || exists i :: 0 <= i < |c[1..]| && !IsBlank(c[1..][i].title) by {
        if exists i :: 0 <= i < |c| && !IsBlank(c[i].title) {
          var i :| 0 <= i < |c| && !IsBlank(c[i].title);
          if i > 0 { assert c[1..][i - 1] == c[i]; }
        }
        if exists i :: 0 <= i < |c[1..]| && !IsBlank(c[1..][i].title) {
          var i :| 0 <= i < |c[1..]| && !IsBlank(c[1..][i].title);
          assert c[i + 1] == c[1..][i];
        }
      }
      (if Trim(c[0].title) != "" then 1 else 0) + rest
  }

  /**
   * The guard of `handleSave`: a title that is not empty (it is not trimmed, so
   * a title of spaces passes), a chosen priority, and at least one checklist
   * entry whose title is not blank.
   */
  predicate CanSave(title: string, priority: Option<Priority>, checklist: seq<Item>)
  {
    title != "" && priority.Some? && CountFilled(checklist) >= 1
  }

  /** The guard in terms of what the user filled in. */
  lemma CanSaveMeans(title: string, priority: Option<Priority>, checklist: seq<Item>)
    ensures CanSave(title, priority, checklist) <==>
      |title| > 0 && priority.Some? && exists i :: 0 <= i < |checklist| && !IsBlank(checklist[i].title)
  {
  }

  /** A title made of spaces passes the guard, while the same text in a checklist entry does not count. */
  lemma BlankTitlePasses()
    ensures CanSave(" ", Some(High), [Item(1, "x", false)])
    ensures !CanSave("x", Some(High), [Item(1, " ", false)])
  {
    FilledAt([Item(1, "x", false)], 0, 0);
    assert IsBlank([Item(1, " ", false)][0].title);
  }

  /** One character that is not whitespace in one entry's title is enough for the guard's count. */
  lemma FilledAt(c: seq<Item>, i: nat, j: nat)
    requires i < |c| && j < |c[i].title| && !IsWhitespace(c[i].title[j])
    ensures CountFilled(c) >= 1
  {
    assert !IsBlank(c[i].title);
  }

  /** The effects of `handleSave`. */
  function SaveEffects(title: string, priority: Option<Priority>, assignee: string,
                       checklist: seq<Item>, dueDate: string, taskId: Option<string>): (e: seq<ModalEffect>)
    ensures !CanSave(title, priority, checklist) ==> e == [Alert(RequiredMessage)]
    ensures CanSave(title, priority, checklist) ==>
      |e| == 2 && e[1] == OnClose && e[0].OnSave? && e[0].taskId == taskId
      && e[0].payload.checklist == checklist && e[0].payload.title == title
      && Some(e[0].payload.priority) == priority
      && e[0].payload.assignee == assignee && e[0].payload.dueDate == dueDate
  {
    if !CanSave(title, priority, checklist) then [Alert(RequiredMessage)]
    else [OnSave(Payload(title, priority.value, assignee, checklist, dueDate), taskId), OnClose]
  }

  /** An accepted save passes a checklist with blank entries as it is. */
  lemma BlankEntriesKept()
    ensures var c := [Item(1, "x", false), Item(2, "", false)];
            var e := SaveEffects("t", Some(Low), "", c, "", None);
            e[0].OnSave? && e[0].payload.checklist == c
  {
    var c := [Item(1, "x", false), Item(2, "", false)];
    FilledAt(c, 0, 0);
  }

  /** The first ten characters (fewer when shorter), as `slice(0, 10)` keeps. */
  function DatePart(d: string): (r: string)
    ensures |r| == if |d| < 10 then |d| else 10
    ensures r == d[..|r|]
  {
    if |d| < 10 then d else d[..10]
  }

  // ---------------------------------------------------------------------------
  // The dialog
  // ---------------------------------------------------------------------------

  class AddTaskModal {
    const existing: Option<ExistingTask>
    var title: string
    var priority: Option<Priority>
    var assignee: string
    var checklist: seq<Item>
    var dueDate: string
    var effects: seq<ModalEffect>

    /** The dialog as first rendered: empty fields and one blank entry whose id is the clock reading. */
    constructor (existing: Option<ExistingTask>, now: int)
      ensures this.existing == existing
      ensures title == "" && priority == None && assignee == "" && dueDate == ""
      ensures checklist == [Item(now, "", false)] && effects == []
    {
      this.existing := existing;
      title, priority, assignee, dueDate := "", None, "", "";
      checklist := [Item(now, "", false)];
      effects := [];
    }

    /**
     * The prefill from the task being edited: missing values become empty,
     * and only the date part of the due date is kept.  Without a task
     * nothing changes.
     */
    method Prefill()
      modifies this
      ensures existing.None? ==>
        (title == old(title) && priority == old(priority) && assignee == old(assignee)
         && checklist == old(checklist) && dueDate == old(dueDate))
      ensures existing.Some? ==>
        var t := existing.value;
        title == (if t.title.Some? then t.title.value else "")
        && priority == t.priority
        && assignee == (if t.assignee.Some? then t.assignee.value else "")
        && checklist == (if t.checklist.Some? then t.checklist.value else [])
        && dueDate == (if t.dueDate.Some? then DatePart(t.dueDate.value) else "")
      ensures effects == old(effects)
    {
      if existing.Some? {
        var t := existing.value;
        title := if t.title.Some? then t.title.value else "";
        priority := t.priority;
        assignee := if t.assignee.Some? then t.assignee.value else "";
        checklist := if t.checklist.Some? then t.checklist.value else [];
        dueDate := if t.dueDate.Some? then DatePart(t.dueDate.value) else "";
      }
    }

    method HandleSubtaskChange(id: int, newTitle: string)
      modifies this
      ensures checklist == RenameItem(old(checklist), id, newTitle)
      ensures title == old(title) && priority == old(priority) && assignee == old(assignee)
      ensures dueDate == old(dueDate) && effects == old(effects)
    {
      checklist := RenameItem(checklist, id, newTitle);
    }

    method AddNewSubtask(now: int)
      modifies this
      ensures checklist == AddItem(old(checklist), now)
      ensures title == old(title) && priority == old(priority) && assignee == old(assignee)
      ensures dueDate == old(dueDate) && effects == old(effects)
    {
      checklist := AddItem(checklist, now);
    }

    method RemoveSubtask(id: int)
      modifies this
      ensures checklist == RemoveItem(old(checklist), id)
      ensures title == old(title) && priority == old(priority) && assignee == old(assignee)
      ensures dueDate == old(dueDate) && effects == old(effects)
    {
      checklist := RemoveItem(checklist, id);
    }

    method ToggleSubtask(id: int)
      modifies this
      ensures checklist == ToggleItem(old(checklist), id)
      ensures title == old(title) && priority == old(priority) && assignee == old(assignee)
      ensures dueDate == old(dueDate) && effects == old(effects)
    {
      checklist := ToggleItem(checklist, id);
    }

    /** `handleSave`: the alert when the guard fails, otherwise `onSave` then `onClose`. */
    method HandleSave()
      modifies this
      ensures effects == old(effects) + SaveEffects(title, priority, assignee, checklist, dueDate,
                                                    if existing.Some? then existing.value.id else None)
      ensures title == old(title) && priority == old(priority) && assignee == old(assignee)
      ensures checklist == old(checklist) && dueDate == old(dueDate)
    {
      if title == "" || priority.None? || CountFilled(checklist) < 1 {
        effects := effects + [Alert(RequiredMessage)];
        return;
      }
      var payload := Payload(title, priority.value, assignee, checklist, dueDate);
      var taskId := if existing.Some? then existing.value.id else None;
      effects := effects + [OnSave(payload, taskId)];
      effects := effects + [OnClose];
    }
  }
}
