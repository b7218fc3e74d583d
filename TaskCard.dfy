/**
 * The task card of client/src/components/TaskCard.tsx: the checklist summary,
 * the assignee initials, the status label, the draggable id, and the local
 * checklist that every `onUpdate` of a SubtaskItem rewrites by id.
 */
module TaskCard {
  import opened Js
  import opened Subtasks
  import Board

  // ---------------------------------------------------------------------------
  // The local checklist and handleSubtaskUpdate
  // ---------------------------------------------------------------------------

  /**
   * `handleSubtaskUpdate`: every entry whose id is the update's id becomes the
   * update; every other entry, and the order, stays as it was.
   */
  function ReplaceById(list: seq<Subtask>, u: Subtask): (r: seq<Subtask>)
    ensures |r| == |list|
    ensures forall i :: 0 <= i < |list| && list[i].id == u.id ==> r[i] == u
    ensures forall i :: 0 <= i < |list| && list[i].id != u.id ==> r[i] == list[i]
  {
    if list == [] then []
    else [if list[0].id == u.id then u else list[0]] + ReplaceById(list[1..], u)
  }

  /** An update whose id matches no entry leaves the list as it was. */
  lemma ReplaceNoMatch(list: seq<Subtask>, u: Subtask)
    requires forall i :: 0 <= i < |list| ==> list[i].id != u.id
    ensures ReplaceById(list, u) == list
  {
  }

  /** Applying the same update twice is applying it once. */
  lemma ReplaceIdempotent(list: seq<Subtask>, u: Subtask)
    ensures ReplaceById(ReplaceById(list, u), u) == ReplaceById(list, u)
  {
  }

  /** Of two updates with the same id, the later one wins outright. */
  lemma ReplaceSameId(list: seq<Subtask>, a: Subtask, b: Subtask)
    requires a.id == b.id
    ensures ReplaceById(ReplaceById(list, a), b) == ReplaceById(list, b)
  {
  }

  /**
   * Replacing the entries with id `s.id` by anything and then by `s` restores
   * a list whose entries with that id were all `s`.
   */
  lemma ReplaceRestores(list: seq<Subtask>, s: Subtask, v: Subtask)
    requires v.id == s.id
    requires forall i :: 0 <= i < |list| && list[i].id == s.id ==> list[i] == s
    ensures ReplaceById(ReplaceById(list, v), s) == list
  {
  }

  /** The card's list after it has received the `onUpdate` effects in order; requests leave it alone. */
  function Deliver(list: seq<Subtask>, effects: seq<Effect>): seq<Subtask>
    decreases |effects|
  {
    if effects == [] then list
    else if effects[0].OnUpdate? then Deliver(ReplaceById(list, effects[0].value), effects[1..])
    else Deliver(list, effects[1..])
  }

  /** The list after the three effects of one update, spelled out. */
  lemma DeliverUpdate(list: seq<Subtask>, e: seq<Effect>)
    requires |e| == 3 && e[0].OnUpdate? && e[1].Patch? && e[2].OnUpdate?
    ensures Deliver(list, e) == ReplaceById(ReplaceById(list, e[0].value), e[2].value)
  {
    var l1 := ReplaceById(list, e[0].value);
    assert Deliver(list, e) == Deliver(l1, e[1..]);
    assert e[1..][1..] == e[2..];
    assert Deliver(l1, e[1..]) == Deliver(l1, e[2..]);
    assert e[2..][1..] == [];
  }

  /**
   * A failed edit leaves the card's checklist exactly as it was before the edit.
   */
  lemma FailedEditRestores(taskId: string, list: seq<Subtask>, s: Subtask, f: Fields)
    requires forall i :: 0 <= i < |list| && list[i].id == s.id ==> list[i] == s
    ensures |Deliver(list, UpdateEffects(taskId, s, f, Failed))| == |list|
    ensures forall i :: 0 <= i < |list| ==> Deliver(list, UpdateEffects(taskId, s, f, Failed))[i] == list[i]
  {
    var e := UpdateEffects(taskId, s, f, Failed);
    DeliverUpdate(list, e);
    ReplaceRestores(list, s, Merge(s, f));
  }

  /**
   * As written, a successful edit reports the whole task document the server
   * answers with; its id is the task's id, which (ids being distinct) names no
   * subtask, so the card keeps the optimistic value instead of the server's.
   */
  lemma SuccessLeavesOptimistic(taskId: string, list: seq<Subtask>, s: Subtask, f: Fields, reply: TaskReply)
    requires forall i :: 0 <= i < |list| ==> list[i].id != reply.id
    ensures |Deliver(list, UpdateEffects(taskId, s, f, Answered(reply)))| == |list|
    ensures forall i :: 0 <= i < |list| ==>
      Deliver(list, UpdateEffects(taskId, s, f, Answered(reply)))[i] == ReplaceById(list, Merge(s, f))[i]
  {
    var e := UpdateEffects(taskId, s, f, Answered(reply));
    DeliverUpdate(list, e);
  }

  /**
   * A concrete instance: the text " b " is saved, the server stores it trimmed
   * as "b", yet the card goes on showing " b ".
   */
  lemma SuccessIgnoresServerValue()
    ensures var s := Subtask("s1", "a", false);
            var f := Fields(Some(" b "), None);
            var reply := TaskReply("t1", [Subtask("s1", "b", false)]);
            Deliver([s], UpdateEffects("t1", s, f, Answered(reply))) == [Subtask("s1", " b ", false)]
            && reply.subtasks != [Subtask("s1", " b ", false)]
  {
    var s := Subtask("s1", "a", false);
    var f := Fields(Some(" b "), None);
    var reply := TaskReply("t1", [Subtask("s1", "b", false)]);
    SuccessLeavesOptimistic("t1", [s], s, f, reply);
  }

  /**
   * The corrected success path: the value reported is the subtask the returned
   * task holds under the edited id, so the card ends showing what the server
   * stored.  On failure nothing changes from the original.
   */
  lemma SuccessShowsServerValue(taskId: string, list: seq<Subtask>, s: Subtask, f: Fields, reply: TaskReply)
    requires StoredSubtask(reply.subtasks, s.id).Some?
    ensures Deliver(list, CorrectedEffects(taskId, s, f, Answered(reply)))
         == ReplaceById(list, StoredSubtask(reply.subtasks, s.id).value)
  {
    var e := CorrectedEffects(taskId, s, f, Answered(reply));
    DeliverUpdate(list, e);
    ReplaceSameId(list, Merge(s, f), StoredSubtask(reply.subtasks, s.id).value);
  }

  /** With the correction a failed edit still restores the checklist. */
  lemma CorrectedFailedEditRestores(taskId: string, list: seq<Subtask>, s: Subtask, f: Fields)
    requires forall i :: 0 <= i < |list| && list[i].id == s.id ==> list[i] == s
    ensures |Deliver(list, CorrectedEffects(taskId, s, f, Failed))| == |list|
    ensures forall i :: 0 <= i < |list| ==> Deliver(list, CorrectedEffects(taskId, s, f, Failed))[i] == list[i]
  {
    var e := CorrectedEffects(taskId, s, f, Failed);
    DeliverUpdate(list, e);
    ReplaceRestores(list, s, Merge(s, f));
  }

  // ---------------------------------------------------------------------------
  // The checklist summary
  // ---------------------------------------------------------------------------

  /** A task as the card receives it in its `task` prop. */
  datatype CardTask = CardTask(
    id: string,
    title: string,
    priority: string,
    status: Board.Status,
    dueDate: Option<string>,
    assignee: Option<string>,
    subtasks: Option<seq<Subtask>>)

  /** The number of completed entries. */
  function CountCompleted(list: seq<Subtask>): (n: nat)
    ensures n <= |list|
    ensures n == |list| <==> forall i :: 0 <= i < |list| ==> list[i].completed
    ensures n == 0 <==> forall i :: 0 <= i < |list| ==> !list[i].completed
  {
    if list == [] then 0
    else (if list[0].completed then 1 else 0) + CountCompleted(list[1..])
  }

  /** The "Checklist (completed/total)" figures. */
  datatype Summary = Summary(completed: nat, total: nat)

  /**
   * The summary is computed from the `task.subtasks` prop: both figures are 0
   * when it is absent, and completed never exceeds total.
   */
  function Checklist(task: CardTask): (r: Summary)
    ensures r.completed <= r.total
    ensures task.subtasks.None? ==> r == Summary(0, 0)
    ensures task.subtasks.Some? ==> r.total == |task.subtasks.value|
    ensures task.subtasks.Some? ==>
      (r.completed == r.total <==> forall i :: 0 <= i < r.total ==> task.subtasks.value[i].completed)
  {
    match task.subtasks
    case None => Summary(0, 0)
    case Some(list) => Summary(CountCompleted(list), |list|)
  }

  /** The card: its prop and its local copy of the checklist (initially the prop's, or empty). */
  datatype Card = Card(task: CardTask, subtasks: seq<Subtask>)

  function NewCard(task: CardTask): (c: Card)
    ensures c.task == task
    ensures task.subtasks.Some? ==> c.subtasks == task.subtasks.value
    ensures task.subtasks.None? ==> c.subtasks == []
  {
    Card(task, match task.subtasks case Some(l) => l case None => [])
  }

  /** `handleSubtaskUpdate` changes the local list only. */
  function HandleSubtaskUpdate(c: Card, u: Subtask): (d: Card)
    ensures d.task == c.task && d.subtasks == ReplaceById(c.subtasks, u)
  {
    c.(subtasks := ReplaceById(c.subtasks, u))
  }

  /**
   * Because the summary reads the prop, ticking a box in the card changes the
   * list it shows but not the "Checklist (n/m)" figures.
   */
  lemma SummaryLagsLocalList()
    ensures var t := CardTask("t1", "T", "low", Board.Todo, None, None, Some([Subtask("s1", "x", false)]));
            var c := HandleSubtaskUpdate(NewCard(t), Subtask("s1", "x", true));
            Checklist(c.task) == Summary(0, 1) && CountCompleted(c.subtasks) == 1
  {
    var t := CardTask("t1", "T", "low", Board.Todo, None, None, Some([Subtask("s1", "x", false)]));
    var c := HandleSubtaskUpdate(NewCard(t), Subtask("s1", "x", true));
    assert c.subtasks == [Subtask("s1", "x", true)];
  }

  // ---------------------------------------------------------------------------
  // Initials, status label, draggable id
  // ---------------------------------------------------------------------------

  /**
   * The badge: the first two characters of the assignee upper-cased (fewer
   * when the name is shorter), or "No Assignee" when there is none or it is empty.
   */
  function Initials(assignee: Option<string>): (r: string)
    ensures assignee.None? || assignee.value == [] ==> r == "No Assignee"
    ensures assignee.Some? && assignee.value != [] ==>
      var a := assignee.value;
      (|r| == if |a| < 2 then |a| else 2)
      && forall i :: 0 <= i < |r| ==> r[i] == UpperChar(a[i])
  {
    match assignee
    case Some(a) => if a == [] then "No Assignee" else ToUpper(a[..if |a| < 2 then |a| else 2])
    case None => "No Assignee"
  }

  /** The status badge: the status key with "inprogress" replaced, upper-cased. */
  function StatusLabel(s: Board.Status): string
  {
    ToUpper(ReplaceFirst(Board.Key(s), "inprogress", "In Progress"))
  }

  /** Only the in-progress key contains "inprogress"; the badge of every other status is its key upper-cased. */
  lemma PlainLabel(s: Board.Status)
    requires s != Board.InProgress
    ensures StatusLabel(s) == ToUpper(Board.Key(s))
  {
    assert |Board.Key(s)| < |"inprogress"|;
    assert FindSubstring(Board.Key(s), "inprogress") == None;
  }

  /** The in-progress badge is spelled out with a space. */
  lemma InProgressLabel()
    ensures StatusLabel(Board.InProgress) == "IN PROGRESS"
  {
    var key := Board.Key(Board.InProgress);
    assert key[..|"inprogress"|] == "inprogress";
    assert ReplaceFirst(key, "inprogress", "In Progress") == "In Progress";
    UpperLiteral("In Progress", "IN PROGRESS");
  }

  /** The badge reads IN PROGRESS for the in-progress status and the upper-cased key otherwise. */
  lemma StatusLabels(s: Board.Status)
    ensures s == Board.InProgress ==> StatusLabel(s) == "IN PROGRESS"
    ensures s == Board.Backlog ==> StatusLabel(s) == "BACKLOG"
    ensures s == Board.Todo ==> StatusLabel(s) == "TODO"
    ensures s == Board.Done ==> StatusLabel(s) == "DONE"
  {
    match s
    case InProgress => InProgressLabel();
    case Backlog => PlainLabel(s); UpperLiteral("backlog", "BACKLOG");
    case Todo => PlainLabel(s); UpperLiteral("todo", "TODO");
    case Done => PlainLabel(s); UpperLiteral("done", "DONE");
  }

  /** ToUpper agrees with a string that is the character-wise upper case of another. */
  lemma UpperLiteral(s: string, u: string)
    requires |s| == |u| && forall i :: 0 <= i < |s| ==> UpperChar(s[i]) == u[i]
    ensures ToUpper(s) == u
  {
  }

  /** The Draggable's id: the column's status key, a dash, and the task id. */
  function DraggableId(s: Board.Status, id: string): string
  {
    Board.Key(s) + "-" + id
  }

  /** Reads a draggable id back: the key before the first dash and everything after it. */
  function ParseDraggableId(d: string): Option<(Board.Status, string)>
  {
    match IndexOf(d, '-')
    case None => None
    case Some(k) =>
      match Board.StatusOfKey(d[..k])
      case None => None
      case Some(s) => Some((s, d[k + 1..]))
  }

  /**
   * No status key contains a dash, so the id can be read back whatever the
   * task id is; in particular two cards never share a draggable id.
   */
  lemma DraggableIdRoundTrip(s: Board.Status, id: string)
    ensures ParseDraggableId(DraggableId(s, id)) == Some((s, id))
  {
    var key := Board.Key(s);
    var d := DraggableId(s, id);
    assert '-' !in key by {
      match s
      case Backlog =>
      case Todo =>
      case InProgress =>
      case Done =>
    }
    assert d[..|key|] == key;
    assert d[|key|] == '-';
    var k := IndexOf(d, '-').value;
    assert k == |key|;
    Board.KeyRoundTrip(s);
    assert d[k + 1..] == id;
  }

  lemma DraggableIdInjective(s1: Board.Status, id1: string, s2: Board.Status, id2: string)
    ensures DraggableId(s1, id1) == DraggableId(s2, id2) <==> s1 == s2 && id1 == id2
  {
    if DraggableId(s1, id1) == DraggableId(s2, id2) {
      DraggableIdRoundTrip(s1, id1);
      DraggableIdRoundTrip(s2, id2);
    }
  }
}
