/**
 * One checklist row of a task card (client/src/components/SubtaskItem.tsx).
 * An edit is optimistic: the merged value is reported to the card at once,
 * then the PATCH request is sent, and when it completes the card is told
 * either the server's answer or, on failure, the subtask as it was before the
 * edit.  Each edit is modelled as a small state machine,
 * Proposed -> Confirmed | RolledBack, whose reports are the `onUpdate` calls.
 */
module Subtasks {
  import opened Js

  /** A checklist entry as the client holds it. */
  datatype Subtask = Subtask(id: string, text: string, completed: bool)

  /**
   * The `Partial<Subtask>` an update supplies.  The component only ever sends
   * the text or the completion flag, never an id, so the id is not a field here.
   */
  datatype Fields = Fields(text: Option<string>, completed: Option<bool>)

  /**
   * The task document the server answers a subtask PATCH with
   * (server/controllers/taskControl.js:82): its id and its stored subtasks.
   */
  datatype TaskReply = TaskReply(id: string, subtasks: seq<Subtask>)

  /** How the PATCH request ends: with the server's answer, or rejected. */
  datatype Remote = Answered(reply: TaskReply) | Failed

  /**
   * The answer read through the `Subtask` type, as `onUpdate(res.data)` does:
   * its `_id` is the task's id.  A task document has no `text` or `completed`;
   * they read as undefined and stand here as "" and false.
   */
  function AsSubtask(reply: TaskReply): (s: Subtask)
    ensures s.id == reply.id
  {
    Subtask(reply.id, "", false)
  }

  /** `{ ...subtask, ...fields }`: the subtask with exactly the supplied fields overwritten. */
  function Merge(s: Subtask, f: Fields): (r: Subtask)
    ensures r.id == s.id
    ensures f.text.Some? ==> r.text == f.text.value
    ensures f.text.None? ==> r.text == s.text
    ensures f.completed.Some? ==> r.completed == f.completed.value
    ensures f.completed.None? ==> r.completed == s.completed
  {
    Subtask(
      s.id,
      if f.text.Some? then f.text.value else s.text,
      if f.completed.Some? then f.completed.value else s.completed)
  }

  /** Merging the same fields twice is merging them once. */
  lemma MergeIdempotent(s: Subtask, f: Fields)
    ensures Merge(Merge(s, f), f) == Merge(s, f)
  {
  }

  // ---------------------------------------------------------------------------
  // The per-edit state machine
  // ---------------------------------------------------------------------------

  /** The life of one optimistic edit. */
  datatype Pending =
    | Proposed(original: Subtask, optimistic: Subtask)
    | Confirmed(value: Subtask)
    | RolledBack(value: Subtask)

  /** An edit starts proposed, showing the merged value. */
  function Propose(s: Subtask, f: Fields): Pending
  {
    Proposed(s, Merge(s, f))
  }

  /**
   * The remote call settles a proposed edit: confirmed with the answer, or
   * rolled back to the original subtask.  A settled edit stays as it is.
   */
  function Settle(p: Pending, r: Remote): (q: Pending)
    ensures p.Proposed? ==> !q.Proposed?
    ensures p.Proposed? && r.Failed? ==> q == RolledBack(p.original)
    ensures p.Proposed? && r.Answered? ==> q == Confirmed(AsSubtask(r.reply))
    ensures !p.Proposed? ==> q == p
  {
    match p
    case Proposed(original, _) =>
      (match r
       case Answered(reply) => Confirmed(AsSubtask(reply))
       case Failed => RolledBack(original))
    case _ => p
  }

  /** The value the card is told about in each state. */
  function Shown(p: Pending): Subtask
  {
    match p
    case Proposed(_, optimistic) => optimistic
    case Confirmed(value) => value
    case RolledBack(value) => value
  }

  // ---------------------------------------------------------------------------
  // Effects of the component
  // ---------------------------------------------------------------------------

  /** What the component does that others see: an `onUpdate` call or a PATCH request. */
  datatype Effect =
    | OnUpdate(value: Subtask)
    | Patch(taskId: string, subtaskId: string, fields: Fields)

  /**
   * The effects of `handleUpdate`, in order: the optimistic value is reported,
   * then the request is sent, then the answer (success) or the original
   * subtask (failure) is reported.
   */
  function UpdateEffects(taskId: string, s: Subtask, f: Fields, r: Remote): (e: seq<Effect>)
    ensures |e| == 3
    ensures e[0] == OnUpdate(Merge(s, f))
    ensures e[1] == Patch(taskId, s.id, f)
    ensures r.Failed? ==> e[2] == OnUpdate(s)
    ensures r.Answered? ==> e[2] == OnUpdate(AsSubtask(r.reply))
  {
    var p := Propose(s, f);
    [OnUpdate(Shown(p)), Patch(taskId, s.id, f), OnUpdate(Shown(Settle(p, r)))]
  }

  /** The first subtask with the given id in a task's stored checklist. */
  function StoredSubtask(list: seq<Subtask>, id: string): (r: Option<Subtask>)
    ensures r.Some? ==> exists i :: 0 <= i < |list| && list[i] == r.value && r.value.id == id
                                    && forall j :: 0 <= j < i ==> list[j].id != id
    ensures r.None? <==> forall i :: 0 <= i < |list| ==> list[i].id != id
  {
    match FindIndex(list, (s: Subtask) => s.id == id)
    case Some(i) => Some(list[i])
    case None => None
  }

  /**
   * The corrected settlement: a successful answer confirms the subtask the
   * returned task stores under the edited id; an answer without it, like a
   * failure, rolls back to the original.
   */
  function SettleCorrected(p: Pending, r: Remote): (q: Pending)
    ensures p.Proposed? ==> !q.Proposed?
    ensures p.Proposed? && r.Failed? ==> q == RolledBack(p.original)
    ensures p.Proposed? && r.Answered? && StoredSubtask(r.reply.subtasks, p.original.id).Some? ==>
      q == Confirmed(StoredSubtask(r.reply.subtasks, p.original.id).value)
      && q.value.id == p.original.id && q.value in r.reply.subtasks
    ensures p.Proposed? && r.Answered? && StoredSubtask(r.reply.subtasks, p.original.id).None? ==>
      q == RolledBack(p.original)
    ensures !p.Proposed? ==> q == p
  {
    match p
    case Proposed(original, _) =>
      (match r
       case Answered(reply) =>
         (match StoredSubtask(reply.subtasks, original.id)
          case Some(v) => Confirmed(v)
          case None => RolledBack(original))
       case Failed => RolledBack(original))
    case _ => p
  }

  /** The effects of `handleUpdate` with the corrected settlement. */
  function CorrectedEffects(taskId: string, s: Subtask, f: Fields, r: Remote): (e: seq<Effect>)
    ensures |e| == 3
    ensures e[0] == OnUpdate(Merge(s, f))
    ensures e[1] == Patch(taskId, s.id, f)
    ensures r.Failed? ==> e[2] == OnUpdate(s)
    ensures r.Answered? ==>
      e[2] == OnUpdate(match StoredSubtask(r.reply.subtasks, s.id) case Some(v) => v case None => s)
  {
    var p := Propose(s, f);
    [OnUpdate(Shown(p)), Patch(taskId, s.id, f), OnUpdate(Shown(SettleCorrected(p, r)))]
  }

  /** The fields the checkbox sends: the flipped completion flag and nothing else. */
  function CheckboxFields(s: Subtask): (f: Fields)
    ensures f.text.None? && f.completed == Some(!s.completed)
  {
    Fields(None, Some(!s.completed))
  }

  /**
   * The fields a blur sends, if any: only when the edited text is not blank
   * and differs from the subtask's, and then the text untrimmed.
   */
  function BlurFields(text: string, s: Subtask): (f: Option<Fields>)
    ensures f.Some? <==> !IsBlank(text) && text != s.text
    ensures f.Some? ==> f.value == Fields(Some(text), None)
  {
    if Trim(text) != "" && text != s.text then Some(Fields(Some(text), None)) else None
  }

  /**
   * The checklist row: its local state and the effects it has produced so far.
   * One object models the handlers of one render: `subtask` is the prop that
   * render received.  After an `onUpdate` the card re-renders the row with the
   * new value, which is a new object here, so a second checkbox change on the
   * same object flips the flag of the old prop.
   */
  class SubtaskItem {
    const taskId: string
    const subtask: Subtask
    var editing: bool
    var text: string
    var loading: bool
    var effects: seq<Effect>

    /** A freshly rendered row: not editing, the text of the subtask, not loading. */
    constructor (taskId: string, subtask: Subtask)
      ensures this.taskId == taskId && this.subtask == subtask
      ensures !editing && text == subtask.text && !loading && effects == []
    {
      this.taskId := taskId;
      this.subtask := subtask;
      editing, text, loading, effects := false, subtask.text, false, [];
    }

    /** A click on the text starts editing. */
    method StartEditing()
      modifies this
      ensures editing && text == old(text) && loading == old(loading) && effects == old(effects)
    {
      editing := true;
    }

    /** Typing replaces the edited text. */
    method ChangeText(value: string)
      modifies this
      ensures text == value && editing == old(editing) && loading == old(loading) && effects == old(effects)
    {
      text := value;
    }

    /**
     * `handleUpdate`: report the optimistic value, mark loading, send the
     * PATCH, report the outcome, and clear loading whatever the outcome.
     */
    method HandleUpdate(fields: Fields, remote: Remote)
      modifies this
      ensures effects == old(effects) + UpdateEffects(taskId, subtask, fields, remote)
      ensures !loading && editing == old(editing) && text == old(text)
    {
      var pending := Propose(subtask, fields);
      effects := effects + [OnUpdate(Shown(pending))];
      loading := true;
      effects := effects + [Patch(taskId, subtask.id, fields)];
      pending := Settle(pending, remote);
      effects := effects + [OnUpdate(Shown(pending))];
      loading := false;
    }

    /** `handleCheckboxChange`: an update of the completion flag alone. */
    method HandleCheckboxChange(remote: Remote)
      modifies this
      ensures effects == old(effects) + UpdateEffects(taskId, subtask, CheckboxFields(subtask), remote)
      ensures !loading && editing == old(editing) && text == old(text)
    {
      HandleUpdate(CheckboxFields(subtask), remote);
    }

    /**
     * `handleBlur`: editing always ends; an update is sent only when the text
     * is not blank and has changed.
     */
    method HandleBlur(remote: Remote)
      modifies this
      ensures !editing && text == old(text)
      ensures BlurFields(old(text), subtask).None? ==> effects == old(effects) && loading == old(loading)
      ensures BlurFields(old(text), subtask).Some? ==>
        effects == old(effects) + UpdateEffects(taskId, subtask, BlurFields(old(text), subtask).value, remote)
        && !loading
    {
      editing := false;
      var fields := BlurFields(text, subtask);
      if fields.Some? {
        HandleUpdate(fields.value, remote);
      }
    }
  }
}
