/**
 * The task handlers of server/controllers/taskControl.js over an abstract
 * store: a map from task id to stored document and a counter that supplies
 * fresh ids.  Each handler answers one request with a status code and a JSON
 * body; the store changes only when the handler saves.
 */
module TaskControl {
  import opened Js
  import Board
  import opened TaskModel

  /** A route parameter: an id the store can look up, or a string that does not cast to one. */
  datatype IdParam = Id(n: nat) | Malformed

  /** What the `error` field of a failure carries. */
  datatype Failure =
    | Message(text: string)
    | CastError
    | ValidationError(paths: seq<Path>)
    | NullDereference

  datatype Body = TaskJson(task: TaskDoc) | ErrorJson(error: Failure) | MessageJson(message: string)

  datatype Reply = Reply(code: nat, body: Body)

  const RequiredMessage := "Title and priority are required."
  const TaskNotFound := "Task not found"
  const SubtaskNotFound := "Subtask not found"
  const DeletedMessage := "Task deleted"

  /** A JavaScript string value that tests false: absent or empty. */
  predicate Falsy(v: Option<string>)
  {
    v.None? || v.value == ""
  }

  // ---------------------------------------------------------------------------
  // Partial updates (PUT /:id)
  // ---------------------------------------------------------------------------

  /**
   * What the update validators accept: each supplied field must satisfy its
   * schema rule; absent fields are not checked.
   */
  predicate PatchValid(body: RawTask)
  {
    (body.title.None? || RequiredTrimmedOk(body.title))
    && (body.priority.None? || PriorityOk(body.priority))
    && StatusOk(body.status)
    && SubtasksOk(body.subtasks)
  }

  /** The paths the update validators report, in schema order. */
  function PatchErrors(body: RawTask): (paths: seq<Path>)
    ensures paths == [] <==> PatchValid(body)
    ensures TitlePath in paths <==> body.title.Some? && IsBlank(body.title.value)
    ensures PriorityPath in paths <==> body.priority.Some? && PriorityOfKey(body.priority.value).None?
    ensures StatusPath in paths <==> !StatusOk(body.status)
  {
    (if body.title.None? || RequiredTrimmedOk(body.title) then [] else [TitlePath])
    + (if body.priority.None? || PriorityOk(body.priority) then [] else [PriorityPath])
    + (if StatusOk(body.status) then [] else [StatusPath])
    + SubtaskErrors(body.subtasks)
  }

  /** The request value `$set` produces: each supplied field replaces the stored one. */
  function Overlay(base: RawTask, body: RawTask): RawTask
  {
    RawTask(
      if body.title.Some? then body.title else base.title,
      if body.priority.Some? then body.priority else base.priority,
      if body.assigneeName.Some? then body.assigneeName else base.assigneeName,
      if body.status.Some? then body.status else base.status,
      if body.dueDate.Some? then body.dueDate else base.dueDate,
      if body.subtasks.Some? then body.subtasks else base.subtasks)
  }

  /**
   * The stored document after an accepted update: supplied strings trimmed,
   * supplied enumerations parsed, a supplied checklist normalised with fresh
   * ids from `nextSub`; everything else as it was.
   */
  function ApplyPatch(d: TaskDoc, body: RawTask, nextSub: nat): (r: TaskDoc)
    requires PatchValid(body)
    ensures r.id == d.id
    ensures r.title == (if body.title.Some? then Trim(body.title.value) else d.title)
    ensures body.priority.Some? ==> PriorityOfKey(body.priority.value) == Some(r.priority)
    ensures body.priority.None? ==> r.priority == d.priority
    ensures r.assigneeName == (if body.assigneeName.Some? then Trim(body.assigneeName.value) else d.assigneeName)
    ensures body.status.Some? ==> Board.StatusOfKey(body.status.value) == Some(r.status)
    ensures body.status.None? ==> r.status == d.status
    ensures r.dueDate == (if body.dueDate.Some? then body.dueDate else d.dueDate)
    ensures body.subtasks.Some? ==> |r.subtasks| == |body.subtasks.value|
    ensures body.subtasks.Some? ==> r.subtasks == NormalizeSubtasks(body.subtasks.value, nextSub)
    ensures body.subtasks.None? ==> r.subtasks == d.subtasks
  {
    TaskDoc(
      d.id,
      if body.title.Some? then Trim(body.title.value) else d.title,
      if body.priority.Some? then PriorityOfKey(body.priority.value).value else d.priority,
      if body.assigneeName.Some? then Trim(body.assigneeName.value) else d.assigneeName,
      if body.status.Some? then Board.StatusOfKey(body.status.value).value else d.status,
      if body.dueDate.Some? then body.dueDate else d.dueDate,
      if body.subtasks.Some? then NormalizeSubtasks(body.subtasks.value, nextSub) else d.subtasks)
  }

  /** An accepted update of a well-formed document leaves it well formed. */
  lemma PatchKeepsWellFormed(d: TaskDoc, body: RawTask, nextSub: nat)
    requires WellFormed(d) && PatchValid(body)
    ensures WellFormed(ApplyPatch(d, body, nextSub))
  {
    var r := ApplyPatch(d, body, nextSub);
    assert r.title != [] && Trimmed(r.title);
    assert Trimmed(r.assigneeName);
    if body.subtasks.Some? {
      var l := body.subtasks.value;
      forall i | 0 <= i < |r.subtasks| ensures r.subtasks[i].text != [] && Trimmed(r.subtasks[i].text) {
        assert RequiredTrimmedOk(l[i].text);
      }
    }
  }

  /** The update validators accept exactly the bodies whose overlay on a stored document the schema accepts. */
  lemma OverlayValid(d: TaskDoc, body: RawTask)
    requires WellFormed(d)
    ensures PatchValid(body) <==> Valid(Overlay(Raw(d), body))
  {
    StoredValid(d);
    var o := Overlay(Raw(d), body);
    assert RequiredTrimmedOk(o.title) <==> (body.title.None? || RequiredTrimmedOk(body.title));
    assert PriorityOk(o.priority) <==> (body.priority.None? || PriorityOk(body.priority));
    assert StatusOk(o.status) <==> StatusOk(body.status);
    assert SubtasksOk(o.subtasks) <==> SubtasksOk(body.subtasks);
  }

  /**
   * Updating a stored document in place is saving the document with the
   * supplied fields laid over it: the validators agree, and so do the results.
   */
  lemma PatchIsOverlaySave(d: TaskDoc, body: RawTask, nextSub: nat)
    requires WellFormed(d)
    ensures PatchValid(body) <==> Valid(Overlay(Raw(d), body))
    ensures PatchValid(body) ==> Normalize(Overlay(Raw(d), body), d.id, nextSub) == Ok(ApplyPatch(d, body, nextSub))
  {
    OverlayValid(d, body);
    if PatchValid(body) {
      var o := Overlay(Raw(d), body);
      var r := ApplyPatch(d, body, nextSub);
      var t := Trim(o.title.value);
      var a := TrimmedOrEmpty(o.assigneeName);
      var st := NormalizeSubtasks(o.subtasks.value, nextSub);
      assert t == r.title by { TrimmedFixed(d.title); }
      assert a == r.assigneeName by { TrimmedFixed(d.assigneeName); }
      assert PriorityOfKey(o.priority.value).value == r.priority by { KeysRoundTrip(d); }
      assert Board.StatusOfKey(o.status.value).value == r.status by { KeysRoundTrip(d); }
      assert st == r.subtasks by { StoredSubtasks(d.subtasks, nextSub); }
      assert r == TaskDoc(d.id, t, PriorityOfKey(o.priority.value).value, a,
                          Board.StatusOfKey(o.status.value).value, o.dueDate, st);
    }
  }

  /** An update that supplies no field leaves the document as it was. */
  lemma EmptyPatchKeeps(d: TaskDoc, nextSub: nat)
    ensures PatchValid(RawTask(None, None, None, None, None, None))
    ensures ApplyPatch(d, RawTask(None, None, None, None, None, None), nextSub) == d
  {
  }

  // ---------------------------------------------------------------------------
  // Subtasks (PATCH and DELETE /:id/subtasks/:subtaskId)
  // ---------------------------------------------------------------------------

  /** `task.subtasks.id(subtaskId)`: the position of the first subtask with that id. */
  function FindSubtask(list: seq<SubtaskDoc>, sid: IdParam): (r: Option<nat>)
    ensures r.Some? ==> sid.Id? && r.value < |list| && list[r.value].id == sid.n
    ensures r.Some? ==> forall j :: 0 <= j < r.value ==> list[j].id != sid.n
    ensures r.None? <==> sid.Malformed? || forall j :: 0 <= j < |list| ==> list[j].id != sid.n
  {
    if sid.Malformed? then None else FindIndex(list, (s: SubtaskDoc) => s.id == sid.n)
  }

  /**
   * The subtask lookup of `updateSubtask`: the position, or the 404 answer
   * when the task has no subtask with that id.
   */
  function LocateSubtask(d: TaskDoc, sid: IdParam): (r: Result<nat, Reply>)
    ensures r.Ok? <==> FindSubtask(d.subtasks, sid).Some?
    ensures r.Ok? ==> r.value < |d.subtasks| && sid.Id? && d.subtasks[r.value].id == sid.n
    ensures r.Err? ==> r.error == Reply(404, ErrorJson(Message(SubtaskNotFound)))
  {
    match FindSubtask(d.subtasks, sid)
    case Some(i) => Ok(i)
    case None => Err(Reply(404, ErrorJson(Message(SubtaskNotFound))))
  }

  /**
   * The subtask lookup of `deleteSubtask` as written: a missing subtask is
   * not checked for, so `.remove()` is called on null and the handler's catch
   * answers 500.
   */
  function LocateForDelete(d: TaskDoc, sid: IdParam): (r: Result<nat, Reply>)
    ensures r.Ok? <==> FindSubtask(d.subtasks, sid).Some?
    ensures r.Ok? ==> r.value < |d.subtasks| && sid.Id? && d.subtasks[r.value].id == sid.n
    ensures r.Err? ==> r.error == Reply(500, ErrorJson(NullDereference))
  {
    match FindSubtask(d.subtasks, sid)
    case Some(i) => Ok(i)
    case None => Err(Reply(500, ErrorJson(NullDereference)))
  }

  /** Deleting a subtask of a task that has none is answered as a server error, not as "not found". */
  lemma DeleteMissingSubtaskIsServerError()
    ensures LocateForDelete(TaskDoc(1, "a", High, "", Board.Todo, None, []), Id(2)).error.code == 500
    ensures LocateSubtask(TaskDoc(1, "a", High, "", Board.Todo, None, []), Id(2)).error.code == 404
  {
  }

  /** The two lookups agree on every subtask that exists; they differ only in the answer for one that does not. */
  lemma LookupsAgree(d: TaskDoc, sid: IdParam)
    ensures LocateSubtask(d, sid).Ok? <==> LocateForDelete(d, sid).Ok?
    ensures LocateSubtask(d, sid).Ok? ==> LocateSubtask(d, sid) == LocateForDelete(d, sid)
  {
  }

  /**
   * What `.remove()` on an array subdocument does to the array: Mongoose
   * pulls every element with that `_id`, so no subtask with the id is left,
   * each other subtask is kept as often as it was, and nothing new appears.
   */
  function PullSubtask(list: seq<SubtaskDoc>, n: nat): (r: seq<SubtaskDoc>)
    ensures |r| <= |list|
    ensures forall i :: 0 <= i < |r| ==> r[i].id != n && r[i] in list
    ensures forall x :: x in list && x.id != n ==> x in r
    ensures |r| == |list| <==> forall j :: 0 <= j < |list| ==> list[j].id != n
  {
    if list == [] then []
    else
      var tail := list[1..];
      var rest := PullSubtask(tail, n);
      assert forall x :: x in list ==> x == list[0] || x in tail;
      assert (forall j :: 0 <= j < |list| ==> list[j].id != n)
         <==> list[0].id != n && forall j :: 0 <= j < |tail| ==> tail[j].id != n by {
        forall j | 0 < j < |list| ensures list[j] == tail[j - 1] {
        }
      }
      if list[0].id == n then rest else [list[0]] + rest
  }

  /** The pull keeps each subtask without the id as often as it occurs, and no subtask with it. */
  lemma {:induction false} PullCounts(list: seq<SubtaskDoc>, n: nat, x: SubtaskDoc)
    ensures multiset(PullSubtask(list, n))[x] == if x.id == n then 0 else multiset(list)[x]
  {
    if list != [] {
      var tail := list[1..];
      assert list == [list[0]] + tail;
      PullCounts(tail, n, x);
      if list[0].id != n {
        assert PullSubtask(list, n) == [list[0]] + PullSubtask(tail, n);
      }
    }
  }

  /** The pull keeps the relative order: it works piece by piece. */
  lemma {:induction false} PullConcat(a: seq<SubtaskDoc>, b: seq<SubtaskDoc>, n: nat)
    ensures PullSubtask(a + b, n) == PullSubtask(a, n) + PullSubtask(b, n)
  {
    if a == [] {
      assert a + b == b;
    } else {
      assert (a + b)[0] == a[0] && (a + b)[1..] == a[1..] + b;
      PullConcat(a[1..], b, n);
    }
  }

  /** Pulling an id that no subtask has leaves the array as it was. */
  lemma {:induction false} PullAbsent(list: seq<SubtaskDoc>, n: nat)
    requires forall j :: 0 <= j < |list| ==> list[j].id != n
    ensures PullSubtask(list, n) == list
  {
    if list != [] {
      assert list[0].id != n;
      PullAbsent(list[1..], n);
      assert list == [list[0]] + list[1..];
    }
  }

  /** Where only the subtask at `k` has the id, the pull removes exactly that one. */
  lemma PullSingle(list: seq<SubtaskDoc>, k: nat, n: nat)
    requires k < |list| && list[k].id == n
    requires forall j :: 0 <= j < |list| && j != k ==> list[j].id != n
    ensures PullSubtask(list, n) == RemoveAt(list, k)
  {
    var head, tail := list[..k], list[k + 1..];
    SplitAround(list, k);
    forall j | 0 <= j < |head| ensures head[j].id != n {
      assert head[j] == list[j];
    }
    forall j | 0 <= j < |tail| ensures tail[j].id != n {
      assert tail[j] == list[k + 1 + j];
    }
    PullAbsent(head, n);
    PullAbsent(tail, n);
    assert PullSubtask([list[k]], n) == [] by {
      assert [list[k]][1..] == [];
    }
    PullConcat(head, [list[k]], n);
    PullConcat(head + [list[k]], tail, n);
    assert PullSubtask(head + [list[k]], n) == head;
    assert PullSubtask(list, n) == head + tail;
    assert RemoveAt(list, k) == head + tail;
  }

  /** A sequence is what lies before `k`, the element at `k`, and what lies after it. */
  lemma SplitAround<T>(s: seq<T>, k: nat)
    requires k < |s|
    ensures s == (s[..k] + [s[k]]) + s[k + 1..]
  {
  }

  /**
   * Where the subtask ids are distinct, the pull removes exactly the subtask
   * that `subtasks.id()` finds.
   */
  lemma PullDistinct(list: seq<SubtaskDoc>, sid: IdParam)
    requires forall i, j :: 0 <= i < j < |list| ==> list[i].id != list[j].id
    requires FindSubtask(list, sid).Some?
    ensures PullSubtask(list, sid.n) == RemoveAt(list, FindSubtask(list, sid).value)
  {
    var k := FindSubtask(list, sid).value;
    forall j | 0 <= j < |list| && j != k ensures list[j].id != sid.n {
      if j > k {
        assert list[k].id != list[j].id;
      }
    }
    PullSingle(list, k, sid.n);
  }

  /** Two subtasks under one id are both pulled, not only the first. */
  lemma PullTakesEveryMatch()
    ensures PullSubtask([SubtaskDoc(7, "a", false), SubtaskDoc(7, "b", false)], 7) == []
    ensures RemoveAt([SubtaskDoc(7, "a", false), SubtaskDoc(7, "b", false)], 0) == [SubtaskDoc(7, "b", false)]
  {
  }

  /** `subtask.text = text` and `subtask.completed = completed` for the supplied ones; the text setter trims. */
  function EditSubtask(s: SubtaskDoc, text: Option<string>, completed: Option<bool>): (r: SubtaskDoc)
    ensures r.id == s.id
    ensures text.Some? ==> r.text == Trim(text.value)
    ensures text.None? ==> r.text == s.text
    ensures completed.Some? ==> r.completed == completed.value
    ensures completed.None? ==> r.completed == s.completed
  {
    SubtaskDoc(
      s.id,
      if text.Some? then Trim(text.value) else s.text,
      if completed.Some? then completed.value else s.completed)
  }

  /** Editing a subtask of a well-formed document with a text that is not blank keeps it well formed. */
  lemma EditKeepsWellFormed(d: TaskDoc, i: nat, text: Option<string>, completed: Option<bool>)
    requires WellFormed(d) && i < |d.subtasks|
    requires text.Some? ==> !IsBlank(text.value)
    ensures WellFormed(d.(subtasks := d.subtasks[i := EditSubtask(d.subtasks[i], text, completed)]))
  {
    var e := d.(subtasks := d.subtasks[i := EditSubtask(d.subtasks[i], text, completed)]);
    forall j | 0 <= j < |e.subtasks| ensures e.subtasks[j].text != [] && Trimmed(e.subtasks[j].text) {
      if j != i {
        assert e.subtasks[j] == d.subtasks[j];
      }
    }
  }

  // ---------------------------------------------------------------------------
  // The store
  // ---------------------------------------------------------------------------

  /** Every document is stored under its own id, below the counter, and is well formed. */
  ghost predicate StoreOk(tasks: map<nat, TaskDoc>, nextId: nat)
  {
    forall k :: k in tasks ==> k < nextId && tasks[k].id == k && WellFormed(tasks[k])
  }

  /** Storing a well-formed document under an existing id keeps the store in order. */
  lemma PutKeepsStore(tasks: map<nat, TaskDoc>, nextId: nat, k: nat, e: TaskDoc)
    requires StoreOk(tasks, nextId)
    requires k in tasks && e.id == k && WellFormed(e)
    ensures StoreOk(tasks[k := e], nextId)
  {
  }

  class TaskStore {
    var tasks: map<nat, TaskDoc>
    var nextId: nat

    ghost predicate Valid()
      reads this
    {
      StoreOk(tasks, nextId)
    }

    constructor ()
      ensures Valid() && tasks == map[] && nextId == 0
    {
      tasks := map[];
      nextId := 0;
    }

    /**
     * `createTask`: a falsy title or priority is answered 400 before anything
     * else; the body's status is not passed on, so a new task is always To Do;
     * a document the schema rejects is answered 500 and not stored.
     */
    method CreateTask(body: RawTask) returns (reply: Reply)
      requires Valid()
      modifies this
      ensures Valid()
      ensures Falsy(body.title) || Falsy(body.priority) ==>
        reply == Reply(400, ErrorJson(Message(RequiredMessage))) && tasks == old(tasks) && nextId == old(nextId)
      ensures !Falsy(body.title) && !Falsy(body.priority) ==>
        var n := Normalize(body.(status := None), old(nextId), old(nextId) + 1);
        (n.Err? ==> reply == Reply(500, ErrorJson(ValidationError(n.error))) && tasks == old(tasks))
        && (n.Ok? ==> reply == Reply(201, TaskJson(n.value)) && old(nextId) !in old(tasks)
                      && tasks == old(tasks)[old(nextId) := n.value] && n.value.status == Board.Todo)
    {
      if Falsy(body.title) || Falsy(body.priority) {
        return Reply(400, ErrorJson(Message(RequiredMessage)));
      }
      var raw := body.(status := None);
      var n := Normalize(raw, nextId, nextId + 1);
      if n.Err? {
        return Reply(500, ErrorJson(ValidationError(n.error)));
      }
      NormalizeWellFormed(raw, nextId, nextId + 1);
      tasks := tasks[nextId := n.value];
      nextId := nextId + 1 + |n.value.subtasks|;
      reply := Reply(201, TaskJson(n.value));
    }

    /** `getTaskById`: the stored document, or 404; an id that does not cast is answered 500. */
    method GetTaskById(id: IdParam) returns (reply: Reply)
      ensures id.Malformed? ==> reply == Reply(500, ErrorJson(CastError))
      ensures id.Id? && id.n !in tasks ==> reply == Reply(404, ErrorJson(Message(TaskNotFound)))
      ensures id.Id? && id.n in tasks ==> reply == Reply(200, TaskJson(tasks[id.n]))
    {
      if id.Malformed? {
        return Reply(500, ErrorJson(CastError));
      }
      if id.n !in tasks {
        return Reply(404, ErrorJson(Message(TaskNotFound)));
      }
      reply := Reply(200, TaskJson(tasks[id.n]));
    }

    /**
     * `updateTask`: the id is cast and the supplied fields are validated
     * before the document is looked up, so an invalid body is answered 500
     * even for an id that is not stored; the answer is the updated document.
     */
    method UpdateTask(id: IdParam, body: RawTask) returns (reply: Reply)
      requires Valid()
      modifies this
      ensures Valid()
      ensures id.Malformed? ==> reply == Reply(500, ErrorJson(CastError)) && tasks == old(tasks)
      ensures id.Id? && !PatchValid(body) ==>
        reply == Reply(500, ErrorJson(ValidationError(PatchErrors(body)))) && tasks == old(tasks)
      ensures id.Id? && PatchValid(body) && id.n !in old(tasks) ==>
        reply == Reply(404, ErrorJson(Message(TaskNotFound))) && tasks == old(tasks)
      ensures id.Id? && PatchValid(body) && id.n in old(tasks) ==>
        var u := ApplyPatch(old(tasks)[id.n], body, old(nextId));
        reply == Reply(200, TaskJson(u)) && tasks == old(tasks)[id.n := u]
    {
      if id.Malformed? {
        return Reply(500, ErrorJson(CastError));
      }
      if !PatchValid(body) {
        return Reply(500, ErrorJson(ValidationError(PatchErrors(body))));
      }
      if id.n !in tasks {
        return Reply(404, ErrorJson(Message(TaskNotFound)));
      }
      var u := ApplyPatch(tasks[id.n], body, nextId);
      PatchKeepsWellFormed(tasks[id.n], body, nextId);
      tasks := tasks[id.n := u];
      nextId := nextId + |u.subtasks|;
      reply := Reply(200, TaskJson(u));
    }

    /** `deleteTask`: the document is removed and a confirmation sent, or 404. */
    method DeleteTask(id: IdParam) returns (reply: Reply)
      requires Valid()
      modifies this
      ensures Valid()
      ensures id.Malformed? ==> reply == Reply(500, ErrorJson(CastError)) && tasks == old(tasks)
      ensures id.Id? && id.n !in old(tasks) ==> reply == Reply(404, ErrorJson(Message(TaskNotFound))) && tasks == old(tasks)
      ensures id.Id? && id.n in old(tasks) ==> reply == Reply(200, MessageJson(DeletedMessage)) && tasks == old(tasks) - {id.n}
    {
      if id.Malformed? {
        return Reply(500, ErrorJson(CastError));
      }
      if id.n !in tasks {
        return Reply(404, ErrorJson(Message(TaskNotFound)));
      }
      tasks := tasks - {id.n};
      reply := Reply(200, MessageJson(DeletedMessage));
    }

    /**
     * `updateSubtask`: the missing task is reported before the missing
     * subtask; only the supplied fields of that one subtask change; a text
     * that trims to nothing fails validation on save; the answer is the whole
     * task.
     */
    method UpdateSubtask(id: IdParam, sid: IdParam, text: Option<string>, completed: Option<bool>) returns (reply: Reply)
      requires Valid()
      modifies this
      ensures Valid() && nextId == old(nextId)
      ensures id.Malformed? ==> reply == Reply(500, ErrorJson(CastError)) && tasks == old(tasks)
      ensures id.Id? && id.n !in old(tasks) ==> reply == Reply(404, ErrorJson(Message(TaskNotFound))) && tasks == old(tasks)
      ensures id.Id? && id.n in old(tasks) && LocateSubtask(old(tasks)[id.n], sid).Err? ==>
        reply == LocateSubtask(old(tasks)[id.n], sid).error && tasks == old(tasks)
      ensures id.Id? && id.n in old(tasks) && LocateSubtask(old(tasks)[id.n], sid).Ok? ==>
        var d := old(tasks)[id.n];
        var i := LocateSubtask(d, sid).value;
        (text.Some? && IsBlank(text.value) ==>
          reply == Reply(500, ErrorJson(ValidationError([SubtaskTextPath(i)]))) && tasks == old(tasks))
        && (!(text.Some? && IsBlank(text.value)) ==>
          var e := d.(subtasks := d.subtasks[i := EditSubtask(d.subtasks[i], text, completed)]);
          reply == Reply(200, TaskJson(e)) && tasks == old(tasks)[id.n := e])
    {
      if id.Malformed? {
        return Reply(500, ErrorJson(CastError));
      }
      if id.n !in tasks {
        return Reply(404, ErrorJson(Message(TaskNotFound)));
      }
      var d := tasks[id.n];
      var located := LocateSubtask(d, sid);
      if located.Err? {
        return located.error;
      }
      var i := located.value;
      var edited := EditSubtask(d.subtasks[i], text, completed);
      assert edited.text == [] <==> text.Some? && IsBlank(text.value) by {
        assert WellFormed(d);
        assert d.subtasks[i].text != [];
      }
      if edited.text == [] {
        return Reply(500, ErrorJson(ValidationError([SubtaskTextPath(i)])));
      }
      EditKeepsWellFormed(d, i, text, completed);
      var e := d.(subtasks := d.subtasks[i := edited]);
      PutKeepsStore(tasks, nextId, id.n, e);
      tasks := tasks[id.n := e];
      reply := Reply(200, TaskJson(e));
    }

    /**
     * `deleteSubtask` as written: the missing task is answered 404, but a
     * missing subtask is not checked for and ends in a 500; otherwise every
     * subtask with that id is pulled and the whole task returned.
     */
    method DeleteSubtask(id: IdParam, sid: IdParam) returns (reply: Reply)
      requires Valid()
      modifies this
      ensures Valid() && nextId == old(nextId)
      ensures id.Malformed? ==> reply == Reply(500, ErrorJson(CastError)) && tasks == old(tasks)
      ensures id.Id? && id.n !in old(tasks) ==> reply == Reply(404, ErrorJson(Message(TaskNotFound))) && tasks == old(tasks)
      ensures id.Id? && id.n in old(tasks) && LocateForDelete(old(tasks)[id.n], sid).Err? ==>
        reply == Reply(500, ErrorJson(NullDereference)) && tasks == old(tasks)
      ensures id.Id? && id.n in old(tasks) && LocateForDelete(old(tasks)[id.n], sid).Ok? ==>
        var d := old(tasks)[id.n];
        var e := d.(subtasks := PullSubtask(d.subtasks, sid.n));
        reply == Reply(200, TaskJson(e)) && tasks == old(tasks)[id.n := e]
    {
      if id.Malformed? {
        return Reply(500, ErrorJson(CastError));
      }
      if id.n !in tasks {
        return Reply(404, ErrorJson(Message(TaskNotFound)));
      }
      var d := tasks[id.n];
      var located := LocateForDelete(d, sid);
      if located.Err? {
        return located.error;
      }
      var e := d.(subtasks := PullSubtask(d.subtasks, sid.n));
      assert WellFormed(e) by {
        forall j | 0 <= j < |e.subtasks| ensures e.subtasks[j].text != [] && Trimmed(e.subtasks[j].text) {
          var k :| 0 <= k < |d.subtasks| && d.subtasks[k] == e.subtasks[j];
        }
      }
      tasks := tasks[id.n := e];
      reply := Reply(200, TaskJson(e));
    }
  }
}
