/**
 * The task and subtask schemas of server/models/tasks.js, read as what saving
 * a document does to the values it is given: trim the trimmed strings, fill
 * the defaults, and reject a missing required value or a value outside an
 * enumeration.  A rejected document is not stored.
 */
module TaskModel {
  import opened Js
  import Board

  datatype Priority = High | Medium | Low

  function PriorityKey(p: Priority): string
  {
    match p
    case High => "high"
    case Medium => "medium"
    case Low => "low"
  }

  /** The priority a string names, if it is one of the enumeration's values. */
  function PriorityOfKey(k: string): (r: Option<Priority>)
    ensures r.Some? ==> PriorityKey(r.value) == k
    ensures r.None? ==> forall p: Priority :: PriorityKey(p) != k
  {
    if k == "high" then Some(High)
    else if k == "medium" then Some(Medium)
    else if k == "low" then Some(Low)
    else None
  }

  /** A subtask as a request supplies it; a subdocument keeps an id it is given. */
  datatype RawSubtask = RawSubtask(id: Option<nat>, text: Option<string>, completed: Option<bool>)

  /** A task as a request supplies it; each field may be absent. */
  datatype RawTask = RawTask(
    title: Option<string>,
    priority: Option<string>,
    assigneeName: Option<string>,
    status: Option<string>,
    dueDate: Option<int>,
    subtasks: Option<seq<RawSubtask>>)

  /** A stored subtask. */
  datatype SubtaskDoc = SubtaskDoc(id: nat, text: string, completed: bool)

  /** A stored task. */
  datatype TaskDoc = TaskDoc(
    id: nat,
    title: string,
    priority: Priority,
    assigneeName: string,
    status: Board.Status,
    dueDate: Option<int>,
    subtasks: seq<SubtaskDoc>)

  /** The paths a validation error can name. */
  datatype Path = TitlePath | PriorityPath | StatusPath | SubtaskTextPath(index: nat)

  // ---------------------------------------------------------------------------
  // Field rules
  // ---------------------------------------------------------------------------

  /** A required, trimmed string: present and not blank; stored trimmed. */
  predicate RequiredTrimmedOk(v: Option<string>)
  {
    v.Some? && !IsBlank(v.value)
  }

  /** The stored value of a trimmed string that defaults to "". */
  function TrimmedOrEmpty(v: Option<string>): (r: string)
    ensures v.None? ==> r == ""
    ensures v.Some? ==> r == Trim(v.value)
  {
    if v.Some? then Trim(v.value) else ""
  }

  /** The status is absent (and defaults to To Do) or one of the four keys. */
  predicate StatusOk(v: Option<string>)
  {
    v.None? || Board.StatusOfKey(v.value).Some?
  }

  /** The priority is present and one of the three keys. */
  predicate PriorityOk(v: Option<string>)
  {
    v.Some? && PriorityOfKey(v.value).Some?
  }

  /** Every supplied subtask has a text that is not blank. */
  predicate SubtasksOk(v: Option<seq<RawSubtask>>)
  {
    v.None? || forall i :: 0 <= i < |v.value| ==> RequiredTrimmedOk(v.value[i].text)
  }

  /** A request value the schema accepts. */
  predicate Valid(raw: RawTask)
  {
    RequiredTrimmedOk(raw.title) && PriorityOk(raw.priority) && StatusOk(raw.status) && SubtasksOk(raw.subtasks)
  }

  // ---------------------------------------------------------------------------
  // Normalisation
  // ---------------------------------------------------------------------------

  /**
   * The subtasks as stored: text trimmed, completion defaulting to false, the
   * id kept or else taken from `nextSub` onwards by position.
   */
  function NormalizeSubtasks(raw: seq<RawSubtask>, nextSub: nat): (r: seq<SubtaskDoc>)
    requires forall i :: 0 <= i < |raw| ==> raw[i].text.Some?
    ensures |r| == |raw|
    ensures forall i :: 0 <= i < |raw| ==>
      r[i].text == Trim(raw[i].text.value)
      && r[i].completed == (if raw[i].completed.Some? then raw[i].completed.value else false)
      && r[i].id == (if raw[i].id.Some? then raw[i].id.value else nextSub + i)
  {
    if raw == [] then []
    else
      var s := raw[0];
      var rest := NormalizeSubtasks(raw[1..], nextSub + 1);
      assert forall i :: 1 <= i < |raw| ==> raw[1..][i - 1] == raw[i];
      [SubtaskDoc(if s.id.Some? then s.id.value else nextSub,
                  Trim(s.text.value),
                  if s.completed.Some? then s.completed.value else false)]
      + rest
  }

  /** The paths that fail, in schema order. */
  function Errors(raw: RawTask): (paths: seq<Path>)
    ensures paths == [] <==> Valid(raw)
    ensures TitlePath in paths <==> !RequiredTrimmedOk(raw.title)
    ensures PriorityPath in paths <==> !PriorityOk(raw.priority)
    ensures StatusPath in paths <==> !StatusOk(raw.status)
    ensures raw.subtasks.Some? ==> forall i :: 0 <= i < |raw.subtasks.value| ==>
      (SubtaskTextPath(i) in paths <==> !RequiredTrimmedOk(raw.subtasks.value[i].text))
  {
    (if RequiredTrimmedOk(raw.title) then [] else [TitlePath])
    + (if PriorityOk(raw.priority) then [] else [PriorityPath])
    + (if StatusOk(raw.status) then [] else [StatusPath])
    + SubtaskErrors(raw.subtasks)
  }

  /** The subtasks whose text is missing or blank. */
  function SubtaskErrors(v: Option<seq<RawSubtask>>): (paths: seq<Path>)
    ensures paths == [] <==> SubtasksOk(v)
    ensures forall p :: p in paths ==> p.SubtaskTextPath?
    ensures v.Some? ==> forall i :: 0 <= i < |v.value| ==>
      (SubtaskTextPath(i) in paths <==> !RequiredTrimmedOk(v.value[i].text))
  {
    if v.None? then []
    else SubtaskErrorsFrom(v.value, 0)
  }

  function SubtaskErrorsFrom(list: seq<RawSubtask>, offset: nat): (paths: seq<Path>)
    ensures paths == [] <==> forall i :: 0 <= i < |list| ==> RequiredTrimmedOk(list[i].text)
    ensures forall p :: p in paths ==> p.SubtaskTextPath? && offset <= p.index < offset + |list|
    ensures forall i :: 0 <= i < |list| ==> (SubtaskTextPath(offset + i) in paths <==> !RequiredTrimmedOk(list[i].text))
  {
    if list == [] then []
    else
      var rest := SubtaskErrorsFrom(list[1..], offset + 1);
      assert forall i :: 1 <= i < |list| ==> list[1..][i - 1] == list[i];
      (if RequiredTrimmedOk(list[0].text) then [] else [SubtaskTextPath(offset)]) + rest
  }

  /**
   * Saving a new document with id `id`: the errors, or the document with
   * trimmed strings and defaults filled in.  Subtasks without an id get
   * `nextSub`, `nextSub + 1`, ... by position.
   */
  function Normalize(raw: RawTask, id: nat, nextSub: nat): (r: Result<TaskDoc, seq<Path>>)
    ensures r.Ok? <==> Valid(raw)
    ensures r.Err? ==> r.error == Errors(raw) && r.error != []
    ensures r.Ok? ==>
      var d := r.value;
      d.id == id
      && d.title == Trim(raw.title.value) && d.title != []
      && Some(d.priority) == PriorityOfKey(raw.priority.value)
      && d.assigneeName == TrimmedOrEmpty(raw.assigneeName)
      && d.status == (if raw.status.None? then Board.Todo else Board.StatusOfKey(raw.status.value).value)
      && d.dueDate == raw.dueDate
      && |d.subtasks| == (if raw.subtasks.None? then 0 else |raw.subtasks.value|)
    ensures r.Ok? ==>
      && Valid(raw)
      && r.value.subtasks == (if raw.subtasks.None? then [] else NormalizeSubtasks(raw.subtasks.value, nextSub))
  {
    if !Valid(raw) then Err(Errors(raw))
    else
      Ok(TaskDoc(
        id,
        Trim(raw.title.value),
        PriorityOfKey(raw.priority.value).value,
        TrimmedOrEmpty(raw.assigneeName),
        if raw.status.None? then Board.Todo else Board.StatusOfKey(raw.status.value).value,
        raw.dueDate,
        if raw.subtasks.None? then [] else NormalizeSubtasks(raw.subtasks.value, nextSub)))
  }

  /** Stored subtasks written back as request values. */
  function RawSubtasks(list: seq<SubtaskDoc>): (r: seq<RawSubtask>)
    ensures |r| == |list|
    ensures forall i :: 0 <= i < |list| ==>
      r[i] == RawSubtask(Some(list[i].id), Some(list[i].text), Some(list[i].completed))
  {
    if list == [] then []
    else [RawSubtask(Some(list[0].id), Some(list[0].text), Some(list[0].completed))] + RawSubtasks(list[1..])
  }

  /** A stored document written back as a request value. */
  function Raw(d: TaskDoc): RawTask
  {
    RawTask(
      Some(d.title), Some(PriorityKey(d.priority)), Some(d.assigneeName), Some(Board.Key(d.status)),
      d.dueDate, Some(RawSubtasks(d.subtasks)))
  }

  /** A trimmed string: no whitespace at either end. */
  predicate Trimmed(s: string)
  {
    s == [] || (!IsWhitespace(s[0]) && !IsWhitespace(s[|s| - 1]))
  }

  /** What every stored document satisfies: its strings are trimmed and required ones are not empty. */
  predicate WellFormed(d: TaskDoc)
  {
    d.title != [] && Trimmed(d.title) && Trimmed(d.assigneeName)
    && forall i :: 0 <= i < |d.subtasks| ==> d.subtasks[i].text != [] && Trimmed(d.subtasks[i].text)
  }

  /** Whatever saving produces is well formed. */
  lemma NormalizeWellFormed(raw: RawTask, id: nat, nextSub: nat)
    requires Normalize(raw, id, nextSub).Ok?
    ensures WellFormed(Normalize(raw, id, nextSub).value)
  {
    var d := Normalize(raw, id, nextSub).value;
    assert Valid(raw);
    assert d.title == Trim(raw.title.value) && d.assigneeName == TrimmedOrEmpty(raw.assigneeName);
    if raw.subtasks.Some? {
      var l := raw.subtasks.value;
      assert d.subtasks == NormalizeSubtasks(l, nextSub);
      forall i | 0 <= i < |d.subtasks|
        ensures d.subtasks[i].text != [] && Trimmed(d.subtasks[i].text)
      {
        assert RequiredTrimmedOk(l[i].text);
        assert d.subtasks[i].text == Trim(l[i].text.value);
      }
    }
  }

  /** A non-empty trimmed string is not blank. */
  lemma TrimmedNotBlank(s: string)
    requires s != [] && Trimmed(s)
    ensures !IsBlank(s)
  {
    assert !IsWhitespace(s[0]);
  }

  /** Priority and status keys read back as what they name. */
  lemma KeysRoundTrip(d: TaskDoc)
    ensures PriorityOfKey(PriorityKey(d.priority)) == Some(d.priority)
    ensures Board.StatusOfKey(Board.Key(d.status)) == Some(d.status)
  {
    Board.KeyRoundTrip(d.status);
    match d.priority
    case High =>
    case Medium =>
    case Low =>
  }

  /** A well-formed document passes validation. */
  lemma StoredValid(d: TaskDoc)
    requires WellFormed(d)
    ensures Valid(Raw(d))
  {
    var raw := Raw(d);
    TrimmedNotBlank(d.title);
    KeysRoundTrip(d);
    forall i | 0 <= i < |d.subtasks| ensures RequiredTrimmedOk(raw.subtasks.value[i].text) {
      TrimmedNotBlank(d.subtasks[i].text);
    }
  }

  /** Stored subtasks, saved again, come back unchanged. */
  lemma {:induction false} StoredSubtasks(list: seq<SubtaskDoc>, nextSub: nat)
    requires forall i :: 0 <= i < |list| ==> Trimmed(list[i].text)
    ensures NormalizeSubtasks(RawSubtasks(list), nextSub) == list
  {
    var raw := RawSubtasks(list);
    var r := NormalizeSubtasks(raw, nextSub);
    assert |r| == |list|;
    forall i | 0 <= i < |list| ensures r[i] == list[i] {
      assert raw[i] == RawSubtask(Some(list[i].id), Some(list[i].text), Some(list[i].completed));
      TrimmedFixed(list[i].text);
      assert r[i].text == list[i].text && r[i].id == list[i].id && r[i].completed == list[i].completed;
    }
  }

  /** Saving a well-formed document again gives it back unchanged. */
  lemma NormalizeStored(d: TaskDoc, nextSub: nat)
    requires WellFormed(d)
    ensures Normalize(Raw(d), d.id, nextSub) == Ok(d)
  {
    var raw := Raw(d);
    StoredValid(d);
    var r := Normalize(raw, d.id, nextSub).value;
    assert r.title == d.title by {
      TrimmedFixed(d.title);
    }
    assert r.assigneeName == d.assigneeName by {
      TrimmedFixed(d.assigneeName);
    }
    assert r.priority == d.priority && r.status == d.status by {
      KeysRoundTrip(d);
    }
    assert r.subtasks == d.subtasks by {
      StoredSubtasks(d.subtasks, nextSub);
    }
    assert r == d;
  }

  /** A title of spaces is rejected and reported by its path. */
  lemma BlankTitleRejected()
    ensures Normalize(RawTask(Some("  "), Some("high"), None, None, None, None), 1, 0) == Err([TitlePath])
  {
    var raw := RawTask(Some("  "), Some("high"), None, None, None, None);
    assert IsBlank("  ");
    assert PriorityOk(raw.priority);
    assert Errors(raw) == [TitlePath] + [] + [] + [];
    assert [TitlePath] + [] + [] + [] == [TitlePath];
    assert !Valid(raw);
    assert Normalize(raw, 1, 0) == Err(Errors(raw));
  }

  /** Values outside the enumerations are both reported, priority first. */
  lemma EnumsRejected()
    ensures Normalize(RawTask(Some("a"), Some("urgent"), None, Some("later"), None, None), 1, 0)
         == Err([PriorityPath, StatusPath])
  {
    var raw := RawTask(Some("a"), Some("urgent"), None, Some("later"), None, None);
    assert !IsWhitespace("a"[0]);
    assert !IsBlank("a");
    assert PriorityOfKey("urgent") == None;
    assert Board.StatusOfKey("later") == None;
    assert Errors(raw) == [] + [PriorityPath] + [StatusPath] + [];
    assert [] + [PriorityPath] + [StatusPath] + [] == [PriorityPath, StatusPath];
    assert !Valid(raw);
    assert Normalize(raw, 1, 0) == Err(Errors(raw));
  }

  /** Trimming " a" gives "a", and " a" is not blank. */
  lemma TrimLeadingSpace()
    ensures Trim(" a") == "a" && !IsBlank(" a")
  {
    var t := " a";
    assert TrimStart(t) == "a" by {
      assert IsWhitespace(t[0]);
      assert t[1..] == "a";
      assert !IsWhitespace("a"[0]);
    }
    assert TrimEnd("a") == "a" by { assert !IsWhitespace("a"[0]); }
    assert !IsWhitespace(t[1]);
  }

  /** A title is stored trimmed, and the status and assignee take their defaults. */
  lemma DefaultsFilled()
    ensures Normalize(RawTask(Some(" a"), Some("low"), None, None, None, None), 1, 0)
         == Ok(TaskDoc(1, "a", Low, "", Board.Todo, None, []))
  {
    TrimLeadingSpace();
    var raw := RawTask(Some(" a"), Some("low"), None, None, None, None);
    assert PriorityOfKey("low") == Some(Low);
    assert Valid(raw);
  }
}
