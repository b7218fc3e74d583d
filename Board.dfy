/**
 * The dashboard board of client/src/pages/Dashboard.tsx: four fixed status
 * columns, filled once from the task list the server returns (hydration) and
 * rearranged in place by drag and drop.  After a drop the board sends only the
 * new status of the moved task and never rolls the move back.
 */
module Board {
  import opened Js

  /** The four status keys; the board has exactly one column per key. */
  datatype Status = Backlog | Todo | InProgress | Done

  /** The column key, which is also the status string the server stores. */
  function Key(s: Status): string
  {
    match s
    case Backlog => "backlog"
    case Todo => "todo"
    case InProgress => "inprogress"
    case Done => "done"
  }

  /** The status a key names, if any: the inverse of Key. */
  function StatusOfKey(k: string): (r: Option<Status>)
    ensures r.Some? ==> Key(r.value) == k
    ensures r.None? ==> forall s: Status :: Key(s) != k
  {
    if k == "backlog" then Some(Backlog)
    else if k == "todo" then Some(Todo)
    else if k == "inprogress" then Some(InProgress)
    else if k == "done" then Some(Done)
    else None
  }

  /** Every status reads back from its key. */
  lemma KeyRoundTrip(s: Status)
    ensures StatusOfKey(Key(s)) == Some(s)
  {
  }

  /** The column heading shown above each column. */
  function Title(s: Status): string
  {
    match s
    case Backlog => "Backlog"
    case Todo => "To Do"
    case InProgress => "In Progress"
    case Done => "Done"
  }

  /**
   * A task as the board holds it.  `status` is None when the fetched record
   * had no status (or an empty one).
   */
  datatype Task = Task(id: string, title: string, priority: string, status: Option<Status>)

  /** The column a task belongs in: its status, or To Do when it has none. */
  function Target(t: Task): Status
  {
    match t.status
    case Some(s) => s
    case None => Todo
  }

  /** The four columns' task arrays. */
  datatype Columns = Columns(backlog: seq<Task>, todo: seq<Task>, inprogress: seq<Task>, done: seq<Task>)
  {
    /** The task array of column `s`. */
    function Get(s: Status): seq<Task>
    {
      match s
      case Backlog => backlog
      case Todo => todo
      case InProgress => inprogress
      case Done => done
    }

    /** The same columns with column `s` replaced by `col`. */
    function Set(s: Status, col: seq<Task>): (c: Columns)
      ensures c.Get(s) == col
      ensures forall o :: o != s ==> c.Get(o) == Get(o)
    {
      match s
      case Backlog => this.(backlog := col)
      case Todo => this.(todo := col)
      case InProgress => this.(inprogress := col)
      case Done => this.(done := col)
    }
  }

  /** The initial board: every column empty. */
  const Empty := Columns([], [], [], [])

  // ---------------------------------------------------------------------------
  // Identifiers, the partition invariant and the status invariant
  // ---------------------------------------------------------------------------

  /** The ids of a column's tasks, in order. */
  function Ids(col: seq<Task>): (r: seq<string>)
    ensures |r| == |col| && forall i :: 0 <= i < |col| ==> r[i] == col[i].id
  {
    seq(|col|, i requires 0 <= i < |col| => col[i].id)
  }

  /** Whether some task of the column has id `k` (`tasks.find(t => t._id === k)`). */
  predicate HasId(col: seq<Task>, k: string)
  {
    k in Ids(col)
  }

  /** No two tasks of the sequence share an id. */
  predicate NoDupIds(col: seq<Task>)
  {
    forall i, j :: 0 <= i < j < |col| ==> col[i].id != col[j].id
  }

  /** The multiset of the ids in a column. */
  function Bag(col: seq<Task>): multiset<string>
  {
    multiset(Ids(col))
  }

  /** The multiset of the ids on the whole board. */
  function IdBag(c: Columns): multiset<string>
  {
    Bag(c.backlog) + Bag(c.todo) + Bag(c.inprogress) + Bag(c.done)
  }

  /** Every id on the board appears once: in one column, and only once in it. */
  ghost predicate Partitioned(c: Columns)
  {
    forall k :: IdBag(c)[k] <= 1
  }

  /** Every task sits in the column its status names (To Do when it has none). */
  ghost predicate StatusAgrees(c: Columns)
  {
    forall s: Status, i :: 0 <= i < |c.Get(s)| ==> Target(c.Get(s)[i]) == s
  }

  lemma BagConcat(a: seq<Task>, b: seq<Task>)
    ensures Bag(a + b) == Bag(a) + Bag(b)
  {
    assert Ids(a + b) == Ids(a) + Ids(b);
  }

  /** Removing the task at `k` removes one occurrence of its id. */
  lemma BagRemoveAt(col: seq<Task>, k: nat)
    requires k < |col|
    ensures Bag(col) == Bag(RemoveAt(col, k)) + multiset{col[k].id}
  {
    var rest := RemoveAt(col, k);
    assert col == rest[..k] + [col[k]] + rest[k..];
    BagConcat(rest[..k] + [col[k]], rest[k..]);
    BagConcat(rest[..k], [col[k]]);
    BagConcat(rest[..k], rest[k..]);
    assert rest == rest[..k] + rest[k..];
    assert Bag([col[k]]) == multiset{col[k].id};
  }

  /** Inserting a task adds one occurrence of its id. */
  lemma BagInsertAt(col: seq<Task>, k: nat, x: Task)
    requires k <= |col|
    ensures Bag(InsertAt(col, k, x)) == Bag(col) + multiset{x.id}
  {
    assert InsertAt(col, k, x) == col[..k] + [x] + col[k..];
    BagConcat(col[..k] + [x], col[k..]);
    BagConcat(col[..k], [x]);
    BagConcat(col[..k], col[k..]);
    assert col == col[..k] + col[k..];
    assert Bag([x]) == multiset{x.id};
  }

  lemma IdBagSet(c: Columns, s: Status, col: seq<Task>)
    ensures IdBag(c.Set(s, col)) + Bag(c.Get(s)) == IdBag(c) + Bag(col)
  {
  }

  /** Ids that are pairwise distinct occur at most once in the multiset of ids. */
  lemma {:induction false} NoDupBag(col: seq<Task>)
    requires NoDupIds(col)
    ensures forall k :: Bag(col)[k] <= 1
    decreases |col|
  {
    if col != [] {
      var p, t := col[..|col| - 1], col[|col| - 1];
      NoDupBag(p);
      assert col == p + [t];
      BagConcat(p, [t]);
      assert Bag([t]) == multiset{t.id};
      assert !HasId(p, t.id) by {
        forall i | 0 <= i < |p| ensures Ids(p)[i] != t.id {
          assert p[i] == col[i];
        }
      }
    }
  }

  /**
   * On a partitioned board a task id present in column `s` is present once
   * there and in no other column.
   */
  lemma {:induction false} PartitionedExactlyOne(c: Columns, s: Status, k: string)
    requires Partitioned(c)
    requires HasId(c.Get(s), k)
    ensures Bag(c.Get(s))[k] == 1
    ensures forall o :: o != s ==> !HasId(c.Get(o), k)
  {
    assert IdBag(c)[k] <= 1;
    assert Bag(c.Get(s))[k] >= 1;
    forall o | o != s ensures !HasId(c.Get(o), k) {
      IdBagSet(c, s, []);
      IdBagSet(c.Set(s, []), o, []);
      assert IdBag(c)[k] >= Bag(c.Get(s))[k] + Bag(c.Get(o))[k];
    }
  }

  // ---------------------------------------------------------------------------
  // Hydration (Dashboard.tsx:40-46)
  // ---------------------------------------------------------------------------

  /**
   * One step of the hydration loop: the task goes to the end of its column,
   * unless that column already holds a task with its id.
   */
  function Step(c: Columns, t: Task): (r: Columns)
    ensures forall o :: o != Target(t) ==> r.Get(o) == c.Get(o)
    ensures r.Get(Target(t)) == if HasId(c.Get(Target(t)), t.id) then c.Get(Target(t)) else c.Get(Target(t)) + [t]
  {
    var s := Target(t);
    if HasId(c.Get(s), t.id) then c else c.Set(s, c.Get(s) + [t])
  }

  /** The columns after the hydration loop has run over `fetched`, starting from `c`. */
  function Hydrated(c: Columns, fetched: seq<Task>): Columns
    decreases |fetched|
  {
    if fetched == [] then c
    else Step(Hydrated(c, fetched[..|fetched| - 1]), fetched[|fetched| - 1])
  }

  /** The tasks of `f` that belong in column `s`, in response order. */
  function Filter(f: seq<Task>, s: Status): (r: seq<Task>)
    ensures forall x :: x in r ==> x in f && Target(x) == s
    decreases |f|
  {
    if f == [] then []
    else
      var p, t := f[..|f| - 1], f[|f| - 1];
      Filter(p, s) + (if Target(t) == s then [t] else [])
  }

  /** Hydration puts every task in the column its status names, and only fetched tasks. */
  lemma {:induction false} HydrateSound(f: seq<Task>)
    ensures StatusAgrees(Hydrated(Empty, f))
    ensures forall s: Status, x :: x in Hydrated(Empty, f).Get(s) ==> x in f
    decreases |f|
  {
    if f != [] {
      var p, t := f[..|f| - 1], f[|f| - 1];
      HydrateSound(p);
      assert f == p + [t];
      var h := Hydrated(Empty, p);
      forall s: Status, i | 0 <= i < |Hydrated(Empty, f).Get(s)|
        ensures Target(Hydrated(Empty, f).Get(s)[i]) == s
        ensures Hydrated(Empty, f).Get(s)[i] in f
      {
        if i < |h.Get(s)| {
          assert Hydrated(Empty, f).Get(s)[i] == h.Get(s)[i];
          assert h.Get(s)[i] in h.Get(s);
        }
      }
    }
  }

  /** Hydration never puts two tasks with the same id into one column. */
  lemma {:induction false} HydrateNoDup(f: seq<Task>)
    ensures forall s :: NoDupIds(Hydrated(Empty, f).Get(s))
    decreases |f|
  {
    if f != [] {
      var p, t := f[..|f| - 1], f[|f| - 1];
      HydrateNoDup(p);
      var h := Hydrated(Empty, p);
      var col := h.Get(Target(t));
      if !HasId(col, t.id) {
        forall i | 0 <= i < |col| ensures col[i].id != t.id {
          assert Ids(col)[i] == col[i].id;
        }
      }
    }
  }

  /** Every fetched task's id ends up in the column its status names. */
  lemma {:induction false} HydrateCovers(f: seq<Task>)
    ensures forall i :: 0 <= i < |f| ==> HasId(Hydrated(Empty, f).Get(Target(f[i])), f[i].id)
    decreases |f|
  {
    if f != [] {
      var p, t := f[..|f| - 1], f[|f| - 1];
      HydrateCovers(p);
      var h := Hydrated(Empty, p);
      forall i | 0 <= i < |f| ensures HasId(Hydrated(Empty, f).Get(Target(f[i])), f[i].id) {
        var s := Target(f[i]);
        assert Ids(h.Get(s)) <= Ids(Hydrated(Empty, f).Get(s));
        if i < |p| {
          assert f[i] == p[i];
        } else {
          assert Ids(h.Get(s) + [t])[|h.Get(s)|] == t.id;
        }
      }
    }
  }

  /** A task with no earlier task of the same id in its column finds its id absent there. */
  lemma NotYetHydrated(p: seq<Task>, t: Task)
    requires forall j :: 0 <= j < |p| ==> p[j].id != t.id || Target(p[j]) != Target(t)
    ensures !HasId(Hydrated(Empty, p).Get(Target(t)), t.id)
  {
    var s := Target(t);
    var col := Hydrated(Empty, p).Get(s);
    HydrateSound(p);
    forall m | 0 <= m < |col| ensures Ids(col)[m] != t.id {
      var y := col[m];
      assert Target(y) == s;
      assert y in col;
      assert y in p;
      var j :| 0 <= j < |p| && p[j] == y;
      assert y.id != t.id;
    }
  }

  /** Such a task is pushed when the loop reaches it. */
  lemma LastPushed(p: seq<Task>, t: Task)
    requires forall j :: 0 <= j < |p| ==> p[j].id != t.id || Target(p[j]) != Target(t)
    ensures t in Hydrated(Empty, p + [t]).Get(Target(t))
  {
    var f := p + [t];
    assert f[..|f| - 1] == p && f[|f| - 1] == t;
    NotYetHydrated(p, t);
    assert Hydrated(Empty, f).Get(Target(t)) == Hydrated(Empty, p).Get(Target(t)) + [t];
  }

  /**
   * The first occurrence wins: a fetched task with no earlier task of the same
   * id in the same column is the one that column keeps.
   */
  lemma {:induction false} HydrateFirstWins(f: seq<Task>, i: nat)
    requires i < |f|
    requires forall j :: 0 <= j < i ==> f[j].id != f[i].id || Target(f[j]) != Target(f[i])
    ensures f[i] in Hydrated(Empty, f).Get(Target(f[i]))
    decreases |f|
  {
    var p, t := f[..|f| - 1], f[|f| - 1];
    assert f == p + [t];
    if i < |p| {
      HydrateFirstWins(p, i);
      assert f[i] == p[i];
      var s := Target(f[i]);
      assert Hydrated(Empty, p).Get(s) <= Hydrated(Empty, f).Get(s);
    } else {
      LastPushed(p, t);
    }
  }

  /**
   * With distinct fetched ids, the last task of a response is not yet in its
   * column when the loop reaches it.
   */
  lemma FreshWhenDistinct(p: seq<Task>, t: Task)
    requires NoDupIds(p + [t])
    requires forall s :: Hydrated(Empty, p).Get(s) == Filter(p, s)
    ensures !HasId(Hydrated(Empty, p).Get(Target(t)), t.id)
  {
    var f := p + [t];
    var col := Hydrated(Empty, p).Get(Target(t));
    forall m | 0 <= m < |col| ensures Ids(col)[m] != t.id {
      var y := col[m];
      assert y in Filter(p, Target(t));
      var j :| 0 <= j < |p| && p[j] == y;
      assert f[j] == y && f[|p|] == t;
    }
  }

  /** A step that pushes a task adds one occurrence of its id to the board. */
  lemma StepBag(c: Columns, t: Task)
    requires !HasId(c.Get(Target(t)), t.id)
    ensures IdBag(Step(c, t)) == IdBag(c) + multiset{t.id}
  {
    var s := Target(t);
    BagConcat(c.Get(s), [t]);
    assert Bag([t]) == multiset{t.id};
    IdBagSet(c, s, c.Get(s) + [t]);
  }

  /**
   * When the fetched ids are distinct, each column is exactly the fetched tasks
   * of that status, in response order.
   */
  lemma {:induction false} HydrateDistinctColumns(f: seq<Task>)
    requires NoDupIds(f)
    ensures forall s :: Hydrated(Empty, f).Get(s) == Filter(f, s)
    decreases |f|
  {
    if f != [] {
      var p := f[..|f| - 1];
      assert NoDupIds(p);
      HydrateDistinctColumns(p);
      assert f == p + [f[|f| - 1]];
      FreshWhenDistinct(p, f[|f| - 1]);
    }
  }

  /** The ids of a sequence are those before its last task plus the last one. */
  lemma BagLast(f: seq<Task>)
    requires f != []
    ensures Bag(f) == Bag(f[..|f| - 1]) + multiset{f[|f| - 1].id}
  {
    var p, t := f[..|f| - 1], f[|f| - 1];
    assert f == p + [t];
    BagConcat(p, [t]);
    assert Bag([t]) == multiset{t.id};
  }

  /** With distinct fetched ids, the last task of a response adds its id to the board. */
  lemma DistinctStepBag(p: seq<Task>, t: Task)
    requires NoDupIds(p + [t])
    ensures IdBag(Hydrated(Empty, p + [t])) == IdBag(Hydrated(Empty, p)) + multiset{t.id}
  {
    var f := p + [t];
    assert f[..|f| - 1] == p && f[|f| - 1] == t;
    assert NoDupIds(p) by {
      forall i, j | 0 <= i < j < |p| ensures p[i].id != p[j].id {
        assert p[i] == f[i] && p[j] == f[j];
      }
    }
    HydrateDistinctColumns(p);
    FreshWhenDistinct(p, t);
    StepBag(Hydrated(Empty, p), t);
  }

  /** When the fetched ids are distinct, the board holds exactly the fetched ids. */
  lemma {:induction false} HydrateDistinctIds(f: seq<Task>)
    requires NoDupIds(f)
    ensures IdBag(Hydrated(Empty, f)) == Bag(f)
    decreases |f|
  {
    if f != [] {
      var p, t := f[..|f| - 1], f[|f| - 1];
      assert f == p + [t];
      assert NoDupIds(p);
      HydrateDistinctIds(p);
      DistinctStepBag(p, t);
      BagLast(f);
    }
  }

  /** When the fetched ids are distinct, every fetched id is in exactly one column. */
  lemma HydratePartitioned(f: seq<Task>)
    requires NoDupIds(f)
    ensures Partitioned(Hydrated(Empty, f))
  {
    HydrateDistinctIds(f);
    NoDupBag(f);
  }

  // ---------------------------------------------------------------------------
  // Drag and drop (Dashboard.tsx:55-75)
  // ---------------------------------------------------------------------------

  /** One end of a drag: a column and a position in it. */
  datatype Location = Location(column: Status, index: int)

  /** What the drag library reports when a drag ends; no destination means the drop was cancelled. */
  datatype DropResult = DropResult(source: Location, destination: Option<Location>)

  /** The body of `PUT /api/tasks/:id` that a move sends: the task id and its new status only. */
  datatype StatusUpdate = StatusUpdate(taskId: string, status: Status)

  /**
   * What a drop does besides the board: nothing (no destination), a crash
   * (the source position named no task, so `movedTask.status` dereferences
   * undefined), or one status update sent, with `logged` when it failed.
   */
  datatype DropEffect = Ignored | Crashed | Sent(request: StatusUpdate, logged: bool)

  /** The position `splice(source.index, 1)` removes from in the source column. */
  function SourcePosition(c: Columns, d: DropResult): nat
  {
    SpliceStart(|c.Get(d.source.column)|, d.source.index)
  }

  /** Whether a drop moves a task: it has a destination and the source position names a task. */
  predicate Moves(c: Columns, d: DropResult)
  {
    d.destination.Some? && SourcePosition(c, d) < |c.Get(d.source.column)|
  }

  /** The moved task, with its status already set to the destination column. */
  function MovedTask(c: Columns, d: DropResult): Task
    requires Moves(c, d)
  {
    c.Get(d.source.column)[SourcePosition(c, d)].(status := Some(d.destination.value.column))
  }

  /** The columns after the source splice, before the insertion. */
  function Lifted(c: Columns, d: DropResult): Columns
    requires Moves(c, d)
  {
    c.Set(d.source.column, RemoveAt(c.Get(d.source.column), SourcePosition(c, d)))
  }

  /** The position `splice(destination.index, 0, task)` inserts at. */
  function DestPosition(c: Columns, d: DropResult): nat
    requires Moves(c, d)
  {
    SpliceStart(|Lifted(c, d).Get(d.destination.value.column)|, d.destination.value.index)
  }

  /** The board after a drop. */
  function Dropped(c: Columns, d: DropResult): Columns
  {
    if !Moves(c, d) then c
    else
      var dst := d.destination.value.column;
      var l := Lifted(c, d);
      l.Set(dst, InsertAt(l.Get(dst), DestPosition(c, d), MovedTask(c, d)))
  }

  /** What a drop does besides the board, given whether the remote call succeeds. */
  function DropOutcome(c: Columns, d: DropResult, remoteOk: bool): DropEffect
  {
    if d.destination.None? then Ignored
    else if !Moves(c, d) then Crashed
    else Sent(StatusUpdate(MovedTask(c, d).id, d.destination.value.column), !remoteOk)
  }

  /**
   * A drop that does not move (no destination, or a source position naming no
   * task) leaves every column as it was and sends nothing.
   */
  lemma NoMoveNoChange(c: Columns, d: DropResult, remoteOk: bool)
    requires !Moves(c, d)
    ensures Dropped(c, d) == c
    ensures !DropOutcome(c, d, remoteOk).Sent?
    ensures d.destination.None? <==> DropOutcome(c, d, remoteOk) == Ignored
  {
  }

  /** Removing the task at position `k` of a column takes its id off the board once. */
  lemma LiftBag(c: Columns, s: Status, k: nat)
    requires k < |c.Get(s)|
    ensures IdBag(c.Set(s, RemoveAt(c.Get(s), k))) + multiset{c.Get(s)[k].id} == IdBag(c)
  {
    BagRemoveAt(c.Get(s), k);
    IdBagSet(c, s, RemoveAt(c.Get(s), k));
  }

  /** Inserting a task into a column puts its id on the board once more. */
  lemma InsertBag(c: Columns, s: Status, k: nat, t: Task)
    requires k <= |c.Get(s)|
    ensures IdBag(c.Set(s, InsertAt(c.Get(s), k, t))) == IdBag(c) + multiset{t.id}
  {
    BagInsertAt(c.Get(s), k, t);
    IdBagSet(c, s, InsertAt(c.Get(s), k, t));
  }

  /** A move keeps the multiset of task ids on the board. */
  lemma DropKeepsIds(c: Columns, d: DropResult)
    ensures IdBag(Dropped(c, d)) == IdBag(c)
  {
    if Moves(c, d) {
      LiftBag(c, d.source.column, SourcePosition(c, d));
      InsertBag(Lifted(c, d), d.destination.value.column, DestPosition(c, d), MovedTask(c, d));
    }
  }

  /** A move keeps every id in exactly one column. */
  lemma DropKeepsPartition(c: Columns, d: DropResult)
    requires Partitioned(c)
    ensures Partitioned(Dropped(c, d))
  {
    DropKeepsIds(c, d);
  }

  /**
   * A move puts the moved task, with its status set to the destination key, at
   * position min(index, length) of the destination column (length counted after
   * the removal), and leaves the columns it does not touch as they were.
   */
  lemma DropPlacement(c: Columns, d: DropResult)
    requires Moves(c, d)
    ensures var dst := d.destination.value;
      var len := |c.Get(dst.column)| - (if d.source.column == dst.column then 1 else 0);
      && DestPosition(c, d) <= len
      && (0 <= dst.index ==> DestPosition(c, d) == if dst.index <= len then dst.index else len)
      && Dropped(c, d).Get(dst.column)[DestPosition(c, d)] == MovedTask(c, d)
      && MovedTask(c, d).status == Some(dst.column)
      && MovedTask(c, d).id == c.Get(d.source.column)[SourcePosition(c, d)].id
      && |Dropped(c, d).Get(dst.column)| == len + 1
    ensures forall o :: o != d.source.column && o != d.destination.value.column ==>
      Dropped(c, d).Get(o) == c.Get(o)
  {
  }

  /**
   * On a partitioned board, a move to another column leaves no task with the
   * moved id in the source column.
   */
  lemma DropLeavesSource(c: Columns, d: DropResult)
    requires Partitioned(c) && Moves(c, d)
    requires d.source.column != d.destination.value.column
    ensures !HasId(Dropped(c, d).Get(d.source.column), MovedTask(c, d).id)
  {
    var src := d.source.column;
    var k := SourcePosition(c, d);
    var col := c.Get(src);
    var id := col[k].id;
    assert Ids(col)[k] == id;
    PartitionedExactlyOne(c, src, id);
    var rest := RemoveAt(col, k);
    BagRemoveAt(col, k);
    assert Dropped(c, d).Get(src) == rest;
  }

  /** A drop within one column is a pure reorder: same length, same ids. */
  lemma DropSameColumn(c: Columns, d: DropResult)
    requires Moves(c, d) && d.source.column == d.destination.value.column
    ensures |Dropped(c, d).Get(d.source.column)| == |c.Get(d.source.column)|
    ensures Bag(Dropped(c, d).Get(d.source.column)) == Bag(c.Get(d.source.column))
  {
    var s := d.source.column;
    var col := c.Get(s);
    var k := SourcePosition(c, d);
    var rest := RemoveAt(col, k);
    assert Lifted(c, d).Get(s) == rest;
    assert Dropped(c, d).Get(s) == InsertAt(rest, DestPosition(c, d), MovedTask(c, d));
    BagRemoveAt(col, k);
    BagInsertAt(rest, DestPosition(c, d), MovedTask(c, d));
  }

  /** A move keeps every task in the column its status names. */
  lemma DropKeepsStatus(c: Columns, d: DropResult)
    requires StatusAgrees(c)
    ensures StatusAgrees(Dropped(c, d))
  {
    if Moves(c, d) {
      var src, dst := d.source.column, d.destination.value.column;
      var l := Lifted(c, d);
      assert StatusAgrees(l) by {
        forall s: Status, i | 0 <= i < |l.Get(s)| ensures Target(l.Get(s)[i]) == s {
          if s == src && i >= SourcePosition(c, d) {
            assert l.Get(s)[i] == c.Get(s)[i + 1];
          }
        }
      }
      var r := Dropped(c, d);
      var j := DestPosition(c, d);
      forall s: Status, i | 0 <= i < |r.Get(s)| ensures Target(r.Get(s)[i]) == s {
        if s == dst && i > j {
          assert r.Get(s)[i] == l.Get(s)[i - 1];
        }
      }
    }
  }

  // ---------------------------------------------------------------------------
  // The board object
  // ---------------------------------------------------------------------------

  /** The board state of the dashboard: one task array per column, changed in place. */
  class Board {
    var backlog: seq<Task>
    var todo: seq<Task>
    var inprogress: seq<Task>
    var done: seq<Task>

    /** The four columns as a value. */
    function Value(): Columns
      reads this
    {
      Columns(backlog, todo, inprogress, done)
    }

    /** The initial board (`initialColumns`): every column empty. */
    constructor ()
      ensures Value() == Empty
    {
      backlog, todo, inprogress, done := [], [], [], [];
    }

    /** Replaces the task array of column `s`. */
    method SetColumn(s: Status, col: seq<Task>)
      modifies this
      ensures Value() == old(Value()).Set(s, col)
    {
      match s
      case Backlog => backlog := col;
      case Todo => todo := col;
      case InProgress => inprogress := col;
      case Done => done := col;
    }

    /**
     * The hydration loop of `fetchTasks`: each fetched task is pushed onto the
     * column its status names (To Do without one) unless that column already
     * holds a task with its id.
     */
    method Hydrate(fetched: seq<Task>)
      modifies this
      ensures Value() == Hydrated(old(Value()), fetched)
    {
      var i := 0;
      while i < |fetched|
        invariant 0 <= i <= |fetched|
        invariant Value() == Hydrated(old(Value()), fetched[..i])
      {
        var task := fetched[i];
        var status := Target(task);
        var tasks := Value().Get(status);
        if !HasId(tasks, task.id) {
          SetColumn(status, tasks + [task]);
        }
        assert fetched[..i + 1][..i] == fetched[..i];
        i := i + 1;
      }
      assert fetched[..i] == fetched;
    }

    /**
     * `handleDragEnd`: without a destination nothing happens; otherwise the
     * task is spliced out of the source array, its status set to the
     * destination key, and spliced into the destination array; then only
     * `{status}` is sent, and a failure of that call is logged, never undone.
     */
    method HandleDragEnd(drop: DropResult, remoteOk: bool) returns (effect: DropEffect)
      modifies this
      ensures Value() == Dropped(old(Value()), drop)
      ensures effect == DropOutcome(old(Value()), drop, remoteOk)
    {
      if drop.destination.None? {
        return Ignored;
      }
      var dest := drop.destination.value;
      var sourceTasks := Value().Get(drop.source.column);
      var k := SpliceStart(|sourceTasks|, drop.source.index);
      if k >= |sourceTasks| {
        return Crashed;
      }
      var moved := sourceTasks[k];
      SetColumn(drop.source.column, RemoveAt(sourceTasks, k));
      moved := moved.(status := Some(dest.column));
      var destTasks := Value().Get(dest.column);
      SetColumn(dest.column, InsertAt(destTasks, SpliceStart(|destTasks|, dest.index), moved));
      effect := Sent(StatusUpdate(moved.id, dest.column), !remoteOk);
    }
  }

  // ---------------------------------------------------------------------------
  // The two end-to-end board scenarios
  // ---------------------------------------------------------------------------

  /** Fetching tasks 1 (todo) and 2 (done) fills To Do with 1 and Done with 2. */
  lemma ScenarioHydrate()
    ensures var t1 := Task("1", "a", "high", Some(Todo));
      var t2 := Task("2", "b", "low", Some(Done));
      Hydrated(Empty, [t1, t2]) == Columns([], [t1], [], [t2])
  {
    var t1 := Task("1", "a", "high", Some(Todo));
    var t2 := Task("2", "b", "low", Some(Done));
    assert [t1, t2][..1] == [t1];
    assert Hydrated(Empty, [t1]) == Columns([], [t1], [], []);
  }

  /** Dragging task 1 from To Do position 0 to In Progress position 0 moves it and sends `{status: "inprogress"}`. */
  lemma ScenarioDrag()
    ensures var t1 := Task("1", "a", "high", Some(Todo));
      var c := Columns([], [t1], [], []);
      var d := DropResult(Location(Todo, 0), Some(Location(InProgress, 0)));
      && Dropped(c, d) == Columns([], [], [t1.(status := Some(InProgress))], [])
      && DropOutcome(c, d, false) == Sent(StatusUpdate("1", InProgress), true)
  {
  }
}
