/**
 * The file-backed task store (src/storage.rs). The backing file `tasks.json`
 * is seen as one of three states: it does not exist, it exists but does not
 * parse as a task list, or it holds a task list. Every mutating operation
 * loads the whole list, changes it and rewrites the whole file.
 *
 * The file system's failures are an oracle: an `IoFaults` value says which
 * steps of one storage call fail.
 */
module Storage {
  import opened Wrappers
  import opened Models

  datatype FileState = Absent | Malformed | Valid(tasks: seq<Task>)

  /**
   * Which steps of one storage call fail: the data-directory lookup (or its
   * creation), opening the existing file for reading, reading its bytes
   * once it is open, creating (truncating) the file for writing, and
   * writing the serialised list into it.
   */
  datatype IoFaults = IoFaults(pathFails: bool, openFails: bool, readFails: bool, createFails: bool, writeFails: bool)

  const NoFaults := IoFaults(false, false, false, false, false)

  datatype StorageError = PathUnavailable | OpenFailed | CreateFailed | WriteFailed | NoSuchId

  datatype Result<T> = Ok(value: T) | Err(error: StorageError)

  /** The file left behind by a storage call, and what the call returned. */
  datatype Outcome = Outcome(file: FileState, result: Result<()>)

  // ---------------------------------------------------------------------------
  // The operations as functions of the file and the faults
  // ---------------------------------------------------------------------------

  /**
   * `load_tasks`: a missing or unparsable file reads as the empty list, and
   * so does one whose bytes cannot be read once it is open, because the
   * deserialiser's error, whatever its cause, is replaced by the empty list.
   */
  function Loaded(file: FileState, io: IoFaults): Result<seq<Task>>
  {
    if io.pathFails then Err(PathUnavailable)
    else match file
      case Absent => Ok([])
      case Malformed => if io.openFails then Err(OpenFailed) else Ok([])
      case Valid(ts) => if io.openFails then Err(OpenFailed) else if io.readFails then Ok([]) else Ok(ts)
  }

  /** The tasks a load without faults returns. */
  function Contents(file: FileState): (ts: seq<Task>)
    ensures Loaded(file, NoFaults) == Ok(ts)
  {
    if file.Valid? then file.tasks else []
  }

  /**
   * `File::create` followed by writing `ts`: a failed create leaves the file
   * as it was; a failed write leaves it truncated or half written.
   */
  function Rewritten(file: FileState, io: IoFaults, ts: seq<Task>): Outcome
  {
    if io.createFails then Outcome(file, Err(CreateFailed))
    else if io.writeFails then Outcome(Malformed, Err(WriteFailed))
    else Outcome(Valid(ts), Ok(()))
  }

  /** Whether the string form of the task's id is `id` (`x.id.to_string() == id`). */
  predicate HasId(t: Task, id: string)
  {
    IdString(t.id) == id
  }

  /** The position of the first task whose id string is `id`. */
  function FirstMatch(ts: seq<Task>, id: string): (r: Option<nat>)
    ensures r.Some? ==> r.value < |ts| && HasId(ts[r.value], id)
    ensures r.Some? ==> forall j :: 0 <= j < r.value ==> !HasId(ts[j], id)
    ensures r.None? ==> forall j :: 0 <= j < |ts| ==> !HasId(ts[j], id)
  {
    FirstSatisfying(ts, t => HasId(t, id))
  }

  /** The position of the first element that satisfies `p` (`Iterator::position`). */
  function FirstSatisfying<T>(xs: seq<T>, p: T -> bool): (r: Option<nat>)
    ensures r.Some? ==> r.value < |xs| && p(xs[r.value])
    ensures r.Some? ==> forall j :: 0 <= j < r.value ==> !p(xs[j])
    ensures r.None? ==> forall j :: 0 <= j < |xs| ==> !p(xs[j])
  {
    if xs == [] then None
    else if p(xs[0]) then Some(0)
    else
      var rest := FirstSatisfying(xs[1..], p);
      assert forall j :: 1 <= j < |xs| ==> xs[j] == xs[1..][j - 1];
      if rest.None? then None else Some(rest.value + 1)
  }

  /** The list with the task at `i` deleted (`Vec::remove`). */
  function DeleteAt(ts: seq<Task>, i: nat): (r: seq<Task>)
    requires i < |ts|
    ensures |r| == |ts| - 1
    ensures forall k :: 0 <= k < i ==> r[k] == ts[k]
    ensures forall k :: i <= k < |r| ==> r[k] == ts[k + 1]
    ensures multiset(r) + multiset{ts[i]} == multiset(ts)
  {
    assert ts == ts[..i] + [ts[i]] + ts[i + 1..];
    ts[..i] + ts[i + 1..]
  }

  /** `write_task`. */
  function Written(file: FileState, io: IoFaults, task: Task): Outcome
  {
    if io.pathFails then Outcome(file, Err(PathUnavailable))
    else match Loaded(file, io)
      case Err(e) => Outcome(file, Err(e))
      case Ok(ts) => Rewritten(file, io, ts + [task])
  }

  /** `remove_task`. */
  function Removed(file: FileState, io: IoFaults, id: string): Outcome
  {
    if io.pathFails then Outcome(file, Err(PathUnavailable))
    else match Loaded(file, io)
      case Err(e) => Outcome(file, Err(e))
      case Ok(ts) =>
        match FirstMatch(ts, id)
        case None => Outcome(file, Err(NoSuchId))
        case Some(i) => Rewritten(file, io, DeleteAt(ts, i))
  }

  /**
   * `update_task`, called at src/cli.rs:104. The `TaskStorage` trait
   * (src/storage.rs:17-21) does not declare it and src/storage.rs does not
   * implement it, so this body is a design in the style of remove_task: the
   * first task with the given id string gets the new status and
   * description, in place, and the whole file is rewritten.
   */
  function Updated(file: FileState, io: IoFaults, id: string, status: TaskStatus, description: string): Outcome
  {
    if io.pathFails then Outcome(file, Err(PathUnavailable))
    else match Loaded(file, io)
      case Err(e) => Outcome(file, Err(e))
      case Ok(ts) =>
        match FirstMatch(ts, id)
        case None => Outcome(file, Err(NoSuchId))
        case Some(i) => Rewritten(file, io, ts[i := Task(ts[i].id, status, description)])
  }

  // ---------------------------------------------------------------------------
  // The store
  // ---------------------------------------------------------------------------

  /** `FileStorage`: its state is what its data file holds. */
  class FileStorage {
    var file: FileState

    constructor (file: FileState)
      ensures this.file == file
    {
      this.file := file;
    }

    method LoadTasks(io: IoFaults) returns (r: Result<seq<Task>>)
      ensures r == Loaded(file, io)
    {
      if io.pathFails {
        return Err(PathUnavailable);
      }
      if file.Absent? {
        return Ok([]);
      }
      if io.openFails {
        return Err(OpenFailed);
      }
      // a file that cannot be read or does not parse reads as the empty list
      r := Ok(if file.Valid? && !io.readFails then file.tasks else []);
    }

    method TruncateAndWrite(io: IoFaults, tasks: seq<Task>) returns (r: Result<()>)
      modifies this
      ensures Outcome(file, r) == Rewritten(old(file), io, tasks)
    {
      if io.createFails {
        return Err(CreateFailed);
      }
      if io.writeFails {
        file := Malformed;
        return Err(WriteFailed);
      }
      file := Valid(tasks);
      r := Ok(());
    }

    method WriteTask(io: IoFaults, task: Task) returns (r: Result<()>)
      modifies this
      ensures Outcome(file, r) == Written(old(file), io, task)
    {
      if io.pathFails {
        return Err(PathUnavailable);
      }
      var loaded := LoadTasks(io);
      if loaded.Err? {
        return Err(loaded.error);
      }
      var tasks := loaded.value;
      tasks := tasks + [task];
      r := TruncateAndWrite(io, tasks);
    }

    method RemoveTask(io: IoFaults, id: string) returns (r: Result<()>)
      modifies this
      ensures Outcome(file, r) == Removed(old(file), io, id)
    {
      if io.pathFails {
        return Err(PathUnavailable);
      }
      var loaded := LoadTasks(io);
      if loaded.Err? {
        return Err(loaded.error);
      }
      var tasks := loaded.value;
      match FirstMatch(tasks, id) {
        case None =>
          r := Err(NoSuchId);
        case Some(index) =>
          tasks := DeleteAt(tasks, index);
          r := TruncateAndWrite(io, tasks);
      }
    }

    method UpdateTask(io: IoFaults, id: string, status: TaskStatus, description: string) returns (r: Result<()>)
      modifies this
      ensures Outcome(file, r) == Updated(old(file), io, id, status, description)
    {
      if io.pathFails {
        return Err(PathUnavailable);
      }
      var loaded := LoadTasks(io);
      if loaded.Err? {
        return Err(loaded.error);
      }
      var tasks := loaded.value;
      match FirstMatch(tasks, id) {
        case None =>
          r := Err(NoSuchId);
        case Some(index) =>
          tasks := tasks[index := Task(tasks[index].id, status, description)];
          r := TruncateAndWrite(io, tasks);
      }
    }
  }

  // ---------------------------------------------------------------------------
  // Properties of the store
  // ---------------------------------------------------------------------------

  /** A missing file loads as the empty list, not as an error. */
  lemma LoadMissingFile(io: IoFaults)
    requires !io.pathFails
    ensures Loaded(Absent, io) == Ok([])
  {
  }

  /** A file that does not parse loads as the empty list once it can be opened. */
  lemma LoadMalformedFile(io: IoFaults)
    requires !io.pathFails && !io.openFails
    ensures Loaded(Malformed, io) == Ok([])
  {
  }

  /** write_task succeeds exactly when no step it runs fails. */
  lemma WriteSucceedsIff(file: FileState, io: IoFaults, task: Task)
    ensures Written(file, io, task).result.Ok? <==>
      !io.pathFails && !(io.openFails && !file.Absent?) && !io.createFails && !io.writeFails
  {
  }

  /**
   * After a successful write_task the file holds the previously loaded list
   * with the task appended; earlier tasks keep their order and values.
   */
  lemma WriteAppends(file: FileState, io: IoFaults, task: Task)
    requires Written(file, io, task).result.Ok?
    ensures Loaded(file, io).Ok?
    ensures Written(file, io, task).file == Valid(Loaded(file, io).value + [task])
    ensures !io.readFails ==> Contents(Written(file, io, task).file) == Contents(file) + [task]
  {
  }

  /**
   * A read error on a well-formed file is swallowed as an empty list, so a
   * write_task that then succeeds replaces every stored task by the new one.
   */
  lemma ReadFailureLosesTasks(ts: seq<Task>, task: Task)
    ensures var io := NoFaults.(readFails := true);
      Loaded(Valid(ts), io) == Ok([]) &&
      Written(Valid(ts), io, task) == Outcome(Valid([task]), Ok(()))
  {
    assert [] + [task] == [task];
  }

  /**
   * write_task fails without touching the file when the path lookup, the load
   * or the create fails; a failed write after the truncation leaves a file
   * that later loads as the empty list.
   */
  lemma WriteFailureEffects(file: FileState, io: IoFaults, task: Task)
    ensures io.pathFails || Loaded(file, io).Err? || io.createFails ==>
      Written(file, io, task).file == file && Written(file, io, task).result.Err?
    ensures !io.pathFails && Loaded(file, io).Ok? && !io.createFails && io.writeFails ==>
      Written(file, io, task) == Outcome(Malformed, Err(WriteFailed)) &&
      Contents(Written(file, io, task).file) == []
  {
  }

  /** Whatever an unparsable file held is replaced by the single new task. */
  lemma WriteOverMalformed(task: Task)
    ensures Written(Malformed, NoFaults, task) == Outcome(Valid([task]), Ok(()))
  {
    assert [] + [task] == [task];
  }

  /**
   * When the task at `i` is the first whose id string is `id`, remove_task
   * deletes exactly that task and keeps all others in their order.
   */
  lemma RemoveDeletesFirstMatch(file: FileState, io: IoFaults, id: string, i: nat)
    requires Loaded(file, io).Ok?
    requires i < |Loaded(file, io).value|
    requires HasId(Loaded(file, io).value[i], id)
    requires forall j :: 0 <= j < i ==> !HasId(Loaded(file, io).value[j], id)
    requires !io.createFails && !io.writeFails
    ensures var ts := Loaded(file, io).value;
      Removed(file, io, id) == Outcome(Valid(DeleteAt(ts, i)), Ok(())) &&
      |Contents(Removed(file, io, id).file)| == |ts| - 1 &&
      multiset(Contents(Removed(file, io, id).file)) + multiset{ts[i]} == multiset(ts)
  {
    var ts := Loaded(file, io).value;
    assert FirstMatch(ts, id) == Some(i);
  }

  /** When no task's id string is `id`, remove_task fails and writes nothing. */
  lemma RemoveMissingId(file: FileState, io: IoFaults, id: string)
    requires Loaded(file, io).Ok?
    requires forall t :: t in Loaded(file, io).value ==> !HasId(t, id)
    ensures Removed(file, io, id) == Outcome(file, Err(NoSuchId))
  {
  }

  /** remove_task fails without touching the file when the path lookup or the load fails. */
  lemma RemoveFailsBeforeTruncation(file: FileState, io: IoFaults, id: string)
    requires io.pathFails || Loaded(file, io).Err?
    ensures Removed(file, io, id).file == file && Removed(file, io, id).result.Err?
  {
  }

  /**
   * Removal by the string form of a stored task's id removes that task and
   * no other, because the string form is injective.
   */
  lemma RemoveById(file: FileState, io: IoFaults, t: Task)
    requires Loaded(file, io).Ok? && UniqueIds(Loaded(file, io).value)
    requires t in Loaded(file, io).value
    requires !io.createFails && !io.writeFails
    ensures Removed(file, io, IdString(t.id)).result.Ok?
    ensures var after := Contents(Removed(file, io, IdString(t.id)).file);
      t !in after && multiset(after) + multiset{t} == multiset(Loaded(file, io).value)
  {
    var ts := Loaded(file, io).value;
    var id := IdString(t.id);
    var k :| 0 <= k < |ts| && ts[k] == t;
    assert HasId(ts[k], id);
    var i := FirstMatch(ts, id).value;
    IdStringInjective(ts[i].id, t.id);
    assert ts[i].id == ts[k].id;
    assert i == k;
    RemoveDeletesFirstMatch(file, io, id, i);
    var after := DeleteAt(ts, i);
    forall m | 0 <= m < |after|
      ensures after[m] != t
    {
      var m' := if m < i then m else m + 1;
      assert after[m] == ts[m'] && m' != i;
    }
  }

  /** A load returns the stored tasks, or the empty list when the read fails. */
  lemma LoadedIsStoredOrEmpty(file: FileState, io: IoFaults)
    requires Loaded(file, io).Ok?
    ensures Loaded(file, io).value == (if io.readFails then [] else Contents(file))
  {
  }

  /** remove_task keeps the stored ids unique, whatever the file system does. */
  lemma RemovePreservesUniqueIds(file: FileState, io: IoFaults, id: string)
    requires UniqueIds(Contents(file))
    ensures UniqueIds(Contents(Removed(file, io, id).file))
  {
    var o := Removed(file, io, id);
    if o.file != file && o.file.Valid? {
      LoadedIsStoredOrEmpty(file, io);
      var ts := Loaded(file, io).value;
      var i := FirstMatch(ts, id).value;
      var after := DeleteAt(ts, i);
      assert o.file.tasks == after;
      forall a, b | 0 <= a < b < |after|
        ensures after[a].id != after[b].id
      {
        var a' := if a < i then a else a + 1;
        var b' := if b < i then b else b + 1;
        assert after[a] == ts[a'] && after[b] == ts[b'] && a' < b';
      }
    }
  }

  /** write_task keeps the stored ids unique when the new task's id is not already stored. */
  lemma WritePreservesUniqueIds(file: FileState, io: IoFaults, task: Task)
    requires UniqueIds(Contents(file))
    requires forall t :: t in Contents(file) ==> t.id != task.id
    ensures UniqueIds(Contents(Written(file, io, task).file))
  {
    var o := Written(file, io, task);
    if o.file != file && o.file.Valid? {
      LoadedIsStoredOrEmpty(file, io);
      var ts := Loaded(file, io).value;
      var after := ts + [task];
      assert o.file.tasks == after;
      forall a, b | 0 <= a < b < |after|
        ensures after[a].id != after[b].id
      {
        if b == |ts| {
          assert after[a] in ts;
        }
      }
    }
  }

  /**
   * When the task at `i` is the first whose id string is `id`, update_task
   * gives it the new status and description, keeps its id and its position,
   * and leaves every other task as it was.
   */
  lemma UpdateReplacesInPlace(file: FileState, io: IoFaults, id: string, status: TaskStatus, description: string, i: nat)
    requires Loaded(file, io).Ok?
    requires i < |Loaded(file, io).value|
    requires HasId(Loaded(file, io).value[i], id)
    requires forall j :: 0 <= j < i ==> !HasId(Loaded(file, io).value[j], id)
    requires !io.createFails && !io.writeFails
    ensures var ts := Loaded(file, io).value;
      var after := Contents(Updated(file, io, id, status, description).file);
      Updated(file, io, id, status, description).result.Ok? &&
      |after| == |ts| &&
      after[i] == Task(ts[i].id, status, description) &&
      (forall j :: 0 <= j < |ts| && j != i ==> after[j] == ts[j])
  {
  }

  /** update_task keeps the stored ids unique: no id changes. */
  lemma UpdatePreservesUniqueIds(file: FileState, io: IoFaults, id: string, status: TaskStatus, description: string)
    requires UniqueIds(Contents(file))
    ensures UniqueIds(Contents(Updated(file, io, id, status, description).file))
  {
    var o := Updated(file, io, id, status, description);
    if o.file != file && o.file.Valid? {
      LoadedIsStoredOrEmpty(file, io);
      var ts := Loaded(file, io).value;
      var i := FirstMatch(ts, id).value;
      var after := o.file.tasks;
      assert after == ts[i := Task(ts[i].id, status, description)];
      assert forall k :: 0 <= k < |after| ==> after[k].id == ts[k].id;
    }
  }
}
