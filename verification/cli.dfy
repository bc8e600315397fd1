/**
 * The command layer of the tracker (src/cli.rs): the commands, the key
 * tables, how one command is read from the keyboard, and how a command is
 * run against the store.
 */
module Cli {
  import opened Wrappers
  import opened Models
  import opened Storage
  import opened Input

  datatype Command =
    | Add(status: TaskStatus, description: string)
    | Delete(id: string)
    | Update(id: string, status: TaskStatus, description: string)
    | List

  // ---------------------------------------------------------------------------
  // Key tables
  // ---------------------------------------------------------------------------

  /** `convert`: the status menu's digit keys. */
  function Convert(key: string): (r: Option<TaskStatus>)
    ensures r.Some? ==> StatusKey(r.value) == key
    ensures r.None? <==> key !in {"1", "2", "3", "4"}
  {
    if key == "1" then Some(Todo)
    else if key == "2" then Some(InProgress)
    else if key == "3" then Some(Blocked)
    else if key == "4" then Some(Done)
    else None
  }

  /** The key that selects a status in the status menu. */
  function StatusKey(status: TaskStatus): string
  {
    match status
    case Todo => "1"
    case InProgress => "2"
    case Blocked => "3"
    case Done => "4"
  }

  /** Convert is total and selects each status by exactly one key. */
  lemma ConvertSelectsByKey(key: string, status: TaskStatus)
    ensures Convert(key) == Some(status) <==> key == StatusKey(status)
    ensures Convert(key).None? <==> key !in {"1", "2", "3", "4"}
  {
  }

  /** `to_ascii_lowercase` on a character. */
  function AsciiLower(c: char): (l: char)
    ensures 'A' <= c <= 'Z' ==> l as int == c as int + 32
    ensures !('A' <= c <= 'Z') ==> l == c
    ensures !('A' <= l <= 'Z')
  {
    if 'A' <= c <= 'Z' then (c as int + 32) as char else c
  }

  /** What `command_for_event` does with a (lower-case) key. */
  datatype KeyBinding = BeginAdd | ListTasks | NotYetImplemented | Unbound

  /** `command_for_event`'s table: `d` and `u` are still `todo!()`. */
  function CommandForKey(code: char): (b: KeyBinding)
    ensures b == BeginAdd <==> code == 'a'
    ensures b == ListTasks <==> code == 'l'
    ensures b == NotYetImplemented <==> code in {'d', 'u'}
    ensures b == Unbound <==> code !in {'a', 'l', 'd', 'u'}
  {
    if code == 'a' then BeginAdd
    else if code == 'l' then ListTasks
    else if code == 'd' || code == 'u' then NotYetImplemented
    else Unbound
  }

  // ---------------------------------------------------------------------------
  // Reading one command
  // ---------------------------------------------------------------------------

  datatype InputFault = KeyReadFailed | KeyNotSupported

  /**
   * What `read_command` ends in: a command, an input error, the panic of a
   * `todo!()`, or (only in the model) input that ran out.
   */
  datatype ReadOutcome = Resolved(command: Command) | Rejected(fault: InputFault) | Unimplemented | InputEnded

  datatype Resolution = Resolution(outcome: ReadOutcome, events: seq<TermEvent>, lines: seq<string>)

  /** The description `read_line` yields. */
  function FirstLine(lines: seq<string>): string
  {
    if lines == [] then "" else lines[0]
  }

  function LaterLines(lines: seq<string>): seq<string>
  {
    if lines == [] then [] else lines[1..]
  }

  /**
   * `make_add_command` as `read_command` sees it: a status key and a
   * description line, or "Key not supported" when no command results.
   */
  function AddPrompt(evs: seq<TermEvent>, lines: seq<string>): (r: Resolution)
    ensures |r.events| <= |evs|
  {
    var k := NextKey(evs);
    match k.result
    case NoInput => Resolution(InputEnded, k.rest, lines)
    case KeyError => Resolution(Rejected(KeyNotSupported), AfterAnyKey(k.rest), lines)
    case GotChar(c) =>
      match Convert([c])
      case None => Resolution(Rejected(KeyNotSupported), k.rest, lines)
      case Some(status) => Resolution(Resolved(Add(status, FirstLine(lines))), k.rest, LaterLines(lines))
  }

  /** `read_command`: one key, lower-cased, looked up in the table. */
  function Resolve(evs: seq<TermEvent>, lines: seq<string>): (r: Resolution)
    ensures r.outcome.InputEnded? || |r.events| < |evs|
  {
    Dispatch(NextKey(evs), lines)
  }

  /** What `read_command` does with the key it has read. */
  function Dispatch(k: KeyRead, lines: seq<string>): (r: Resolution)
    ensures k.result.NoInput? ==> r.outcome.InputEnded?
    ensures |r.events| <= |k.rest|
  {
    match k.result
    case NoInput => Resolution(InputEnded, k.rest, lines)
    case KeyError => Resolution(Rejected(KeyReadFailed), k.rest, lines)
    case GotChar(c) =>
      match CommandForKey(AsciiLower(c))
      case BeginAdd => AddPrompt(k.rest, lines)
      case ListTasks => Resolution(Resolved(List), k.rest, lines)
      case NotYetImplemented => Resolution(Unimplemented, k.rest, lines)
      case Unbound => Resolution(Rejected(KeyNotSupported), k.rest, lines)
  }

  /** `make_add_command`. */
  method MakeAddCommand(term: Terminal) returns (o: ReadOutcome)
    modifies term
    ensures var r := AddPrompt(old(term.events), old(term.lines));
      o == r.outcome && term.events == r.events && term.lines == r.lines
  {
    var key := term.ListenForKey();
    match key {
      case NoInput =>
        o := InputEnded;
      case KeyError =>
        term.WaitForAnyKey();
        o := Rejected(KeyNotSupported);
      case GotChar(c) =>
        match Convert([c]) {
          case None =>
            o := Rejected(KeyNotSupported);
          case Some(status) =>
            var description := term.ReadLine();
            o := Resolved(Add(status, description));
        }
    }
  }

  /** `read_command`, with `command_for_event` inlined. */
  method ReadCommand(term: Terminal) returns (o: ReadOutcome)
    modifies term
    ensures var r := Resolve(old(term.events), old(term.lines));
      o == r.outcome && term.events == r.events && term.lines == r.lines
  {
    var key := term.ListenForKey();
    match key {
      case NoInput =>
        o := InputEnded;
      case KeyError =>
        o := Rejected(KeyReadFailed);
      case GotChar(c) =>
        var code := AsciiLower(c);
        match CommandForKey(code) {
          case BeginAdd =>
            o := MakeAddCommand(term);
          case ListTasks =>
            o := Resolved(List);
          case NotYetImplemented =>
            o := Unimplemented;
          case Unbound =>
            o := Rejected(KeyNotSupported);
        }
    }
  }

  /** Upper and lower case select the same command. */
  lemma ResolveIgnoresCase(c: char, evs: seq<TermEvent>, lines: seq<string>)
    ensures Resolve([Key(Char(c))] + evs, lines) == Resolve([Key(Char(AsciiLower(c)))] + evs, lines)
  {
    NextKeyTakesCharacter(c, evs);
    NextKeyTakesCharacter(AsciiLower(c), evs);
  }

  /** 'l' and 'L' both list, reading nothing further. */
  lemma ListKeys(evs: seq<TermEvent>, lines: seq<string>)
    ensures Resolve([Key(Char('l'))] + evs, lines) == Resolution(Resolved(List), evs, lines)
    ensures Resolve([Key(Char('L'))] + evs, lines) == Resolution(Resolved(List), evs, lines)
  {
    NextKeyTakesCharacter('l', evs);
    NextKeyTakesCharacter('L', evs);
  }

  /** Any key outside a, l, d, u (in either case) is "Key not supported", with no command. */
  lemma UnboundKeyRejected(c: char, evs: seq<TermEvent>, lines: seq<string>)
    requires AsciiLower(c) !in {'a', 'l', 'd', 'u'}
    ensures Resolve([Key(Char(c))] + evs, lines) == Resolution(Rejected(KeyNotSupported), evs, lines)
  {
    NextKeyTakesCharacter(c, evs);
  }

  /** Non-character events before the key are passed over. */
  lemma ResolveSkipsNonCharacters(e: TermEvent, evs: seq<TermEvent>, lines: seq<string>)
    requires Skipped(e)
    ensures Resolve([e] + evs, lines) == Resolve(evs, lines)
  {
    NextKeyPassesOver(e, evs);
  }

  /** A status key other than 1 to 4 yields no Add command, and no description is read. */
  lemma AddRejectsBadStatus(status: char, evs: seq<TermEvent>, lines: seq<string>)
    requires status !in {'1', '2', '3', '4'}
    ensures Resolve([Key(Char('a')), Key(Char(status))] + evs, lines) ==
      Resolution(Rejected(KeyNotSupported), evs, lines)
  {
    assert [Key(Char('a')), Key(Char(status))] + evs == [Key(Char('a'))] + ([Key(Char(status))] + evs);
    NextKeyTakesCharacter('a', [Key(Char(status))] + evs);
    NextKeyTakesCharacter(status, evs);
    ConvertSelectsByKey([status], Todo);
  }

  /** 'a', a status key and a line make the Add command with that status and line. */
  lemma AddBuildsCommand(status: TaskStatus, line: string, evs: seq<TermEvent>, lines: seq<string>)
    ensures Resolve([Key(Char('A')), Key(Char(StatusKey(status)[0]))] + evs, [line] + lines) ==
      Resolution(Resolved(Add(status, line)), evs, lines)
  {
    var c := StatusKey(status)[0];
    assert [Key(Char('A')), Key(Char(c))] + evs == [Key(Char('A'))] + ([Key(Char(c))] + evs);
    NextKeyTakesCharacter('A', [Key(Char(c))] + evs);
    NextKeyTakesCharacter(c, evs);
    assert [c] == StatusKey(status);
    assert ([line] + lines)[1..] == lines;
  }

  /** The keyboard never produces a Delete or an Update command. */
  lemma ResolveOnlyAddsOrLists(evs: seq<TermEvent>, lines: seq<string>)
    ensures Resolve(evs, lines).outcome.Resolved? ==>
      Resolve(evs, lines).outcome.command.Add? || Resolve(evs, lines).outcome.command.List?
  {
  }

  // ---------------------------------------------------------------------------
  // Running one command
  // ---------------------------------------------------------------------------

  /**
   * `run_command` as a function of the store's file, the faults of the one
   * storage call it makes and the id the generator would hand out next.
   */
  function Execute(command: Command, file: FileState, io: IoFaults, freshId: Uuid): Outcome
  {
    match command
    case Add(status, description) => Written(file, io, Task(freshId, status, description))
    case Delete(id) => Removed(file, io, id)
    case Update(id, status, description) => Updated(file, io, id, status, description)
    case List => Outcome(file, Ok(()))
  }

  /** `run_command`. */
  method RunCommand(command: Command, storage: FileStorage, gen: UuidGenerator, io: IoFaults) returns (r: Result<()>)
    modifies storage, gen
    ensures Outcome(storage.file, r) == Execute(command, old(storage.file), io, gen.draw(old(gen.calls)))
    ensures gen.calls == old(gen.calls) + (if command.Add? then 1 else 0)
  {
    match command {
      case Add(status, description) =>
        var task := NewTask(gen, status, description);
        r := storage.WriteTask(io, task);
      case Delete(id) =>
        r := storage.RemoveTask(io, id);
      case Update(id, status, description) =>
        r := storage.UpdateTask(io, id, status, description);
      case List =>
        // the loaded list, or the error, is printed and not returned
        var tasks := storage.LoadTasks(io);
        r := Ok(());
    }
  }

  /**
   * A successful Add stores exactly one new task, after the tasks it loaded, with the
   * command's status and description; on an empty store it is the only task.
   */
  lemma AddStoresOneTask(status: TaskStatus, description: string, file: FileState, io: IoFaults, freshId: Uuid)
    requires Execute(Add(status, description), file, io, freshId).result.Ok?
    ensures var after := Contents(Execute(Add(status, description), file, io, freshId).file);
      after == Loaded(file, io).value + [Task(freshId, status, description)] &&
      (!io.readFails ==> after == Contents(file) + [Task(freshId, status, description)]) &&
      (Contents(file) == [] ==> |after| == 1 && after[0].description == description && after[0].status == status)
  {
    WriteAppends(file, io, Task(freshId, status, description));
  }

  /** Listing never changes the store and never fails, whatever the file system does. */
  lemma ListChangesNothing(file: FileState, io: IoFaults, freshId: Uuid)
    ensures Execute(List, file, io, freshId) == Outcome(file, Ok(()))
  {
  }

  /** Adding a task to an empty store and deleting it by its id leaves the store empty. */
  lemma AddThenDeleteEmpties(file: FileState, status: TaskStatus, description: string, freshId: Uuid, otherId: Uuid)
    requires Contents(file) == []
    ensures var added := Execute(Add(status, description), file, NoFaults, freshId).file;
      Execute(Delete(IdString(freshId)), added, NoFaults, otherId) == Outcome(Valid([]), Ok(()))
  {
    var t := Task(freshId, status, description);
    WriteAppends(file, NoFaults, t);
    var added := Execute(Add(status, description), file, NoFaults, freshId).file;
    assert added == Valid([t]);
    RemoveDeletesFirstMatch(added, NoFaults, IdString(freshId), 0);
  }

  /**
   * Updating a stored id gives its task the new status and description,
   * keeps its id and its position.
   */
  lemma UpdateSetsFields(before: seq<Task>, i: nat, status: TaskStatus, description: string, freshId: Uuid)
    requires i < |before| && UniqueIds(before)
    ensures var after := Contents(Execute(Update(IdString(before[i].id), status, description), Valid(before), NoFaults, freshId).file);
      |after| == |before| && after[i] == Task(before[i].id, status, description) &&
      forall j :: 0 <= j < |before| && j != i ==> after[j] == before[j]
  {
    var id := IdString(before[i].id);
    forall j | 0 <= j < i
      ensures !HasId(before[j], id)
    {
      IdStringInjective(before[j].id, before[i].id);
    }
    UpdateReplacesInPlace(Valid(before), NoFaults, id, status, description, i);
  }

  /**
   * Add, update and remove one task, listing in between: the list shows the
   * added task, then the same id with the new fields, then nothing.
   */
  lemma AddUpdateRemoveScenario(file: FileState, freshId: Uuid, otherId: Uuid)
    requires Contents(file) == []
    ensures var f1 := Execute(Add(Todo, "buy milk"), file, NoFaults, freshId).file;
      var f2 := Execute(Update(IdString(freshId), Done, "bought milk"), f1, NoFaults, otherId).file;
      var f3 := Execute(Delete(IdString(freshId)), f2, NoFaults, otherId);
      Contents(f1) == [Task(freshId, Todo, "buy milk")] &&
      Contents(f2) == [Task(freshId, Done, "bought milk")] &&
      f3 == Outcome(Valid([]), Ok(()))
  {
    var t := Task(freshId, Todo, "buy milk");
    WriteAppends(file, NoFaults, t);
    var f1 := Execute(Add(Todo, "buy milk"), file, NoFaults, freshId).file;
    assert f1 == Valid([t]);
    UpdateSetsFields([t], 0, Done, "bought milk", otherId);
    var f2 := Execute(Update(IdString(freshId), Done, "bought milk"), f1, NoFaults, otherId).file;
    assert f2 == Valid([Task(freshId, Done, "bought milk")]);
    RemoveDeletesFirstMatch(f2, NoFaults, IdString(freshId), 0);
  }

  /** Removing any id from an empty store fails with NoSuchId and leaves it empty. */
  lemma DeleteFromEmptyStore(file: FileState, id: string, freshId: Uuid)
    requires Contents(file) == []
    ensures Execute(Delete(id), file, NoFaults, freshId) == Outcome(file, Err(NoSuchId))
  {
  }
}
