/**
 * The interactive loop (`loop_for_commands` in src/cli.rs): prompt for a
 * command key, run the command, wait for a key, and start again; after an
 * input error, ask for a key that either quits or resumes prompting.
 */
module CommandLoop {
  import opened Wrappers
  import opened Models
  import opened Storage
  import opened Input
  import opened Cli

  /** Why the loop ended. */
  datatype Exit =
    | StorageFailed(error: StorageError)  // a command failed: the error is printed and the loop returns
    | Quit                                // 'q' or 'Q' at the recovery prompt
    | RecoveryKeyFailed                   // the recovery key could not be read
    | Panicked                            // a `todo!()` key ('d' or 'u')
    | InputExhausted                      // only in the model: no terminal events left to block on

  /**
   * What the loop works on: the unread terminal events and input lines, the
   * store's file, how many ids the generator has handed out and how many
   * commands have run (which picks the faults of the next storage call).
   */
  datatype Config = Config(events: seq<TermEvent>, lines: seq<string>, file: FileState, drawn: nat, executed: nat)

  datatype Step = Continue(next: Config) | Stop(exit: Exit, last: Config)

  /**
   * One pass of the loop's body. `ids(n)` is the n-th generated id and
   * `faults(n)` the file system's behaviour during the n-th command.
   */
  function Iterate(cfg: Config, ids: nat -> Uuid, faults: nat -> IoFaults): (s: Step)
    ensures s.Continue? ==> |s.next.events| < |cfg.events|
  {
    var read := Resolve(cfg.events, cfg.lines);
    var cfg1 := cfg.(events := read.events, lines := read.lines);
    match read.outcome
    case InputEnded => Stop(InputExhausted, cfg1)
    case Unimplemented => Stop(Panicked, cfg1)
    case Resolved(command) =>
      var o := Execute(command, cfg.file, faults(cfg.executed), ids(cfg.drawn));
      var cfg2 := cfg1.(file := o.file,
                        drawn := if command.Add? then cfg.drawn + 1 else cfg.drawn,
                        executed := cfg.executed + 1);
      if o.result.Err? then Stop(StorageFailed(o.result.error), cfg2)
      else
        // the pause after a command: any key, and a failure to read it is ignored
        var pause := NextKey(cfg2.events);
        if pause.result.NoInput? then Stop(InputExhausted, cfg2.(events := pause.rest))
        else Continue(cfg2.(events := pause.rest))
    case Rejected(_) =>
      var key := NextKey(cfg1.events);
      var cfg2 := cfg1.(events := key.rest);
      match key.result
      case GotChar(c) => if AsciiLower(c) == 'q' then Stop(Quit, cfg2) else Continue(cfg2)
      case KeyError => Stop(RecoveryKeyFailed, cfg2)
      case NoInput => Stop(InputExhausted, cfg2)
  }

  /** The whole run of the loop from `cfg`: why it ends and in what state. */
  function Session(cfg: Config, ids: nat -> Uuid, faults: nat -> IoFaults): (Exit, Config)
    decreases |cfg.events|
  {
    match Iterate(cfg, ids, faults)
    case Stop(exit, last) => (exit, last)
    case Continue(next) => Session(next, ids, faults)
  }

  /** The loop's state as the objects hold it. */
  function Current(term: Terminal, storage: FileStorage, gen: UuidGenerator, executed: nat): Config
    reads term, storage, gen
  {
    Config(term.events, term.lines, storage.file, gen.calls, executed)
  }

  /**
   * One pass of the body of `loop_for_commands`, which also covers
   * `listen_for_key_on_error`: `stop` says why the loop ends, or is None
   * when it goes round again.
   */
  method Pass(term: Terminal, storage: FileStorage, gen: UuidGenerator, faults: nat -> IoFaults, executed: nat)
    returns (stop: Option<Exit>, executedAfter: nat)
    modifies term, storage, gen
    ensures var now := Current(term, storage, gen, executedAfter);
      match Iterate(old(Current(term, storage, gen, executed)), gen.draw, faults)
      case Stop(exit, last) => stop == Some(exit) && now == last
      case Continue(next) => stop == None && now == next
  {
    executedAfter := executed;
    var read := ReadCommand(term);
    match read {
      case InputEnded =>
        stop := Some(InputExhausted);
      case Unimplemented =>
        stop := Some(Panicked);
      case Resolved(command) =>
        var r := RunCommand(command, storage, gen, faults(executed));
        executedAfter := executed + 1;
        if r.Err? {
          // the error is printed and the loop returns
          stop := Some(StorageFailed(r.error));
        } else {
          var pause := term.ListenForKey();
          stop := if pause.NoInput? then Some(InputExhausted) else None;
        }
      case Rejected(_) =>
        // the error is printed, then a key decides whether to quit
        var key := term.ListenForKey();
        match key {
          case GotChar(c) =>
            stop := if AsciiLower(c) == 'q' then Some(Quit) else None;
          case KeyError =>
            stop := Some(RecoveryKeyFailed);
          case NoInput =>
            stop := Some(InputExhausted);
        }
    }
  }

  /** `loop_for_commands`. */
  method LoopForCommands(term: Terminal, storage: FileStorage, gen: UuidGenerator, faults: nat -> IoFaults)
    returns (exit: Exit)
    modifies term, storage, gen
    ensures var s := Session(old(Current(term, storage, gen, 0)), gen.draw, faults);
      exit == s.0 && term.events == s.1.events && term.lines == s.1.lines &&
      storage.file == s.1.file && gen.calls == s.1.drawn
  {
    ghost var start := Current(term, storage, gen, 0);
    var executed := 0;
    while true
      invariant Session(Current(term, storage, gen, executed), gen.draw, faults) == Session(start, gen.draw, faults)
      decreases |term.events|
    {
      var stop;
      stop, executed := Pass(term, storage, gen, faults, executed);
      if stop.Some? {
        return stop.value;
      }
    }
  }

  // ---------------------------------------------------------------------------
  // Properties of one pass
  // ---------------------------------------------------------------------------

  /** A command that fails ends the loop with its error. */
  lemma StorageFailureEndsLoop(cfg: Config, ids: nat -> Uuid, faults: nat -> IoFaults)
    requires Resolve(cfg.events, cfg.lines).outcome.Resolved?
    requires Execute(Resolve(cfg.events, cfg.lines).outcome.command, cfg.file,
                     faults(cfg.executed), ids(cfg.drawn)).result.Err?
    ensures Iterate(cfg, ids, faults).Stop?
    ensures Iterate(cfg, ids, faults).exit ==
      StorageFailed(Execute(Resolve(cfg.events, cfg.lines).outcome.command, cfg.file,
                            faults(cfg.executed), ids(cfg.drawn)).result.error)
  {
  }

  /**
   * After an input error: 'q' or 'Q' ends the loop, any other character
   * resumes prompting, and a failure to read the key ends the loop.
   */
  lemma RecoveryTransitions(cfg: Config, ids: nat -> Uuid, faults: nat -> IoFaults)
    requires Resolve(cfg.events, cfg.lines).outcome.Rejected?
    ensures var key := NextKey(Resolve(cfg.events, cfg.lines).events).result;
      && (key.GotChar? && key.c in {'q', 'Q'} ==> Iterate(cfg, ids, faults).Stop? && Iterate(cfg, ids, faults).exit == Quit)
      && (key.GotChar? && key.c !in {'q', 'Q'} ==> Iterate(cfg, ids, faults).Continue?)
      && (key.KeyError? ==> Iterate(cfg, ids, faults).Stop? && Iterate(cfg, ids, faults).exit == RecoveryKeyFailed)
  {
  }

  /** The loop state the store and the terminal start in. */
  function Start(events: seq<TermEvent>, lines: seq<string>, file: FileState): Config
  {
    Config(events, lines, file, 0, 0)
  }

  /** 'q' at the command prompt is not a command; a second 'Q' at the recovery prompt quits. */
  lemma QuitTakesTwoKeys(evs: seq<TermEvent>, lines: seq<string>, file: FileState, ids: nat -> Uuid, faults: nat -> IoFaults)
    ensures Session(Start([Key(Char('q')), Key(Char('Q'))] + evs, lines, file), ids, faults).0 == Quit
  {
    var rest := [Key(Char('Q'))] + evs;
    var cfg := Start([Key(Char('q'))] + rest, lines, file);
    assert [Key(Char('q')), Key(Char('Q'))] + evs == [Key(Char('q'))] + rest;
    UnboundKeyRejected('q', rest, lines);
    NextKeyTakesCharacter('Q', evs);
    RecoveryTransitions(cfg, ids, faults);
  }

  // ---------------------------------------------------------------------------
  // Properties of whole sessions
  // ---------------------------------------------------------------------------

  /** The file system never fails. */
  ghost predicate FaultFree(faults: nat -> IoFaults)
  {
    forall n :: faults(n) == NoFaults
  }

  /**
   * With a file system that never fails, the interactive loop never ends on
   * a storage error: the keyboard only reaches Add and List.
   */
  lemma {:induction false} FaultFreeSessionNeverFailsOnStorage(cfg: Config, ids: nat -> Uuid, faults: nat -> IoFaults)
    requires FaultFree(faults)
    ensures !Session(cfg, ids, faults).0.StorageFailed?
    decreases |cfg.events|
  {
    ResolveOnlyAddsOrLists(cfg.events, cfg.lines);
    var read := Resolve(cfg.events, cfg.lines);
    if read.outcome.Resolved? && read.outcome.command.Add? {
      var command := read.outcome.command;
      assert faults(cfg.executed) == NoFaults;
      WriteSucceedsIff(cfg.file, NoFaults, Task(ids(cfg.drawn), command.status, command.description));
    }
    match Iterate(cfg, ids, faults)
    case Stop(_, _) =>
    case Continue(next) => FaultFreeSessionNeverFailsOnStorage(next, ids, faults);
  }

  /** The state a pass of the loop leaves, whether or not the loop goes on. */
  function After(s: Step): Config
  {
    match s
    case Continue(next) => next
    case Stop(_, last) => last
  }

  /**
   * With a file system that never fails, one pass of the loop either leaves
   * the tasks as they are or appends the one it adds.
   */
  lemma FaultFreePassKeepsTasks(cfg: Config, ids: nat -> Uuid, faults: nat -> IoFaults)
    requires FaultFree(faults)
    ensures Contents(cfg.file) <= Contents(After(Iterate(cfg, ids, faults)).file)
  {
    ResolveOnlyAddsOrLists(cfg.events, cfg.lines);
    var read := Resolve(cfg.events, cfg.lines);
    if read.outcome.Resolved? && read.outcome.command.Add? {
      var command := read.outcome.command;
      var task := Task(ids(cfg.drawn), command.status, command.description);
      assert faults(cfg.executed) == NoFaults;
      WriteAppends(cfg.file, NoFaults, task);
      assert After(Iterate(cfg, ids, faults)).file == Written(cfg.file, NoFaults, task).file;
    } else {
      assert After(Iterate(cfg, ids, faults)).file == cfg.file;
    }
  }

  /**
   * With a file system that never fails, the interactive loop only ever
   * appends: every task loaded at the start is still there, in order, at
   * the front of the list when it ends.
   */
  lemma {:induction false} FaultFreeSessionKeepsTasks(cfg: Config, ids: nat -> Uuid, faults: nat -> IoFaults)
    requires FaultFree(faults)
    ensures Contents(cfg.file) <= Contents(Session(cfg, ids, faults).1.file)
    decreases |cfg.events|
  {
    FaultFreePassKeepsTasks(cfg, ids, faults);
    match Iterate(cfg, ids, faults)
    case Stop(_, _) =>
    case Continue(next) =>
      FaultFreeSessionKeepsTasks(next, ids, faults);
  }
}
