# task-cli in Dafny

A model of the core of `task-cli`, a personal task tracker written in Rust.
The tracker keeps work items (an id, a status and a free-text description)
in a JSON file, `tasks.json`, in a per-user data directory. Users change
them with one-shot commands or in an interactive terminal loop.

The model covers three parts of the program:

- **Tasks** (`models.dfy`, module `Models`). This holds the `Task` value,
  the closed status set `Todo | InProgress | Blocked | Done` and `Task::new`.
  It also holds the id's string form, which removal and update compare
  against. That form is the uuid crate's hyphenated lower-case hex
  (8-4-4-4-12). `ParseId` reads it back, and this proves the form injective.
- **The store** (`storage.dfy`, module `Storage`). `FileStorage` is a class
  whose one field is the backing file. The file is `Absent`, `Malformed`
  (exists but does not parse) or `Valid(tasks)`. `load_tasks`, `write_task`,
  `remove_task` and `update_task` are methods. Each is proved equal to a
  function of the old file: `Loaded`, `Written`, `Removed`, `Updated`.
  Lemmas then state what those functions promise. File-system failures are
  an oracle: an `IoFaults` value says which step of one call fails (path
  lookup, open, read, create/truncate, write). A read failure on an opened
  file is swallowed as an empty list, as the source's `unwrap_or` does.
- **The command layer** (`input.dfy`, `cli.dfy`, `command_loop.dfy`, modules
  `Input`, `Cli` and `CommandLoop`). The terminal is a class holding the
  unread key events and the unread standard-input lines. `listen_for_key`,
  `wait_for_any_key` and `read_line` consume them. The other parts are:
  - `convert` and the table of `command_for_event`;
  - `read_command` and `make_add_command`;
  - `run_command`;
  - `loop_for_commands`, whose one pass is specified by the function
    `Iterate` and whose whole run is specified by `Session`.

  Ids come from a `UuidGenerator`, whose n-th value is `draw(n)`. During the
  n-th command, the file system behaves as `faults(n)`.

## Model

| member | source | states |
|---|---|---|
| `Models.NewTask` | src/models.rs:13-19 | the new task's status and description are exactly the arguments (an empty description included); its id is the generator's next value, not an argument |
| `Models.UuidGenerator.Generate` | src/models.rs:16 | returns the generator's next value and advances it by one call |
| `Models.IdStringShape` | src/storage.rs:85 | the string form of an id is 36 characters with hyphens at positions 8, 13, 18 and 23 |
| `Models.IdStringRoundTrip` | src/storage.rs:85 | parsing an id's string form gives back the id |
| `Models.IdStringInjective` | src/storage.rs:85 | two ids have the same string form if and only if they are the same id, so comparing string forms is comparing ids |
| `Storage.Contents` | src/storage.rs:54-64 | the tasks of a file are what a load without faults returns |
| `Storage.FirstMatch` | src/storage.rs:85 | `position`: the index found holds a task whose id string is `id` and no earlier task's does; None means that no task's id string is `id` |
| `Storage.FileStorage.LoadTasks` | src/storage.rs:54-64 | returns `Loaded(file, io)` and changes nothing |
| `Storage.FileStorage.TruncateAndWrite` | src/storage.rs:46-50 | a failed create leaves the file as it was; a failed write leaves it malformed; otherwise the file holds exactly the given list |
| `Storage.FileStorage.WriteTask` | src/storage.rs:66-78 | the new file and the result are those of `Written` on the old file |
| `Storage.FileStorage.RemoveTask` | src/storage.rs:80-93 | the new file and the result are those of `Removed` on the old file |
| `Storage.FileStorage.UpdateTask` | src/cli.rs:100-104 | the new file and the result are those of `Updated` on the old file |
| `Storage.LoadMissingFile` | src/storage.rs:56-62 | a missing file loads as the empty list, not as an error |
| `Storage.LoadMalformedFile` | src/storage.rs:59 | a file that does not parse loads as the empty list |
| `Storage.WriteSucceedsIff` | src/storage.rs:66-78 | write_task succeeds if and only if the path lookup, the open (when the file exists), the create and the write all succeed |
| `Storage.WriteAppends` | src/storage.rs:69-76 | after a successful write_task the file holds the list it loaded with the task appended at the end; when the read did not fail, that is the file's previous tasks plus the new one |
| `Storage.ReadFailureLosesTasks` | src/storage.rs:57-76 | a read error on an opened, well-formed file loads as the empty list, and a write_task that then succeeds leaves only the new task: the stored tasks are lost |
| `Storage.WriteFailureEffects` | src/storage.rs:67-76 | a failed path lookup, load or create returns an error and leaves the file unchanged; a failed write after truncation leaves a file that later loads as empty |
| `Storage.WriteOverMalformed` | src/storage.rs:54-78 | writing a task over an unparsable file replaces its content with that one task |
| `Storage.RemoveDeletesFirstMatch` | src/storage.rs:85-89 | when task i is the first whose id string is `id`, remove_task deletes exactly it: the others keep their order, the length drops by one and the multiset loses exactly that task |
| `Storage.RemoveMissingId` | src/storage.rs:85-92 | when no task's id string is `id`, remove_task fails with NoSuchId and leaves the file as it was |
| `Storage.RemoveFailsBeforeTruncation` | src/storage.rs:81-83 | a failed path lookup or load makes remove_task fail without touching the file |
| `Storage.RemoveById` | src/storage.rs:85-86 | with unique ids, removing by a stored task's id string succeeds and removes that task and nothing else |
| `Storage.LoadedIsStoredOrEmpty` | src/storage.rs:54-64 | a successful load returns the empty list when the read fails, and the stored tasks otherwise (the empty list for an absent or unparsable file) |
| `Storage.RemovePreservesUniqueIds` | src/storage.rs:80-93 | whatever the file system does, remove_task keeps the ids of the stored list unique |
| `Storage.WritePreservesUniqueIds` | src/storage.rs:66-78 | whatever the file system does, write_task keeps the stored ids unique when the new task's id is not already stored |
| `Storage.UpdateReplacesInPlace` | src/cli.rs:285-316 | when task i is the first with id string `id`, update_task succeeds; task i has the same id and the new status and description; the length and every other task are unchanged |
| `Storage.UpdatePreservesUniqueIds` | src/cli.rs:285-316 | update_task never changes an id, so whatever the file system does it keeps the stored ids unique |
| `Input.NextKey` | src/cli.rs:132-146 | `listen_for_key` never reads more events than it is given, and reads at least one unless input ran out |
| `Input.NextKeyReadsFirstKey` | src/cli.rs:132-146 | `listen_for_key` returns the first character key, after only non-character events and failed reads; or the raw-mode error at the first failed switch; and input runs out exactly when every event is one it passes over. What is left is the suffix after the key it returns |
| `Input.NextKeyTakesCharacter` | src/cli.rs:139-144 | a character key at the front is returned at once and nothing after it is read |
| `Input.NextKeyPassesOver` | src/cli.rs:135-142 | a non-character event, a non-key event or a failed read at the front is passed over |
| `Input.Terminal.ListenForKey` | src/cli.rs:132-146 | the loop's result and the remaining events are those of `NextKey`; input lines are untouched |
| `Input.AfterAnyKey` | src/cli.rs:198-225 | `wait_for_any_key` consumes events up to and including the first key event or failure, and nothing more |
| `Input.Terminal.WaitForAnyKey` | src/cli.rs:198-225 | the remaining events are those of `AfterAnyKey` |
| `Input.Terminal.ReadLine` | src/cli.rs:174-176 | the description is the next input line as read, or empty at the end of input |
| `Cli.Convert` | src/cli.rs:183-191 | a status comes back only for its own digit key ("1" Todo, "2" InProgress, "3" Blocked, "4" Done), and None exactly for every other string |
| `Cli.ConvertSelectsByKey` | src/cli.rs:183-191 | `convert` gives a status exactly for "1" to "4", one key per status; any other string gives None |
| `Cli.AsciiLower` | src/cli.rs:124 | upper-case ASCII letters map to lower case; every other character is unchanged |
| `Cli.CommandForKey` | src/cli.rs:148-156 | 'a' begins the add prompt, 'l' lists, 'd' (through `make_delete_command`, src/cli.rs:193-195) and 'u' reach `todo!()`, and every other key is unbound, each exactly |
| `Cli.AddPrompt` | src/cli.rs:158-181 | make_add_command reads no more events than it is given |
| `Cli.Resolve` | src/cli.rs:121-130 | read_command consumes at least one event unless the input ran out |
| `Cli.Dispatch` | src/cli.rs:124-155 | once input has run out no command is read; the key's handling reads no event beyond those left after the key |
| `Cli.MakeAddCommand` | src/cli.rs:158-181 | its outcome and the remaining input are those of `AddPrompt` |
| `Cli.ReadCommand` | src/cli.rs:121-156 | its outcome and the remaining input are those of `Resolve` |
| `Cli.ResolveIgnoresCase` | src/cli.rs:124-129 | a key and its lower-case form select the same command |
| `Cli.ListKeys` | src/cli.rs:124-151 | 'l' and 'L' both give List and read nothing more |
| `Cli.UnboundKeyRejected` | src/cli.rs:124-155 | any key outside a, l, d and u, in either case, gives "Key not supported" and no command |
| `Cli.ResolveSkipsNonCharacters` | src/cli.rs:132-145 | a non-character event before the key changes nothing |
| `Cli.AddRejectsBadStatus` | src/cli.rs:161-169 | after 'a', a status key other than 1 to 4 gives no command, and no description line is read |
| `Cli.AddBuildsCommand` | src/cli.rs:158-181 | 'a' (or 'A'), a status key and a line give Add with that status and that line as description |
| `Cli.ResolveOnlyAddsOrLists` | src/cli.rs:148-156 | the keyboard produces only Add and List commands |
| `Cli.RunCommand` | src/cli.rs:86-111 | the new file and the result are those of `Execute`; the generator advances only for Add |
| `Cli.AddStoresOneTask` | src/cli.rs:92-97 | a successful Add appends exactly one task, with the command's status and description, to the list it loaded, which is the stored list unless the read failed; on an empty store it is the only task |
| `Cli.ListChangesNothing` | src/cli.rs:105-109 | List leaves the store unchanged and returns Ok even when loading fails |
| `Cli.AddThenDeleteEmpties` | src/cli.rs:256-283 | adding a task to an empty store and deleting it by its id string leaves the store empty |
| `Cli.UpdateSetsFields` | src/cli.rs:285-316 | updating a stored id gives that task the new status and description, keeps its id and position, and changes no other task |
| `Cli.AddUpdateRemoveScenario` | src/cli.rs:86-111 | adding "buy milk", updating it to Done with "bought milk" and removing it lists the task, then the updated task under the same id, then nothing |
| `Cli.DeleteFromEmptyStore` | src/storage.rs:85-91 | removing any id from an empty store fails with NoSuchId and leaves the store as it was |
| `CommandLoop.Iterate` | src/cli.rs:62-83 | every pass that goes round again has consumed input |
| `CommandLoop.Pass` | src/cli.rs:62-83 | one pass of the loop body ends or continues the loop exactly as `Iterate` says, in the state it says |
| `CommandLoop.LoopForCommands` | src/cli.rs:61-84 | the loop's exit and final terminal, store and generator states are those of `Session` |
| `CommandLoop.StorageFailureEndsLoop` | src/cli.rs:64-67 | a command that fails ends the loop with that command's error |
| `CommandLoop.RecoveryTransitions` | src/cli.rs:71-81 | after an input error, 'q' or 'Q' quits, any other character resumes prompting, and a failure to read the key ends the loop |
| `CommandLoop.QuitTakesTwoKeys` | src/cli.rs:62-83 | 'q' at the command prompt is an input error, and a following 'Q' quits |
| `CommandLoop.FaultFreeSessionNeverFailsOnStorage` | src/cli.rs:62-70 | with a file system that never fails, no session ends on a storage error |
| `CommandLoop.FaultFreePassKeepsTasks` | src/cli.rs:62-70 | with a file system that never fails, one pass leaves the tasks as they are or appends to them |
| `CommandLoop.FaultFreeSessionKeepsTasks` | src/cli.rs:62-70 | with a file system that never fails, a session only appends: the tasks at the start are a prefix of the tasks at the end |

## Left out

- Screen output is not modelled: clearing, menus, prompts, and the printing of errors and of the listed tasks (`src/cli/message_handler.rs`, the `println!`/`eprintln!` calls). Its status menu at src/cli/message_handler.rs:11-14 labels the keys differently from `convert`; the model follows `convert`.
- The one-shot mode is not modelled: clap argument parsing, the `Cli` struct and `main` (src/main.rs). It runs one `run_command`, and `RunCommand` models that.
- Serialisation is not modelled. A file written with a list is assumed to read back as that list, unless the read itself fails (`readFails`). Beyond being `Valid`, `Absent` or `Malformed`, the file's bytes are not modelled.
- Path resolution (`ProjectDirs` and `create_dir_all`) is one fault flag, `pathFails`. The two lookups inside one `write_task` or `remove_task` are taken to agree.
- `Storage.FileStorage.TruncateAndWrite`: the source writes through a `BufWriter` and never flushes it explicitly, so a failure that only shows when the buffer is flushed on drop is silently lost. The model's `writeFails` stands only for failures the write itself reports.
- `Storage.FileStorage.UpdateTask`: `update_task` is called at src/cli.rs:104, but the `TaskStorage` trait (src/storage.rs:17-21) does not declare it and src/storage.rs does not implement it. `Updated` and `UpdateTask` are therefore a design: the first task whose id string matches is replaced in place with the new status and description, then the whole file is rewritten, as remove_task does. Its contract is proved only for a stored id, as the test at src/cli.rs:285-316 requires. For an absent id the body reports `NoSuchId` and writes nothing, but no lemma claims that behaviour.
- The in-memory `MockStorage` used by the tests is not part of this model. Its lemmas are stated about the file-backed store.
- `generate_uuid` is an opaque function `draw`. Nothing is assumed about its freshness, so the uniqueness lemmas take "the new id is not stored" as a hypothesis.
- Raw mode is modelled only as the failure of switching into it before a read (`RawModeError`). Restoring the terminal mode and the errors of switching back are not modelled.
- `Input.Terminal.WaitForAnyKey`: key-event kinds (press, release, repeat) are not modelled. Every key event ends the wait, and a failure of the `is_raw_mode_enabled` query counts as a `RawModeError`.
- `CommandLoop.LoopForCommands`: when the terminal has no events left, the real program blocks for ever waiting for a key. The model ends the loop with `InputExhausted` instead. Standard input at its end is not a stop: as in the source (src/cli.rs:174-176), `read_line` then yields an empty description and the command goes ahead.
- `Cli.MakeAddCommand`: when no Add command results, it reports the "Key not supported" input error itself. In the source, it returns None and `read_command` turns that into the same error.
- Read errors of standard input are not modelled. On such an error `read_line` keeps the text read so far, and src/cli.rs:176 discards the error; the model's input lines never fail.
- The `todo!()` keys 'd' and 'u' are modelled as a panic that ends the loop (`Panicked`).
- Concurrent or multi-process access to the file is not modelled. The source does not guard against it.
