# krabby, modelled in Dafny

krabby is a project switcher. A project has a name, an optional hook run on
entering it, and a table of named shell scripts; it is read from and written to a
small structured-text file. An older registry keeps a list of name/path
records, each with its own list of alias/command pairs, and emits the `cd`
line that moves the shell to a project.

This model covers the core of both generations:

- `wrappers.dfy` (`Wrappers`): `Option`, and `Result`/`Outcome` with an explicit
  `Panic`/`Aborted` case. Every `panic!`, `unwrap` or `expect` of the source on
  a reachable path is a value of that case, not a precondition. The one
  exception is the `unwrap` of `env::current_dir`, whose result is a
  parameter (see "Left out").
- `text.dfy` (`Text`): what the core uses of Rust's `str`. That is
  `char::is_whitespace` (the Unicode White_Space list), `trim`, `len` as the
  UTF-8 byte count, and `join`.
- `script.dfy` (`Scripts`): `ScriptName::parse`, `Command::parse`, `Script`
  and its `Display`/`echo`/`set_name`, and the default name.
- `hook.dfy` (`Hooks`): `ProjectHook`, and its encoding as an untagged value
  (a bare string or a bare array).
- `project.dfy` (`Projects`):
  - The script table is an insertion-ordered map with unique keys (an
    `IndexMap`), modelled as a sequence of entries.
  - `class Project` holds the name, path, hook and table, with
    `populate_names`, `add_script`, `remove_script`, `validate_hook`,
    `set_hook` and `get_hook_cmd`.
  - `from_str` works on an already-read document.
  - The text of `to_string` is given for the shapes the tests fix.
  - `ProjectName::parse` is here too.
- `project_info.dfy` (`ProjectInfos`): `class ProjectInfo`, one record of the
  legacy registry.
- `database.dfy` (`Databases`): `class Database`, the legacy registry.

Two environment queries become parameters:

- `Path::is_dir` is a set `dirs` of the strings that name directories.
- `env::current_dir` is a string `cwd`.

Points where the code departs from what its names and tests suggest:

- The 20-unit limit of the name rule counts UTF-8 bytes (`str::len`), not
  characters. Eleven `é` are rejected (`Scripts.LimitCountsBytes`).
- The legacy registry is a list of records. Duplicate paths are compared as
  plain strings, without canonicalisation, and look-ups return the first match.
- A hook value is decoded as a script list before it is tried as a plain
  command.
- Names inside a decoded hook, and a project's name read from a file, are
  taken over without the name rule. `validate_hook` then runs each hook entry
  through `ScriptName::parse`, so a hook entry that breaks the rule aborts the
  check instead of failing it (`Projects.CheckNamesStopsAtFirstUnresolved`).

## Model

| member | source | states |
|---|---|---|
| Text.TrimStart | src/script.rs:30 | the result is a suffix of the input, it starts with a non-blank character, and everything dropped is white space |
| Text.TrimEnd | src/script.rs:30 | the result is a prefix of the input, it ends with a non-blank character, and everything dropped is white space |
| Text.TrimEmptyIffBlank | src/script.rs:30 | `trim` leaves nothing exactly when every character is white space |
| Text.Utf8LenBounds | src/script.rs:32 | the byte length lies between the character count and four times it; it equals the count on ASCII and is at least twice the count when no character is ASCII |
| Text.Utf8LenAppend | src/script.rs:32 | the byte length of a concatenation is the sum of the byte lengths |
| Text.JoinAppend | src/project.rs:90-100 | joining two non-empty lists puts exactly one separator between their joins |
| Scripts.AnyForbiddenIff | src/script.rs:34-35 | the `any` scan is true iff some character is one of `/ ( ) " ' < > \ { }` |
| Scripts.NameCheckIsNameRule | src/script.rs:29-41 | the three checks of `parse` (empty after trim, over 20 bytes, forbidden character) reject exactly the strings that break the name rule |
| Scripts.ParseScriptName | src/script.rs:29-41 | returns iff the string has a non-blank character, at most 20 bytes and no forbidden character, and otherwise aborts; an accepted name is stored and displayed verbatim (not trimmed) |
| Scripts.BlankNameRejected | src/script.rs:86-96 | every blank name, the empty one included, is rejected |
| Scripts.LongNameRejected | src/script.rs:98-102 | every name of more than 20 characters is rejected |
| Scripts.ForbiddenCharRejected | src/script.rs:104-130 | a name holding a forbidden character at any position is rejected |
| Scripts.LimitCountsBytes | src/script.rs:32 | eleven two-byte characters are rejected although they are only eleven characters long |
| Scripts.LowerCaseNamesAccepted | src/script.rs:29-41 | every lower-case name of 1 to 20 letters satisfies the rule |
| Scripts.HelloIsAName | src/script.rs:74-78 | `hello` satisfies the name rule |
| Scripts.DefaultIsParsedHello | src/script.rs:74-78 | the default name is what parsing `hello` returns, so it satisfies the rule |
| Scripts.ParseCommand | src/script.rs:58-65 | never fails; blank input becomes `echo 'Krabby says hi!'` and any other input is kept unchanged |
| Scripts.DefaultCommandIsNotBlank | src/script.rs:62 | the greeting is not blank |
| Scripts.ParseCommandIdempotent | src/script.rs:58-65 | parsing the text of a parsed command gives the same command |
| Scripts.EmptyCommandGreets | src/script.rs:132-136 | the empty input gives the greeting |
| Scripts.NewScript | src/script.rs:13-15 | the script holds exactly the given name and command |
| Scripts.SetName | src/script.rs:20-22 | the name is replaced and the command is kept |
| Scripts.ScriptTextIsCommand | src/script.rs:49-53 | a script's text and its `echo` are its command text, and renaming never changes them |
| Scripts.SetNameLastWins | src/script.rs:20-22 | renaming twice is renaming once to the last name |
| Hooks.DecodeNamesSpec | src/hook.rs:7 | an array decodes as a name list iff every item is a string; the names keep the items' order and text |
| Hooks.DecodeEncode | src/hook.rs:4-9 | decoding the untagged encoding of a hook gives back the hook |
| Hooks.EncodeDecode | src/hook.rs:4-9 | every value that decodes encodes back to itself |
| Hooks.DecodeShapes | src/hook.rs:5-8 | a bare string decodes to `Simple` of that string; an array of strings decodes to `ScriptArray` of those names in order |
| Hooks.DecodedNamesAreUnchecked | src/script.rs:25-27 | an array holding the empty string decodes to a list holding the empty name, which breaks the name rule |
| Projects.ParseProjectName | src/project.rs:229-241 | accepts exactly the strings that `ScriptName::parse` accepts, and stores them verbatim |
| Projects.IndexOf | src/project.rs:47-49 | the position of a present key is the first entry that carries it |
| Projects.ShiftRemoveCuts | src/project.rs:52 | `shift_remove` of a present key cuts exactly that key's entry out of the table |
| Projects.CutAtFirst | src/project.rs:52 | removal cuts the table at the first entry holding the key |
| Projects.CutUnique | src/project.rs:51-56 | cutting one entry out of a table with unique keys leaves unique keys, none of them the cut key |
| Projects.CutKeeps | src/project.rs:51-56 | cutting one entry out keeps every other entry and adds none |
| Projects.ShiftRemoveSpec | src/project.rs:51-56 | removing a present key keeps the keys unique, shortens the table by one, drops the key, keeps every other entry and adds none |
| Projects.RemoveUndoesAppend | src/project.rs:51-64 | adding a new key and then removing it gives back the table |
| Projects.AppendSpec | src/project.rs:58-64 | appending a new key keeps keys unique, adds the key last, finds the new script under it, and keeps every earlier look-up |
| Projects.Populated | src/project.rs:37-42 | `populate_names` keeps every key and command, in order, and gives each script its key as name |
| Projects.PopulatedIdempotent | src/project.rs:37-42 | back-filling twice is back-filling once, and the keys do not change |
| Projects.AllResolveCons | src/project.rs:113-121 | a non-empty hook list resolves iff its head passes the rule and is a key and its tail resolves |
| Projects.AllResolveConcat | src/project.rs:113-121 | a concatenated hook list resolves iff both halves do |
| Projects.CheckNamesOk | src/project.rs:111-123 | the walk over a hook list succeeds iff every name passes the rule and is a key |
| Projects.CheckNamesStopsAtFirstUnresolved | src/project.rs:113-121 | the walk stops at the first entry that breaks the rule (abort) or is not a key (error naming it) |
| Projects.HookCheckOk | src/project.rs:111-130 | `validate_hook` succeeds on no hook and on `Simple`, and on a list iff every name resolves |
| Projects.WellFormedHookCheck | src/project.rs:111-123 | on names that passed the rule the check never aborts, and it fails iff some name is not a key |
| Projects.HookCommand | src/project.rs:85-109 | returns iff the hook validates; yields no command exactly when there is no hook; `Simple(c)` yields `c`; the list case is given by HookCommandList |
| Projects.HookCommandList | src/project.rs:89-101 | a validating list hook yields its scripts' commands joined by `"; "` |
| Projects.HookCommandSingle | src/project.rs:89-101 | a one-name hook yields exactly that script's command |
| Projects.CommandsOfConcat | src/project.rs:90-99 | the commands of a concatenated list are the commands of the front followed by those of the back |
| Projects.HookCommandConcat | src/project.rs:89-101 | the command of a concatenated list is the front's command, `"; "`, and the back's command |
| Projects.RemovingHookedScriptAborts | src/project.rs:105-107 | removing a script that a list hook names makes the next `get_hook_cmd` abort |
| Projects.Deserialize | src/project.rs:201 | a document that reads yields a table with unique keys |
| Projects.ReadScripts | src/project.rs:23-24 | the table reads iff its keys are distinct and every value is a string; each entry keeps the file's key, order and command text verbatim, and is given the default name |
| Projects.Load | src/project.rs:200-216 | a parse failure iff the document does not read; succeeds iff it reads and its hook validates against the read table; a loaded project has the document's name and decoded hook, and its table holds the document's keys and command strings in file order, each script named by its key, with unique keys and a hook that validates |
| Projects.CheckNamesSameKeys | src/project.rs:111-123 | the walk over a hook list depends only on the table's keys |
| Projects.HookCheckSameKeys | src/project.rs:203-212 | two tables with the same keys give the same hook check, so back-filling the names does not change whether `from_str` accepts |
| Projects.LoadHookError | src/project.rs:206-212 | a read document whose hook fails the check is rejected with that failure |
| Projects.DanglingHookFails | src/project.rs:203-206 | after back-filling, a list of well-formed names with a name the table lacks still fails the check |
| Projects.LoadRejectsDanglingHook | src/project.rs:200-216 | a document whose list hook names a script it does not define is rejected as an invalid hook |
| Projects.LoadRejectsUnknownName | src/project.rs:330-340 | a file with the hook `[ n ]` and no scripts is rejected, naming `n` |
| Projects.DeserializeOneNameHook | src/project.rs:330-340 | such a file reads to the project name, the one-name hook and an empty table |
| Projects.DeserializeTable | src/project.rs:342-362 | a document with distinct string-valued keys reads to that table in file order, with no hook |
| Projects.LoadTable | src/project.rs:342-362 | such a document loads, with each script named by its key |
| Projects.LoadKeepsBlankCommand | src/script.rs:55-56 | a blank command read from a file stays blank; it is not replaced by the greeting |
| Projects.RenderAfterLastRemoval | src/project.rs:388-396 | after the last script is removed the text is only the `name = "…"` line |
| Projects.RenderOneScript | src/project.rs:381-386 | a one-script table is written under `[scripts]` after a blank line, as `key = "command"` |
| Projects.EscapeSpecial | src/project.rs:219-223 | a quote or a backslash is written with a backslash before it |
| Projects.EscapeAppend | src/project.rs:219-223 | escaping a concatenation concatenates the escapes |
| Projects.EscapePlain | src/project.rs:219-223 | text without `"` and `\` is written unchanged |
| Projects.Project.constructor | src/project.rs:28-35 | a new project has the given name and path, an empty table and no hook |
| Projects.Project.PopulateNames | src/project.rs:37-42 | the loop leaves the table equal to its back-filled form and changes nothing else |
| Projects.Project.GetScript | src/project.rs:47-49 | finds a script iff its key is present, and the found script is stored under that key |
| Projects.Project.RemoveScript | src/project.rs:51-56 | a present key is shift-removed; an absent key is a not-found error with the table unchanged; the hook is never touched |
| Projects.Project.AddScript | src/project.rs:58-64 | an existing key is an error with the table unchanged; otherwise the pair is appended and nothing else changes |
| Projects.Project.ValidateHook | src/project.rs:111-130 | the loop's result is the hook check on the current table |
| Projects.Project.SetHook | src/project.rs:72-83 | on success the hook is stored and the result is the new `get_hook_cmd`; on an error or an abort the stored hook is unchanged; the table never changes |
| Projects.FromStr | src/project.rs:197-216 | succeeds, errs and aborts exactly as `Load`; a loaded project is fresh, valid, has no path and holds the loaded fields |
| ProjectInfos.ScriptLinesAppend | src/project_info.rs:109-111 | appending a script appends exactly its tab-indented line to the listing |
| ProjectInfos.ScriptLinesConcat | src/project_info.rs:109-111 | the listing of a concatenation is the concatenation of the listings |
| ProjectInfos.ProjectInfo.constructor | src/project_info.rs:18-24 | a new record copies the name and path and has no scripts |
| ProjectInfos.ProjectInfo.ChangeToProjectPath | src/project_info.rs:36-44 | never aborts; succeeds iff the path is a directory, with exactly `cd ` followed by the path; otherwise it is NotFound "this path leads to nowhere" |
| ProjectInfos.ProjectInfo.GetScript | src/project_info.rs:50-65 | with no list, NotFound "no scripts configured for this project"; otherwise the first script with the alias, or NotFound "no script found" iff none has it |
| ProjectInfos.ProjectInfo.AddScript | src/project_info.rs:67-84 | always appends, creating the list when there was none, without a duplicate check; the first script replaces the no-script message by `[Scripts] =>` and its line, a later one appends its line to the text |
| ProjectInfos.ProjectInfo.Display | src/project_info.rs:102-119 | the text starts with the `[Project] => name` and `[Path] => path` lines; with no list it goes on with `no script configured` and no line break; with a list, with `[Scripts] =>` and one tab-indented line per script |
| ProjectInfos.FirstScriptListed | src/project_info.rs:106-116 | a record without scripts ends in the no-script message; with one script it ends in `[Scripts] =>` and that script's line |
| ProjectInfos.DisplayAfterAdd | src/project_info.rs:106-112 | adding a script to a record with scripts adds exactly its line at the end of the record's text |
| Databases.FirstClash | src/database.rs:44-57 | the position of the first record with the name or the path, none iff no record has either |
| Databases.FirstDuplicate | src/database.rs:44-57 | the error of the loop is AlreadyExists with the name or the path message, none iff no record clashes, and it is the name message iff the first clashing record has the name |
| Databases.FindName | src/database.rs:94-105 | the first record with the name, none iff no record has it |
| Databases.FindPath | src/database.rs:81-92 | the first record whose path is the given string, none iff no record has it |
| Databases.AppendFresh | src/database.rs:37-61 | a record with a new name and a new path keeps names and paths unique |
| Databases.FindNewName | src/database.rs:94-105 | a name no earlier record has is found at the appended record |
| Databases.AppendKeepsDistinct | src/database.rs:37-61 | a record that passes the duplicate check keeps names and paths unique and is the one its name finds |
| Databases.FindNameAfterAppend | src/database.rs:94-105 | appending never changes what a registered name finds |
| Databases.PathsAreNotNormalised | src/database.rs:51 | records at `p/` do not block a new record at `p` |
| Databases.ListingAppend | src/database.rs:175-185 | registering a record appends exactly its text and a newline to the listing |
| Databases.Database.Empty | src/database.rs:146-152 | the empty registry has the author `John Doe <john@doe.com>`, no project list and no file |
| Databases.Database.AddProject | src/database.rs:17-35 | a path that is not a directory is NotFound with nothing changed; otherwise the record is appended, creating the list if needed |
| Databases.Database.AddProjectFromNameAndPath | src/database.rs:37-61 | no list: Ok and nothing added; a record with the name or the path: that AlreadyExists error, nothing changed; otherwise a fresh record with the name and path is appended, and a path that is not a directory aborts |
| Databases.Database.AddNamedProject | src/database.rs:37-61 | corrected form: no list counts as empty, a path that is not a directory is NotFound, and a success keeps names and paths unique and makes the new record the one its name finds |
| Databases.Database.Display | src/database.rs:175-185 | the text starts with the `Author:` line |
| Databases.Database.GetProject | src/database.rs:94-105 | the first record with the name, or none iff no record has it |
| Databases.Database.ChangeToProjectPath | src/database.rs:63-79 | unknown name: NotFound "project not found"; a found record whose path is not a directory: Other "project path is invalid"; otherwise `cd ` followed by the path |
| Databases.Database.DetectProjectFromPath | src/database.rs:81-92 | the first record whose path is the current directory, or none iff no record has it |
| Databases.Database.ListProjects | src/database.rs:154-161 | aborts iff there is no list; otherwise the names in stored order |
| Databases.EmptyRegistryDropsProject | src/database.rs:240-247 | as written, an empty registry answers Ok to a project whose path is not a directory and registers nothing |
| Databases.EmptyRegistryRejectsMissingPath | src/database.rs:240-247 | the corrected call on the same input is NotFound |
| Databases.EmptyRegistryAcceptsFirstProject | src/database.rs:249-254 | the corrected call registers the first project of an empty registry |

## Left out

- src/main.rs and src/commands.rs (argument parsing, exit codes, the home directory) are not part of this model: they only wire the operations to the command line.
- src/messages.rs (coloured console text) and src/shell.rs (an embedded shell script) are not part of this model.
- File I/O is not modelled: `Project::from_file`/`write`/`save`, `Database::from_file_path`/`new`/`sync`.
- The structured-text format is not parsed. `from_str` starts from a document that is already read; it has the `name`, `hook` and `scripts` fields, and a missing field is `None`.
- Rendering is given only for the shapes the tests fix. It escapes only `"` and `\`. The text of a hook line (`hook = …`) is not fixed by any test.
- Console output (`println!`, `eprintln!`) is left out, except for the `cd` line below. So are the bold colour codes in error messages: errors carry only their kind, and the name where there is one.
- Scripts.SetName: the source writes the field of a script in place. The model rebinds the value, since scripts are held by value in the table and in `Project`.
- Projects.Project.PopulateNames: the always-`Ok(())` result of the source is dropped.
- ProjectInfos.LegacyText: project_info.rs reads `script.alias`, a field that `Script` in script.rs does not have, so the legacy pair is its own record. Its display is taken to be its command, as for `Script`.
- Databases.Database.ChangeToProjectPath: the source prints the `cd` line and returns `Ok(())`; the model returns the line as the `Ok` value instead of printing it.
- ProjectInfos.ProjectInfo.PwdIsProjectPath: `env::current_dir().unwrap()` panics when the current directory cannot be read. The model takes the directory as `cwd`, so it has no abort there, and neither has Databases.Database.DetectProjectFromPath.
- Databases.Database.DetectProjectFromPath: the source ignores its path argument and compares against the process's current directory. The model takes that directory as `cwd`.
- `Path::is_dir` and `env::current_dir` are parameters (`dirs`, `cwd`). They are not queries of a real filesystem.

## Findings

| source | as written | input that shows it | evidently intended | confidence | as-written member | corrected member |
|---|---|---|---|---|---|---|
| src/database.rs:43-60 | when the registry has no project list, `add_project_from_name_and_path` skips the add and returns `Ok` | `Database::empty()` then `add_project_from_name_and_path("nopath", "/but/through/")` with no such directory gives `Ok(())` and registers nothing | the first project creates the list, and a path that is not a directory is NotFound, as the test at database.rs:240-247 expects | high; not executed | Databases.EmptyRegistryDropsProject | Databases.Database.AddNamedProject |
