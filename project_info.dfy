/** One record of the legacy list-based registry: a name, a path and an
    appended list of `alias`/`command` pairs (src/project_info.rs). */
module ProjectInfos {
  import opened Wrappers

  /** The older script pair this record holds, two plain strings. */
  datatype LegacyScript = LegacyScript(alias: string, command: string)

  /** The kinds of `std::io::Error` the registry reports. */
  datatype ErrorKind = NotFound | AlreadyExists | Other

  datatype IoError = IoError(kind: ErrorKind, message: string)

  const NowhereMessage: string := "this path leads to nowhere"
  const NoScriptFound: string := "no script found"
  const NoScriptsConfigured: string := "no scripts configured for this project"

  /** The text one script contributes to a record's listing. */
  function LegacyText(s: LegacyScript): string
  {
    s.command
  }

  /** One tab-indented line per script. */
  function ScriptLines(list: seq<LegacyScript>): string
  {
    if list == [] then "" else ScriptLines(list[..|list| - 1]) + "\t" + LegacyText(list[|list| - 1]) + "\n"
  }

  /** Appending a script appends exactly its line to the listing. */
  lemma ScriptLinesAppend(list: seq<LegacyScript>, s: LegacyScript)
    ensures ScriptLines(list + [s]) == ScriptLines(list) + "\t" + LegacyText(s) + "\n"
  {
    assert (list + [s])[..|list|] == list;
  }

  /** The listing of a list is the listing of its front followed by the
      listing of its back. */
  lemma {:induction false} ScriptLinesConcat(a: seq<LegacyScript>, b: seq<LegacyScript>)
    ensures ScriptLines(a + b) == ScriptLines(a) + ScriptLines(b)
  {
    if b == [] {
      assert a + b == a;
    } else {
      var front := b[..|b| - 1];
      assert a + b == (a + front) + [b[|b| - 1]];
      assert b == front + [b[|b| - 1]];
      ScriptLinesConcat(a, front);
      ScriptLinesAppend(a + front, b[|b| - 1]);
      ScriptLinesAppend(front, b[|b| - 1]);
    }
  }

  /** A registered project. Its name and path never change once made. */
  class ProjectInfo {
    const name: string
    const path: string
    var scripts: Option<seq<LegacyScript>>

    /** `ProjectInfo::new`: copies the name and the path; no scripts. It
      never fails. */
    constructor (project: string, path: string)
      ensures name == project && this.path == path && scripts == None
    {
      name := project;
      this.path := path;
      scripts := None;
    }

    /** The scripts, the empty list when none were configured. */
    function ScriptList(): seq<LegacyScript>
      reads this
    {
      if scripts.Some? then scripts.value else []
    }

    /** `pwd_is_project_path`: the current directory is the stored path,
      character for character. */
    function PwdIsProjectPath(cwd: string): bool
    {
      cwd == path
    }

    /** `change_to_project_path`: the line `cd <path>` when the path is a
      directory (`dirs` holds the strings that name directories), NotFound
      otherwise. The path is written as stored, without quoting. */
    function ChangeToProjectPath(dirs: set<string>): (r: Result<string, IoError>)
      ensures !r.Panic?
      ensures r.Ok? <==> path in dirs
      ensures r.Ok? ==> |r.value| == 3 + |path| && r.value[..3] == "cd " && r.value[3..] == path
      ensures r.Err? ==> r.error == IoError(NotFound, NowhereMessage)
    {
      if path !in dirs then Err(IoError(NotFound, NowhereMessage)) else Ok("cd " + path)
    }

    /** `get_script`: the first script with the alias; NotFound with one
      message when there is no list and with another when no script matches. */
    method GetScript(alias: string) returns (r: Result<LegacyScript, IoError>)
      ensures !r.Panic?
      ensures scripts.None? ==> r == Err(IoError(NotFound, NoScriptsConfigured))
      ensures scripts.Some? ==> (r.Ok? <==> exists i :: 0 <= i < |scripts.value| && scripts.value[i].alias == alias)
      ensures scripts.Some? && r.Err? ==> r.error == IoError(NotFound, NoScriptFound)
      ensures r.Ok? ==> scripts.Some? && r.value.alias == alias
      ensures r.Ok? ==> exists i ::
        0 <= i < |scripts.value| && scripts.value[i] == r.value && (forall j :: 0 <= j < i ==> scripts.value[j].alias != alias)
    {
      match scripts {
        case None =>
          return Err(IoError(NotFound, NoScriptsConfigured));
        case Some(list) =>
          var i := 0;
          while i < |list|
            invariant 0 <= i <= |list|
            invariant forall j :: 0 <= j < i ==> list[j].alias != alias
          {
            if list[i].alias == alias {
              return Ok(list[i]);
            }
            i := i + 1;
          }
          return Err(IoError(NotFound, NoScriptFound));
      }
    }

    /** `add_script`: always appends, creating the list when there was none.
      Aliases are not checked for repeats. */
    method AddScript(s: LegacyScript)
      modifies this
      ensures scripts == Some(old(ScriptList()) + [s])
      ensures old(scripts).None? ==> Display() == Header(name, path) + "[Scripts] =>\n\t" + LegacyText(s) + "\n"
      ensures old(scripts).Some? ==> Display() == old(Display()) + "\t" + LegacyText(s) + "\n"
    {
      match scripts {
        case Some(list) =>
          DisplayAfterAdd(name, path, list, s);
          scripts := Some(list + [s]);
        case None =>
          assert old(ScriptList()) + [s] == [s];
          FirstScriptListed(name, path, s);
          scripts := Some([s]);
      }
    }

    /** `Display for ProjectInfo`: the header, then either the message that
      there are no scripts or the `[Scripts] =>` line and one line per
      script. */
    function Display(): (text: string)
      reads this
      ensures |text| >= |Header(name, path)| && text[..|Header(name, path)|] == Header(name, path)
      ensures scripts.None? ==> text[|Header(name, path)|..] == NoScriptLine
      ensures scripts.Some? ==> text[|Header(name, path)|..] == "[Scripts] =>\n" + ScriptLines(scripts.value)
    {
      RecordText(name, path, scripts)
    }
  }

  /** The text a record without scripts ends with, with no line break. */
  const NoScriptLine: string := "no script configured"

  /** The `[Project] => ` and `[Path] => ` lines of a record. */
  function Header(name: string, path: string): string
  {
    "[Project] => " + name + "\n" + "[Path] => " + path + "\n"
  }

  /** The text of a record with the given fields. */
  function RecordText(name: string, path: string, scripts: Option<seq<LegacyScript>>): string
  {
    Header(name, path) + (match scripts
      case Some(list) => "[Scripts] =>\n" + ScriptLines(list)
      case None => NoScriptLine)
  }

  /** The first script turns the no-script message into the `[Scripts] =>`
      line followed by that script's line. */
  lemma FirstScriptListed(name: string, path: string, s: LegacyScript)
    ensures RecordText(name, path, Some([s])) == Header(name, path) + "[Scripts] =>\n\t" + LegacyText(s) + "\n"
    ensures RecordText(name, path, None) == Header(name, path) + NoScriptLine
  {
    ScriptLinesAppend([], s);
  }

  /** Adding a script to a record that already lists scripts adds exactly
      its line at the end of the record's text. */
  lemma DisplayAfterAdd(name: string, path: string, list: seq<LegacyScript>, s: LegacyScript)
    ensures RecordText(name, path, Some(list + [s])) == RecordText(name, path, Some(list)) + "\t" + LegacyText(s) + "\n"
  {
    ScriptLinesAppend(list, s);
  }
}
