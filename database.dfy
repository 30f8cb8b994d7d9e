/** The legacy registry: an author line and an optional list of project
    records (src/database.rs). */
module Databases {
  import opened Wrappers
  import opened ProjectInfos

  const DefaultAuthor: string := "John Doe <john@doe.com>"
  const NameTaken: string := "a project with this name already exists"
  const PathTaken: string := "a project on this path already exists"
  const ProjectNotFound: string := "project not found"
  const PathInvalid: string := "project path is invalid"

  /** Position of the first record that has the name or the path. */
  function FirstClash(list: seq<ProjectInfo>, name: string, path: string): (r: Option<nat>)
    ensures r.None? <==> forall i :: 0 <= i < |list| ==> list[i].name != name && list[i].path != path
    ensures r.Some? ==> r.value < |list| && (list[r.value].name == name || list[r.value].path == path)
    ensures r.Some? ==> forall j :: 0 <= j < r.value ==> list[j].name != name && list[j].path != path
  {
    if list == [] then None
    else if list[0].name == name || list[0].path == path then Some(0)
    else match FirstClash(list[1..], name, path)
      case None => None
      case Some(k) => Some(k + 1)
  }

  /** The error the first clashing record causes: the name is checked
      before the path. */
  function FirstDuplicate(list: seq<ProjectInfo>, name: string, path: string): (r: Option<IoError>)
    ensures r.None? <==> FirstClash(list, name, path).None?
    ensures r.Some? ==> r.value.kind == AlreadyExists && r.value.message in {NameTaken, PathTaken}
    ensures r.Some? ==> (r.value.message == NameTaken <==> list[FirstClash(list, name, path).value].name == name)
  {
    match FirstClash(list, name, path)
      case None => None
      case Some(i) =>
        if list[i].name == name then Some(IoError(AlreadyExists, NameTaken))
        else Some(IoError(AlreadyExists, PathTaken))
  }

  /** Position of the first record with the name. */
  function FindName(list: seq<ProjectInfo>, name: string): (r: Option<nat>)
    ensures r.None? <==> forall i :: 0 <= i < |list| ==> list[i].name != name
    ensures r.Some? ==> r.value < |list| && list[r.value].name == name
    ensures r.Some? ==> forall j :: 0 <= j < r.value ==> list[j].name != name
  {
    if list == [] then None
    else if list[0].name == name then Some(0)
    else match FindName(list[1..], name)
      case None => None
      case Some(k) => Some(k + 1)
  }

  /** Position of the first record whose path is `path`. */
  function FindPath(list: seq<ProjectInfo>, path: string): (r: Option<nat>)
    ensures r.None? <==> forall i :: 0 <= i < |list| ==> list[i].path != path
    ensures r.Some? ==> r.value < |list| && list[r.value].path == path
    ensures r.Some? ==> forall j :: 0 <= j < r.value ==> list[j].path != path
  {
    if list == [] then None
    else if list[0].path == path then Some(0)
    else match FindPath(list[1..], path)
      case None => None
      case Some(k) => Some(k + 1)
  }

  /** No two records share a name and no two share a path. */
  ghost predicate Distinct(list: seq<ProjectInfo>)
  {
    forall i, j :: 0 <= i < j < |list| ==> list[i].name != list[j].name && list[i].path != list[j].path
  }

  /** A record that passes the duplicate check keeps the registry free of
      repeated names and paths, and is then the one its name finds. */
  lemma AppendKeepsDistinct(list: seq<ProjectInfo>, p: ProjectInfo)
    requires Distinct(list) && FirstDuplicate(list, p.name, p.path).None?
    ensures Distinct(list + [p])
    ensures FindName(list + [p], p.name) == Some(|list|)
  {
    assert forall k :: 0 <= k < |list| ==> list[k].name != p.name && list[k].path != p.path;
    AppendFresh(list, p);
    FindNewName(list, p);
  }

  /** A record whose name and path are new keeps the registry distinct. */
  lemma AppendFresh(list: seq<ProjectInfo>, p: ProjectInfo)
    requires Distinct(list)
    requires forall k :: 0 <= k < |list| ==> list[k].name != p.name && list[k].path != p.path
    ensures Distinct(list + [p])
  {
    var all := list + [p];
    forall i, j | 0 <= i < j < |all| ensures all[i].name != all[j].name && all[i].path != all[j].path {
      assert all[i] == list[i];
      if j < |list| {
        assert all[j] == list[j];
      } else {
        assert all[j] == p;
      }
    }
  }

  /** A name no earlier record has is found at the appended record. */
  lemma FindNewName(list: seq<ProjectInfo>, p: ProjectInfo)
    requires forall k :: 0 <= k < |list| ==> list[k].name != p.name
    ensures FindName(list + [p], p.name) == Some(|list|)
  {
    var all := list + [p];
    assert forall k :: 0 <= k < |list| ==> all[k] == list[k];
    assert all[|list|] == p;
  }

  /** Appending never changes what an already registered name finds. */
  lemma {:induction false} FindNameAfterAppend(list: seq<ProjectInfo>, p: ProjectInfo, name: string)
    requires FindName(list, name).Some?
    ensures FindName(list + [p], name) == FindName(list, name)
  {
    if list[0].name != name {
      assert (list + [p])[1..] == list[1..] + [p];
      FindNameAfterAppend(list[1..], p, name);
    }
  }

  /** Paths are compared as strings: a record at `p + "/"` does not block
      a new record at `p`. */
  lemma PathsAreNotNormalised(list: seq<ProjectInfo>, name: string, p: string)
    requires forall i :: 0 <= i < |list| ==> list[i].name != name && list[i].path == p + "/"
    ensures FirstDuplicate(list, name, p).None?
  {
    forall i | 0 <= i < |list| ensures list[i].path != p {
      assert |list[i].path| == |p| + 1;
    }
  }

  /** One record's text per line, in stored order. */
  function Listing(list: seq<ProjectInfo>): string
    reads set p | p in list
  {
    if list == [] then "" else Listing(list[..|list| - 1]) + list[|list| - 1].Display() + "\n"
  }

  /** Registering one more record appends exactly its text and a newline. */
  lemma ListingAppend(list: seq<ProjectInfo>, p: ProjectInfo)
    ensures Listing(list + [p]) == Listing(list) + p.Display() + "\n"
  {
    assert (list + [p])[..|list|] == list;
  }

  class Database {
    var author: string
    var projects: Option<seq<ProjectInfo>>
    var file: Option<string>

    /** `Database::empty`: the fixed author, no project list, no file. */
    constructor Empty()
      ensures author == DefaultAuthor && projects == None && file == None
    {
      author := DefaultAuthor;
      projects := None;
      file := None;
    }

    function ProjectList(): seq<ProjectInfo>
      reads this
    {
      if projects.Some? then projects.value else []
    }

    /** `add_project`: NotFound, and nothing changes, when the record's path
      is not a directory; otherwise the record goes at the end of the list,
      which is created when there was none. No duplicate check. */
    method AddProject(project: ProjectInfo, dirs: set<string>) returns (r: Result<(), IoError>)
      modifies this
      ensures author == old(author) && file == old(file)
      ensures project.path !in dirs ==> r == Err(IoError(NotFound, NowhereMessage)) && projects == old(projects)
      ensures project.path in dirs ==> r == Ok(()) && projects == Some(old(ProjectList()) + [project])
    {
      if project.path !in dirs {
        return Err(IoError(NotFound, NowhereMessage));
      }
      match projects {
        case Some(list) =>
          projects := Some(list + [project]);
        case None =>
          assert old(ProjectList()) + [project] == [project];
          projects := Some([project]);
      }
      r := Ok(());
    }

    /** `add_project_from_name_and_path`: without a list it succeeds and adds
      nothing; with one, the first record with the name or the path is an
      AlreadyExists error; otherwise a new record is added, and a path that
      is not a directory then aborts (the `expect` on `add_project`). */
    method AddProjectFromNameAndPath(name: string, path: string, dirs: set<string>) returns (r: Result<(), IoError>)
      modifies this
      ensures author == old(author) && file == old(file)
      ensures old(projects).None? ==> r == Ok(()) && projects == old(projects)
      ensures old(projects).Some? && FirstDuplicate(old(projects).value, name, path).Some? ==>
        r == Err(FirstDuplicate(old(projects).value, name, path).value) && projects == old(projects)
      ensures old(projects).Some? && FirstDuplicate(old(projects).value, name, path).None? && path !in dirs ==>
        r == Panic
      ensures old(projects).Some? && FirstDuplicate(old(projects).value, name, path).None? && path in dirs ==>
        && r == Ok(())
        && projects.Some? && |projects.value| == |old(projects).value| + 1
        && projects.value[..|old(projects).value|] == old(projects).value
        && var added := projects.value[|old(projects).value|];
           fresh(added) && added.name == name && added.path == path && added.scripts == None
    {
      var project := new ProjectInfo(name, path);
      if projects.None? {
        return Ok(());
      }
      var list := projects.value;
      var i := 0;
      while i < |list|
        invariant 0 <= i <= |list|
        invariant FirstDuplicate(list, name, path) == FirstDuplicate(list[i..], name, path)
      {
        assert list[i..][1..] == list[i + 1..];
        if list[i].name == name {
          return Err(IoError(AlreadyExists, NameTaken));
        }
        if list[i].path == path {
          return Err(IoError(AlreadyExists, PathTaken));
        }
        i := i + 1;
      }
      var added := AddProject(project, dirs);
      if added.Err? {
        return Panic;
      }
      r := Ok(());
    }

    /** The evidently intended `add_project_from_name_and_path`: a missing
      list counts as an empty one, and the directory check of `add_project`
      is reported as its NotFound error. The registry stays free of repeated
      names and paths, and the new record is the one its name finds. */
    method AddNamedProject(name: string, path: string, dirs: set<string>) returns (r: Result<(), IoError>)
      modifies this
      ensures author == old(author) && file == old(file)
      ensures FirstDuplicate(old(ProjectList()), name, path).Some? ==>
        r == Err(FirstDuplicate(old(ProjectList()), name, path).value) && projects == old(projects)
      ensures FirstDuplicate(old(ProjectList()), name, path).None? && path !in dirs ==>
        r == Err(IoError(NotFound, NowhereMessage)) && projects == old(projects)
      ensures FirstDuplicate(old(ProjectList()), name, path).None? && path in dirs ==>
        && r == Ok(())
        && projects.Some? && |projects.value| == |old(ProjectList())| + 1
        && projects.value[..|old(ProjectList())|] == old(ProjectList())
        && var added := projects.value[|old(ProjectList())|];
           fresh(added) && added.name == name && added.path == path && added.scripts == None
      ensures r.Ok? && Distinct(old(ProjectList())) ==>
        Distinct(ProjectList()) && FindName(ProjectList(), name) == Some(|old(ProjectList())|)
    {
      var project := new ProjectInfo(name, path);
      var list := ProjectList();
      var i := 0;
      while i < |list|
        invariant 0 <= i <= |list|
        invariant FirstDuplicate(list, name, path) == FirstDuplicate(list[i..], name, path)
      {
        assert list[i..][1..] == list[i + 1..];
        if list[i].name == name {
          return Err(IoError(AlreadyExists, NameTaken));
        }
        if list[i].path == path {
          return Err(IoError(AlreadyExists, PathTaken));
        }
        i := i + 1;
      }
      r := AddProject(project, dirs);
      if r.Ok? && Distinct(list) {
        AppendKeepsDistinct(list, project);
      }
    }

    /** `Display for Database`: the author line, then every record. */
    function Display(): (text: string)
      reads this, set p | p in ProjectList()
      ensures |text| >= 9 + |author| && text[..9 + |author|] == "Author: " + author + "\n"
    {
      "Author: " + author + "\n" + Listing(ProjectList())
    }

    /** `get_project`: the first record with the name, if any. */
    method GetProject(name: string) returns (r: Option<ProjectInfo>)
      ensures r.None? <==> FindName(ProjectList(), name).None?
      ensures r.Some? ==> r.value == ProjectList()[FindName(ProjectList(), name).value]
    {
      if projects.None? {
        return None;
      }
      var list := projects.value;
      var i := 0;
      while i < |list|
        invariant 0 <= i <= |list|
        invariant forall j :: 0 <= j < i ==> list[j].name != name
      {
        if list[i].name == name {
          assert FindName(list, name) == Some(i);
          return Some(list[i]);
        }
        i := i + 1;
      }
      r := None;
    }

    /** `change_to_project_path`: NotFound for an unknown name, Other when
      the stored path is not a directory, and otherwise the `cd` line the
      record emits. */
    method ChangeToProjectPath(name: string, dirs: set<string>) returns (r: Result<string, IoError>)
      ensures FindName(ProjectList(), name).None? ==> r == Err(IoError(NotFound, ProjectNotFound))
      ensures FindName(ProjectList(), name).Some? ==>
        var p := ProjectList()[FindName(ProjectList(), name).value];
        && (p.path in dirs ==> r == Ok("cd " + p.path))
        && (p.path !in dirs ==> r == Err(IoError(Other, PathInvalid)))
    {
      var found := GetProject(name);
      match found {
        case Some(p) =>
          if p.path in dirs {
            var line := p.ChangeToProjectPath(dirs);
            r := Ok(line.value);
          } else {
            r := Err(IoError(Other, PathInvalid));
          }
        case None =>
          r := Err(IoError(NotFound, ProjectNotFound));
      }
    }

    /** `detect_project_from_path`: the first record whose path is the
      current directory. */
    method DetectProjectFromPath(cwd: string) returns (r: Option<ProjectInfo>)
      ensures r.None? <==> FindPath(ProjectList(), cwd).None?
      ensures r.Some? ==> r.value == ProjectList()[FindPath(ProjectList(), cwd).value]
    {
      if projects.None? {
        return None;
      }
      var list := projects.value;
      var i := 0;
      while i < |list|
        invariant 0 <= i <= |list|
        invariant forall j :: 0 <= j < i ==> list[j].path != cwd
      {
        if list[i].PwdIsProjectPath(cwd) {
          assert FindPath(list, cwd) == Some(i);
          return Some(list[i]);
        }
        i := i + 1;
      }
      r := None;
    }

    /** `list_projects`: the names in stored order; it aborts when there is
      no list. */
    method ListProjects() returns (r: Outcome<seq<string>>)
      ensures projects.None? <==> r.Aborted?
      ensures r.Returned? ==> |r.value| == |projects.value|
      ensures r.Returned? ==> forall i :: 0 <= i < |r.value| ==> r.value[i] == projects.value[i].name
    {
      if projects.None? {
        return Aborted;
      }
      var list := projects.value;
      var names: seq<string> := [];
      var i := 0;
      while i < |list|
        invariant 0 <= i <= |list|
        invariant |names| == i
        invariant forall j :: 0 <= j < i ==> names[j] == list[j].name
      {
        names := names + [list[i].name];
        i := i + 1;
      }
      r := Returned(names);
    }
  }

  /** In an empty registry the call as written reports success for a path
      that is not a directory and registers nothing, where the test of
      database.rs:240-247 expects NotFound. */
  method EmptyRegistryDropsProject() returns (r: Result<(), IoError>, after: Option<seq<ProjectInfo>>)
    ensures r == Ok(()) && after == None
  {
    var db := new Database.Empty();
    r := db.AddProjectFromNameAndPath("nopath", "/but/through/", {});
    after := db.projects;
  }

  /** The corrected call on the same input reports NotFound. */
  method EmptyRegistryRejectsMissingPath() returns (r: Result<(), IoError>, after: Option<seq<ProjectInfo>>)
    ensures r == Err(IoError(NotFound, NowhereMessage)) && after == None
  {
    var db := new Database.Empty();
    r := db.AddNamedProject("nopath", "/but/through/", {});
    after := db.projects;
  }

  /** The corrected call registers the first project of an empty registry. */
  method EmptyRegistryAcceptsFirstProject() returns (r: Result<(), IoError>, names: Outcome<seq<string>>)
    ensures r == Ok(()) && names == Returned(["not_spiderman"])
  {
    var db := new Database.Empty();
    r := db.AddNamedProject("not_spiderman", "/tmp/", {"/tmp/"});
    names := db.ListProjects();
    assert names.Returned? && |names.value| == 1 && names.value[0] == "not_spiderman";
    assert names.value == ["not_spiderman"];
  }
}
