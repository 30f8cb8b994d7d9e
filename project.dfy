/** One project's file: its name, ordered script table and optional hook,
    with the check that a hook only names scripts of the table
    (src/project.rs). */
module Projects {
  import opened Wrappers
  import opened Text
  import opened Scripts
  import opened Hooks

  /** A project name; the same rule as a script name. */
  datatype ProjectName = ProjectName(text: string)

  /** `ProjectName::parse`: the rule of `ScriptName::parse`, stored verbatim. */
  function ParseProjectName(s: string): (r: Outcome<ProjectName>)
    ensures r.Returned? <==> ParseScriptName(s).Returned?
    ensures r.Returned? ==> r.value.text == s && NameRule(s)
  {
    NameCheckIsNameRule(s);
    if PassesNameCheck(s) then Returned(ProjectName(s)) else Aborted
  }

  datatype ProjectError =
    | ScriptExists(name: ScriptName)       // add_script on a taken key
    | ScriptNotFound(name: ScriptName)     // remove_script on an absent key
    | InvalidHook(name: ScriptName)        // a hook entry that is not a key
    | HookRejected(cause: ProjectError)    // from_str: the loaded hook did not validate
    | ParseFailed                          // from_str: the document is not a project

  /** One entry of the ordered script table (an `IndexMap`). */
  datatype Entry = Entry(key: ScriptName, script: Script)

  type Table = seq<Entry>

  /** The table's keys in table order. */
  function Keys(t: Table): (ks: seq<ScriptName>)
    ensures |ks| == |t| && forall i :: 0 <= i < |t| ==> ks[i] == t[i].key
  {
    seq(|t|, i requires 0 <= i < |t| => t[i].key)
  }

  ghost predicate UniqueKeys(t: Table)
  {
    forall i, j :: 0 <= i < j < |t| ==> t[i].key != t[j].key
  }

  /** Position of a key: the first entry that carries it. */
  function IndexOf(t: Table, k: ScriptName): (i: nat)
    requires k in Keys(t)
    ensures i < |t| && t[i].key == k
    ensures forall j :: 0 <= j < i ==> t[j].key != k
  {
    if t[0].key == k then 0
    else
      assert Keys(t[1..]) == Keys(t)[1..];
      1 + IndexOf(t[1..], k)
  }

  /** `IndexMap::get` on a present key. */
  function Lookup(t: Table, k: ScriptName): Script
    requires k in Keys(t)
  {
    t[IndexOf(t, k)].script
  }

  /** `IndexMap::shift_remove`: drop the entry of `k`, keep the order of the rest. */
  function ShiftRemove(t: Table, k: ScriptName): Table
  {
    if t == [] then []
    else if t[0].key == k then t[1..]
    else [t[0]] + ShiftRemove(t[1..], k)
  }

  /** Removal cuts exactly the entry of `k` out of the sequence. */
  lemma ShiftRemoveCuts(t: Table, k: ScriptName)
    requires k in Keys(t)
    ensures ShiftRemove(t, k) == t[..IndexOf(t, k)] + t[IndexOf(t, k) + 1..]
  {
    CutAtFirst(t, k, IndexOf(t, k));
  }

  lemma {:induction false} CutAtFirst(t: Table, k: ScriptName, i: nat)
    requires i < |t| && t[i].key == k && forall j :: 0 <= j < i ==> t[j].key != k
    ensures ShiftRemove(t, k) == t[..i] + t[i + 1..]
  {
    if i > 0 {
      var u := t[1..];
      CutAtFirst(u, k, i - 1);
      assert u[..i - 1] == t[1..i];
      assert u[i..] == t[i + 1..];
      assert [t[0]] + t[1..i] == t[..i];
    }
  }

  /** The entries that follow a cut at `i` move down by one place. */
  lemma CutAt(t: Table, i: nat, r: Table)
    requires i < |t| && r == t[..i] + t[i + 1..]
    ensures |r| == |t| - 1
    ensures forall j :: 0 <= j < i ==> r[j] == t[j]
    ensures forall j :: i <= j < |r| ==> r[j] == t[j + 1]
  {
  }

  /** Cutting one entry out of a table with unique keys leaves unique keys,
      none of them the cut key. */
  lemma CutUnique(t: Table, i: nat, r: Table)
    requires UniqueKeys(t) && i < |t| && r == t[..i] + t[i + 1..]
    ensures UniqueKeys(r)
    ensures forall j :: 0 <= j < |r| ==> r[j].key != t[i].key
  {
    CutAt(t, i, r);
    forall a, b | 0 <= a < b < |r| ensures r[a].key != r[b].key {
      var a' := if a < i then a else a + 1;
      var b' := if b < i then b else b + 1;
      assert r[a] == t[a'] && r[b] == t[b'] && a' < b';
    }
    forall j | 0 <= j < |r| ensures r[j].key != t[i].key {
      var j' := if j < i then j else j + 1;
      assert r[j] == t[j'] && j' != i;
    }
  }

  /** Cutting one entry out keeps every other entry and adds none. */
  lemma CutKeeps(t: Table, i: nat, r: Table)
    requires i < |t| && r == t[..i] + t[i + 1..]
    ensures forall j :: 0 <= j < |t| && j != i ==> t[j] in r
    ensures forall e :: e in r ==> e in t
  {
    CutAt(t, i, r);
    forall j | 0 <= j < |t| && j != i ensures t[j] in r {
      if j < i { assert r[j] == t[j]; } else { assert r[j - 1] == t[j]; }
    }
    forall e | e in r ensures e in t {
      var j :| 0 <= j < |r| && r[j] == e;
      if j < i { assert t[j] == e; } else { assert t[j + 1] == e; }
    }
  }

  /** Removing a present key from a table with unique keys leaves a table
      with unique keys that lacks `k` and keeps, in order, every other entry. */
  lemma ShiftRemoveSpec(t: Table, k: ScriptName)
    requires UniqueKeys(t) && k in Keys(t)
    ensures var r := ShiftRemove(t, k);
      && UniqueKeys(r)
      && |r| == |t| - 1
      && k !in Keys(r)
      && (forall j :: 0 <= j < |t| && t[j].key != k ==> t[j] in r)
      && (forall e :: e in r ==> e in t)
  {
    var i := IndexOf(t, k);
    ShiftRemoveCuts(t, k);
    var r := ShiftRemove(t, k);
    CutUnique(t, i, r);
    CutKeeps(t, i, r);
  }

  /** Appending a fresh key and removing it again is the identity. */
  lemma {:induction false} RemoveUndoesAppend(t: Table, k: ScriptName, s: Script)
    requires k !in Keys(t)
    ensures ShiftRemove(t + [Entry(k, s)], k) == t
  {
    if t == [] {
      assert [] + [Entry(k, s)] == [Entry(k, s)];
    } else {
      assert (t + [Entry(k, s)])[1..] == t[1..] + [Entry(k, s)];
      assert Keys(t[1..]) == Keys(t)[1..];
      RemoveUndoesAppend(t[1..], k, s);
    }
  }

  /** Appending a fresh key keeps the keys unique and every earlier lookup,
      and the new key finds the new script. */
  lemma AppendSpec(t: Table, k: ScriptName, s: Script)
    requires UniqueKeys(t) && k !in Keys(t)
    ensures var r := t + [Entry(k, s)];
      && UniqueKeys(r)
      && Keys(r) == Keys(t) + [k]
      && k in Keys(r) && Lookup(r, k) == s
      && forall m :: m in Keys(t) ==> m in Keys(r) && Lookup(r, m) == Lookup(t, m)
  {
    var r := t + [Entry(k, s)];
    assert Keys(r) == Keys(t) + [k];
    forall m | m in Keys(t) ensures m in Keys(r) && Lookup(r, m) == Lookup(t, m) {
      var i := IndexOf(t, m);
      assert r[i] == t[i];
      assert IndexOf(r, m) == i;
    }
    assert IndexOf(r, k) == |t|;
  }

  /** `populate_names`' effect on the table: each script takes its key as name. */
  function Populated(t: Table): (r: Table)
    ensures |r| == |t|
    ensures forall i :: 0 <= i < |t| ==>
      r[i].key == t[i].key && r[i].script.command == t[i].script.command && r[i].script.name == t[i].key
  {
    seq(|t|, i requires 0 <= i < |t| => Entry(t[i].key, SetName(t[i].script, t[i].key)))
  }

  lemma PopulatedIdempotent(t: Table)
    ensures Populated(Populated(t)) == Populated(t)
    ensures Keys(Populated(t)) == Keys(t)
  {
    assert Keys(Populated(t)) == Keys(t);
  }

  /** The walk of `validate_hook` over the names of a `ScriptArray`: each
      entry is first run through `ScriptName::parse` (which aborts on a bad
      name), then looked up. */
  function CheckNames(ns: seq<ScriptName>, t: Table): Result<(), ProjectError>
  {
    if ns == [] then Ok(())
    else if !PassesNameCheck(ns[0].text) then Panic
    else if ns[0] !in Keys(t) then Err(InvalidHook(ns[0]))
    else CheckNames(ns[1..], t)
  }

  /** `validate_hook`: `None` and `Simple` always pass. */
  function HookCheck(h: Option<ProjectHook>, t: Table): Result<(), ProjectError>
  {
    match h
    case None => Ok(())
    case Some(Simple(_)) => Ok(())
    case Some(ScriptArray(ns)) => CheckNames(ns, t)
  }

  /** Every name of the list satisfies the rule and is a key. */
  ghost predicate AllResolve(ns: seq<ScriptName>, t: Table)
  {
    forall i :: 0 <= i < |ns| ==> NameRule(ns[i].text) && ns[i] in Keys(t)
  }

  /** A non-empty list resolves when its head does and its tail does. */
  lemma AllResolveCons(ns: seq<ScriptName>, t: Table)
    requires ns != []
    ensures AllResolve(ns, t) <==> NameRule(ns[0].text) && ns[0] in Keys(t) && AllResolve(ns[1..], t)
  {
    assert forall i :: 1 <= i < |ns| ==> ns[1..][i - 1] == ns[i];
  }

  lemma {:induction false} CheckNamesOk(ns: seq<ScriptName>, t: Table)
    ensures CheckNames(ns, t).Ok? <==> AllResolve(ns, t)
  {
    if ns != [] {
      NameCheckIsNameRule(ns[0].text);
      AllResolveCons(ns, t);
      CheckNamesOk(ns[1..], t);
    }
  }

  /** Position of the first listed name that breaks the rule or is not a
      key (`|ns|` when there is none). */
  ghost function FirstUnresolved(ns: seq<ScriptName>, t: Table): (j: nat)
    ensures j <= |ns|
    ensures forall l :: 0 <= l < j ==> NameRule(ns[l].text) && ns[l] in Keys(t)
    ensures j < |ns| ==> !(NameRule(ns[j].text) && ns[j] in Keys(t))
  {
    if ns == [] || !(NameRule(ns[0].text) && ns[0] in Keys(t)) then 0
    else 1 + FirstUnresolved(ns[1..], t)
  }

  /** The walk stops at the first unresolved entry: it aborts when that
      entry breaks the rule, and otherwise reports it as `InvalidHook`. */
  lemma {:induction false} CheckNamesStopsAtFirstUnresolved(ns: seq<ScriptName>, t: Table)
    ensures var j := FirstUnresolved(ns, t);
      CheckNames(ns, t) ==
        if j == |ns| then Ok(())
        else if !NameRule(ns[j].text) then Panic
        else Err(InvalidHook(ns[j]))
  {
    if ns != [] {
      NameCheckIsNameRule(ns[0].text);
      if NameRule(ns[0].text) && ns[0] in Keys(t) {
        CheckNamesStopsAtFirstUnresolved(ns[1..], t);
      }
    }
  }

  /** `validate_hook` succeeds exactly when the hook is not a list, or every
      listed name satisfies the rule and is a key. */
  lemma HookCheckOk(h: Option<ProjectHook>, t: Table)
    ensures HookCheck(h, t).Ok? <==> (h.Some? && h.value.ScriptArray? ==> AllResolve(h.value.names, t))
  {
    if h.Some? && h.value.ScriptArray? {
      CheckNamesOk(h.value.names, t);
    }
  }

  /** With names that passed the rule (as every parsed name does) the check
      never aborts, and it fails exactly when some listed name is not a key. */
  lemma {:induction false} WellFormedHookCheck(ns: seq<ScriptName>, t: Table)
    requires forall i :: 0 <= i < |ns| ==> NameRule(ns[i].text)
    ensures !CheckNames(ns, t).Panic?
    ensures CheckNames(ns, t).Err? <==> exists i :: 0 <= i < |ns| && ns[i] !in Keys(t)
  {
    if ns != [] {
      NameCheckIsNameRule(ns[0].text);
      assert forall i :: 1 <= i < |ns| ==> ns[1..][i - 1] == ns[i];
      WellFormedHookCheck(ns[1..], t);
      if ns[0] in Keys(t) && exists i :: 0 <= i < |ns| && ns[i] !in Keys(t) {
        var i :| 0 <= i < |ns| && ns[i] !in Keys(t);
        assert ns[1..][i - 1] !in Keys(t);
      }
    }
  }

  /** The rendered commands of the listed scripts, in list order. */
  function CommandsOf(ns: seq<ScriptName>, t: Table): (cs: seq<string>)
    requires forall i :: 0 <= i < |ns| ==> ns[i] in Keys(t)
    ensures |cs| == |ns|
  {
    seq(|ns|, i requires 0 <= i < |ns| => ScriptText(Lookup(t, ns[i])))
  }

  /** `get_hook_cmd` on a given hook and table: it aborts unless the hook
      validates; `Simple(c)` gives `c`; a list gives its scripts' commands
      joined by "; "; no hook gives no command. */
  function HookCommand(h: Option<ProjectHook>, t: Table): (r: Outcome<Option<string>>)
    ensures r.Returned? <==> HookCheck(h, t).Ok?
    ensures r.Returned? ==> (r.value.None? <==> h.None?)
    ensures h.Some? && h.value.Simple? ==> r == Returned(Some(h.value.command))
  {
    HookCheckOk(h, t);
    if !HookCheck(h, t).Ok? then Aborted
    else match h
      case None => Returned(None)
      case Some(Simple(c)) => Returned(Some(c))
      case Some(ScriptArray(ns)) => Returned(Some(Join(CommandsOf(ns, t), "; ")))
  }

  /** A one-name hook runs exactly that script's command. */
  lemma HookCommandSingle(n: ScriptName, t: Table)
    requires NameRule(n.text) && n in Keys(t)
    ensures HookCommand(Some(ScriptArray([n])), t) == Returned(Some(ScriptText(Lookup(t, n))))
  {
    assert AllResolve([n], t);
    HookCommandList([n], t);
    assert CommandsOf([n], t) == [ScriptText(Lookup(t, n))];
  }


  /** Both halves of a list resolve exactly when the whole list does. */
  lemma AllResolveConcat(a: seq<ScriptName>, b: seq<ScriptName>, t: Table)
    ensures AllResolve(a + b, t) <==> AllResolve(a, t) && AllResolve(b, t)
  {
    assert forall i :: 0 <= i < |a| ==> (a + b)[i] == a[i];
    assert forall i :: 0 <= i < |b| ==> (a + b)[|a| + i] == b[i];
  }

  /** The commands of a list are those of its front followed by those of
      its back. */
  lemma CommandsOfConcat(a: seq<ScriptName>, b: seq<ScriptName>, t: Table)
    requires forall i :: 0 <= i < |a| ==> a[i] in Keys(t)
    requires forall i :: 0 <= i < |b| ==> b[i] in Keys(t)
    ensures forall i :: 0 <= i < |a + b| ==> (a + b)[i] in Keys(t)
    ensures CommandsOf(a + b, t) == CommandsOf(a, t) + CommandsOf(b, t)
  {
    assert forall i :: 0 <= i < |a| ==> (a + b)[i] == a[i];
    assert forall i :: 0 <= i < |b| ==> (a + b)[|a| + i] == b[i];
  }

  /** A list hook that validates runs its scripts' commands joined by "; ". */
  lemma HookCommandList(ns: seq<ScriptName>, t: Table)
    requires AllResolve(ns, t)
    ensures forall i :: 0 <= i < |ns| ==> ns[i] in Keys(t)
    ensures HookCommand(Some(ScriptArray(ns)), t) == Returned(Some(Join(CommandsOf(ns, t), "; ")))
  {
    CheckNamesOk(ns, t);
  }

  /** The command of a list is the command of its front, "; ", and the
      command of its back: the scripts run one after another in list order. */
  lemma HookCommandConcat(a: seq<ScriptName>, b: seq<ScriptName>, t: Table)
    requires a != [] && b != []
    requires HookCheck(Some(ScriptArray(a + b)), t).Ok?
    ensures HookCheck(Some(ScriptArray(a)), t).Ok? && HookCheck(Some(ScriptArray(b)), t).Ok?
    ensures HookCommand(Some(ScriptArray(a + b)), t).value.value ==
      HookCommand(Some(ScriptArray(a)), t).value.value + "; " + HookCommand(Some(ScriptArray(b)), t).value.value
  {
    CheckNamesOk(a + b, t);
    AllResolveConcat(a, b, t);
    CheckNamesOk(a, t);
    CheckNamesOk(b, t);
    HookCommandList(a + b, t);
    HookCommandList(a, t);
    HookCommandList(b, t);
    CommandsOfConcat(a, b, t);
    JoinAppend(CommandsOf(a, t), CommandsOf(b, t), "; ");
  }

  /** `remove_script` leaves the hook alone, so removing a script that a
      list hook names makes the next `get_hook_cmd` abort. */
  lemma RemovingHookedScriptAborts(ns: seq<ScriptName>, t: Table, k: ScriptName)
    requires UniqueKeys(t) && k in Keys(t) && k in ns
    ensures HookCommand(Some(ScriptArray(ns)), ShiftRemove(t, k)).Aborted?
  {
    ShiftRemoveSpec(t, k);
    CheckNamesOk(ns, ShiftRemove(t, k));
  }

  /** A project document as the structured-text reader hands it over: the
      `name` field, the `hook` field and the `scripts` table, each possibly
      absent. */
  datatype Document = Document(name: Option<Value>, hook: Option<Value>, scripts: Option<seq<(string, Value)>>)

  /** The fields of a project read from a document. */
  datatype Loaded = Loaded(name: ProjectName, hook: Option<ProjectHook>, scripts: Table)

  /** The reader refuses a table with a repeated key. */
  predicate DistinctKeys(pairs: seq<(string, Value)>)
  {
    forall i, j | 0 <= i < j < |pairs| :: pairs[i].0 != pairs[j].0
  }

  /** The derived field-by-field reading: `name` must be a string, `hook`
      decodes untagged, and the `scripts` table (empty when absent) is read
      by `ReadScripts`. No name rule is applied anywhere. */
  function Deserialize(doc: Document): (r: Option<Loaded>)
    ensures r.Some? ==> UniqueKeys(r.value.scripts)
  {
    if !(doc.name.Some? && doc.name.value.Str?) then None
    else if doc.hook.Some? && Decode(doc.hook.value).None? then None
    else
      var table := ReadScripts(if doc.scripts.Some? then doc.scripts.value else []);
      if table.None? then None
      else Some(Loaded(ProjectName(doc.name.value.s),
                       if doc.hook.Some? then Some(Decode(doc.hook.value).value) else None,
                       table.value))
  }

  /** Every script is a bare command string, taken over without
      `Command::parse`; its skipped name gets the default `hello`. */
  function ReadScripts(pairs: seq<(string, Value)>): (r: Option<Table>)
    ensures r.Some? <==> DistinctKeys(pairs) && forall i :: 0 <= i < |pairs| ==> pairs[i].1.Str?
    ensures r.Some? ==> UniqueKeys(r.value) && |r.value| == |pairs|
    ensures r.Some? ==> forall i :: 0 <= i < |pairs| ==>
      r.value[i] == Entry(ScriptName(pairs[i].0), Script(Command(pairs[i].1.s), DefaultScriptName()))
  {
    if !DistinctKeys(pairs) || !(forall i | 0 <= i < |pairs| :: pairs[i].1.Str?) then None
    else
      Some(seq(|pairs|, i requires 0 <= i < |pairs| && pairs[i].1.Str? =>
        Entry(ScriptName(pairs[i].0), Script(Command(pairs[i].1.s), DefaultScriptName()))))
  }

  /** The hook check looks only at the table's keys, so back-filling the
      script names never changes its outcome. */
  lemma {:induction false} CheckNamesSameKeys(ns: seq<ScriptName>, t: Table, u: Table)
    requires Keys(t) == Keys(u)
    ensures CheckNames(ns, t) == CheckNames(ns, u)
  {
    if ns != [] {
      CheckNamesSameKeys(ns[1..], t, u);
    }
  }

  lemma HookCheckSameKeys(h: Option<ProjectHook>, t: Table, u: Table)
    requires Keys(t) == Keys(u)
    ensures HookCheck(h, t) == HookCheck(h, u)
  {
    if h.Some? && h.value.ScriptArray? {
      CheckNamesSameKeys(h.value.names, t, u);
    }
  }

  /** `from_str`: read the document, back-fill the script names, then
      validate the hook against the table. */
  function Load(doc: Document): (r: Result<Loaded, ProjectError>)
    ensures r == Err(ParseFailed) <==> Deserialize(doc).None?
    ensures r.Ok? <==> Deserialize(doc).Some? && HookCheck(Deserialize(doc).value.hook, Deserialize(doc).value.scripts).Ok?
    ensures r.Ok? ==> UniqueKeys(r.value.scripts) && HookCheck(r.value.hook, r.value.scripts).Ok?
    ensures r.Ok? ==> doc.name.Some? && doc.name.value.Str? && r.value.name == ProjectName(doc.name.value.s)
    ensures r.Ok? ==> r.value.hook == if doc.hook.Some? then Decode(doc.hook.value) else None
    ensures r.Ok? ==> var pairs := if doc.scripts.Some? then doc.scripts.value else [];
      && |r.value.scripts| == |pairs|
      && forall i :: 0 <= i < |pairs| ==>
           pairs[i].1.Str? && r.value.scripts[i] == Entry(ScriptName(pairs[i].0), Script(Command(pairs[i].1.s), ScriptName(pairs[i].0)))
  {
    match Deserialize(doc)
    case None => Err(ParseFailed)
    case Some(l) =>
      var t := Populated(l.scripts);
      assert Keys(t) == Keys(l.scripts);
      HookCheckSameKeys(l.hook, l.scripts, t);
      match HookCheck(l.hook, t)
      case Ok(_) => Ok(l.(scripts := t))
      case Err(e) => Err(HookRejected(e))
      case Panic => Panic
  }

  /** After the names are back-filled, a list hook of well-formed names
      that names a script the table lacks still fails the check. */
  lemma DanglingHookFails(ns: seq<ScriptName>, scripts: Table, i: nat)
    requires forall j :: 0 <= j < |ns| ==> NameRule(ns[j].text)
    requires i < |ns| && ns[i] !in Keys(scripts)
    ensures CheckNames(ns, Populated(scripts)).Err?
  {
    var t := Populated(scripts);
    assert Keys(t) == Keys(scripts);
    WellFormedHookCheck(ns, t);
  }

  /** A loaded list hook that names a script the table lacks is rejected. */
  lemma LoadRejectsDanglingHook(doc: Document, l: Loaded, i: nat)
    requires Deserialize(doc) == Some(l) && l.hook.Some? && l.hook.value.ScriptArray?
    requires forall j :: 0 <= j < |l.hook.value.names| ==> NameRule(l.hook.value.names[j].text)
    requires i < |l.hook.value.names| && l.hook.value.names[i] !in Keys(l.scripts)
    ensures Load(doc).Err? && Load(doc).error.HookRejected?
  {
    DanglingHookFails(l.hook.value.names, l.scripts, i);
    LoadHookError(doc, l, CheckNames(l.hook.value.names, Populated(l.scripts)).error);
  }

  /** A file with a one-name list hook and no scripts is rejected, naming
      the missing script (the test at src/project.rs:330-340 uses `hello`,
      which passes the rule). */
  lemma LoadRejectsUnknownName(name: string, n: string)
    requires NameRule(n)
    ensures Load(Document(Some(Str(name)), Some(Array([Str(n)])), None))
      == Err(HookRejected(InvalidHook(ScriptName(n))))
  {
    var l := Loaded(ProjectName(name), Some(ScriptArray([ScriptName(n)])), []);
    DeserializeOneNameHook(name, n);
    assert HookCheck(l.hook, Populated(l.scripts)) == Err(InvalidHook(ScriptName(n))) by {
      assert Populated([]) == [];
      NameCheckIsNameRule(n);
    }
    LoadHookError(Document(Some(Str(name)), Some(Array([Str(n)])), None), l, InvalidHook(ScriptName(n)));
  }

  /** A read document whose hook fails the check is rejected with that
      failure. */
  lemma LoadHookError(doc: Document, l: Loaded, e: ProjectError)
    requires Deserialize(doc) == Some(l) && HookCheck(l.hook, Populated(l.scripts)) == Err(e)
    ensures Load(doc) == Err(HookRejected(e))
  {
  }

  lemma DeserializeOneNameHook(name: string, n: string)
    ensures Deserialize(Document(Some(Str(name)), Some(Array([Str(n)])), None))
      == Some(Loaded(ProjectName(name), Some(ScriptArray([ScriptName(n)])), []))
  {
    assert Decode(Array([Str(n)])) == Some(ScriptArray([ScriptName(n)])) by {
      DecodeShapes(n, [n]);
      assert StrValues([n]) == [Str(n)];
      assert ScriptNames([n]) == [ScriptName(n)];
    }
    assert ReadScripts([]) == Some([]);
  }


  /** A document with a string name, no hook and a table of distinct
      string-valued keys reads to that table, in file order. */
  lemma DeserializeTable(name: string, pairs: seq<(string, string)>)
    requires forall i, j :: 0 <= i < j < |pairs| ==> pairs[i].0 != pairs[j].0
    ensures var d := Deserialize(Document(Some(Str(name)), None, Some(StrPairs(pairs))));
      && d.Some? && d.value.name == ProjectName(name) && d.value.hook == None
      && |d.value.scripts| == |pairs|
      && forall i :: 0 <= i < |pairs| ==>
           d.value.scripts[i] == Entry(ScriptName(pairs[i].0), Script(Command(pairs[i].1), DefaultScriptName()))
  {
  }

  function StrPairs(pairs: seq<(string, string)>): (vs: seq<(string, Value)>)
    ensures |vs| == |pairs| && forall i :: 0 <= i < |pairs| ==> vs[i] == (pairs[i].0, Str(pairs[i].1))
  {
    seq(|pairs|, i requires 0 <= i < |pairs| => (pairs[i].0, Str(pairs[i].1)))
  }

  /** The table a list of (key, command) pairs gives when each pair is
      added in turn with `add_script`, each script named after its key. */
  function TableOf(pairs: seq<(string, string)>): (t: Table)
    ensures |t| == |pairs|
  {
    seq(|pairs|, i requires 0 <= i < |pairs| =>
      Entry(ScriptName(pairs[i].0), NewScript(ScriptName(pairs[i].0), Command(pairs[i].1))))
  }

  /** A file with a name and a table of distinct keys and no hook loads to
      the project that `new` followed by `add_script` per entry builds (the
      test at src/project.rs:343-361 is the one-entry case). */
  lemma LoadTable(name: string, pairs: seq<(string, string)>)
    requires forall i, j :: 0 <= i < j < |pairs| ==> pairs[i].0 != pairs[j].0
    ensures Load(Document(Some(Str(name)), None, Some(StrPairs(pairs))))
      == Ok(Loaded(ProjectName(name), None, TableOf(pairs)))
  {
    DeserializeTable(name, pairs);
    var d := Deserialize(Document(Some(Str(name)), None, Some(StrPairs(pairs)))).value;
    assert Populated(d.scripts) == TableOf(pairs);
  }

  /** A file's command is taken as written: a blank one stays blank and does
      not become the greeting `Command::parse` would give. */
  lemma LoadKeepsBlankCommand()
    ensures Load(Document(Some(Str("p")), None, Some([("a", Str(""))]))).Ok?
    ensures Load(Document(Some(Str("p")), None, Some([("a", Str(""))]))).value.scripts[0].script.command == Command("")
    ensures ParseCommand("").text != ""
  {
  }

  /** `"` and `\` escaped, as in a basic string of the file format. */
  function Escape(s: string): (r: string)
    ensures |r| >= |s|
  {
    if s == [] then ""
    else (if s[0] == '"' || s[0] == '\\' then ['\\', s[0]] else [s[0]]) + Escape(s[1..])
  }

  function Quoted(s: string): string
  {
    "\"" + Escape(s) + "\""
  }

  /** A key written bare: letters, digits, `_` and `-` only. */
  predicate IsBareKey(s: string)
  {
    s != [] && forall i :: 0 <= i < |s| ==>
      ('a' <= s[i] <= 'z') || ('A' <= s[i] <= 'Z') || ('0' <= s[i] <= '9') || s[i] == '_' || s[i] == '-'
  }

  function KeyText(s: string): string
  {
    if IsBareKey(s) then s else Quoted(s)
  }

  function QuotedNames(ns: seq<ScriptName>): (qs: seq<string>)
    ensures |qs| == |ns|
  {
    seq(|ns|, i requires 0 <= i < |ns| => Quoted(ns[i].text))
  }

  function HookLine(h: Option<ProjectHook>): string
  {
    match h
    case None => ""
    case Some(Simple(c)) => "hook = " + Quoted(c) + "\n"
    case Some(ScriptArray(ns)) => "hook = [" + Join(QuotedNames(ns), ", ") + "]\n"
  }

  function ScriptLines(t: Table): string
  {
    if t == [] then ""
    else KeyText(t[0].key.text) + " = " + Quoted(t[0].script.command.text) + "\n" + ScriptLines(t[1..])
  }

  /** `to_string` on a project: the name, the hook when there is one, and
      the `[scripts]` table only when it is not empty. */
  function Render(name: ProjectName, h: Option<ProjectHook>, t: Table): string
  {
    "name = " + Quoted(name.text) + "\n" + HookLine(h)
      + (if t == [] then "" else "\n[scripts]\n" + ScriptLines(t))
  }

  /** Removing the last script leaves only the name line (the last step of
      the test at src/project.rs:364-398). */
  lemma RenderAfterLastRemoval(name: ProjectName, k: ScriptName, s: Script)
    ensures Render(name, None, ShiftRemove([Entry(k, s)], k)) == "name = " + Quoted(name.text) + "\n"
  {
  }

  /** A table is written under a `[scripts]` header after a blank line,
      one `key = "command"` line per script (the middle step of the same
      test). */
  lemma RenderOneScript(name: ProjectName, k: ScriptName, s: Script)
    requires IsBareKey(k.text)
    ensures Render(name, None, [Entry(k, s)])
      == "name = " + Quoted(name.text) + "\n" + "\n[scripts]\n" + k.text + " = " + Quoted(s.command.text) + "\n"
  {
    assert [Entry(k, s)][1..] == [];
    assert KeyText(k.text) == k.text;
    assert ScriptLines([Entry(k, s)]) == k.text + " = " + Quoted(s.command.text) + "\n" + "";
  }

  /** A quote or a backslash is written with a backslash before it. */
  lemma EscapeSpecial(a: string, c: char, b: string)
    requires c == '"' || c == '\\'
    ensures Escape(a + [c] + b) == Escape(a) + ['\\', c] + Escape(b)
  {
    assert Escape([c]) == ['\\', c] by {
      assert [c][1..] == [];
    }
    EscapeAppend(a, [c] + b);
    EscapeAppend([c], b);
    assert a + [c] + b == a + ([c] + b);
  }

  lemma {:induction false} EscapeAppend(a: string, b: string)
    ensures Escape(a + b) == Escape(a) + Escape(b)
  {
    if a == [] {
      assert a + b == b;
    } else {
      assert (a + b)[1..] == a[1..] + b;
      EscapeAppend(a[1..], b);
    }
  }

  /** Text without `"` and `\` is written unchanged. */
  lemma {:induction false} EscapePlain(s: string)
    requires forall i :: 0 <= i < |s| ==> s[i] != '"' && s[i] != '\\'
    ensures Escape(s) == s
  {
    if s != [] {
      EscapePlain(s[1..]);
    }
  }

  /** A project in memory. `path` is where it was read from; it is never written. */
  class Project {
    var name: ProjectName
    var path: Option<string>
    var hook: Option<ProjectHook>
    var scripts: Table

    ghost predicate Valid()
      reads this
    {
      UniqueKeys(scripts)
    }

    /** `Project::new`: no scripts and no hook. */
    constructor (name: ProjectName, path: Option<string>)
      ensures Valid()
      ensures this.name == name && this.path == path
      ensures scripts == [] && hook == None
    {
      this.name := name;
      this.path := path;
      scripts := [];
      hook := None;
    }

    /** `populate_names`: each script takes its table key as its name. */
    method PopulateNames()
      requires Valid()
      modifies this
      ensures Valid()
      ensures scripts == Populated(old(scripts))
      ensures name == old(name) && path == old(path) && hook == old(hook)
    {
      var i := 0;
      while i < |scripts|
        invariant 0 <= i <= |scripts| == |old(scripts)|
        invariant forall j :: 0 <= j < i ==> scripts[j] == Populated(old(scripts))[j]
        invariant forall j :: i <= j < |scripts| ==> scripts[j] == old(scripts)[j]
        invariant name == old(name) && path == old(path) && hook == old(hook)
      {
        var e := scripts[i];
        scripts := scripts[i := Entry(e.key, SetName(e.script, e.key))];
        i := i + 1;
      }
    }

    /** `get_script`: the script under `k`, if any. */
    function GetScript(k: ScriptName): (r: Option<Script>)
      reads this
      ensures r.Some? <==> k in Keys(scripts)
      ensures r.Some? ==> exists i :: 0 <= i < |scripts| && scripts[i] == Entry(k, r.value)
    {
      if k in Keys(scripts) then Some(Lookup(scripts, k)) else None
    }

    /** `remove_script`: an absent key is an error; otherwise its entry goes
      and the other entries keep their order. The hook is not touched. */
    method RemoveScript(k: ScriptName) returns (r: Result<(), ProjectError>)
      requires Valid()
      modifies this
      ensures Valid()
      ensures k in Keys(old(scripts)) ==> r == Ok(()) && scripts == ShiftRemove(old(scripts), k)
      ensures k !in Keys(old(scripts)) ==> r == Err(ScriptNotFound(k)) && scripts == old(scripts)
      ensures name == old(name) && path == old(path) && hook == old(hook)
    {
      if k in Keys(scripts) {
        ShiftRemoveSpec(scripts, k);
        scripts := ShiftRemove(scripts, k);
        r := Ok(());
      } else {
        r := Err(ScriptNotFound(k));
      }
    }

    /** `add_script`: a taken key is an error and nothing changes; otherwise
      the pair goes at the end of the table. */
    method AddScript(k: ScriptName, s: Script) returns (r: Result<(), ProjectError>)
      requires Valid()
      modifies this
      ensures Valid()
      ensures k in Keys(old(scripts)) ==> r == Err(ScriptExists(k)) && scripts == old(scripts)
      ensures k !in Keys(old(scripts)) ==> r == Ok(()) && scripts == old(scripts) + [Entry(k, s)]
      ensures name == old(name) && path == old(path) && hook == old(hook)
    {
      if k in Keys(scripts) {
        return Err(ScriptExists(k));
      }
      AppendSpec(scripts, k, s);
      scripts := scripts + [Entry(k, s)];
      r := Ok(());
    }

    /** `validate_hook`: walks the listed names in order and stops at the
      first one that aborts the name parse or is not a key. */
    method ValidateHook(h: Option<ProjectHook>) returns (r: Result<(), ProjectError>)
      ensures r == HookCheck(h, scripts)
    {
      match h {
        case None =>
          r := Ok(());
        case Some(Simple(c)) =>
          var _ := ParseCommand(c);
          r := Ok(());
        case Some(ScriptArray(hs)) =>
          var i := 0;
          while i < |hs|
            invariant 0 <= i <= |hs|
            invariant CheckNames(hs, scripts) == CheckNames(hs[i..], scripts)
          {
            assert hs[i..][1..] == hs[i + 1..];
            var parsed := ParseScriptName(hs[i].text);
            NameCheckIsNameRule(hs[i].text);
            if parsed.Aborted? {
              return Panic;
            }
            if parsed.value !in Keys(scripts) {
              return Err(InvalidHook(hs[i]));
            }
            i := i + 1;
          }
          r := Ok(());
      }
    }

    /** `get_hook_cmd` on the stored hook. */
    function GetHookCmd(): Outcome<Option<string>>
      reads this
    {
      HookCommand(hook, scripts)
    }

    /** `set_hook`: validate, then store and return the hook's command; a
      hook that does not validate is returned as the error and the stored
      hook stays as it was. */
    method SetHook(h: Option<ProjectHook>) returns (r: Result<Option<string>, ProjectError>)
      requires Valid()
      modifies this
      ensures Valid()
      ensures scripts == old(scripts) && name == old(name) && path == old(path)
      ensures HookCheck(h, scripts).Ok? ==> hook == h && GetHookCmd().Returned? && r == Ok(GetHookCmd().value)
      ensures HookCheck(h, scripts).Err? ==> hook == old(hook) && r == Err(HookCheck(h, scripts).error)
      ensures HookCheck(h, scripts).Panic? ==> hook == old(hook) && r == Panic
    {
      var v := ValidateHook(h);
      match v {
        case Ok(_) =>
          hook := h;
          r := Ok(GetHookCmd().value);
        case Err(e) =>
          r := Err(e);
        case Panic =>
          r := Panic;
      }
    }
  }

  /** `from_str` on a read document: a fresh project with no path whose
      fields are what `Load` gives; the names are back-filled before the hook
      is validated. */
  method FromStr(doc: Document) returns (r: Result<Project, ProjectError>)
    ensures r.Ok? <==> Load(doc).Ok?
    ensures r.Ok? ==> fresh(r.value) && r.value.Valid() && r.value.path == None
    ensures r.Ok? ==> Loaded(r.value.name, r.value.hook, r.value.scripts) == Load(doc).value
    ensures r.Err? ==> Load(doc).Err? && r.error == Load(doc).error
    ensures r.Panic? <==> Load(doc).Panic?
  {
    var read := Deserialize(doc);
    if read.None? {
      return Err(ParseFailed);
    }
    var p := new Project(read.value.name, None);
    p.hook := read.value.hook;
    p.scripts := read.value.scripts;
    p.PopulateNames();
    var v := p.ValidateHook(p.hook);
    match v {
      case Ok(_) =>
        r := Ok(p);
      case Err(e) =>
        r := Err(HookRejected(e));
      case Panic =>
        r := Panic;
    }
  }
}
