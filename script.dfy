/** Validated script names, shell commands and the script pair
    (src/script.rs). */
module Scripts {
  import opened Wrappers
  import opened Text

  /** The characters a name may not contain. */
  const ForbiddenChars: set<char> := {'/', '(', ')', '"', '\'', '<', '>', '\\', '{', '}'}

  /** The most bytes a name may have. */
  const MaxNameBytes: nat := 20

  /** The command a blank input is replaced with. */
  const DefaultCommandText: string := "echo 'Krabby says hi!'"

  /** A script name. The wrapper itself does not enforce the name rule:
      a name read from a file is taken over without any check. */
  datatype ScriptName = ScriptName(text: string)

  /** A shell command line, never parsed further. */
  datatype Command = Command(text: string)

  /** A command together with the alias it is stored under. */
  datatype Script = Script(command: Command, name: ScriptName)

  /** Some character of s is one of the forbidden characters. */
  function AnyForbidden(s: string): (b: bool)
  {
    s != [] && (s[0] in ForbiddenChars || AnyForbidden(s[1..]))
  }

  lemma {:induction false} AnyForbiddenIff(s: string)
    ensures AnyForbidden(s) <==> exists i :: 0 <= i < |s| && s[i] in ForbiddenChars
  {
    if s != [] {
      AnyForbiddenIff(s[1..]);
      if AnyForbidden(s[1..]) {
        var i :| 0 <= i < |s[1..]| && s[1..][i] in ForbiddenChars;
        assert s[i + 1] in ForbiddenChars;
      }
      if s[0] !in ForbiddenChars && exists i :: 0 <= i < |s| && s[i] in ForbiddenChars {
        var i :| 0 <= i < |s| && s[i] in ForbiddenChars;
        assert s[1..][i - 1] in ForbiddenChars;
      }
    }
  }

  /** The check the parse functions perform, in the source's own terms:
      not empty after `trim`, at most 20 bytes, no forbidden character. */
  predicate PassesNameCheck(s: string)
  {
    var isEmpty := Trim(s) == [];
    var isTooLong := Utf8Len(s) > MaxNameBytes;
    var containsForbidden := AnyForbidden(s);
    !(isEmpty || isTooLong || containsForbidden)
  }

  /** The name rule stated directly: some character is not white space,
      the UTF-8 encoding has at most 20 bytes, and no character is forbidden. */
  ghost predicate NameRule(s: string)
  {
    && (exists i :: 0 <= i < |s| && !IsWhitespace(s[i]))
    && Utf8Len(s) <= MaxNameBytes
    && (forall i :: 0 <= i < |s| ==> s[i] !in ForbiddenChars)
  }

  lemma NameCheckIsNameRule(s: string)
    ensures PassesNameCheck(s) <==> NameRule(s)
  {
    TrimEmptyIffBlank(s);
    AnyForbiddenIff(s);
  }

  /** `ScriptName::parse`: accepts exactly the strings that satisfy the name
      rule and stores them unchanged; every other string aborts. */
  function ParseScriptName(s: string): (r: Outcome<ScriptName>)
    ensures r.Returned? <==> NameRule(s)
    ensures r.Returned? ==> r.value.text == s && NameText(r.value) == s
  {
    NameCheckIsNameRule(s);
    if PassesNameCheck(s) then Returned(ScriptName(s)) else Aborted
  }

  /** `Display for ScriptName`. */
  function NameText(n: ScriptName): string
  {
    n.text
  }

  /** `Command::parse`: never fails; blank input becomes the greeting,
      anything else is kept verbatim. */
  function ParseCommand(s: string): (c: Command)
    ensures IsBlank(s) ==> c.text == DefaultCommandText
    ensures !IsBlank(s) ==> c.text == s
  {
    TrimEmptyIffBlank(s);
    if Trim(s) == [] then Command(DefaultCommandText) else Command(s)
  }

  /** `Display for Command`. */
  function CommandText(c: Command): string
  {
    c.text
  }

  lemma DefaultCommandIsNotBlank()
    ensures !IsBlank(DefaultCommandText)
  {
    assert !IsWhitespace(DefaultCommandText[0]);
  }

  /** Parsing a parsed command changes nothing more. */
  lemma ParseCommandIdempotent(s: string)
    ensures ParseCommand(ParseCommand(s).text) == ParseCommand(s)
  {
    DefaultCommandIsNotBlank();
  }

  /** The empty input gives the greeting (the test at src/script.rs:132-136). */
  lemma EmptyCommandGreets()
    ensures ParseCommand("") == Command(DefaultCommandText)
  {
    assert IsBlank("");
  }

  /** Short names of lower-case letters pass the rule. */
  lemma LowerCaseNamesAccepted(s: string)
    requires 1 <= |s| <= MaxNameBytes
    requires forall i :: 0 <= i < |s| ==> 'a' <= s[i] <= 'z'
    ensures NameRule(s)
  {
    assert !IsWhitespace(s[0]);
    Utf8LenBounds(s);
  }

  lemma HelloIsAName()
    ensures NameRule("hello")
  {
    LowerCaseNamesAccepted("hello");
  }

  /** `Default for ScriptName`: the parsed name `hello`, which passes the rule. */
  function DefaultScriptName(): ScriptName
  {
    ScriptName("hello")
  }

  /** The default is what parsing `hello` gives, so it satisfies the rule. */
  lemma DefaultIsParsedHello()
    ensures ParseScriptName("hello") == Returned(DefaultScriptName())
    ensures NameRule(DefaultScriptName().text)
  {
    HelloIsAName();
  }

  /** `Script::new`. */
  function NewScript(name: ScriptName, command: Command): (s: Script)
    ensures s.name == name && s.command == command
  {
    Script(command, name)
  }

  /** `Script::set_name`: rebind the name, keep the command. */
  function SetName(s: Script, name: ScriptName): (r: Script)
    ensures r.name == name && r.command == s.command
  {
    s.(name := name)
  }

  /** `Display for Script`: only the command text. */
  function ScriptText(s: Script): string
  {
    CommandText(s.command)
  }

  /** `Script::echo`: the command text (it is also printed). */
  function Echo(s: Script): string
  {
    CommandText(s.command)
  }

  /** The rendered script is its command and never depends on the name. */
  lemma ScriptTextIsCommand(n: ScriptName, m: ScriptName, c: Command)
    ensures ScriptText(NewScript(n, c)) == c.text
    ensures Echo(NewScript(n, c)) == ScriptText(NewScript(n, c))
    ensures ScriptText(SetName(NewScript(n, c), m)) == ScriptText(NewScript(n, c))
  {
  }

  /** Renaming replaces only the name: the last name given wins. */
  lemma SetNameLastWins(s: Script, a: ScriptName, b: ScriptName)
    ensures SetName(SetName(s, a), b) == SetName(s, b)
    ensures SetName(NewScript(a, s.command), b) == NewScript(b, s.command)
  {
  }

  /** A blank name is rejected, the empty one included (the tests at
      src/script.rs:86-96). */
  lemma BlankNameRejected(s: string)
    requires IsBlank(s)
    ensures ParseScriptName(s).Aborted?
  {
  }

  /** A name of more than 20 characters is rejected: it has more than 20
      bytes (the test at src/script.rs:98-102 uses 25). */
  lemma LongNameRejected(s: string)
    requires |s| > MaxNameBytes
    ensures ParseScriptName(s).Aborted?
  {
    Utf8LenBounds(s);
  }

  /** A name holding any forbidden character is rejected wherever the
      character stands (src/script.rs:104-130). */
  lemma ForbiddenCharRejected(pre: string, c: char, post: string)
    requires c in ForbiddenChars
    ensures ParseScriptName(pre + [c] + post).Aborted?
  {
    assert (pre + [c] + post)[|pre|] == c;
  }

  /** The length limit counts bytes, not characters: eleven copies of the
      two-byte character U+00E9 are rejected although they are only eleven
      characters long. */
  lemma LimitCountsBytes()
    ensures ParseScriptName(seq(11, _ => '\U{E9}')).Aborted?
  {
    Utf8LenBounds(seq(11, _ => '\U{E9}'));
  }
}
