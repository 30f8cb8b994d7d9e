/** The project hook and its untagged encoding (src/hook.rs). */
module Hooks {
  import opened Wrappers
  import opened Scripts

  /** Either an ordered list of script names to run one after another,
      or one literal command. */
  datatype ProjectHook = ScriptArray(names: seq<ScriptName>) | Simple(command: string)

  /** The shape of a value in the structured text format, as far as a hook
      field can hold one. */
  datatype Value = Str(s: string) | Int(i: int) | Bool(b: bool) | Array(items: seq<Value>)

  function StrValues(ss: seq<string>): (vs: seq<Value>)
    ensures |vs| == |ss| && forall i :: 0 <= i < |ss| ==> vs[i] == Str(ss[i])
  {
    seq(|ss|, i requires 0 <= i < |ss| => Str(ss[i]))
  }

  function Texts(ns: seq<ScriptName>): (ss: seq<string>)
    ensures |ss| == |ns| && forall i :: 0 <= i < |ns| ==> ss[i] == ns[i].text
  {
    seq(|ns|, i requires 0 <= i < |ns| => ns[i].text)
  }

  /** Untagged encoding: a bare array of strings or a bare string. */
  function Encode(h: ProjectHook): Value
  {
    match h
    case ScriptArray(ns) => Array(StrValues(Texts(ns)))
    case Simple(c) => Str(c)
  }

  /** `Vec<ScriptName>` read transparently: every item must be a string,
      and no name rule is applied. */
  function DecodeNames(items: seq<Value>): Option<seq<ScriptName>>
  {
    if items == [] then Some([])
    else if !items[0].Str? then None
    else match DecodeNames(items[1..])
      case None => None
      case Some(rest) => Some([ScriptName(items[0].s)] + rest)
  }

  /** Untagged decoding: try `ScriptArray` first, then `Simple`. */
  function Decode(v: Value): Option<ProjectHook>
  {
    if v.Array? && DecodeNames(v.items).Some? then Some(ScriptArray(DecodeNames(v.items).value))
    else if v.Str? then Some(Simple(v.s))
    else None
  }

  /** An array of strings decodes to the names in the same order; anything
      else in an array makes the array undecodable as names. */
  lemma {:induction false} DecodeNamesSpec(items: seq<Value>)
    ensures DecodeNames(items).Some? <==> forall i :: 0 <= i < |items| ==> items[i].Str?
    ensures DecodeNames(items).Some? ==>
      |DecodeNames(items).value| == |items| &&
      forall i :: 0 <= i < |items| ==> DecodeNames(items).value[i] == ScriptName(items[i].s)
  {
    if items != [] {
      DecodeNamesSpec(items[1..]);
      assert forall i :: 1 <= i < |items| ==> items[1..][i - 1] == items[i];
    }
  }

  /** Decoding what was encoded gives the hook back. */
  lemma DecodeEncode(h: ProjectHook)
    ensures Decode(Encode(h)) == Some(h)
  {
    if h.ScriptArray? {
      var items := Encode(h).items;
      DecodeNamesSpec(items);
      assert DecodeNames(items).value == h.names;
    }
  }

  /** Encoding what was decoded gives the value back: the two shapes a hook
      field can take are exactly the images of the two variants. */
  lemma EncodeDecode(v: Value)
    requires Decode(v).Some?
    ensures Encode(Decode(v).value) == v
  {
    if v.Array? && DecodeNames(v.items).Some? {
      DecodeNamesSpec(v.items);
      assert Encode(Decode(v).value).items == v.items;
    }
  }

  /** A bare string is a `Simple` hook, verbatim; an array of strings is a
      `ScriptArray` in the same order (the files the tests at
      src/project.rs:277-318 read). */
  lemma DecodeShapes(s: string, ss: seq<string>)
    ensures Decode(Str(s)) == Some(Simple(s))
    ensures Decode(Array(StrValues(ss))) == Some(ScriptArray(ScriptNames(ss)))
  {
    DecodeNamesSpec(StrValues(ss));
    assert DecodeNames(StrValues(ss)).value == ScriptNames(ss);
  }

  function ScriptNames(ss: seq<string>): (ns: seq<ScriptName>)
    ensures |ns| == |ss| && forall i :: 0 <= i < |ss| ==> ns[i] == ScriptName(ss[i])
  {
    seq(|ss|, i requires 0 <= i < |ss| => ScriptName(ss[i]))
  }

  /** Names inside a decoded array are not held to the name rule. */
  lemma DecodedNamesAreUnchecked()
    ensures Decode(Array([Str("")])) == Some(ScriptArray([ScriptName("")]))
    ensures !NameRule("")
  {
    DecodeShapes("", [""]);
    assert StrValues([""]) == [Str("")];
    assert ScriptNames([""]) == [ScriptName("")];
  }
}
