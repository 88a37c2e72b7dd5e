/**
 * The fixed preset table of `set_preset` and the preset names the `preset` sub-command
 * offers as its argparse `choices`.
 */
module Presets {
  import opened Wrappers
  import Normalize

  /** The brightness and contrast a preset writes. */
  datatype Preset = Preset(brightness: int, contrast: int)

  /** The table in the order the dictionary lists its keys. */
  const Table: seq<(string, Preset)> := [
    ("bright", Preset(90, 75)),
    ("normal", Preset(50, 50)),
    ("dim", Preset(20, 40)),
    ("night", Preset(15, 30)),
    ("gaming", Preset(70, 80)),
    ("reading", Preset(40, 60)),
    ("set-30", Preset(30, 30)),
    ("set-40", Preset(40, 40)),
    ("set-75", Preset(75, 75))
  ]

  /** The `choices` of the `preset` sub-command's `name` argument. */
  const ParserChoices: seq<string> :=
    ["bright", "normal", "dim", "night", "gaming", "reading", "set-30", "set-40", "set-75"]

  /** The keys of a table, in order. */
  function Names(t: seq<(string, Preset)>): (names: seq<string>)
    ensures |names| == |t|
    ensures forall j :: 0 <= j < |t| ==> names[j] == t[j].0
  {
    if t == [] then [] else [t[0].0] + Names(t[1..])
  }

  /** Dictionary lookup: the preset stored under `name`, if the table has that key. */
  function Find(t: seq<(string, Preset)>, name: string): Option<Preset>
  {
    if t == [] then None
    else if t[0].0 == name then Some(t[0].1)
    else Find(t[1..], name)
  }

  /**
   * Lookup finds a preset exactly when the name is a key, and then the one stored with the
   * first occurrence of that key.
   */
  lemma {:induction false} FindSpec(t: seq<(string, Preset)>, name: string)
    ensures Find(t, name).Some? <==> name in Names(t)
    ensures Find(t, name).Some? ==>
              exists j :: 0 <= j < |t| && t[j] == (name, Find(t, name).value) &&
                          forall i :: 0 <= i < j ==> t[i].0 != name
  {
    if t != [] {
      assert Names(t) == [t[0].0] + Names(t[1..]);
      if t[0].0 != name {
        FindSpec(t[1..], name);
        var r := Find(t[1..], name);
        if r.Some? {
          var j :| 0 <= j < |t[1..]| && t[1..][j] == (name, r.value) &&
                   forall i :: 0 <= i < j ==> t[1..][i].0 != name;
          assert t[j + 1] == (name, r.value);
          forall i | 0 <= i < j + 1 ensures t[i].0 != name {
            if i > 0 { assert t[i] == t[1..][i - 1]; }
          }
        }
      } else {
        assert t[0] == (name, Find(t, name).value);
      }
    }
  }

  /** `presets[preset_name]` when `preset_name in presets`, otherwise `None`. */
  function Lookup(name: string): (r: Option<Preset>)
    ensures r.Some? ==> Normalize.MinLevel <= r.value.brightness <= Normalize.MaxLevel
    ensures r.Some? ==> Normalize.MinLevel <= r.value.contrast <= Normalize.MaxLevel
  {
    TableShape();
    FindSpec(Table, name);
    Find(Table, name)
  }

  /** The names `set_preset` knows are exactly the names the parser offers. */
  lemma LookupKnown(name: string)
    ensures Lookup(name).Some? <==> name in ParserChoices
  {
    TableShape();
    FindSpec(Table, name);
  }

  /** No key is listed twice. */
  predicate Distinct(names: seq<string>)
  {
    forall i, j :: 0 <= i < j < |names| ==> names[i] != names[j]
  }

  /** The parser's choices name no preset twice: any two differ in first letter, length or digits. */
  lemma ChoicesDistinct()
    ensures Distinct(ParserChoices)
  {
    forall i, j | 0 <= i < j < |ParserChoices| ensures ParserChoices[i] != ParserChoices[j] {
      var a, b := ParserChoices[i], ParserChoices[j];
      assert a[0] != b[0] || |a| != |b| || a[4] != b[4] || a[5] != b[5];
    }
  }

  /**
   * The table has nine distinct keys, exactly the parser's choices in the same order, and
   * every value it writes is a percentage, so the clamp on the write leaves it alone.
   */
  lemma TableShape()
    ensures |Table| == 9
    ensures Names(Table) == ParserChoices
    ensures Distinct(Names(Table))
    ensures forall j :: 0 <= j < |Table| ==>
              Normalize.ClampLevel(Table[j].1.brightness) == Table[j].1.brightness &&
              Normalize.ClampLevel(Table[j].1.contrast) == Table[j].1.contrast
  {
    var names := Names(Table);
    assert |names| == |ParserChoices|;
    forall j | 0 <= j < |names| ensures names[j] == ParserChoices[j] {
      assert names[j] == Table[j].0;
    }
    ChoicesDistinct();
  }

  /** With distinct keys, looking up the key of any entry finds that entry's preset. */
  lemma {:induction false} FindEntry(t: seq<(string, Preset)>, j: nat)
    requires Distinct(Names(t)) && j < |t|
    ensures Find(t, t[j].0) == Some(t[j].1)
  {
    var names := Names(t);
    assert names[j] == t[j].0;
    FindSpec(t, t[j].0);
    var r := Find(t, t[j].0);
    var k :| 0 <= k < |t| && t[k] == (t[j].0, r.value);
    assert names[k] == names[j];
  }

  /** "reading" is brightness 40, contrast 60, and "bright" is brightness 90, contrast 75. */
  lemma LookupExamples()
    ensures Lookup("reading") == Some(Preset(40, 60))
    ensures Lookup("bright") == Some(Preset(90, 75))
  {
    TableShape();
    FindEntry(Table, 5);
    assert Table[5].0 == "reading";
    FindEntry(Table, 0);
    assert Table[0].0 == "bright";
  }

  /** A name outside the table, such as "ultra", is unknown. */
  lemma LookupUnknown()
    ensures Lookup("ultra") == None
  {
    LookupKnown("ultra");
  }
}
