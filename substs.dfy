/** `get_substs`: the substitution context handed to the design template for one
    trial, and the per-call context functions built from it. */
module Substs {
  import opened Results
  import opened Text
  import opened Primitives

  /** One `k=v` entry of the settings dictionary; a dictionary is kept as its
      entries in insertion order, which is the order Python joins them in. */
  type Setting = (string, string)

  function SettingText(kv: Setting): string
  {
    kv.0 + "=" + kv.1
  }

  /** `",".join(["{}={}".format(k, v) for k, v in settings.items()])` */
  function SettingsString(settings: seq<Setting>): string
  {
    Join(seq(|settings|, i requires 0 <= i < |settings| => SettingText(settings[i])), ',')
  }

  /** The reading of one `k=v` entry: the key ends at the first `=`. */
  function ParseSetting(item: string): Setting
  {
    if '=' in item then
      var i := IndexOf(item, '=');
      (item[..i], item[i + 1..])
    else
      (item, "")
  }

  /** The reading of a settings string back into its entries. */
  function ParseSettings(s: string): seq<Setting>
  {
    if s == "" then []
    else
      var items := Split(s, ',');
      seq(|items|, i requires 0 <= i < |items| => ParseSetting(items[i]))
  }

  /** Keys free of `,` and `=`, values free of `,`: the entries can be read back. */
  predicate Separable(settings: seq<Setting>)
  {
    forall i :: 0 <= i < |settings| ==>
      ',' !in settings[i].0 && '=' !in settings[i].0 && ',' !in settings[i].1
  }

  lemma ParseSettingText(kv: Setting)
    requires '=' !in kv.0
    ensures ParseSetting(SettingText(kv)) == kv
  {
    IndexOfFirst(kv.0, '=', kv.1);
    assert SettingText(kv) == kv.0 + ['='] + kv.1;
    assert SettingText(kv)[..|kv.0|] == kv.0;
    assert SettingText(kv)[|kv.0| + 1..] == kv.1;
  }

  /** The settings string loses nothing: it reads back as the entries it was
      built from, so distinct settings give distinct strings. */
  lemma SettingsRoundTrip(settings: seq<Setting>)
    requires Separable(settings)
    ensures ParseSettings(SettingsString(settings)) == settings
  {
    var items := seq(|settings|, i requires 0 <= i < |settings| => SettingText(settings[i]));
    if |settings| > 0 {
      forall i | 0 <= i < |items|
        ensures ',' !in items[i]
      {
        assert items[i] == settings[i].0 + ['='] + settings[i].1;
      }
      assert SettingsString(settings) != "" by {
        if |items| == 1 {
          assert SettingsString(settings) == items[0];
        } else {
          assert SettingsString(settings) == items[0] + [','] + Join(items[1..], ',');
        }
        assert |items[0]| > 0;
      }
      SplitJoin(items, ',');
      forall i | 0 <= i < |settings|
        ensures ParseSetting(items[i]) == settings[i]
      {
        ParseSettingText(settings[i]);
      }
    }
  }

  /** The keys every template takes; PRADD9's also takes `cmodel`. */
  function SubstKeys(p: Primitive): set<string>
  {
    {"loc", "mode", "settings", "comment"} + (if CModel(p).Some? then {"cmodel"} else {})
  }

  /** `get_substs(settings, mode)` inside the job placed at `loc`: the instance
      is commented out of the template exactly when its mode is "NONE". */
  function GetSubsts(p: Primitive, loc: string, settings: seq<Setting>, mode: string): (r: map<string, string>)
    ensures r.Keys == SubstKeys(p)
    ensures r["loc"] == loc && r["mode"] == mode
    ensures r["settings"] == SettingsString(settings)
    ensures r["comment"] == "//" <==> mode == "NONE"
    ensures r["comment"] == "" <==> mode != "NONE"
    ensures CModel(p).Some? ==> r["cmodel"] == CModel(p).value
  {
    var comment := if mode == "NONE" then "//" else "";
    var substs := map["loc" := loc, "mode" := mode, "settings" := SettingsString(settings), "comment" := comment];
    if CModel(p).Some? then substs["cmodel" := CModel(p).value] else substs
  }

  /** The field a context function varies: the primitive's mode itself, or one
      entry of the settings dictionary. */
  datatype Binding = SetsMode | SetsField(key: string)
  {
    /** The field name the sweep reports (without the job label). */
    function Name(): string
    {
      match this
      case SetsMode => "MODE"
      case SetsField(key) => key
    }
  }

  /** A context function `lambda x: get_substs(...)` with the field it varies
      bound as a value when the sweep is issued. */
  datatype ContextFn = ContextFn(prim: Primitive, loc: string, binding: Binding)
  {
    function Apply(x: string): map<string, string>
    {
      match binding
      case SetsMode => GetSubsts(prim, loc, [], x)
      case SetsField(key) => GetSubsts(prim, loc, [(key, x)], DefaultMode(prim))
    }
  }

  /** The context of a trial that leaves every field at its default. */
  function Nominal(p: Primitive, loc: string): map<string, string>
  {
    GetSubsts(p, loc, [], DefaultMode(p))
  }

  lemma DefaultModeActive(p: Primitive)
    ensures DefaultMode(p) != "NONE" && EnabledMode(p) != "NONE"
  {
  }

  lemma SingleSetting(key: string, x: string)
    ensures SettingsString([(key, x)]) == key + "=" + x
  {
  }

  /** A field sweep's context for `x` is the nominal context with only the
      settings string changed, to exactly `key=x`: the instance stays enabled
      and nothing else varies between candidates. */
  lemma FieldContext(p: Primitive, loc: string, key: string, x: string)
    ensures var c := ContextFn(p, loc, SetsField(key)).Apply(x);
      && c == Nominal(p, loc)["settings" := key + "=" + x]
      && c["settings"] == key + "=" + x
      && c["mode"] == DefaultMode(p)
      && c["comment"] == ""
  {
    DefaultModeActive(p);
    SingleSetting(key, x);
    var c := ContextFn(p, loc, SetsField(key)).Apply(x);
    var n := Nominal(p, loc)["settings" := key + "=" + x];
    assert c.Keys == n.Keys;
    assert forall k :: k in c ==> c[k] == n[k];
  }

  /** The mode sweep's context for `x` has empty settings and mode `x`; it is
      commented out exactly for "NONE". */
  lemma ModeContext(p: Primitive, loc: string, x: string)
    ensures var c := ContextFn(p, loc, SetsMode).Apply(x);
      && c["settings"] == ""
      && c["mode"] == x
      && (c["comment"] == "//" <==> x == "NONE")
  {
  }
}
