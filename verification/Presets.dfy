/** Materializing the active preset into the manifest
    (src/lingtai_kernel/presets.py). */
module Presets {
  import opened Wrappers

  datatype Value = List(items: seq<string>) | Data(json: string)

  type Settings = map<string, Value>

  // A capability's entry: null, a dict of kwargs, or something else.
  datatype Cap = Null | Kwargs(kwargs: Settings) | Other(json: string)

  datatype Item = Item(name: string, cap: Cap)

  // A dict of capabilities, in its own order; no name twice.
  type Caps = seq<Item>

  predicate Distinct(caps: Caps) {
    forall i, j :: 0 <= i < j < |caps| ==> caps[i].name != caps[j].name
  }

  function Find(caps: Caps, name: string): Option<Cap> {
    if caps == [] then None
    else if caps[|caps| - 1].name == name then Some(caps[|caps| - 1].cap)
    else Find(caps[..|caps| - 1], name)
  }

  // In place, or at the end.
  function Set(caps: Caps, name: string, cap: Cap): Caps {
    if caps == [] then [Item(name, cap)]
    else if caps[|caps| - 1].name == name then caps[..|caps| - 1] + [Item(name, cap)]
    else if Find(caps, name).None? then caps + [Item(name, cap)]
    else Set(caps[..|caps| - 1], name, cap) + [caps[|caps| - 1]]
  }

  // A field of a manifest that should hold such a dict.
  datatype CapsField = Missing | NotDict(json: string) | Dict(caps: Caps)

  datatype Preset = Preset(llm: Settings, caps: CapsField)

  // `llm` is empty when it is missing.
  datatype Manifest = Manifest(active: string, fallback: string, llm: Settings, caps: CapsField,
      contextLimit: Option<Value>)

  datatype Error = KeyError | ValueError

  // What loading a preset file gives.
  type Library = string -> Result<Preset, Error>

  const LIMIT := "context_limit"
  const SKILLS := "skills"
  const PATHS := "paths"

  // ----- the merge -----

  function PathsIn(cap: Option<Cap>): seq<string> {
    if cap.Some? && cap.value.Kwargs? && PATHS in cap.value.kwargs && cap.value.kwargs[PATHS].List?
    then cap.value.kwargs[PATHS].items else []
  }

  // The distinct ones, each at its first place, without those already there.
  function Extras(there: seq<string>, paths: seq<string>): seq<string> {
    if paths == [] then []
    else
      var before, p := Extras(there, paths[..|paths| - 1]), paths[|paths| - 1];
      if p in there || p in before then before else before + [p]
  }

  // A dict that both give: the manifest wins key by key.
  function Override(item: Item, init: Caps): Item {
    var own := Find(init, item.name);
    if item.name != SKILLS && item.cap.Kwargs? && own.Some? && own.value.Kwargs?
    then Item(item.name, Kwargs(item.cap.kwargs + own.value.kwargs)) else item
  }

  function Overrides(preset: Caps, init: Caps): (r: Caps)
    ensures |r| == |preset| && forall i :: 0 <= i < |preset| ==> r[i] == Override(preset[i], init)
  {
    seq(|preset|, i requires 0 <= i < |preset| => Override(preset[i], init))
  }

  // The dicts of core capabilities that the preset leaves out.
  function Carried(preset: Caps, init: Caps, core: seq<string>): Caps {
    if core == [] then []
    else Carried(preset, init, core[..|core| - 1]) + CarriedOne(preset, init, core[|core| - 1])
  }

  function CarriedOne(preset: Caps, init: Caps, name: string): Caps {
    if name != SKILLS && Find(preset, name).None? && Find(init, name).Some? && Find(init, name).value.Kwargs?
    then [Item(name, Find(init, name).value)] else []
  }

  function SkillsKwargs(caps: Caps): Settings {
    var own := Find(caps, SKILLS);
    if own.Some? && own.value.Kwargs? then own.value.kwargs else map[]
  }

  // The preset's paths, then the manifest's own.
  function WithPaths(caps: Caps, paths: seq<string>): Caps {
    if paths == [] then caps
    else
      var there := PathsIn(Find(caps, SKILLS));
      Set(caps, SKILLS, Kwargs(SkillsKwargs(caps)[PATHS := List(there + Extras(there, paths))]))
  }

  function Merge(preset: Caps, init: Caps, core: seq<string>): Caps {
    WithPaths(Overrides(preset, init) + Carried(preset, init, core), Extras([], PathsIn(Find(init, SKILLS))))
  }

  function MergeField(preset: CapsField, own: CapsField, core: seq<string>): CapsField {
    var init := if own.Dict? then own.caps else [];
    match preset
    case Missing => Dict(Merge(init, init, core))
    case NotDict(_) => preset
    case Dict(caps) => Dict(Merge(caps, init, core))
  }

  // ----- the materialization -----

  // The active preset; when its file is missing, the fallback takes its place.
  function Choose(m: Manifest, library: Library): Result<(string, Preset), Error> {
    match library(m.active)
    case Ok(preset) => Ok((m.active, preset))
    case Err(ValueError) => Err(ValueError)
    case Err(KeyError) =>
      if m.fallback == "" || m.fallback == m.active then Err(KeyError)
      else match library(m.fallback)
        case Ok(preset) => Ok((m.fallback, preset))
        case Err(e) => Err(e)
  }

  function Apply(m: Manifest, active: string, preset: Preset, core: seq<string>): Manifest {
    var llm := if preset.llm != map[] then preset.llm else m.llm;
    Manifest(
      active, m.fallback, llm - {LIMIT}, MergeField(preset.caps, m.caps, core),
      if LIMIT in llm then Some(llm[LIMIT]) else m.contextLimit)
  }

  function Materialize(m: Manifest, library: Library, core: seq<string>): Result<Manifest, Error> {
    if m.active == "" then Ok(m)
    else match Choose(m, library)
      case Err(e) => Err(e)
      case Ok((active, preset)) => Ok(Apply(m, active, preset, core))
  }

  // The manifest that is changed in place.
  class ManifestData {
    var active: string
    var fallback: string
    var llm: Settings
    var caps: CapsField
    var contextLimit: Option<Value>

    function View(): Manifest
      reads this
    {
      Manifest(active, fallback, llm, caps, contextLimit)
    }

    method MaterializeActivePreset(library: Library, core: seq<string>) returns (error: Option<Error>)
      modifies this
      ensures match Materialize(old(View()), library, core)
              case Ok(m) => error == None && View() == m
              case Err(e) => error == Some(e) && View() == old(View())
    {
      if active == "" {
        return None;
      }
      var loaded := library(active);
      if loaded == Err(KeyError) && fallback != "" && fallback != active {
        loaded := library(fallback);
        if loaded.Ok? {
          active := fallback;
        }
      }
      if loaded.Err? {
        return Some(loaded.error);
      }
      var preset := loaded.value;
      if preset.llm != map[] {
        llm := preset.llm;
      }
      if LIMIT in llm {
        contextLimit := Some(llm[LIMIT]);
      }
      llm := llm - {LIMIT};
      var init := if caps.Dict? then caps.caps else [];
      if preset.caps.NotDict? {
        caps := preset.caps;
      } else {
        var merged := MergeCapabilities(if preset.caps.Dict? then preset.caps.caps else init, init, core);
        caps := Dict(merged);
      }
      return None;
    }

    static method MergeCapabilities(preset: Caps, init: Caps, core: seq<string>) returns (merged: Caps)
      ensures merged == Merge(preset, init, core)
    {
      var initPaths := DistinctPaths([], PathsIn(Find(init, SKILLS)));
      merged := [];
      for i := 0 to |preset|
        invariant merged == Overrides(preset, init)[..i]
      {
        merged := merged + [Override(preset[i], init)];
      }
      assert merged == Overrides(preset, init);
      for i := 0 to |core|
        invariant merged == Overrides(preset, init) + Carried(preset, init, core[..i])
      {
        assert core[..i + 1][..i] == core[..i];
        var own := Find(init, core[i]);
        if core[i] != SKILLS && Find(preset, core[i]).None? && own.Some? && own.value.Kwargs? {
          merged := merged + [Item(core[i], own.value)];
        }
      }
      assert core[..|core|] == core;
      if initPaths != [] {
        var there := PathsIn(Find(merged, SKILLS));
        var extras := DistinctPaths(there, initPaths);
        merged := Set(merged, SKILLS, Kwargs(SkillsKwargs(merged)[PATHS := List(there + extras)]));
      }
    }

    static method DistinctPaths(there: seq<string>, paths: seq<string>) returns (extras: seq<string>)
      ensures extras == Extras(there, paths)
    {
      extras := [];
      for i := 0 to |paths|
        invariant extras == Extras(there, paths[..i])
      {
        assert paths[..i + 1][..i] == paths[..i];
        if paths[i] !in there && paths[i] !in extras {
          extras := extras + [paths[i]];
        }
      }
      assert paths[..|paths|] == paths;
    }
  }
}
