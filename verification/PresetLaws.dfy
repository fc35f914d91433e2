/** What the materialized manifest keeps: the merge rules, and that doing it
    twice is doing it once. */
module PresetLaws {
  import opened Wrappers
  import opened Presets

  // ----- dicts -----

  lemma {:induction false} FindSet(caps: Caps, name: string, cap: Cap, other: string)
    ensures Find(Set(caps, name, cap), other) == if other == name then Some(cap) else Find(caps, other)
  {
    if caps != [] {
      var init := caps[..|caps| - 1];
      if caps[|caps| - 1].name != name && Find(caps, name).Some? {
        FindSet(init, name, cap, other);
        assert (Set(init, name, cap) + [caps[|caps| - 1]])[..|Set(init, name, cap)|] == Set(init, name, cap);
      } else if caps[|caps| - 1].name == name {
        assert (init + [Item(name, cap)])[..|init|] == init;
      } else {
        assert (caps + [Item(name, cap)])[..|caps|] == caps;
      }
    } else {
      assert [Item(name, cap)][..0] == [];
    }
  }

  lemma {:induction false} FindAt(caps: Caps, i: nat)
    requires Distinct(caps) && i < |caps|
    ensures Find(caps, caps[i].name) == Some(caps[i].cap)
  {
    if i < |caps| - 1 {
      FindAt(caps[..|caps| - 1], i);
    }
  }

  // Putting back what is there changes nothing.
  lemma {:induction false} SetSame(caps: Caps, name: string)
    requires Find(caps, name).Some?
    ensures Set(caps, name, Find(caps, name).value) == caps
  {
    var n := |caps| - 1;
    assert caps == caps[..n] + [caps[n]];
    if caps[n].name != name {
      SetSame(caps[..n], name);
    }
  }

  lemma {:induction false} FindConcat(a: Caps, b: Caps, name: string)
    ensures Find(a + b, name) == if Find(b, name).Some? then Find(b, name) else Find(a, name)
  {
    if b == [] {
      assert a + b == a;
    } else {
      assert (a + b)[..|a + b| - 1] == a + b[..|b| - 1];
      FindConcat(a, b[..|b| - 1], name);
    }
  }

  lemma {:induction false} FindOverrides(preset: Caps, init: Caps, name: string)
    ensures Find(Overrides(preset, init), name) ==
            if Find(preset, name).None? then None else Some(Override(Item(name, Find(preset, name).value), init).cap)
  {
    if preset != [] {
      var n := |preset| - 1;
      assert Overrides(preset, init)[..n] == Overrides(preset[..n], init);
      FindOverrides(preset[..n], init, name);
    }
  }

  lemma {:induction false} FindCarried(preset: Caps, init: Caps, core: seq<string>, name: string)
    ensures Find(Carried(preset, init, core), name) ==
            if name in core && name != SKILLS && Find(preset, name).None? && Find(init, name).Some?
                && Find(init, name).value.Kwargs?
            then Find(init, name) else None
  {
    if core != [] {
      var n := |core| - 1;
      assert core == core[..n] + [core[n]];
      FindCarried(preset, init, core[..n], name);
      FindConcat(Carried(preset, init, core[..n]), CarriedOne(preset, init, core[n]), name);
      FindCarriedOne(preset, init, core[n], name);
    }
  }

  lemma {:induction false} FindCarriedOne(preset: Caps, init: Caps, carried: string, name: string)
    ensures Find(CarriedOne(preset, init, carried), name) ==
            if name == carried && name != SKILLS && Find(preset, name).None? && Find(init, name).Some?
                && Find(init, name).value.Kwargs?
            then Find(init, name) else None
  {
    var one := CarriedOne(preset, init, carried);
    if one != [] {
      assert one[..0] == [];
    }
  }

  // What a capability other than skills becomes: the preset decides whether it is
  // there, the manifest's kwargs win key by key, and core kwargs are carried along.
  function Merged(preset: Option<Cap>, own: Option<Cap>, isCore: bool): Option<Cap> {
    match preset
    case Some(Kwargs(k)) => if own.Some? && own.value.Kwargs? then Some(Kwargs(k + own.value.kwargs)) else preset
    case Some(_) => preset
    case None => if isCore && own.Some? && own.value.Kwargs? then own else None
  }

  lemma {:induction false} MergedIs(preset: Caps, init: Caps, core: seq<string>, name: string)
    requires name != SKILLS
    ensures Find(Merge(preset, init, core), name) == Merged(Find(preset, name), Find(init, name), name in core)
  {
    var base := Overrides(preset, init) + Carried(preset, init, core);
    var paths := Extras([], PathsIn(Find(init, SKILLS)));
    FindConcat(Overrides(preset, init), Carried(preset, init, core), name);
    FindOverrides(preset, init, name);
    FindCarried(preset, init, core, name);
    if paths != [] {
      var there := PathsIn(Find(base, SKILLS));
      FindSet(base, SKILLS, Kwargs(SkillsKwargs(base)[PATHS := List(there + Extras(there, paths))]), name);
    }
  }

  lemma {:induction false} BaseSkills(preset: Caps, init: Caps, core: seq<string>)
    ensures Find(Overrides(preset, init) + Carried(preset, init, core), SKILLS) == Find(preset, SKILLS)
  {
    FindConcat(Overrides(preset, init), Carried(preset, init, core), SKILLS);
    FindOverrides(preset, init, SKILLS);
    FindCarried(preset, init, core, SKILLS);
  }

  // ----- skills paths -----

  lemma {:induction false} ExtrasMembers(there: seq<string>, paths: seq<string>)
    ensures forall p :: p in Extras(there, paths) <==> p in paths && p !in there
  {
    if paths != [] {
      ExtrasMembers(there, paths[..|paths| - 1]);
      assert paths == paths[..|paths| - 1] + [paths[|paths| - 1]];
    }
  }

  predicate NoRepeats(paths: seq<string>) {
    forall i, j :: 0 <= i < j < |paths| ==> paths[i] != paths[j]
  }

  lemma {:induction false} ExtrasNoRepeats(there: seq<string>, paths: seq<string>)
    ensures NoRepeats(Extras(there, paths))
  {
    if paths != [] {
      ExtrasNoRepeats(there, paths[..|paths| - 1]);
    }
  }

  lemma {:induction false} ExtrasOfNew(there: seq<string>, before: seq<string>, added: seq<string>)
    requires NoRepeats(added) && forall p <- added :: p !in there && p !in before
    ensures Extras(there, before + added) == Extras(there, before) + added
  {
    if added == [] {
      assert before + added == before;
    } else {
      var n := |added| - 1;
      var all := before + added;
      assert all[..|all| - 1] == before + added[..n];
      ExtrasOfNew(there, before, added[..n]);
      ExtrasMembers(there, before);
      assert added[n] in added;
      assert added[n] !in Extras(there, before) + added[..n];
    }
  }

  lemma {:induction false} ExtrasOfOld(there: seq<string>, paths: seq<string>)
    requires forall p <- paths :: p in there
    ensures Extras(there, paths) == []
  {
    if paths != [] {
      ExtrasOfOld(there, paths[..|paths| - 1]);
      assert paths[|paths| - 1] in paths;
    }
  }

  // The manifest's paths, once, in order, after the preset's whole list.
  lemma {:induction false} SkillsPaths(preset: Caps, init: Caps, core: seq<string>)
    requires PathsIn(Find(init, SKILLS)) != []
    ensures var there := PathsIn(Find(preset, SKILLS));
            var own := Extras([], PathsIn(Find(init, SKILLS)));
            var merged := PathsIn(Find(Merge(preset, init, core), SKILLS));
            && merged == there + Extras(there, own)
            && (match Find(Merge(preset, init, core), "skills")
                case Some(Kwargs(kwargs)) => "paths" in kwargs && kwargs["paths"] == List(merged)
                case _ => false)
            && NoRepeats(Extras(there, own))
            && (forall p :: p in Extras(there, own) <==> p in PathsIn(Find(init, SKILLS)) && p !in there)
  {
    var base := Overrides(preset, init) + Carried(preset, init, core);
    var own := Extras([], PathsIn(Find(init, SKILLS)));
    var there := PathsIn(Find(preset, SKILLS));
    BaseSkills(preset, init, core);
    ExtrasMembers([], PathsIn(Find(init, SKILLS)));
    ExtrasMembers(there, own);
    ExtrasNoRepeats(there, own);
    assert PathsIn(Find(init, SKILLS))[0] in own;
    FindSet(base, SKILLS, Kwargs(SkillsKwargs(base)[PATHS := List(there + Extras(there, own))]), SKILLS);
  }

  // ----- twice is once -----

  lemma {:induction false} OverrideAgain(item: Item, init: Caps, again: Caps)
    requires Find(again, item.name) == Some(Override(item, init).cap) || item.name == SKILLS
    ensures Override(item, again) == Override(item, init)
  {
    var own := Find(init, item.name);
    if item.name != SKILLS && item.cap.Kwargs? && own.Some? && own.value.Kwargs? {
      assert item.cap.kwargs + (item.cap.kwargs + own.value.kwargs) == item.cap.kwargs + own.value.kwargs;
    }
  }

  lemma {:induction false} OverridesAgain(preset: Caps, init: Caps, core: seq<string>)
    requires Distinct(preset)
    ensures Overrides(preset, Merge(preset, init, core)) == Overrides(preset, init)
  {
    var again := Merge(preset, init, core);
    forall i | 0 <= i < |preset|
      ensures Override(preset[i], again) == Override(preset[i], init)
    {
      FindAt(preset, i);
      if preset[i].name != SKILLS {
        MergedIs(preset, init, core, preset[i].name);
      }
      OverrideAgain(preset[i], init, again);
    }
  }

  lemma {:induction false} CarriedAgain(preset: Caps, init: Caps, again: Caps, core: seq<string>)
    requires forall name <- core :: name != SKILLS && Find(preset, name).None? ==>
               (Find(again, name) ==
                if Find(init, name).Some? && Find(init, name).value.Kwargs? then Find(init, name) else None)
    ensures Carried(preset, again, core) == Carried(preset, init, core)
  {
    if core != [] {
      assert core[|core| - 1] in core;
      CarriedAgain(preset, init, again, core[..|core| - 1]);
    }
  }

  // Adding no path, and then the paths that are there.
  lemma {:induction false} PathsKept(base: Caps, again: seq<string>)
    requires again == Extras([], PathsIn(Find(base, SKILLS)))
    ensures WithPaths(base, again) == base
  {
    var there := PathsIn(Find(base, SKILLS));
    ExtrasMembers([], there);
    if again != [] {
      assert again[0] in again && there + [] == there;
      ExtrasOfOld(there, again);
      assert SkillsKwargs(base)[PATHS := List(there + [])] == SkillsKwargs(base);
      SetSame(base, SKILLS);
    }
  }

  lemma {:induction false} ExtrasAgain(there: seq<string>, paths: seq<string>)
    requires NoRepeats(paths) && paths != []
    ensures var all := there + Extras(there, paths);
            Extras([], all) != [] && Extras(there, Extras([], all)) == Extras(there, paths)
  {
    var extras := Extras(there, paths);
    ExtrasMembers(there, paths);
    ExtrasNoRepeats(there, paths);
    ExtrasMembers([], there);
    ExtrasOfNew([], there, extras);
    ExtrasOfOld(there, Extras([], there));
    ExtrasOfNew(there, Extras([], there), extras);
    assert paths[0] in paths;
    assert paths[0] in there || paths[0] in extras;
    assert paths[0] in Extras([], there) + extras;
  }

  lemma {:induction false} PathsAgain(base: Caps, paths: seq<string>, again: seq<string>)
    requires NoRepeats(paths)
    requires again == Extras([], PathsIn(Find(WithPaths(base, paths), SKILLS)))
    ensures WithPaths(base, again) == WithPaths(base, paths)
  {
    if paths == [] {
      PathsKept(base, again);
    } else {
      var there := PathsIn(Find(base, SKILLS));
      FindSet(base, SKILLS, Kwargs(SkillsKwargs(base)[PATHS := List(there + Extras(there, paths))]), SKILLS);
      ExtrasAgain(there, paths);
    }
  }

  lemma {:induction false} MergeAgain(preset: Caps, init: Caps, core: seq<string>)
    requires Distinct(preset)
    ensures Merge(preset, Merge(preset, init, core), core) == Merge(preset, init, core)
  {
    var again := Merge(preset, init, core);
    OverridesAgain(preset, init, core);
    forall name | name in core && name != SKILLS && Find(preset, name).None?
      ensures Find(again, name) ==
              if Find(init, name).Some? && Find(init, name).value.Kwargs? then Find(init, name) else None
    {
      MergedIs(preset, init, core, name);
    }
    CarriedAgain(preset, init, again, core);
    ExtrasNoRepeats([], PathsIn(Find(init, SKILLS)));
    PathsAgain(Overrides(preset, init) + Carried(preset, init, core), Extras([], PathsIn(Find(init, SKILLS))),
        Extras([], PathsIn(Find(again, SKILLS))));
  }

  // A manifest merged with itself is itself.
  lemma {:induction false} MergeSelf(caps: Caps, core: seq<string>)
    requires Distinct(caps)
    ensures Merge(caps, caps, core) == caps
  {
    forall i | 0 <= i < |caps|
      ensures Override(caps[i], caps) == caps[i]
    {
      FindAt(caps, i);
      OverrideSelf(caps[i], caps);
    }
    assert Overrides(caps, caps) == caps;
    NothingCarried(caps, core);
    assert caps + [] == caps;
    PathsKept(caps, Extras([], PathsIn(Find(caps, SKILLS))));
  }

  lemma {:induction false} OverrideSelf(item: Item, caps: Caps)
    requires Find(caps, item.name) == Some(item.cap)
    ensures Override(item, caps) == item
  {
    if item.cap.Kwargs? {
      var k := item.cap.kwargs;
      assert k + k == k;
    }
  }

  lemma {:induction false} NothingCarried(caps: Caps, core: seq<string>)
    ensures Carried(caps, caps, core) == []
  {
    if core != [] {
      NothingCarried(caps, core[..|core| - 1]);
    }
  }

  predicate DistinctField(field: CapsField) {
    field.Dict? ==> Distinct(field.caps)
  }

  // The manifest's settings are swapped for the preset's if it has any, but for the
  // context limit, which goes to the root and stays when the preset sets none.
  lemma {:induction false} SettingsSwapped(m: Manifest, library: Library, core: seq<string>, key: string)
    requires m.active != "" && Choose(m, library).Ok?
    ensures var preset := Choose(m, library).value.1;
            var from := if preset.llm == map[] then m.llm else preset.llm;
            var r := Materialize(m, library, core);
            && r.Ok? && r.value.active == Choose(m, library).value.0 && r.value.fallback == m.fallback
            && "context_limit" !in r.value.llm
            && (key != "context_limit" ==>
                  (key in r.value.llm <==> key in from) && (key in from ==> r.value.llm[key] == from[key]))
            && r.value.contextLimit == (if "context_limit" in from then Some(from["context_limit"]) else m.contextLimit)
  {
  }

  // Which preset that is: the active one; the fallback only when the active one's
  // file is missing; a malformed file is an error in either place.
  lemma {:induction false} WhichPreset(m: Manifest, library: Library)
    ensures Choose(m, library).Ok? <==>
              || library(m.active).Ok?
              || (library(m.active) == Err(KeyError) && m.fallback != "" && library(m.fallback).Ok?)
    ensures library(m.active).Ok? ==> Choose(m, library) == Ok((m.active, library(m.active).value))
    ensures library(m.active).Err? && Choose(m, library).Ok? ==>
              Choose(m, library) == Ok((m.fallback, library(m.fallback).value))
    ensures Choose(m, library).Err? ==>
              (Choose(m, library).error == ValueError <==>
               library(m.active) == Err(ValueError)
               || (m.fallback != "" && library(m.active) == Err(KeyError) && library(m.fallback) == Err(ValueError)))
  {
  }

  // The manifest's capabilities are merged into the preset's; a preset without any
  // leaves them as they are, and one whose field is no dict replaces them.
  lemma {:induction false} CapabilitiesSwapped(m: Manifest, library: Library, core: seq<string>, own: Caps)
    requires m.active != "" && Choose(m, library).Ok? && m.caps == Dict(own) && Distinct(own)
    ensures var r := Materialize(m, library, core);
            && r.Ok?
            && match Choose(m, library).value.1.caps
               case Missing => r.value.caps == m.caps
               case NotDict(json) => r.value.caps == NotDict(json)
               case Dict(caps) => r.value.caps == Dict(Merge(caps, own, core))
  {
    MergeSelf(own, core);
  }

  // Nothing is materialized without an active preset, and nothing on an error.
  lemma {:induction false} NoPresetNoChange(m: Manifest, library: Library, core: seq<string>)
    ensures m.active == "" ==> Materialize(m, library, core) == Ok(m)
    ensures m.active != "" ==> (Materialize(m, library, core).Err? <==> Choose(m, library).Err?)
  {
  }

  // Materializing twice is materializing once, whichever preset was loaded.
  lemma {:induction false} MaterializeTwice(m: Manifest, library: Library, core: seq<string>)
    requires DistinctField(m.caps) && forall ref :: library(ref).Ok? ==> DistinctField(library(ref).value.caps)
    ensures var once := Materialize(m, library, core);
            once.Ok? ==> Materialize(once.value, library, core) == once
  {
    var chosen := Choose(m, library);
    if m.active != "" && chosen.Ok? {
      var (active, preset) := chosen.value;
      ApplyTwice(m, active, preset, core);
      if active == "" {
        assert Apply(m, active, preset, core).active == "";
      } else {
        assert Choose(Apply(m, active, preset, core), library) == chosen;
      }
    }
  }

  lemma {:induction false} ApplyTwice(m: Manifest, active: string, preset: Preset, core: seq<string>)
    requires DistinctField(m.caps) && DistinctField(preset.caps)
    ensures var once := Apply(m, active, preset, core); Apply(once, active, preset, core) == once
  {
    var once := Apply(m, active, preset, core);
    assert once.llm - {LIMIT} == once.llm;
    var init := if m.caps.Dict? then m.caps.caps else [];
    match preset.caps
    case Missing =>
      MergeSelf(init, core);
    case NotDict(_) =>
    case Dict(caps) =>
      MergeAgain(caps, init, core);
  }
}
