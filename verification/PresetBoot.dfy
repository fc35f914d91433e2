/** A preset materialized into the manifest and then booted with the core
    defaults: what becomes of the manifest's own settings. */
module PresetBoot {
  import opened Wrappers
  import opened Presets
  import opened PresetLaws
  import opened Capabilities

  function Names(core: Caps): seq<string> {
    if core == [] then [] else Names(core[..|core| - 1]) + [core[|core| - 1].name]
  }

  // The shape of the defaults table that the laws below rely on.
  predicate Table(core: Caps) {
    && GROUP !in Names(core)
    && (forall name <- Names(core) :: Find(core, name).Some? && Find(core, name).value.Kwargs?)
    && (forall name <- FILE_TOOLS :: Find(core, name) == Some(Kwargs(NONE)))
  }

  // Both passes.
  function Launch(preset: Caps, init: Caps, core: Caps, disable: seq<string>): Caps {
    Boot(core, Merge(preset, init, Names(core)), disable)
  }

  lemma {:induction false} GroupAfterConcat(a: Caps, b: Caps, name: string)
    ensures GroupAfter(a + b, name) <==> GroupAfter(b, name) || (GroupAfter(a, name) && Find(b, name) == None)
  {
    if b == [] {
      assert a + b == a;
    } else {
      var init, last := b[..|b| - 1], b[|b| - 1];
      assert (a + b)[..|a + b| - 1] == a + init;
      GroupAfterConcat(a, init, name);
    }
  }

  lemma {:induction false} GroupAfterOverrides(preset: Caps, init: Caps, name: string)
    ensures GroupAfter(Overrides(preset, init), name) <==> GroupAfter(preset, name)
  {
    if preset != [] {
      var n := |preset| - 1;
      assert Overrides(preset, init)[..n] == Overrides(preset[..n], init);
      GroupAfterOverrides(preset[..n], init, name);
    }
  }

  lemma {:induction false} NoGroupCarried(preset: Caps, init: Caps, names: seq<string>, name: string)
    requires GROUP !in names
    ensures !GroupAfter(Carried(preset, init, names), name)
  {
    if names != [] {
      var n := |names| - 1;
      NoGroupCarried(preset, init, names[..n], name);
      assert names[n] in names;
      var one := CarriedOne(preset, init, names[n]);
      if one != [] {
        assert one[..0] == [];
      }
      GroupAfterConcat(Carried(preset, init, names[..n]), one, name);
    }
  }

  lemma {:induction false} GroupAfterSet(caps: Caps, set_: string, cap: Cap, name: string)
    requires set_ != GROUP && set_ != name
    ensures GroupAfter(Set(caps, set_, cap), name) <==> GroupAfter(caps, name)
  {
    var one := [Item(set_, cap)];
    assert one[..0] == [];
    if caps != [] {
      var init, last := caps[..|caps| - 1], caps[|caps| - 1];
      if last.name == set_ {
        GroupAfterConcat(init, one, name);
      } else if Find(caps, set_).None? {
        GroupAfterConcat(caps, one, name);
      } else {
        GroupAfterSet(init, set_, cap, name);
        assert (Set(init, set_, cap) + [last])[..|Set(init, set_, cap)|] == Set(init, set_, cap);
      }
    }
  }

  // In the merged dict the group overwrites a name exactly when the preset lists it
  // later, or lists no such name and nothing is carried along.
  lemma {:induction false} GroupInMerge(preset: Caps, init: Caps, names: seq<string>, name: string)
    requires GROUP !in names && name != SKILLS && name != GROUP
    ensures GroupAfter(Merge(preset, init, names), name) <==>
            GroupAfter(preset, name) && Find(Carried(preset, init, names), name) == None
  {
    var carried := Carried(preset, init, names);
    var base := Overrides(preset, init) + carried;
    GroupAfterOverrides(preset, init, name);
    NoGroupCarried(preset, init, names, name);
    GroupAfterConcat(Overrides(preset, init), carried, name);
    var paths := Extras([], PathsIn(Find(init, SKILLS)));
    if paths != [] {
      var there := PathsIn(Find(base, SKILLS));
      GroupAfterSet(base, SKILLS, Kwargs(SkillsKwargs(base)[PATHS := List(there + Extras(there, paths))]), name);
    }
  }

  // What a core capability other than skills boots with.
  function Booted(preset: Caps, own: Option<Cap>, default: Option<Cap>, name: string): Option<Cap> {
    var merged := Merged(Find(preset, name), own, true);
    var carried := Find(preset, name).None? && merged.Some?;
    Over(default, if name in FILE_TOOLS && GroupAfter(preset, name) && !carried then Some(Kwargs(NONE)) else merged)
  }

  lemma {:induction false} BootedIs(preset: Caps, init: Caps, core: Caps, disable: seq<string>, name: string)
    requires Table(core) && name in Names(core) && name != SKILLS
    ensures Find(Launch(preset, init, core, disable), name) ==
            if name in disable then None else Booted(preset, Find(init, name), Find(core, name), name)
  {
    FindBoot(core, Merge(preset, init, Names(core)), disable, name);
    GroupInMerge(preset, init, Names(core), name);
    FindCarried(preset, init, Names(core), name);
    MergedIs(preset, init, Names(core), name);
  }

  // All these settings, with these values.
  predicate Keeps(cap: Option<Cap>, kwargs: Settings) {
    && cap.Some? && cap.value.Kwargs?
    && forall key <- kwargs :: key in cap.value.kwargs && cap.value.kwargs[key] == kwargs[key]
  }

  // The manifest's kwargs of a core capability reach the agent exactly when it is
  // not disabled and the preset leaves it out or gives it a dict; and when the
  // preset lists the file group after a file tool, only if there are no kwargs to lose.
  lemma {:induction false} OwnKwargsSurvive(preset: Caps, init: Caps, core: Caps, disable: seq<string>, name: string,
          kwargs: Settings)
    requires Table(core) && name in Names(core) && name != SKILLS && Find(init, name) == Some(Kwargs(kwargs))
    ensures Keeps(Find(Launch(preset, init, core, disable), name), kwargs) <==>
            && name !in disable
            && if name in FILE_TOOLS && Find(preset, name).Some? && GroupAfter(preset, name) then kwargs == NONE
               else Find(preset, name).None? || Find(preset, name).value.Kwargs?
  {
    BootedIs(preset, init, core, disable, name);
    if name in FILE_TOOLS && Find(preset, name).Some? && GroupAfter(preset, name) && name !in disable {
      assert Find(Launch(preset, init, core, disable), name) == Some(Kwargs(NONE + NONE));
      assert Keeps(Some(Kwargs(NONE + NONE)), kwargs) ==> kwargs.Keys == {};
    }
  }

  // A core capability is left out of the boot exactly when it is disabled or the
  // preset nulls it (and no group brings it back). A null in the manifest alone
  // does nothing.
  lemma {:induction false} WhoOptsOut(preset: Caps, init: Caps, core: Caps, disable: seq<string>, name: string)
    requires Table(core) && name in Names(core) && name != SKILLS
    ensures Find(Launch(preset, init, core, disable), name) == None <==>
            name in disable || (Find(preset, name) == Some(Null) && !(name in FILE_TOOLS && GroupAfter(preset, name)))
  {
    BootedIs(preset, init, core, disable, name);
  }

  // Whenever the manifest lists skill paths, the agent boots with the preset's
  // list followed by the manifest's distinct extras, even if the preset nulls skills.
  lemma {:induction false} SkillPathsReachBoot(preset: Caps, init: Caps, core: Caps, disable: seq<string>)
    requires PathsIn(Find(init, SKILLS)) != [] && SKILLS !in disable
    ensures var there := PathsIn(Find(preset, SKILLS));
            var own := Extras([], PathsIn(Find(init, SKILLS)));
            PathsIn(Find(Launch(preset, init, core, disable), SKILLS)) == there + Extras(there, own)
  {
    SkillsIsCore();
    SkillsPaths(preset, init, Names(core));
    FindBoot(core, Merge(preset, init, Names(core)), disable, SKILLS);
    ExtrasMembers(PathsIn(Find(preset, SKILLS)), Extras([], PathsIn(Find(init, SKILLS))));
    ExtrasMembers([], PathsIn(Find(init, SKILLS)));
    assert PathsIn(Find(init, SKILLS))[0] in PathsIn(Find(init, SKILLS));
    assert PathsIn(Find(init, SKILLS))[0] in PathsIn(Find(Merge(preset, init, Names(core)), SKILLS));
  }

  // ----- the defaults of the source have that shape -----

  lemma {:induction false} NamesAre(core: Caps)
    ensures |Names(core)| == |core| && forall i :: 0 <= i < |core| ==> Names(core)[i] == core[i].name
  {
    if core != [] {
      NamesAre(core[..|core| - 1]);
    }
  }

  lemma {:induction false} CoreDefaultsDistinct()
    ensures Distinct(CORE_DEFAULTS)
  {
    var d := CORE_DEFAULTS;
    // "write" and "skills", "glob" and "grep" share a length with others: one letter tells them apart.
    assert |d[0].name| == 9 && |d[1].name| == 6 && |d[2].name| == 4 && |d[3].name| == 6 && |d[4].name| == 6
           && |d[5].name| == 3;
    assert |d[6].name| == 4 && |d[7].name| == 5 && |d[8].name| == 4 && |d[9].name| == 4 && |d[10].name| == 4;
    assert d[1].name[0] == 's' && d[3].name[0] == 'a' && d[4].name[0] == 'd';
    assert d[2].name[0] == 'b' && d[6].name[0] == 'r' && d[8].name[0] == 'e' && d[9].name[1] == 'l'
           && d[10].name[1] == 'r';
    assert d[9].name[0] == 'g' && d[10].name[0] == 'g';
  }

  // `tools[i]` stands at place `first + i`, without kwargs.
  predicate ListsTools(core: Caps, tools: seq<string>, first: nat) {
    first + |tools| <= |core| && forall i :: 0 <= i < |tools| ==> core[first + i] == Item(tools[i], Kwargs(NONE))
  }

  lemma {:induction false} TableShape(core: Caps, first: nat)
    requires Distinct(core) && ListsTools(core, FILE_TOOLS, first)
    requires forall i :: 0 <= i < |core| ==> core[i].cap.Kwargs? && core[i].name != GROUP
    ensures Table(core)
  {
    NamesAre(core);
    forall i | 0 <= i < |core|
      ensures Find(core, core[i].name) == Some(core[i].cap)
    {
      FindAt(core, i);
    }
    forall i | 0 <= i < |FILE_TOOLS|
      ensures Find(core, FILE_TOOLS[i]) == Some(Kwargs(NONE))
    {
      assert core[first + i] == Item(FILE_TOOLS[i], Kwargs(NONE));
    }
  }

  lemma {:induction false} NoGroupInDefaults()
    ensures forall i :: 0 <= i < |CORE_DEFAULTS| ==> CORE_DEFAULTS[i].cap.Kwargs? && CORE_DEFAULTS[i].name != GROUP
  {
    var d := CORE_DEFAULTS;
    assert GROUP[0] == 'f' && |GROUP| == 4;
    assert |d[0].name| == 9 && |d[1].name| == 6 && d[2].name[0] == 'b' && |d[3].name| == 6 && |d[4].name| == 6
           && |d[5].name| == 3;
    assert d[6].name[0] == 'r' && |d[7].name| == 5 && d[8].name[0] == 'e' && d[9].name[0] == 'g'
           && d[10].name[0] == 'g';
  }

  lemma {:induction false} CoreDefaultsTable()
    ensures Table(CORE_DEFAULTS)
  {
    CoreDefaultsDistinct();
    NoGroupInDefaults();
    TableShape(CORE_DEFAULTS, 6);
  }

  lemma {:induction false} SkillsIsCore()
    ensures SKILLS in Names(CORE_DEFAULTS) && SKILLS !in FILE_TOOLS && SKILLS != GROUP
  {
    NamesAre(CORE_DEFAULTS);
    assert Names(CORE_DEFAULTS)[1] == SKILLS;
    assert |SKILLS| == 6 && |GROUP| == 4;
    assert forall i :: 0 <= i < |FILE_TOOLS| ==> |FILE_TOOLS[i]| < 6;
  }

  // ----- settings that do not arrive -----

  const BASH := "bash"
  const READ := "read"
  const OWN: Settings := map["policy_file" := Data("strict")]

  lemma {:induction false} BashAndRead()
    ensures BASH in Names(CORE_DEFAULTS) && BASH != SKILLS && BASH != GROUP && BASH !in FILE_TOOLS
    ensures READ in Names(CORE_DEFAULTS) && READ != SKILLS && READ != GROUP && READ in FILE_TOOLS
  {
    NamesAre(CORE_DEFAULTS);
    assert Names(CORE_DEFAULTS)[2] == BASH && Names(CORE_DEFAULTS)[6] == READ && FILE_TOOLS[0] == READ;
    assert BASH[0] == 'b' && READ[0] == 'r' && |BASH| == 4 && |READ| == 4 && |SKILLS| == 6 && GROUP[0] == 'f';
    forall i | 0 <= i < |FILE_TOOLS|
      ensures FILE_TOOLS[i] != BASH
    {
      assert FILE_TOOLS[i][0] != 'b';
    }
  }

  lemma {:induction false} FindOne(name: string, cap: Cap)
    ensures Find([Item(name, cap)], name) == Some(cap) && forall other :: other != name ==>
            Find([Item(name, cap)], other) == None
  {
    assert [Item(name, cap)][..0] == [];
  }

  // `"bash": null` in init.json, and a preset that does not mention bash: it boots
  // with its default settings.
  lemma {:induction false} NullAloneIsIgnored()
    ensures Find(Launch([], [Item("bash", Null)], CORE_DEFAULTS, []), "bash") ==
            Some(Kwargs(map["yolo" := Data("true")]))
  {
    BashAndRead();
    CoreDefaultsTable();
    BashDefault();
    NullFalls(CORE_DEFAULTS, BASH);
  }

  lemma {:induction false} BashDefault()
    ensures Find(CORE_DEFAULTS, "bash") == Some(Kwargs(map["yolo" := Data("true")]))
  {
    CoreDefaultsDistinct();
    FindAt(CORE_DEFAULTS, 2);
  }

  lemma {:induction false} NullFalls(core: Caps, name: string)
    requires Table(core) && name in Names(core) && name != SKILLS && name !in FILE_TOOLS
    ensures Find(Launch([], [Item(name, Null)], core, []), name) == Find(core, name)
  {
    FindOne(name, Null);
    BootedIs([], [Item(name, Null)], core, [], name);
  }

  // The preset gives `true` where a dict is expected: init.json's kwargs are gone.
  lemma {:induction false} NonDictDiscards()
    ensures !Keeps(Find(Launch([Item(BASH, Other("true"))], [Item(BASH, Kwargs(OWN))], CORE_DEFAULTS, []), BASH), OWN)
  {
    BashAndRead();
    CoreDefaultsTable();
    FindOne(BASH, Other("true"));
    FindOne(BASH, Kwargs(OWN));
    OwnKwargsSurvive([Item(BASH, Other("true"))], [Item(BASH, Kwargs(OWN))], CORE_DEFAULTS, [], BASH, OWN);
  }

  // The preset lists read and then the file group: init.json's kwargs of read are gone.
  lemma {:induction false} GroupWipes()
    ensures var preset := [Item(READ, Kwargs(NONE)), Item(GROUP, Kwargs(NONE))];
            !Keeps(Find(Launch(preset, [Item(READ, Kwargs(OWN))], CORE_DEFAULTS, []), READ), OWN)
  {
    var preset := [Item(READ, Kwargs(NONE)), Item(GROUP, Kwargs(NONE))];
    BashAndRead();
    CoreDefaultsTable();
    FindOne(READ, Kwargs(OWN));
    FindOne(READ, Kwargs(NONE));
    assert preset[..1] == [Item(READ, Kwargs(NONE))];
    assert Find(preset, READ).Some? && GroupAfter(preset, READ);
    assert "policy_file" in OWN && OWN != NONE;
    OwnKwargsSurvive(preset, [Item(READ, Kwargs(OWN))], CORE_DEFAULTS, [], READ, OWN);
  }
}
