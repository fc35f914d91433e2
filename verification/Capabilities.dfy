/** From a manifest's capabilities to the ones an agent boots with: group
    expansion, normalization, core defaults (src/lingtai/capabilities/__init__.py,
    src/lingtai/agent.py), and what that does to a materialized preset. */
module Capabilities {
  import opened Wrappers
  import opened Presets
  import opened PresetLaws

  const GROUP := "file"
  const FILE_TOOLS: seq<string> := ["read", "write", "edit", "glob", "grep"]
  const NONE: Settings := map[]

  const CORE_DEFAULTS: Caps := [
    Item("knowledge", Kwargs(NONE)), Item("skills", Kwargs(NONE)),
    Item("bash", Kwargs(map["yolo" := Data("true")])), Item("avatar", Kwargs(NONE)),
    Item("daemon", Kwargs(NONE)), Item("mcp", Kwargs(NONE)),
    Item("read", Kwargs(NONE)), Item("write", Kwargs(NONE)), Item("edit", Kwargs(NONE)),
    Item("glob", Kwargs(NONE)), Item("grep", Kwargs(NONE))]

  // ----- the steps -----

  function SetAll(caps: Caps, names: seq<string>): Caps {
    if names == [] then caps else Set(SetAll(caps, names[..|names| - 1]), names[|names| - 1], Kwargs(NONE))
  }

  // A group stands for its tools, each with no kwargs of its own.
  function Expand(caps: Caps): Caps {
    if caps == [] then []
    else
      var out, last := Expand(caps[..|caps| - 1]), caps[|caps| - 1];
      if last.name == GROUP then SetAll(out, FILE_TOOLS) else Set(out, last.name, last.cap)
  }

  function Remove(caps: Caps, name: string): Caps {
    if caps == [] then []
    else Remove(caps[..|caps| - 1], name) + (if caps[|caps| - 1].name == name then [] else [caps[|caps| - 1]])
  }

  function RemoveAll(caps: Caps, names: seq<string>): Caps {
    if names == [] then caps else Remove(RemoveAll(caps, names[..|names| - 1]), names[|names| - 1])
  }

  // One entry over the defaults: null takes the default away, a dict is merged into it.
  function Overlay(out: Caps, item: Item): Caps {
    var there := Find(out, item.name);
    match item.cap
    case Null => Remove(out, item.name)
    case Kwargs(k) =>
      Set(out, item.name, if there.Some? && there.value.Kwargs? then Kwargs(there.value.kwargs + k) else item.cap)
    case Other(_) => Set(out, item.name, item.cap)
  }

  function WithDefaults(core: Caps, caps: Caps): Caps {
    if caps == [] then core else Overlay(WithDefaults(core, caps[..|caps| - 1]), caps[|caps| - 1])
  }

  function ApplyCoreDefaults(core: Caps, caps: Caps, disable: seq<string>): Caps {
    RemoveAll(WithDefaults(core, caps), disable)
  }

  // What the agent boots with.
  function Boot(core: Caps, caps: Caps, disable: seq<string>): Caps {
    ApplyCoreDefaults(core, Expand(caps), disable)
  }

  // ----- the same as the code runs it -----

  method ExpandGroups(caps: Caps) returns (out: Caps)
    ensures out == Expand(caps)
  {
    out := [];
    for i := 0 to |caps|
      invariant out == Expand(caps[..i])
    {
      assert caps[..i + 1][..i] == caps[..i];
      if caps[i].name == GROUP {
        for j := 0 to |FILE_TOOLS|
          invariant out == SetAll(Expand(caps[..i]), FILE_TOOLS[..j])
        {
          assert FILE_TOOLS[..j + 1][..j] == FILE_TOOLS[..j];
          out := Set(out, FILE_TOOLS[j], Kwargs(NONE));
        }
        assert FILE_TOOLS[..|FILE_TOOLS|] == FILE_TOOLS;
      } else {
        out := Set(out, caps[i].name, caps[i].cap);
      }
    }
    assert caps[..|caps|] == caps;
  }

  function NullAsEmpty(caps: Caps): (r: Caps)
    ensures |r| == |caps| && forall i :: 0 <= i < |caps| ==>
            r[i] == Item(caps[i].name, if caps[i].cap.Null? then Kwargs(NONE) else caps[i].cap)
  {
    seq(|caps|, i requires 0 <= i < |caps| => Item(caps[i].name, if caps[i].cap.Null? then Kwargs(NONE)
        else caps[i].cap))
  }

  // One entry into the normalized dict: null counts as no kwargs, a second dict of
  // the same name gives way to the first key by key, and both lists of skill
  // paths are joined without repeats, the newcomer's first.
  function MergeDict(out: Caps, name: string, cap: Cap): Caps {
    var there := Find(out, name);
    if there.None? || (there.value.Kwargs? && !cap.Other?) then Set(out, name, MergedCap(there, name, cap)) else out
  }

  function MergedCap(there: Option<Cap>, name: string, cap: Cap): Cap
    requires there.None? || (there.value.Kwargs? && !cap.Other?)
  {
    var value := if cap.Null? then Kwargs(NONE) else cap;
    if there.None? then value
    else
      var merged := value.kwargs + there.value.kwargs;
      var paths := Extras([], PathsIn(Some(value)) + PathsIn(there));
      Kwargs(if name == SKILLS && paths != [] then merged[PATHS := List(paths)] else merged)
  }

  // Other names are left alone; a new name gets its entry; of two dicts the first
  // wins key by key; anything else that is there already stays.
  lemma {:induction false} MergedEntry(out: Caps, name: string, cap: Cap, other: string, key: string)
    ensures other != name ==> Find(MergeDict(out, name, cap), other) == Find(out, other)
    ensures Find(out, name) == None ==>
              Find(MergeDict(out, name, cap), name) == Some(if cap == Null then Kwargs(map[]) else cap)
    ensures match (Find(out, name), cap)
            case (Some(Kwargs(own)), Kwargs(k)) =>
              var r := Find(MergeDict(out, name, cap), name);
              && r.Some? && r.value.Kwargs?
              && (name != "skills" || key != "paths" ==>
                    (key in r.value.kwargs <==> key in own || key in k)
                    && (key in r.value.kwargs ==> r.value.kwargs[key] == if key in own then own[key] else k[key]))
            case (Some(there), _) => cap != Null ==> Find(MergeDict(out, name, cap), name) == Some(there)
            case _ => true
  {
    if Find(out, name).None? || (Find(out, name).value.Kwargs? && !cap.Other?) {
      FindMerged(out, name, cap, other);
    }
  }

  lemma {:induction false} FindMerged(out: Caps, name: string, cap: Cap, other: string)
    requires Find(out, name).None? || (Find(out, name).value.Kwargs? && !cap.Other?)
    ensures other != name ==> Find(MergeDict(out, name, cap), other) == Find(out, other)
    ensures Find(MergeDict(out, name, cap), name) == Some(MergedCap(Find(out, name), name, cap))
  {
    FindSet(out, name, MergedCap(Find(out, name), name, cap), other);
    FindSet(out, name, MergedCap(Find(out, name), name, cap), name);
  }

  // The skill paths of both are joined without repeats, the newcomer's first.
  lemma {:induction false} MergedPaths(out: Caps, own: Settings, k: Settings, p: string)
    requires Find(out, "skills") == Some(Kwargs(own))
    ensures var before, after := PathsIn(Some(Kwargs(k))), PathsIn(Some(Kwargs(own)));
            var r := PathsIn(Find(MergeDict(out, "skills", Kwargs(k)), "skills"));
            before + after != [] ==>
              (p in r <==> p in before || p in after) && NoRepeats(r) && Extras([], before) <= r
  {
    var before, after := PathsIn(Some(Kwargs(k))), PathsIn(Some(Kwargs(own)));
    FindMerged(out, "skills", Kwargs(k), "skills");
    if before + after != [] {
      ExtrasMembers([], before + after);
      ExtrasNoRepeats([], before + after);
      ExtrasGrow([], before, after);
      assert (before + after)[0] in before + after;
    }
  }

  lemma {:induction false} ExtrasGrow(there: seq<string>, before: seq<string>, after: seq<string>)
    ensures Extras(there, before) <= Extras(there, before + after)
    decreases |after|
  {
    if after == [] {
      assert before + after == before;
    } else {
      var init := after[..|after| - 1];
      ExtrasGrow(there, before, init);
      assert (before + after)[..|before + after| - 1] == before + init;
    }
  }

  function Normalized(caps: Caps): Caps {
    if caps == [] then []
    else MergeDict(Normalized(caps[..|caps| - 1]), caps[|caps| - 1].name, caps[|caps| - 1].cap)
  }

  // A dict repeats no name, so the merge never happens.
  lemma {:induction false} NothingMerges(caps: Caps)
    requires Distinct(caps)
    ensures Normalized(caps) == NullAsEmpty(caps)
  {
    if caps != [] {
      var init, last := caps[..|caps| - 1], caps[|caps| - 1];
      NothingMerges(init);
      NotThere(NullAsEmpty(init), last.name);
      assert NullAsEmpty(caps) == NullAsEmpty(init)
             + [Item(last.name, if last.cap.Null? then Kwargs(NONE) else last.cap)];
    }
  }

  method Normalize(caps: Caps) returns (out: Caps)
    requires Distinct(caps)
    ensures out == NullAsEmpty(caps)
  {
    out := [];
    for i := 0 to |caps|
      invariant out == Normalized(caps[..i])
    {
      assert caps[..i + 1][..i] == caps[..i];
      out := MergeInto(out, caps[i].name, caps[i].cap);
    }
    assert caps[..|caps|] == caps;
    NothingMerges(caps);
  }

  method MergeInto(before: Caps, name: string, cap: Cap) returns (out: Caps)
    ensures out == MergeDict(before, name, cap)
  {
    var value := if cap.Null? then Kwargs(NONE) else cap;
    var there := Find(before, name);
    if there.None? {
      return Set(before, name, value);
    }
    if !there.value.Kwargs? || !value.Kwargs? {
      return before;
    }
    var merged := value.kwargs + there.value.kwargs;
    if name == SKILLS {
      var paths := ManifestData.DistinctPaths([], PathsIn(Some(value)) + PathsIn(there));
      if paths != [] {
        merged := merged[PATHS := List(paths)];
      }
    }
    out := Set(before, name, Kwargs(merged));
  }

  // Nulls are hidden from normalization and put back for the defaults to see.
  method NormalizeKeepingNulls(caps: Caps) returns (out: Caps)
    requires Distinct(caps)
    ensures out == caps
  {
    out := Normalize(NullAsEmpty(caps));
    for i := 0 to |caps|
      invariant |out| == |caps|
      invariant forall j :: 0 <= j < i ==> out[j] == caps[j]
      invariant forall j :: i <= j < |caps| ==> out[j] == NullAsEmpty(caps)[j]
    {
      if caps[i].cap.Null? {
        SetAt(out, i, Null);
        out := Set(out, caps[i].name, Null);
      }
    }
  }

  lemma {:induction false} SetAt(caps: Caps, i: nat, cap: Cap)
    requires Distinct(caps) && i < |caps|
    ensures Set(caps, caps[i].name, cap) == caps[i := Item(caps[i].name, cap)]
  {
    var n := |caps| - 1;
    FindAt(caps, i);
    if i < n {
      SetAt(caps[..n], i, cap);
      assert caps[i].name != caps[n].name;
      assert caps == caps[..n] + [caps[n]];
    }
  }

  method DefaultsAndDisables(core: Caps, caps: Caps, disable: seq<string>) returns (out: Caps)
    ensures out == ApplyCoreDefaults(core, caps, disable)
  {
    out := core;
    for i := 0 to |caps|
      invariant out == WithDefaults(core, caps[..i])
    {
      assert caps[..i + 1][..i] == caps[..i];
      out := Overlay(out, caps[i]);
    }
    assert caps[..|caps|] == caps;
    for i := 0 to |disable|
      invariant out == RemoveAll(WithDefaults(core, caps), disable[..i])
    {
      assert disable[..i + 1][..i] == disable[..i];
      out := Remove(out, disable[i]);
    }
    assert disable[..|disable|] == disable;
  }

  method Resolve(caps: Caps, disable: seq<string>) returns (out: Caps)
    ensures out == Boot(CORE_DEFAULTS, caps, disable)
  {
    var expanded := ExpandGroups(caps);
    ExpandDistinct(caps);
    var normalized := NormalizeKeepingNulls(expanded);
    out := DefaultsAndDisables(CORE_DEFAULTS, normalized, disable);
  }

  // ----- looking names up -----

  lemma {:induction false} SetDistinct(caps: Caps, name: string, cap: Cap)
    requires Distinct(caps)
    ensures Distinct(Set(caps, name, cap))
  {
    if caps != [] {
      var n := |caps| - 1;
      forall i | 0 <= i < |caps|
        ensures Find(caps, caps[i].name).Some?
      {
        FindAt(caps, i);
      }
      if caps[n].name != name && Find(caps, name).Some? {
        SetDistinct(caps[..n], name, cap);
        SameNames(caps[..n], name, cap);
      }
    }
  }

  lemma {:induction false} SameNames(caps: Caps, name: string, cap: Cap)
    requires Find(caps, name).Some?
    ensures |Set(caps, name, cap)| == |caps| && forall i :: 0 <= i < |caps| ==>
            Set(caps, name, cap)[i].name == caps[i].name
  {
    if caps[|caps| - 1].name != name {
      SameNames(caps[..|caps| - 1], name, cap);
    }
  }

  lemma {:induction false} SetAllDistinct(caps: Caps, names: seq<string>)
    requires Distinct(caps)
    ensures Distinct(SetAll(caps, names))
  {
    if names != [] {
      SetAllDistinct(caps, names[..|names| - 1]);
      SetDistinct(SetAll(caps, names[..|names| - 1]), names[|names| - 1], Kwargs(NONE));
    }
  }

  lemma {:induction false} ExpandDistinct(caps: Caps)
    ensures Distinct(Expand(caps))
  {
    if caps != [] {
      var out, last := Expand(caps[..|caps| - 1]), caps[|caps| - 1];
      ExpandDistinct(caps[..|caps| - 1]);
      SetAllDistinct(out, FILE_TOOLS);
      SetDistinct(out, last.name, last.cap);
    }
  }

  lemma {:induction false} FindSetAll(caps: Caps, names: seq<string>, name: string)
    ensures Find(SetAll(caps, names), name) == if name in names then Some(Kwargs(NONE)) else Find(caps, name)
  {
    if names != [] {
      var n := |names| - 1;
      FindSetAll(caps, names[..n], name);
      FindSet(SetAll(caps, names[..n]), names[n], Kwargs(NONE), name);
      assert names == names[..n] + [names[n]];
    }
  }

  // The group comes later in the dict than `name`, or without it.
  predicate GroupAfter(caps: Caps, name: string) {
    caps != []
    && (caps[|caps| - 1].name == GROUP || (caps[|caps| - 1].name != name && GroupAfter(caps[..|caps| - 1], name)))
  }

  lemma {:induction false} FindExpand(caps: Caps, name: string)
    requires name != GROUP
    ensures Find(Expand(caps), name) ==
            if name in FILE_TOOLS && GroupAfter(caps, name) then Some(Kwargs(NONE)) else Find(caps, name)
  {
    if caps != [] {
      var init, last := caps[..|caps| - 1], caps[|caps| - 1];
      FindExpand(init, name);
      FindSetAll(Expand(init), FILE_TOOLS, name);
      FindSet(Expand(init), last.name, last.cap, name);
    }
  }

  lemma {:induction false} FindRemove(caps: Caps, removed: string, name: string)
    ensures Find(Remove(caps, removed), name) == if name == removed then None else Find(caps, name)
  {
    if caps != [] {
      var init, last := Remove(caps[..|caps| - 1], removed), caps[|caps| - 1];
      FindRemove(caps[..|caps| - 1], removed, name);
      assert init + [] == init && (init + [last])[..|init|] == init;
    }
  }

  lemma {:induction false} FindRemoveAll(caps: Caps, names: seq<string>, name: string)
    ensures Find(RemoveAll(caps, names), name) == if name in names then None else Find(caps, name)
  {
    if names != [] {
      var n := |names| - 1;
      FindRemoveAll(caps, names[..n], name);
      FindRemove(RemoveAll(caps, names[..n]), names[n], name);
      assert names == names[..n] + [names[n]];
    }
  }

  // A default, overridden by what the manifest says about it.
  function Over(there: Option<Cap>, own: Option<Cap>): Option<Cap> {
    match own
    case None => there
    case Some(Null) => None
    case Some(Kwargs(k)) => if there.Some? && there.value.Kwargs? then Some(Kwargs(there.value.kwargs + k)) else own
    case Some(Other(_)) => own
  }

  lemma {:induction false} FindDefaults(core: Caps, caps: Caps, name: string)
    requires Distinct(caps)
    ensures Find(WithDefaults(core, caps), name) == Over(Find(core, name), Find(caps, name))
  {
    if caps != [] {
      var init, last := caps[..|caps| - 1], caps[|caps| - 1];
      FindDefaults(core, init, name);
      var out := WithDefaults(core, init);
      FindRemove(out, last.name, name);
      var there := Find(out, last.name);
      var overlaid :=
        if last.cap.Kwargs? && there.Some? && there.value.Kwargs? then Kwargs(there.value.kwargs + last.cap.kwargs)
        else last.cap;
      FindSet(out, last.name, overlaid, name);
      if last.name == name {
        AbsentBefore(caps, name);
      }
    }
  }

  lemma {:induction false} AbsentBefore(caps: Caps, name: string)
    requires Distinct(caps) && caps != [] && caps[|caps| - 1].name == name
    ensures Find(caps[..|caps| - 1], name) == None
  {
    NotThere(caps[..|caps| - 1], name);
  }

  lemma {:induction false} NotThere(caps: Caps, name: string)
    requires forall i :: 0 <= i < |caps| ==> caps[i].name != name
    ensures Find(caps, name) == None
  {
    if caps != [] {
      NotThere(caps[..|caps| - 1], name);
    }
  }

  lemma {:induction false} FindBoot(core: Caps, caps: Caps, disable: seq<string>, name: string)
    requires name != GROUP
    ensures Find(Boot(core, caps, disable), name) ==
            if name in disable then None
            else Over(
              Find(core, name),
              if name in FILE_TOOLS && GroupAfter(caps, name) then Some(Kwargs(NONE)) else Find(caps, name))
  {
    ExpandDistinct(caps);
    FindRemoveAll(WithDefaults(core, Expand(caps)), disable, name);
    FindDefaults(core, Expand(caps), name);
    FindExpand(caps, name);
  }
}
