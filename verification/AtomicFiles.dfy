/** Writers that replace one file at the same time, each through a temporary
    sibling, with failures and crashes at any point
    (src/lingtai_kernel/_fsutil.py). Names point to inodes, and an open handle
    keeps its inode whatever happens to the name. */
module AtomicFiles {
  import opened Wrappers

  datatype Phase =
    | Start
    | Writing(handle: nat, count: nat)     // `count` characters are in the file
    | Written(handle: nat)                 // closed
    | Done(handle: nat)                    // renamed over the target
    | Failing                              // an exception is on its way
    | Cleaned                              // the temporary file is unlinked, the exception raised
    | Littered                             // unlinking failed as well
    | Crashed

  datatype Writer = Writer(tmp: string, text: string, phase: Phase)

  datatype State = State(
    names: map<string, nat>,
    data: seq<string>,            // by inode
    writers: seq<Writer>,
    replaced: seq<nat>)           // history: who renamed onto the target, in order

  datatype Step =
    | Create(w: nat)              // open(tmp, "x")
    | Write(w: nat, count: nat)   // some more characters reach the file
    | Close(w: nat)
    | Replace(w: nat)             // os.replace(tmp, target)
    | Fail(w: nat)                // any exception, before the rename is done
    | Unlink(w: nat)
    | UnlinkFails(w: nat)
    | Crash(w: nat)

  predicate Running(p: Phase) {
    p.Start? || p.Writing? || p.Written? || p.Failing?
  }

  predicate Enabled(step: Step, s: State) {
    step.w < |s.writers| && var p := s.writers[step.w].phase;
    match step
    case Create(_) => p.Start?
    case Write(w, count) => p.Writing? && p.handle < |s.data| && p.count < count <= |s.writers[w].text|
    case Close(w) => p.Writing? && p.count == |s.writers[w].text|
    case Replace(_) => p.Written?
    case Fail(_) => p.Start? || p.Writing? || p.Written?
    case Unlink(_) => p.Failing?
    case UnlinkFails(_) => p.Failing?
    case Crash(_) => Running(p)
  }

  function At(s: State, w: nat, p: Phase): State
    requires w < |s.writers|
  {
    s.(writers := s.writers[w := s.writers[w].(phase := p)])
  }

  function Do(step: Step, s: State, target: string): State
    requires Enabled(step, s)
  {
    var w := step.w;
    var me := s.writers[w];
    match step
    case Create(_) =>
      if me.tmp in s.names then At(s, w, Failing)
      else At(s.(names := s.names[me.tmp := |s.data|], data := s.data + [""]), w, Writing(|s.data|, 0))
    case Write(_, count) => At(s.(data := s.data[me.phase.handle := me.text[..count]]), w,
        Writing(me.phase.handle, count))
    case Close(_) => At(s, w, Written(me.phase.handle))
    case Replace(_) =>
      if me.tmp !in s.names then At(s, w, Failing)
      else At(s.(names := (s.names - {me.tmp})[target := s.names[me.tmp]], replaced := s.replaced + [w]), w,
          Done(me.phase.handle))
    case Fail(_) => At(s, w, Failing)
    case Unlink(_) => At(s.(names := s.names - {me.tmp}), w, Cleaned)
    case UnlinkFails(_) => At(s, w, Littered)
    case Crash(_) => At(s, w, Crashed)
  }

  ghost predicate Leads(steps: seq<Step>, from: State, to: State, target: string)
    decreases |steps|
  {
    if steps == [] then to == from
    else
      var last := steps[|steps| - 1];
      exists prev :: Leads(steps[..|steps| - 1], from, prev, target) && Enabled(last, prev)
             && to == Do(last, prev, target)
  }

  // Nobody has started; every name of the writers is new, and no two are the same.
  predicate Fresh(s: State, target: string) {
    && (forall name <- s.names :: s.names[name] < |s.data|)
    && s.replaced == []
    && (forall w :: 0 <= w < |s.writers| ==>
       s.writers[w].phase == Start && s.writers[w].tmp != target && s.writers[w].tmp !in s.names)
    && (forall v, w :: 0 <= v < w < |s.writers| ==> s.writers[v].tmp != s.writers[w].tmp)
  }

  // What reading the target gives.
  function Content(s: State, target: string): Option<string> {
    if target in s.names && s.names[target] < |s.data| then Some(s.data[s.names[target]]) else None
  }

  // ----- the invariant -----

  predicate Holds(s: State, name: string, inode: nat) {
    name in s.names && s.names[name] == inode < |s.data|
  }

  // A writer's file is under its own name and holds what was written so far; before
  // it begins, and once it is done or cleaned up, there is no such file.
  predicate WriterOk(s: State, me: Writer) {
    match me.phase
    case Start => me.tmp !in s.names
    case Writing(h, count) => Holds(s, me.tmp, h) && count <= |me.text| && s.data[h] == me.text[..count]
    case Written(h) => Holds(s, me.tmp, h) && s.data[h] == me.text
    case Done(h) => me.tmp !in s.names && h < |s.data| && s.data[h] == me.text
    case Cleaned => me.tmp !in s.names
    case _ => true
  }

  ghost predicate WritersOk(s: State) {
    forall w :: 0 <= w < |s.writers| ==> WriterOk(s, s.writers[w])
  }

  function Handle(p: Phase): Option<nat> {
    if p.Writing? || p.Written? || p.Done? then Some(p.handle) else None
  }

  // Each handle is a new inode, and no two writers have the same.
  ghost predicate HandlesOk(s: State, old_: nat) {
    && (forall w :: 0 <= w < |s.writers| && Handle(s.writers[w].phase).Some? ==>
          old_ <= Handle(s.writers[w].phase).value < |s.data|)
    && (forall v, w ::
          (0 <= v < w < |s.writers| && Handle(s.writers[v].phase).Some? && Handle(s.writers[w].phase).Some?) ==>
          Handle(s.writers[v].phase) != Handle(s.writers[w].phase))
  }

  // Temporary names are distinct, not the target, and share no inode with another name.
  ghost predicate NamesOk(s: State, target: string) {
    && (forall name <- s.names :: s.names[name] < |s.data|)
    && (forall w :: 0 <= w < |s.writers| ==> s.writers[w].tmp != target)
    && (forall v, w :: 0 <= v < w < |s.writers| ==> s.writers[v].tmp != s.writers[w].tmp)
    && (forall w, name ::
          (0 <= w < |s.writers| && s.writers[w].tmp in s.names && name in s.names && name != s.writers[w].tmp) ==>
          s.names[name] != s.names[s.writers[w].tmp])
  }

  // The target is as it was, or it is the file of the last writer that renamed.
  ghost predicate TargetOk(s: State, target: string, init: State) {
    if s.replaced == [] then
      (target in s.names <==> target in init.names) && (target in s.names ==> s.names[target] == init.names[target])
    else
      var w := s.replaced[|s.replaced| - 1];
      w < |s.writers| && s.writers[w].phase.Done? && Holds(s, target, s.writers[w].phase.handle)
  }

  ghost predicate IsTemp(s: State, name: string) {
    exists w :: 0 <= w < |s.writers| && s.writers[w].tmp == name
  }

  // The rest of the directory is as it was.
  ghost predicate OthersOk(s: State, target: string, init: State) {
    && |init.data| <= |s.data| && (forall i :: 0 <= i < |init.data| ==> s.data[i] == init.data[i])
    && (forall name :: name != target && !IsTemp(s, name) ==>
          (name in s.names <==> name in init.names) && (name in s.names ==> s.names[name] == init.names[name]))
  }

  ghost predicate SameWriters(s: State, init: State) {
    |s.writers| == |init.writers|
    && forall w :: 0 <= w < |s.writers| ==>
       s.writers[w].tmp == init.writers[w].tmp && s.writers[w].text == init.writers[w].text
  }

  ghost predicate Inv(s: State, target: string, init: State) {
    && WritersOk(s) && HandlesOk(s, |init.data|) && NamesOk(s, target)
    && TargetOk(s, target, init) && OthersOk(s, target, init) && SameWriters(s, init)
  }

  lemma {:induction false} FreshOk(init: State, target: string)
    requires Fresh(init, target)
    ensures Inv(init, target, init)
  {
  }

  lemma {:induction false} StepOk(step: Step, s: State, target: string, init: State)
    requires Inv(s, target, init) && Enabled(step, s) && (forall name <- init.names :: init.names[name] < |init.data|)
    ensures Inv(Do(step, s, target), target, init)
  {
    match step
    case Create(w) => CreateOk(s, w, target, init);
    case Write(w, count) => WriteOk(s, w, count, target, init);
    case Close(w) => PhaseOk(s, w, Written(s.writers[w].phase.handle), target, init);
    case Replace(w) => ReplaceOk(s, w, target, init);
    case Fail(w) => PhaseOk(s, w, Failing, target, init);
    case Unlink(w) => UnlinkOk(s, w, target, init);
    case UnlinkFails(w) => PhaseOk(s, w, Littered, target, init);
    case Crash(w) => PhaseOk(s, w, Crashed, target, init);
  }

  lemma {:induction false} SameTemps(s: State, s': State)
    requires |s.writers| == |s'.writers| && forall w :: 0 <= w < |s.writers| ==> s'.writers[w].tmp == s.writers[w].tmp
    ensures forall name :: IsTemp(s', name) <==> IsTemp(s, name)
  {
    forall name
      ensures IsTemp(s', name) <==> IsTemp(s, name)
    {
      if IsTemp(s, name) {
        var w :| 0 <= w < |s.writers| && s.writers[w].tmp == name;
        assert s'.writers[w].tmp == name;
      }
    }
  }

  // The two halves of the invariant: what the writers hold, and what the directory says.
  ghost predicate Files(s: State, init: State) {
    WritersOk(s) && HandlesOk(s, |init.data|)
  }

  ghost predicate Directory(s: State, target: string, init: State) {
    NamesOk(s, target) && TargetOk(s, target, init) && OthersOk(s, target, init) && SameWriters(s, init)
  }

  predicate Stopped(s: State, w: nat, p: Phase)
    requires w < |s.writers|
  {
    var me := s.writers[w];
    p.Failing? || p.Littered? || p.Crashed?
        || (me.phase.Writing? && me.phase.count == |me.text| && p == Written(me.phase.handle))
  }

  lemma {:induction false} PhaseOk(s: State, w: nat, p: Phase, target: string, init: State)
    requires Inv(s, target, init) && w < |s.writers| && !s.writers[w].phase.Done? && Stopped(s, w, p)
    ensures Inv(At(s, w, p), target, init)
  {
    PhaseFiles(s, w, p, init);
    PhaseDirectory(s, w, p, target, init);
  }

  lemma {:induction false} PhaseFiles(s: State, w: nat, p: Phase, init: State)
    requires Files(s, init) && w < |s.writers| && Stopped(s, w, p)
    ensures Files(At(s, w, p), init)
  {
    assert WriterOk(s, s.writers[w]);
  }

  lemma {:induction false} PhaseDirectory(s: State, w: nat, p: Phase, target: string, init: State)
    requires Directory(s, target, init) && w < |s.writers| && !s.writers[w].phase.Done?
    ensures Directory(At(s, w, p), target, init)
  {
    SameTemps(s, At(s, w, p));
  }

  lemma {:induction false} CreateOk(s: State, w: nat, target: string, init: State)
    requires Inv(s, target, init) && Enabled(Create(w), s)
    ensures Inv(Do(Create(w), s, target), target, init)
  {
    CreateFiles(s, w, target, init);
    CreateDirectory(s, w, target, init);
  }

  lemma {:induction false} CreateFiles(s: State, w: nat, target: string, init: State)
    requires Files(s, init) && NamesOk(s, target) && Enabled(Create(w), s) && |init.data| <= |s.data|
    ensures Files(Do(Create(w), s, target), init)
  {
    var s' := Do(Create(w), s, target);
    assert WriterOk(s, s.writers[w]);
    forall v | 0 <= v < |s.writers| && v != w
      ensures s'.writers[v] == s.writers[v] && WriterOk(s', s'.writers[v])
    {
      assert WriterOk(s, s.writers[v]) && s.writers[v].tmp != s.writers[w].tmp;
    }
  }

  lemma {:induction false} CreateDirectory(s: State, w: nat, target: string, init: State)
    requires Directory(s, target, init) && Enabled(Create(w), s)
    ensures Directory(Do(Create(w), s, target), target, init)
  {
    CreateNames(s, w, target);
    CreateOthers(s, w, target, init);
  }

  lemma {:induction false} CreateOthers(s: State, w: nat, target: string, init: State)
    requires OthersOk(s, target, init) && Enabled(Create(w), s)
    ensures OthersOk(Do(Create(w), s, target), target, init)
  {
    SameTemps(s, Do(Create(w), s, target));
    assert IsTemp(s, s.writers[w].tmp);
  }

  lemma {:induction false} CreateNames(s: State, w: nat, target: string)
    requires NamesOk(s, target) && Enabled(Create(w), s)
    ensures NamesOk(Do(Create(w), s, target), target)
  {
  }

  lemma {:induction false} WriteOk(s: State, w: nat, count: nat, target: string, init: State)
    requires Inv(s, target, init) && Enabled(Write(w, count), s)
    ensures Inv(Do(Write(w, count), s, target), target, init)
  {
    WriteFiles(s, w, count, target, init);
    assert Handle(s.writers[w].phase) == Some(s.writers[w].phase.handle);
    WriteDirectory(s, w, count, target, init);
  }

  lemma {:induction false} WriteFiles(s: State, w: nat, count: nat, target: string, init: State)
    requires Files(s, init) && Enabled(Write(w, count), s)
    ensures Files(Do(Write(w, count), s, target), init)
  {
    var s' := Do(Write(w, count), s, target);
    assert WriterOk(s, s.writers[w]);
    var h := s.writers[w].phase.handle;
    assert Handle(s.writers[w].phase) == Some(h);
    forall v | 0 <= v < |s.writers| && v != w
      ensures s'.writers[v] == s.writers[v] && WriterOk(s', s'.writers[v])
    {
      assert WriterOk(s, s.writers[v]);
      assert Handle(s.writers[v].phase) != Some(h);
    }
  }

  lemma {:induction false} WriteDirectory(s: State, w: nat, count: nat, target: string, init: State)
    requires Directory(s, target, init) && Enabled(Write(w, count), s) && s.writers[w].phase.handle >= |init.data|
    ensures Directory(Do(Write(w, count), s, target), target, init)
  {
    SameTemps(s, Do(Write(w, count), s, target));
  }

  lemma {:induction false} ReplaceOk(s: State, w: nat, target: string, init: State)
    requires Inv(s, target, init) && Enabled(Replace(w), s)
    ensures Inv(Do(Replace(w), s, target), target, init)
  {
    assert WriterOk(s, s.writers[w]);
    ReplaceFiles(s, w, target, init);
    ReplaceDirectory(s, w, target, init);
  }

  lemma {:induction false} ReplaceFiles(s: State, w: nat, target: string, init: State)
    requires Files(s, init) && NamesOk(s, target) && Enabled(Replace(w), s)
    ensures Files(Do(Replace(w), s, target), init)
  {
    var s' := Do(Replace(w), s, target);
    assert WriterOk(s, s.writers[w]);
    forall v | 0 <= v < |s.writers| && v != w
      ensures s'.writers[v] == s.writers[v] && WriterOk(s', s'.writers[v])
    {
      assert WriterOk(s, s.writers[v]) && s.writers[v].tmp != s.writers[w].tmp && s.writers[v].tmp != target;
    }
  }

  lemma {:induction false} ReplaceDirectory(s: State, w: nat, target: string, init: State)
    requires Directory(s, target, init) && Enabled(Replace(w), s)
             && Holds(s, s.writers[w].tmp, s.writers[w].phase.handle)
    ensures Directory(Do(Replace(w), s, target), target, init)
  {
    SameTemps(s, Do(Replace(w), s, target));
    assert IsTemp(s, s.writers[w].tmp);
  }

  lemma {:induction false} UnlinkOk(s: State, w: nat, target: string, init: State)
    requires Inv(s, target, init) && Enabled(Unlink(w), s)
    ensures Inv(Do(Unlink(w), s, target), target, init)
  {
    UnlinkFiles(s, w, target, init);
    UnlinkDirectory(s, w, target, init);
  }

  lemma {:induction false} UnlinkFiles(s: State, w: nat, target: string, init: State)
    requires Files(s, init) && NamesOk(s, target) && Enabled(Unlink(w), s)
    ensures Files(Do(Unlink(w), s, target), init)
  {
    var s' := Do(Unlink(w), s, target);
    forall v | 0 <= v < |s.writers| && v != w
      ensures s'.writers[v] == s.writers[v] && WriterOk(s', s'.writers[v])
    {
      assert WriterOk(s, s.writers[v]) && s.writers[v].tmp != s.writers[w].tmp;
    }
  }

  lemma {:induction false} UnlinkDirectory(s: State, w: nat, target: string, init: State)
    requires Directory(s, target, init) && Enabled(Unlink(w), s)
    ensures Directory(Do(Unlink(w), s, target), target, init)
  {
    SameTemps(s, Do(Unlink(w), s, target));
    assert IsTemp(s, s.writers[w].tmp);
  }

  lemma {:induction false} Always(steps: seq<Step>, init: State, s: State, target: string)
    requires Fresh(init, target) && Leads(steps, init, s, target)
    ensures Inv(s, target, init)
    decreases |steps|
  {
    if steps == [] {
      FreshOk(init, target);
    } else {
      var last := steps[|steps| - 1];
      var prev :| Leads(steps[..|steps| - 1], init, prev, target) && Enabled(last, prev) && s == Do(last, prev, target);
      Always(steps[..|steps| - 1], init, prev, target);
      StepOk(last, prev, target, init);
    }
  }

  // ----- what holds in every run -----

  // At every moment, whatever failed or crashed, the target holds its first
  // content or the whole text of the last writer that renamed over it.
  lemma {:induction false} TargetIsWhole(steps: seq<Step>, init: State, s: State, target: string)
    requires Fresh(init, target) && Leads(steps, init, s, target)
    ensures s.replaced == [] ==> Content(s, target) == Content(init, target)
    ensures s.replaced != [] ==>
              s.replaced[|s.replaced| - 1] < |init.writers|
                  && Content(s, target) == Some(init.writers[s.replaced[|s.replaced| - 1]].text)
  {
    Always(steps, init, s, target);
    if s.replaced != [] {
      var w := s.replaced[|s.replaced| - 1];
      assert WriterOk(s, s.writers[w]);
    }
  }

  // The rest of the directory never changes.
  lemma {:induction false} OthersUntouched(steps: seq<Step>, init: State, s: State, target: string, name: string)
    requires Fresh(init, target) && Leads(steps, init, s, target)
    requires name != target && forall w :: 0 <= w < |init.writers| ==> init.writers[w].tmp != name
    ensures Content(s, name) == Content(init, name)
  {
    Always(steps, init, s, target);
    assert !IsTemp(s, name);
  }

  // A step of one writer leaves every other writer's temporary file alone.
  lemma {:induction false} OwnTempOnly(steps: seq<Step>, init: State, s: State, target: string, step: Step, v: nat)
    requires Fresh(init, target) && Leads(steps, init, s, target) && Enabled(step, s)
    requires v < |s.writers| && v != step.w
    ensures var s' := Do(step, s, target);
            v < |s'.writers| && s'.writers[v] == s.writers[v]
                && Content(s', s.writers[v].tmp) == Content(s, s.writers[v].tmp)
  {
    Always(steps, init, s, target);
    StepKeepsTemp(s, target, init, step, v);
  }

  lemma {:induction false} StepKeepsTemp(s: State, target: string, init: State, step: Step, v: nat)
    requires WritersOk(s) && NamesOk(s, target) && Enabled(step, s) && v < |s.writers| && v != step.w
    ensures var s' := Do(step, s, target);
            v < |s'.writers| && s'.writers[v] == s.writers[v]
                && Content(s', s.writers[v].tmp) == Content(s, s.writers[v].tmp)
  {
    var me := s.writers[step.w];
    assert WriterOk(s, me) && me.tmp != s.writers[v].tmp && s.writers[v].tmp != target;
  }

  // Nobody writes to this inode any more.
  ghost predicate Sealed(s: State, inode: nat) {
    inode < |s.data| && forall w :: 0 <= w < |s.writers| && s.writers[w].phase.Writing? ==>
        s.writers[w].phase.handle != inode
  }

  lemma {:induction false} SealedStays(steps: seq<Step>, s: State, s': State, target: string, inode: nat)
    requires Leads(steps, s, s', target) && Sealed(s, inode)
    ensures Sealed(s', inode) && s'.data[inode] == s.data[inode]
    decreases |steps|
  {
    if steps != [] {
      var last := steps[|steps| - 1];
      var prev :| Leads(steps[..|steps| - 1], s, prev, target) && Enabled(last, prev) && s' == Do(last, prev, target);
      SealedStays(steps[..|steps| - 1], s, prev, target, inode);
      StepKeepsSealed(last, prev, target, inode);
    }
  }

  lemma {:induction false} StepKeepsSealed(step: Step, s: State, target: string, inode: nat)
    requires Enabled(step, s) && Sealed(s, inode)
    ensures Sealed(Do(step, s, target), inode) && Do(step, s, target).data[inode] == s.data[inode]
  {
  }

  // Whoever has the target open at some moment keeps reading the same whole text,
  // through every later step.
  lemma {:induction false} ReaderIsUndisturbed(before: seq<Step>, init: State, s: State, after: seq<Step>, s': State,
          target: string)
    requires Fresh(init, target) && Leads(before, init, s, target) && Leads(after, s, s', target) && target in s.names
    ensures s.names[target] < |s.data| <= |s'.data| && s'.data[s.names[target]] == s.data[s.names[target]]
  {
    Always(before, init, s, target);
    TargetSealed(s, target, init);
    SealedStays(after, s, s', target, s.names[target]);
    DataGrows(after, s, s', target);
  }

  lemma {:induction false} TargetSealed(s: State, target: string, init: State)
    requires Inv(s, target, init) && target in s.names
    ensures Sealed(s, s.names[target])
  {
    forall w | 0 <= w < |s.writers| && s.writers[w].phase.Writing?
      ensures s.writers[w].phase.handle != s.names[target]
    {
      assert WriterOk(s, s.writers[w]) && s.writers[w].tmp != target;
    }
  }

  lemma {:induction false} DataGrows(steps: seq<Step>, s: State, s': State, target: string)
    requires Leads(steps, s, s', target)
    ensures |s.data| <= |s'.data|
    decreases |steps|
  {
    if steps != [] {
      var last := steps[|steps| - 1];
      var prev :| Leads(steps[..|steps| - 1], s, prev, target) && Enabled(last, prev) && s' == Do(last, prev, target);
      DataGrows(steps[..|steps| - 1], s, prev, target);
    }
  }

  // When every writer has finished, without a crash and without a failed unlink,
  // no temporary file is left.
  lemma {:induction false} NoTempLeft(steps: seq<Step>, init: State, s: State, target: string)
    requires Fresh(init, target) && Leads(steps, init, s, target)
    requires forall w :: 0 <= w < |s.writers| ==> s.writers[w].phase.Done? || s.writers[w].phase.Cleaned?
    ensures forall w :: 0 <= w < |init.writers| ==> init.writers[w].tmp !in s.names
  {
    Always(steps, init, s, target);
    forall w | 0 <= w < |init.writers|
      ensures init.writers[w].tmp !in s.names
    {
      assert WriterOk(s, s.writers[w]);
    }
  }

  // ----- what an undisturbed writer achieves -----

  lemma {:induction false} TakeStep(steps: seq<Step>, init: State, s: State, step: Step, target: string)
    returns (longer: seq<Step>, s': State)
    requires Leads(steps, init, s, target) && Enabled(step, s)
    ensures steps <= longer && Leads(longer, init, s', target) && s' == Do(step, s, target)
  {
    longer, s' := steps + [step], Do(step, s, target);
    OneMore(steps, init, s, step, target);
  }

  // From any moment on, a writer that has not failed can carry its text to the
  // target by its own steps, whatever the others have done and whatever is there.
  lemma {:induction false} WriterSucceeds(steps: seq<Step>, init: State, s: State, target: string, w: nat)
    returns (longer: seq<Step>, s': State)
    requires Fresh(init, target) && Leads(steps, init, s, target) && w < |s.writers|
    requires var p := s.writers[w].phase; p.Start? || p.Writing? || p.Written?
    ensures steps <= longer && Leads(longer, init, s', target) && w < |init.writers|
    ensures s'.replaced == s.replaced + [w] && Content(s', target) == Some(init.writers[w].text)
  {
    longer, s' := FinishesWriting(steps, init, s, target, w);
    Always(longer, init, s', target);
    assert WriterOk(s', s'.writers[w]);
    longer, s' := TakeStep(longer, init, s', Replace(w), target);
    TargetIsWhole(longer, init, s', target);
  }

  lemma {:induction false} FinishesWriting(steps: seq<Step>, init: State, s: State, target: string, w: nat)
    returns (longer: seq<Step>, s': State)
    requires Fresh(init, target) && Leads(steps, init, s, target) && w < |s.writers|
    requires var p := s.writers[w].phase; p.Start? || p.Writing? || p.Written?
    ensures steps <= longer && Leads(longer, init, s', target) && s'.replaced == s.replaced
    ensures w < |s'.writers| && s'.writers[w].phase.Written?
  {
    longer, s' := steps, s;
    if s.writers[w].phase.Start? {
      Always(longer, init, s', target);
      assert WriterOk(s', s'.writers[w]);
      longer, s' := TakeStep(longer, init, s', Create(w), target);
    }
    if s'.writers[w].phase.Writing? {
      Always(longer, init, s', target);
      assert WriterOk(s', s'.writers[w]);
      if s'.writers[w].phase.count < |s'.writers[w].text| {
        longer, s' := TakeStep(longer, init, s', Write(w, |s'.writers[w].text|), target);
      }
      longer, s' := TakeStep(longer, init, s', Close(w), target);
    }
  }

  // ----- why the names must be distinct -----

  lemma {:induction false} OneMore(steps: seq<Step>, from: State, s: State, step: Step, target: string)
    requires Leads(steps, from, s, target) && Enabled(step, s)
    ensures Leads(steps + [step], from, Do(step, s, target), target)
  {
    var longer := steps + [step];
    assert longer[..|longer| - 1] == steps && longer[|longer| - 1] == step;
  }

  function Sharing(names: map<string, nat>, data: seq<string>, a: Phase, b: Phase, c: Phase,
          replaced: seq<nat>): State {
    State(names, data, [Writer("t", "a", a), Writer("t", "b", b), Writer("t", "cd", c)], replaced)
  }

  const SHARED := Sharing(map[], [], Start, Start, Start, [])

  lemma {:induction false} SecondFails() returns (steps: seq<Step>)
    ensures Leads(steps, SHARED, Sharing(map["t" := 0], [""], Writing(0, 0), Failing, Start, []), "f")
  {
    assert Leads([], SHARED, SHARED, "f");
    OneMore([], SHARED, SHARED, Create(0), "f");
    var s := Do(Create(0), SHARED, "f");
    assert s == Sharing(map["t" := 0], [""], Writing(0, 0), Start, Start, []);
    OneMore([] + [Create(0)], SHARED, s, Create(1), "f");
    steps := [] + [Create(0)] + [Create(1)];
    assert Do(Create(1), s, "f") == Sharing(map["t" := 0], [""], Writing(0, 0), Failing, Start, []);
  }

  lemma {:induction false} FirstIsUnlinked() returns (steps: seq<Step>)
    ensures Leads(steps, SHARED, Sharing(map[], [""], Writing(0, 0), Cleaned, Start, []), "f")
  {
    steps := SecondFails();
    var s := Sharing(map["t" := 0], [""], Writing(0, 0), Failing, Start, []);
    OneMore(steps, SHARED, s, Unlink(1), "f");
    steps := steps + [Unlink(1)];
    assert Do(Unlink(1), s, "f") == Sharing(map[], [""], Writing(0, 0), Cleaned, Start, []);
  }

  lemma {:induction false} ThirdTakesName() returns (steps: seq<Step>)
    ensures Leads(steps, SHARED, Sharing(map["t" := 1], ["", ""], Writing(0, 0), Cleaned, Writing(1, 0), []), "f")
  {
    steps := FirstIsUnlinked();
    var s := Sharing(map[], [""], Writing(0, 0), Cleaned, Start, []);
    OneMore(steps, SHARED, s, Create(2), "f");
    steps := steps + [Create(2)];
    assert Do(Create(2), s, "f") == Sharing(map["t" := 1], ["", ""], Writing(0, 0), Cleaned, Writing(1, 0), []);
  }

  lemma {:induction false} ThirdIsHalfway() returns (steps: seq<Step>)
    ensures Leads(steps, SHARED, Sharing(map["t" := 1], ["a", "c"], Writing(0, 1), Cleaned, Writing(1, 1), []), "f")
  {
    steps := ThirdTakesName();
    var s := Sharing(map["t" := 1], ["", ""], Writing(0, 0), Cleaned, Writing(1, 0), []);
    OneMore(steps, SHARED, s, Write(2, 1), "f");
    steps := steps + [Write(2, 1)];
    var s' := Do(Write(2, 1), s, "f");
    assert "cd"[..1] == "c" && "a"[..1] == "a";
    assert s' == Sharing(map["t" := 1], ["", "c"], Writing(0, 0), Cleaned, Writing(1, 1), []);
    OneMore(steps, SHARED, s', Write(0, 1), "f");
    steps := steps + [Write(0, 1)];
    assert Do(Write(0, 1), s', "f") == Sharing(map["t" := 1], ["a", "c"], Writing(0, 1), Cleaned, Writing(1, 1), []);
  }

  // Three writers with one temporary name: the second one's clean-up unlinks the
  // first one's file, the third takes the name, and the first renames the third's
  // half-written file onto the target.
  lemma {:induction false} SharedNameTears() returns (steps: seq<Step>, s: State)
    ensures Leads(steps, SHARED, s, "f") && Content(s, "f") == Some("c") && s.replaced == [0]
  {
    steps := ThirdIsHalfway();
    var s0 := Sharing(map["t" := 1], ["a", "c"], Writing(0, 1), Cleaned, Writing(1, 1), []);
    OneMore(steps, SHARED, s0, Close(0), "f");
    steps := steps + [Close(0)];
    var s1 := Do(Close(0), s0, "f");
    assert s1 == Sharing(map["t" := 1], ["a", "c"], Written(0), Cleaned, Writing(1, 1), []);
    OneMore(steps, SHARED, s1, Replace(0), "f");
    steps := steps + [Replace(0)];
    s := Do(Replace(0), s1, "f");
  }
}
