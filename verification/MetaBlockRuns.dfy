/** Whole runs of tool batches, injected pairs, cleared channels and molts. */
module MetaBlockRuns {
  import opened Wrappers
  import opened MetaBlock

  datatype Run = Run(
    s: State,
    gone: set<nat>,       // dicts that a molt has taken off the wire
    strays: set<nat>)     // dicts a molt kept on the wire while they carried the payload

  datatype Op =
    | Batch(batch: seq<Dict>, active: Option<Payload>, molted: bool, snapshot: Value)
    | Pair(body: string, payload: Payload)        // a pair injected between turns
    | Cleared                                     // every channel is empty
    | Molt(left: set<nat>)                        // the wire is rebuilt without these dicts

  const START := Run(State([], None, None, None, None), {}, {})

  // What a tool returns: none of the moving blocks is in it.
  predicate Plain(d: Dict) {
    !d.synthesized && !Carries(d) && !Has(d, AgentMeta) && !Has(d, Guidance)
  }

  predicate Enabled(op: Op, r: Run) {
    match op
    case Batch(batch, _, _, _) => forall d <- batch :: Plain(d)
    case Molt(left) => forall i <- left :: i < |r.s.dicts|
    case _ => true
  }

  function Do(op: Op, r: Run): Run {
    match op
    case Batch(batch, active, molted, snapshot) => r.(s := AfterBatch(r.s, batch, active, molted, snapshot))
    case Pair(body, payload) => r.(s := Inject(r.s, body, payload))
    case Cleared => r.(s := Skeletonize(r.s))
    case Molt(left) => Run(r.s.(holder := None), r.gone + left, r.strays + Holding(r.s.holder) - left)
  }

  function Holding(holder: Option<nat>): set<nat> {
    if holder.Some? then {holder.value} else {}
  }

  ghost predicate Leads(ops: seq<Op>, from: Run, to: Run)
    decreases |ops|
  {
    if ops == [] then to == from
    else
      var last := ops[|ops| - 1];
      exists prev :: Leads(ops[..|ops| - 1], from, prev) && Enabled(last, prev) && to == Do(last, prev)
  }

  // ----- who carries the payload -----

  predicate Carrier(i: nat, holder: Option<nat>, strays: set<nat>) {
    holder == Some(i) || i in strays
  }

  // On the wire, the live holder and the strays carry the payload, and nothing else does.
  ghost predicate CarrierInv(dicts: seq<Dict>, holder: Option<nat>, gone: set<nat>, strays: set<nat>) {
    && (forall i <- gone :: i < |dicts|) && (forall i <- strays :: i < |dicts| && i !in gone)
    && (holder.Some? ==>
          && holder.value < |dicts| && holder.value !in gone && holder.value !in strays
          && Has(dicts[holder.value], Notifications) && Has(dicts[holder.value], NotificationGuidance))
    && forall i :: 0 <= i < |dicts| && i !in gone ==> (Carries(dicts[i]) <==> Carrier(i, holder, strays))
  }

  // The recorded signature is that of the payload an ordinary holder carries.
  ghost predicate SignatureInv(dicts: seq<Dict>, holder: Option<nat>, signature: Option<Payload>) {
    holder.Some? && holder.value < |dicts| && !dicts[holder.value].synthesized ==>
      signature.Some? && Shows(dicts[holder.value], signature.value)
  }

  // One dict carries the agent snapshot: the one the last material change put it on.
  ghost predicate RuntimeInv(dicts: seq<Dict>, runtime: Option<nat>, signature: Option<string>) {
    && (runtime.Some? <==> signature.Some?)
    && (runtime.Some? ==>
          && runtime.value < |dicts| && !dicts[runtime.value].synthesized && Has(dicts[runtime.value], Guidance)
          && Has(dicts[runtime.value], AgentMeta)
             && dicts[runtime.value].meta.blocks[AgentMeta].material == signature.value)
    && forall i :: 0 <= i < |dicts| && (Has(dicts[i], AgentMeta) || Has(dicts[i], Guidance)) ==> runtime == Some(i)
  }

  ghost predicate Inv(r: Run) {
    && CarrierInv(r.s.dicts, r.s.holder, r.gone, r.strays)
    && SignatureInv(r.s.dicts, r.s.holder, r.s.signature)
    && RuntimeInv(r.s.dicts, r.s.runtime, r.s.runtimeSignature)
    && forall i :: 0 <= i < |r.s.dicts| ==> !r.s.dicts[i].pending
  }

  // ----- each small step keeps it -----

  lemma {:induction false} ArriveKeeps(s: State, gone: set<nat>, strays: set<nat>, batch: seq<Dict>)
    requires CarrierInv(s.dicts, s.holder, gone, strays) && SignatureInv(s.dicts, s.holder, s.signature)
    requires RuntimeInv(s.dicts, s.runtime, s.runtimeSignature) && forall d <- batch :: Plain(d)
    ensures CarrierInv(s.dicts + batch, s.holder, gone, strays) && SignatureInv(s.dicts + batch, s.holder, s.signature)
    ensures RuntimeInv(s.dicts + batch, s.runtime, s.runtimeSignature)
  {
    var n := |s.dicts|;
    var dicts := s.dicts + batch;
    forall i | 0 <= i < |dicts|
      ensures i < n ==> dicts[i] == s.dicts[i]
      ensures n <= i ==> Plain(dicts[i])
    {
      if n <= i {
        assert dicts[i] == batch[i - n];
      }
    }
  }

  lemma {:induction false} SkeletonFacts(d: Dict)
    ensures !Carries(Skeleton(d)) && Skeleton(d).synthesized == d.synthesized
    ensures !d.synthesized ==> forall key :: key !in PAYLOAD_KEYS ==> Block(Skeleton(d), key) == Block(d, key)
    ensures !Has(d, AgentMeta) ==> !Has(Skeleton(d), AgentMeta)
    ensures !Has(d, Guidance) ==> !Has(Skeleton(d), Guidance)
    ensures !d.pending ==> !Skeleton(d).pending
  {
    if !d.synthesized {
      forall key | key !in PAYLOAD_KEYS
        ensures Block(Skeleton(d), key) == Block(d, key)
      {
        SkeletonKeepsBlocks(d, key);
      }
    }
  }

  lemma {:induction false} SkeletonizeKeeps(s: State, gone: set<nat>, strays: set<nat>)
    requires CarrierInv(s.dicts, s.holder, gone, strays) && RuntimeInv(s.dicts, s.runtime, s.runtimeSignature)
    ensures var s' := Skeletonize(s);
            CarrierInv(s'.dicts, None, gone, strays) && RuntimeInv(s'.dicts, s.runtime, s.runtimeSignature)
  {
    if s.holder.Some? {
      var d := s.dicts[s.holder.value];
      SkeletonFacts(d);
      assert Block(Skeleton(d), AgentMeta) == Block(d, AgentMeta) || d.synthesized;
      assert Block(Skeleton(d), Guidance) == Block(d, Guidance) || d.synthesized;
    }
  }

  lemma {:induction false} StampFacts(d: Dict, p: Payload)
    ensures Shows(Stamp(d, p), p) && Has(Stamp(d, p), Notifications) && Has(Stamp(d, p), NotificationGuidance)
    ensures Stamp(d, p).synthesized == d.synthesized && Stamp(d, p).pending == d.pending && Stamp(d, p).body == d.body
    ensures forall key :: key !in PAYLOAD_KEYS ==> Block(Stamp(d, p), key) == Block(d, key)
  {
  }

  lemma {:induction false} RegisterKeeps(s: State, gone: set<nat>, strays: set<nat>, p: Payload, target: nat)
    requires CarrierInv(s.dicts, None, gone, strays) && RuntimeInv(s.dicts, s.runtime, s.runtimeSignature)
    requires target < |s.dicts| && target !in gone && target !in strays
    ensures var s' := Register(s, p, target);
            && CarrierInv(s'.dicts, Some(target), gone, strays) && SignatureInv(s'.dicts, Some(target), Some(p))
            && RuntimeInv(s'.dicts, s.runtime, s.runtimeSignature) && Shows(s'.dicts[target], p)
  {
    var d := s.dicts[target];
    StampFacts(d, p);
    assert Block(Stamp(d, p), AgentMeta) == Block(d, AgentMeta);
    assert Block(Stamp(d, p), Guidance) == Block(d, Guidance);
  }

  lemma {:induction false} AttachKeeps(s: State, gone: set<nat>, strays: set<nat>, payload: Option<Payload>,
          target: Option<nat>)
    requires CarrierInv(s.dicts, s.holder, gone, strays) && SignatureInv(s.dicts, s.holder, s.signature)
    requires RuntimeInv(s.dicts, s.runtime, s.runtimeSignature)
    requires target.Some? ==> target.value < |s.dicts| && target.value !in gone && target.value !in strays
    ensures var s' := Attach(s, payload, target);
            && CarrierInv(s'.dicts, s'.holder, gone, strays) && SignatureInv(s'.dicts, s'.holder, s'.signature)
            && RuntimeInv(s'.dicts, s'.runtime, s'.runtimeSignature)
  {
    SkeletonizeKeeps(s, gone, strays);
    if payload.Some? && target.Some? {
      RegisterKeeps(Skeletonize(s), gone, strays, payload.value, target.value);
    }
  }

  lemma {:induction false} SameBlocks(dicts: seq<Dict>, dicts': seq<Dict>, holder: Option<nat>,
          signature: Option<Payload>, gone: set<nat>, strays: set<nat>)
    requires CarrierInv(dicts, holder, gone, strays) && SignatureInv(dicts, holder, signature) && |dicts'| == |dicts|
    requires forall i :: 0 <= i < |dicts| ==> dicts'[i].synthesized == dicts[i].synthesized
    requires forall i :: 0 <= i < |dicts| ==> Block(dicts'[i], Notifications) == Block(dicts[i], Notifications)
    requires forall i :: 0 <= i < |dicts| ==>
             Block(dicts'[i], NotificationGuidance) == Block(dicts[i], NotificationGuidance)
    ensures CarrierInv(dicts', holder, gone, strays) && SignatureInv(dicts', holder, signature)
  {
    forall i | 0 <= i < |dicts|
      ensures Carries(dicts'[i]) == Carries(dicts[i])
    {
      assert Block(dicts'[i], Notifications) == Block(dicts[i], Notifications);
    }
  }

  lemma {:induction false} ShedFacts(d: Dict)
    ensures !Has(Shed(d), AgentMeta) && !Has(Shed(d), Guidance)
    ensures Shed(d).synthesized == d.synthesized && Shed(d).pending == d.pending && Shed(d).body == d.body
    ensures forall key :: key !in RUNTIME_KEYS ==> Block(Shed(d), key) == Block(d, key)
  {
    forall key | key !in RUNTIME_KEYS
      ensures Block(Shed(d), key) == Block(d, key)
    {
      ShedKeepsBlocks(d, key);
    }
  }

  lemma {:induction false} StampRuntimeFacts(d: Dict, v: Value)
    ensures Block(StampRuntime(d, v), AgentMeta) == Some(v) && Has(StampRuntime(d, v), Guidance)
    ensures StampRuntime(d, v).synthesized == d.synthesized && StampRuntime(d, v).pending == d.pending
    ensures StampRuntime(d, v).body == d.body
    ensures forall key :: key !in RUNTIME_KEYS ==> Block(StampRuntime(d, v), key) == Block(d, key)
  {
  }

  // Whatever the runtime step does to a dict, only the two runtime blocks and the scaffolding change.
  lemma {:induction false} RuntimeFrame(s: State, first: nat, target: Option<nat>, snapshot: Value, i: nat)
    requires i < |s.dicts| && (target.Some? ==> first <= target.value)
    ensures var s' := AttachRuntime(s, first, target, snapshot);
            && |s'.dicts| == |s.dicts|
            && s'.dicts[i].synthesized == s.dicts[i].synthesized && s'.dicts[i].body == s.dicts[i].body
            && s'.dicts[i].pending == (s.dicts[i].pending && i < first)
            && forall key :: key !in RUNTIME_KEYS ==> Block(s'.dicts[i], key) == Block(s.dicts[i], key)
  {
    var clean := s.(dicts := CleanFrom(s.dicts, first));
    var d := clean.dicts[i];
    ShedFacts(d);
    StampRuntimeFacts(d, snapshot);
    StampRuntimeFacts(Shed(d), snapshot);
    assert forall key :: Block(d, key) == Block(s.dicts[i], key);
  }

  lemma {:induction false} ShedHolderKeeps(s: State)
    requires RuntimeInv(s.dicts, s.runtime, s.runtimeSignature)
    ensures var s' := ShedHolder(s);
            |s'.dicts| == |s.dicts| && forall i :: 0 <= i < |s.dicts| ==>
              !Has(s'.dicts[i], AgentMeta) && !Has(s'.dicts[i], Guidance)
                  && s'.dicts[i].synthesized == s.dicts[i].synthesized
  {
    if s.runtime.Some? {
      ShedFacts(s.dicts[s.runtime.value]);
    }
  }

  lemma {:induction false} AttachRuntimeKeeps(s: State, first: nat, target: Option<nat>, snapshot: Value)
    requires RuntimeInv(s.dicts, s.runtime, s.runtimeSignature)
    requires target.Some? ==> target.value < |s.dicts| && !s.dicts[target.value].synthesized
    ensures var s' := AttachRuntime(s, first, target, snapshot); RuntimeInv(s'.dicts, s'.runtime, s'.runtimeSignature)
  {
    var clean := s.(dicts := CleanFrom(s.dicts, first));
    assert RuntimeInv(clean.dicts, clean.runtime, clean.runtimeSignature) by {
      assert forall i :: 0 <= i < |s.dicts| ==>
             clean.dicts[i].meta == s.dicts[i].meta && clean.dicts[i].synthesized == s.dicts[i].synthesized;
    }
    if Moves(s, target, snapshot) {
      ShedHolderKeeps(clean);
      StampRuntimeFacts(ShedHolder(clean).dicts[target.value], snapshot);
    }
  }

  lemma {:induction false} MoveNotificationsKeeps(s: State, gone: set<nat>, strays: set<nat>, first: nat,
          active: Option<Payload>, molted: bool)
    requires CarrierInv(s.dicts, s.holder, gone, strays) && SignatureInv(s.dicts, s.holder, s.signature)
    requires RuntimeInv(s.dicts, s.runtime, s.runtimeSignature)
    requires forall i :: first <= i < |s.dicts| ==> i !in gone && i !in strays
    ensures var s' := MoveNotifications(s, first, active, molted);
            && CarrierInv(s'.dicts, s'.holder, gone, strays) && SignatureInv(s'.dicts, s'.holder, s'.signature)
            && RuntimeInv(s'.dicts, s'.runtime, s'.runtimeSignature) && |s'.dicts| == |s.dicts|
  {
    if molted {
      SkeletonizeKeeps(s, gone, strays);
    } else {
      AttachKeeps(s, gone, strays, active, Target(first, |s.dicts|));
    }
  }

  // What moving the notifications does to a dict: an ordinary one keeps all but the payload blocks.
  lemma {:induction false} NotificationFrame(s: State, first: nat, active: Option<Payload>, molted: bool, i: nat)
    requires i < |s.dicts| && !s.dicts[i].synthesized
    ensures var s' := MoveNotifications(s, first, active, molted);
            && |s'.dicts| == |s.dicts|
            && !s'.dicts[i].synthesized && s'.dicts[i].pending == s.dicts[i].pending
               && s'.dicts[i].body == s.dicts[i].body
            && forall key :: key !in PAYLOAD_KEYS ==> Block(s'.dicts[i], key) == Block(s.dicts[i], key)
  {
    SkeletonFacts(s.dicts[i]);
    if active.Some? {
      StampFacts(s.dicts[i], active.value);
      StampFacts(Skeleton(s.dicts[i]), active.value);
    }
  }

  lemma {:induction false} PendingFrame(s: State, first: nat, active: Option<Payload>, molted: bool, i: nat)
    requires i < |s.dicts| && !s.dicts[i].pending
    ensures var s' := MoveNotifications(s, first, active, molted); |s'.dicts| == |s.dicts| && !s'.dicts[i].pending
  {
    SkeletonFacts(s.dicts[i]);
  }

  lemma {:induction false} NewestOrdinary(s: State, batch: seq<Dict>, active: Option<Payload>, molted: bool)
    requires batch != [] && forall d <- batch :: Plain(d)
    ensures var moved := MoveNotifications(s.(dicts := s.dicts + batch), |s.dicts|, active, molted);
            |moved.dicts| == |s.dicts| + |batch| && !moved.dicts[|s.dicts| + |batch| - 1].synthesized
  {
    var arrived := s.(dicts := s.dicts + batch);
    assert arrived.dicts[|s.dicts| + |batch| - 1] == batch[|batch| - 1] && batch[|batch| - 1] in batch;
    NotificationFrame(arrived, |s.dicts|, active, molted, |s.dicts| + |batch| - 1);
  }

  lemma {:induction false} MovedKeeps(s: State, gone: set<nat>, strays: set<nat>, batch: seq<Dict>,
          active: Option<Payload>, molted: bool)
    requires CarrierInv(s.dicts, s.holder, gone, strays) && SignatureInv(s.dicts, s.holder, s.signature)
    requires RuntimeInv(s.dicts, s.runtime, s.runtimeSignature) && forall d <- batch :: Plain(d)
    ensures var s' := MoveNotifications(s.(dicts := s.dicts + batch), |s.dicts|, active, molted);
            && CarrierInv(s'.dicts, s'.holder, gone, strays) && SignatureInv(s'.dicts, s'.holder, s'.signature)
            && RuntimeInv(s'.dicts, s'.runtime, s'.runtimeSignature) && |s'.dicts| == |s.dicts| + |batch|
  {
    ArriveKeeps(s, gone, strays, batch);
    MoveNotificationsKeeps(s.(dicts := s.dicts + batch), gone, strays, |s.dicts|, active, molted);
  }

  lemma {:induction false} BatchStep(r: Run, batch: seq<Dict>, active: Option<Payload>, molted: bool, snapshot: Value)
    requires Inv(r) && forall d <- batch :: Plain(d)
    ensures Inv(r.(s := AfterBatch(r.s, batch, active, molted, snapshot)))
  {
    var first := |r.s.dicts|;
    MovedKeeps(r.s, r.gone, r.strays, batch, active, molted);
    var moved := MoveNotifications(r.s.(dicts := r.s.dicts + batch), first, active, molted);
    var target := Target(first, first + |batch|);
    if batch != [] {
      NewestOrdinary(r.s, batch, active, molted);
    }
    AttachRuntimeKeeps(moved, first, target, snapshot);
    RuntimeStepKeepsCarriers(moved, r.gone, r.strays, first, target, snapshot);
    NoScaffolding(r.s, batch, active, molted, snapshot);
  }

  // The batch's scaffolding never stays.
  lemma {:induction false} NoScaffolding(s: State, batch: seq<Dict>, active: Option<Payload>, molted: bool,
          snapshot: Value)
    requires forall i :: 0 <= i < |s.dicts| ==> !s.dicts[i].pending
    ensures var s' := AfterBatch(s, batch, active, molted, snapshot);
            forall i :: 0 <= i < |s'.dicts| ==> !s'.dicts[i].pending
  {
    var first := |s.dicts|;
    var arrived := s.(dicts := s.dicts + batch);
    var moved := MoveNotifications(arrived, first, active, molted);
    forall i | 0 <= i < |moved.dicts|
      ensures !AttachRuntime(moved, first, Target(first, |moved.dicts|), snapshot).dicts[i].pending
    {
      RuntimeFrame(moved, first, Target(first, |moved.dicts|), snapshot, i);
      if i < first {
        assert arrived.dicts[i] == s.dicts[i];
        PendingFrame(arrived, first, active, molted, i);
      }
    }
  }

  lemma {:induction false} RuntimeStepKeepsCarriers(s: State, gone: set<nat>, strays: set<nat>, first: nat,
          target: Option<nat>, snapshot: Value)
    requires CarrierInv(s.dicts, s.holder, gone, strays) && SignatureInv(s.dicts, s.holder, s.signature)
    requires target.Some? ==> first <= target.value
    ensures var s' := AttachRuntime(s, first, target, snapshot);
            CarrierInv(s'.dicts, s'.holder, gone, strays) && SignatureInv(s'.dicts, s'.holder, s'.signature)
                && |s'.dicts| == |s.dicts|
  {
    var s' := AttachRuntime(s, first, target, snapshot);
    forall i | 0 <= i < |s.dicts|
      ensures s'.dicts[i].synthesized == s.dicts[i].synthesized
      ensures Block(s'.dicts[i], Notifications) == Block(s.dicts[i], Notifications)
      ensures Block(s'.dicts[i], NotificationGuidance) == Block(s.dicts[i], NotificationGuidance)
    {
      RuntimeFrame(s, first, target, snapshot, i);
    }
    SameBlocks(s.dicts, s'.dicts, s.holder, s.signature, gone, strays);
  }

  lemma {:induction false} PairStep(r: Run, body: string, payload: Payload)
    requires Inv(r)
    ensures Inv(r.(s := Inject(r.s, body, payload)))
  {
    var n := |r.s.dicts|;
    var pair := PairBody(body, payload);
    var dicts := r.s.dicts + [pair];
    assert forall i :: 0 <= i < n ==> dicts[i] == r.s.dicts[i];
    assert dicts[n] == pair;
    assert RuntimeInv(dicts, r.s.runtime, r.s.runtimeSignature);
    if r.s.holder.Some? {
      var d := dicts[r.s.holder.value];
      SkeletonFacts(d);
      assert Block(Skeleton(d), AgentMeta) == Block(d, AgentMeta) || d.synthesized;
      assert Block(Skeleton(d), Guidance) == Block(d, Guidance) || d.synthesized;
    }
  }

  lemma {:induction false} Step(op: Op, r: Run)
    requires Inv(r) && Enabled(op, r)
    ensures Inv(Do(op, r))
  {
    match op
    case Batch(batch, active, molted, snapshot) => BatchStep(r, batch, active, molted, snapshot);
    case Pair(body, payload) => PairStep(r, body, payload);
    case Cleared =>
      SkeletonizeKeeps(r.s, r.gone, r.strays);
      if r.s.holder.Some? {
        SkeletonFacts(r.s.dicts[r.s.holder.value]);
      }
    case Molt(left) =>
  }

  lemma {:induction false} Always(ops: seq<Op>, from: Run, r: Run)
    requires Leads(ops, from, r) && Inv(from)
    ensures Inv(r)
    decreases |ops|
  {
    if ops != [] {
      var init, last := ops[..|ops| - 1], ops[|ops| - 1];
      var prev :| Leads(init, from, prev) && Enabled(last, prev) && r == Do(last, prev);
      Always(init, from, prev);
      Step(last, prev);
    }
  }

  // ----- what holds in every run -----

  // On the wire the payload is carried by the live holder and by the dicts that a
  // molt kept while they were the holder; by nothing else.
  lemma {:induction false} OneCarrier(ops: seq<Op>, r: Run, i: nat)
    requires Leads(ops, START, r) && i < |r.s.dicts| && i !in r.gone
    ensures Carries(r.s.dicts[i]) <==> r.s.holder == Some(i) || i in r.strays
  {
    Always(ops, START, r);
  }

  // A molt that takes the holder off the wire leaves no strays, so the holder is the only carrier.
  ghost predicate MoltsDropHolder(ops: seq<Op>, r: Run)
    decreases |ops|
  {
    if ops == [] then r == START
    else
      var last := ops[|ops| - 1];
      exists prev :: MoltsDropHolder(ops[..|ops| - 1], prev) && Enabled(last, prev) && r == Do(last, prev)
                     && (last.Molt? ==> Holding(prev.s.holder) <= last.left)
  }

  lemma {:induction false} NoStrays(ops: seq<Op>, r: Run)
    requires MoltsDropHolder(ops, r)
    ensures Leads(ops, START, r) && r.strays == {}
    decreases |ops|
  {
    if ops != [] {
      var init, last := ops[..|ops| - 1], ops[|ops| - 1];
      var prev :| MoltsDropHolder(init, prev) && Enabled(last, prev) && r == Do(last, prev)
                  && (last.Molt? ==> Holding(prev.s.holder) <= last.left);
      NoStrays(init, prev);
    }
  }

  // At most one dict in history carries the payload, and it is the registered holder.
  lemma {:induction false} SoleCarrier(ops: seq<Op>, r: Run, i: nat)
    requires MoltsDropHolder(ops, r) && i < |r.s.dicts| && i !in r.gone
    ensures Carries(r.s.dicts[i]) <==> r.s.holder == Some(i)
  {
    NoStrays(ops, r);
    OneCarrier(ops, r, i);
  }

  // The recorded signature is that of the payload carried, whenever an ordinary result carries it.
  lemma {:induction false} SignatureIsCarried(ops: seq<Op>, r: Run)
    requires Leads(ops, START, r) && r.s.holder.Some?
    ensures var h := r.s.holder.value;
            h < |r.s.dicts| && (r.s.dicts[h].synthesized
                || (r.s.signature.Some? && Shows(r.s.dicts[h], r.s.signature.value)))
  {
    Always(ops, START, r);
  }

  // A synthesized body carries the payload, or it is a bare placeholder.
  ghost predicate PlaceholderInv(dicts: seq<Dict>) {
    forall i :: 0 <= i < |dicts| && dicts[i].synthesized ==>
      (Has(dicts[i], Notifications) && Has(dicts[i], NotificationGuidance))
      || (dicts[i].placeholder && dicts[i].meta == Absent)
  }

  lemma {:induction false} PlaceholderStep(op: Op, r: Run)
    requires Inv(r) && Enabled(op, r) && PlaceholderInv(r.s.dicts)
    ensures PlaceholderInv(Do(op, r).s.dicts)
  {
    match op
    case Batch(batch, active, molted, snapshot) =>
      BatchPlaceholders(r.s, r.gone, r.strays, batch, active, molted, snapshot);
    case Pair(body, payload) =>
      var dicts := r.s.dicts + [PairBody(body, payload)];
      assert forall i :: 0 <= i < |r.s.dicts| ==> dicts[i] == r.s.dicts[i];
    case Cleared =>
    case Molt(_) =>
  }

  lemma {:induction false} BatchPlaceholders(s: State, gone: set<nat>, strays: set<nat>, batch: seq<Dict>,
          active: Option<Payload>, molted: bool, snapshot: Value)
    requires CarrierInv(s.dicts, s.holder, gone, strays) && SignatureInv(s.dicts, s.holder, s.signature)
    requires RuntimeInv(s.dicts, s.runtime, s.runtimeSignature) && PlaceholderInv(s.dicts)
    requires forall d <- batch :: Plain(d)
    ensures PlaceholderInv(AfterBatch(s, batch, active, molted, snapshot).dicts)
  {
    var first := |s.dicts|;
    var arrived := s.(dicts := s.dicts + batch);
    forall i | first <= i < |arrived.dicts|
      ensures !arrived.dicts[i].synthesized
    {
      assert arrived.dicts[i] == batch[i - first] && batch[i - first] in batch;
    }
    assert forall i :: 0 <= i < first ==> arrived.dicts[i] == s.dicts[i];
    MovedKeeps(s, gone, strays, batch, active, molted);
    var moved := MoveNotifications(arrived, first, active, molted);
    MovedPlaceholders(arrived, first, active, molted);
    RuntimePlaceholders(moved, first, Target(first, |moved.dicts|), snapshot);
  }

  lemma {:induction false} MovedPlaceholders(s: State, first: nat, active: Option<Payload>, molted: bool)
    requires PlaceholderInv(s.dicts) && forall i :: first <= i < |s.dicts| ==> !s.dicts[i].synthesized
    ensures var s' := MoveNotifications(s, first, active, molted);
            PlaceholderInv(s'.dicts) && forall i :: first <= i < |s'.dicts| ==> !s'.dicts[i].synthesized
  {
    var s' := MoveNotifications(s, first, active, molted);
    forall i | 0 <= i < |s.dicts|
      ensures s'.dicts[i].synthesized ==> s'.dicts[i] == s.dicts[i] || s'.dicts[i] == SKELETON
      ensures first <= i ==> !s'.dicts[i].synthesized
    {
      if !s.dicts[i].synthesized {
        NotificationFrame(s, first, active, molted, i);
      }
    }
  }

  lemma {:induction false} RuntimePlaceholders(s: State, first: nat, target: Option<nat>, snapshot: Value)
    requires RuntimeInv(s.dicts, s.runtime, s.runtimeSignature) && PlaceholderInv(s.dicts)
    requires forall i :: first <= i < |s.dicts| ==> !s.dicts[i].synthesized
    requires target.Some? ==> first <= target.value < |s.dicts|
    ensures PlaceholderInv(AttachRuntime(s, first, target, snapshot).dicts)
  {
    var s' := AttachRuntime(s, first, target, snapshot);
    forall i | 0 <= i < |s.dicts|
      ensures s'.dicts[i].synthesized ==> s'.dicts[i] == s.dicts[i]
    {
      RuntimeFrame(s, first, target, snapshot, i);
    }
  }

  // In every run an injected body that lost its payload is a bare placeholder.
  lemma {:induction false} MovedPairIsPlaceholder(ops: seq<Op>, r: Run, i: nat)
    requires Leads(ops, START, r) && i < |r.s.dicts| && r.s.dicts[i].synthesized
    ensures PlaceholderInv(r.s.dicts)
    ensures !Carries(r.s.dicts[i]) ==> r.s.dicts[i].placeholder && r.s.dicts[i].meta == Absent
    decreases |ops|
  {
    PlaceholdersAlways(ops, r);
  }

  lemma {:induction false} PlaceholdersAlways(ops: seq<Op>, r: Run)
    requires Leads(ops, START, r)
    ensures PlaceholderInv(r.s.dicts)
    decreases |ops|
  {
    if ops != [] {
      var init, last := ops[..|ops| - 1], ops[|ops| - 1];
      var prev :| Leads(init, START, prev) && Enabled(last, prev) && r == Do(last, prev);
      PlaceholdersAlways(init, prev);
      Always(init, START, prev);
      PlaceholderStep(last, prev);
    }
  }

  ghost predicate Current(s: State, p: Payload) {
    s.holder.Some? && s.holder.value < |s.dicts| && Shows(s.dicts[s.holder.value], p)
  }

  // An injected pair holds another payload than the one last signed, and the
  // signed one is active again.
  predicate StaleHolder(s: State, p: Payload, newest: Dict) {
    && s.signature == Some(p) && !newest.placeholder
    && s.holder.Some? && s.holder.value < |s.dicts|
    && s.dicts[s.holder.value].synthesized && !Shows(s.dicts[s.holder.value], p)
  }

  // After a batch with active notifications and a dict to put them on, the holder
  // shows the current payload, unless an injected pair hides behind an old signature.
  lemma {:induction false} BatchIsCurrent(ops: seq<Op>, r: Run, batch: seq<Dict>, p: Payload, snapshot: Value)
    requires Leads(ops, START, r) && batch != [] && forall d <- batch :: Plain(d)
    ensures Current(AfterBatch(r.s, batch, Some(p), false, snapshot), p) <==> !StaleHolder(r.s, p, batch[|batch| - 1])
  {
    Always(ops, START, r);
    var first := |r.s.dicts|;
    var arrived := r.s.(dicts := r.s.dicts + batch);
    ArriveKeeps(r.s, r.gone, r.strays, batch);
    var target := first + |batch| - 1;
    assert arrived.dicts[target] == batch[|batch| - 1];
    AttachIsCurrent(arrived, r.gone, r.strays, p, target);
    var moved := Attach(arrived, Some(p), Some(target));
    CurrentKept(moved, p, first, Some(target), snapshot);
    assert r.s.holder.Some? ==> arrived.dicts[r.s.holder.value] == r.s.dicts[r.s.holder.value];
  }

  lemma {:induction false} AttachIsCurrent(s: State, gone: set<nat>, strays: set<nat>, p: Payload, target: nat)
    requires CarrierInv(s.dicts, s.holder, gone, strays) && SignatureInv(s.dicts, s.holder, s.signature)
    requires RuntimeInv(s.dicts, s.runtime, s.runtimeSignature)
    requires target < |s.dicts| && target !in gone && target !in strays
    ensures Current(Attach(s, Some(p), Some(target)), p) <==> !StaleHolder(s, p, s.dicts[target])
  {
    if !Keeps(s, p, target) {
      SkeletonizeKeeps(s, gone, strays);
      RegisterKeeps(Skeletonize(s), gone, strays, p, target);
    }
  }

  lemma {:induction false} CurrentKept(s: State, p: Payload, first: nat, target: Option<nat>, snapshot: Value)
    requires target.Some? ==> first <= target.value
    ensures Current(AttachRuntime(s, first, target, snapshot), p) <==> Current(s, p)
  {
    if s.holder.Some? && s.holder.value < |s.dicts| {
      RuntimeFrame(s, first, target, snapshot, s.holder.value);
    }
  }

  // An injected pair is the newest dict on the wire, shows what was injected, and is the holder.
  lemma {:induction false} PairIsCurrent(ops: seq<Op>, r: Run, body: string, p: Payload, i: nat)
    requires Leads(ops, START, r)
    ensures var s', n := Inject(r.s, body, p), |r.s.dicts|;
            && |s'.dicts| == n + 1 && s'.holder == Some(n) && Current(s', p)
            && s'.dicts[n].body == body && s'.dicts[n].synthesized && !s'.dicts[n].placeholder
            && s'.signature == r.s.signature
            && (i < n && i !in r.gone && i !in r.strays ==> !Carries(s'.dicts[i]))
  {
    Always(ops, START, r);
    PairStep(r, body, p);
  }

  // A batch that finds every channel empty takes the payload off the wire, down to
  // what a molt left behind, and forgets holder and signature.
  lemma {:induction false} QuietBatchClears(ops: seq<Op>, r: Run, batch: seq<Dict>, snapshot: Value, i: nat)
    requires Leads(ops, START, r) && forall d <- batch :: Plain(d)
    ensures var s' := AfterBatch(r.s, batch, None, false, snapshot);
            && s'.holder == None && s'.signature == None
            && (i < |s'.dicts| && i !in r.gone && i !in r.strays ==>
                  !Has(s'.dicts[i], Notifications) && !Has(s'.dicts[i], NotificationGuidance))
  {
    Always(ops, START, r);
    BatchStep(r, batch, None, false, snapshot);
    RuntimeLeavesHolder(r.s, batch, None, false, snapshot);
  }

  // So does a batch that molted, whatever is active; the signature stays.
  lemma {:induction false} MoltedBatchClears(ops: seq<Op>, r: Run, batch: seq<Dict>, active: Option<Payload>,
          snapshot: Value, i: nat)
    requires Leads(ops, START, r) && forall d <- batch :: Plain(d)
    ensures var s' := AfterBatch(r.s, batch, active, true, snapshot);
            && s'.holder == None && s'.signature == r.s.signature
            && (i < |s'.dicts| && i !in r.gone && i !in r.strays ==>
                  !Has(s'.dicts[i], Notifications) && !Has(s'.dicts[i], NotificationGuidance))
  {
    Always(ops, START, r);
    BatchStep(r, batch, active, true, snapshot);
    RuntimeLeavesHolder(r.s, batch, active, true, snapshot);
  }

  lemma {:induction false} RuntimeLeavesHolder(s: State, batch: seq<Dict>, active: Option<Payload>, molted: bool,
          snapshot: Value)
    ensures var s' := AfterBatch(s, batch, active, molted, snapshot);
            var moved := MoveNotifications(s.(dicts := s.dicts + batch), |s.dicts|, active, molted);
            s'.holder == moved.holder && s'.signature == moved.signature
  {
  }

  // As long as notifications only travel on tool results, every such batch leaves them current.
  lemma {:induction false} ToolBatchesStayCurrent(ops: seq<Op>, r: Run, batch: seq<Dict>, p: Payload, snapshot: Value)
    requires Leads(ops, START, r) && (forall op <- ops :: !op.Pair?) && batch != [] && forall d <- batch :: Plain(d)
    ensures Current(AfterBatch(r.s, batch, Some(p), false, snapshot), p)
  {
    NoneSynthesized(ops, r);
    BatchIsCurrent(ops, r, batch, p, snapshot);
  }

  lemma {:induction false} NoneSynthesized(ops: seq<Op>, r: Run)
    requires Leads(ops, START, r) && forall op <- ops :: !op.Pair?
    ensures forall i :: 0 <= i < |r.s.dicts| ==> !r.s.dicts[i].synthesized
    decreases |ops|
  {
    if ops != [] {
      var init, last := ops[..|ops| - 1], ops[|ops| - 1];
      var prev :| Leads(init, START, prev) && Enabled(last, prev) && r == Do(last, prev);
      NoneSynthesized(init, prev);
      assert !last.Pair?;
      forall i | 0 <= i < |r.s.dicts|
        ensures !r.s.dicts[i].synthesized
      {
        if i < |prev.s.dicts| {
          OrdinaryKept(last, prev, i);
        } else {
          ArrivedOrdinary(last, prev, i);
        }
      }
    }
  }

  // A tool result stays what it was: its own content, its `tool_meta`, and any
  // block that is neither notification nor snapshot.
  lemma {:induction false} OrdinaryKept(op: Op, r: Run, i: nat)
    requires i < |r.s.dicts| && !r.s.dicts[i].synthesized
    ensures var r' := Do(op, r);
            && |r.s.dicts| <= |r'.s.dicts| && !r'.s.dicts[i].synthesized && r'.s.dicts[i].body == r.s.dicts[i].body
            && forall key :: key !in PAYLOAD_KEYS + RUNTIME_KEYS ==>
               Block(r'.s.dicts[i], key) == Block(r.s.dicts[i], key)
  {
    SkeletonFacts(r.s.dicts[i]);
    match op
    case Batch(batch, active, molted, snapshot) => BatchKeepsOrdinary(r.s, batch, active, molted, snapshot, i);
    case Pair(body, payload) => assert (r.s.dicts + [PairBody(body, payload)])[i] == r.s.dicts[i];
    case Cleared =>
    case Molt(_) =>
  }

  lemma {:induction false} BatchKeepsOrdinary(s: State, batch: seq<Dict>, active: Option<Payload>, molted: bool,
          snapshot: Value, i: nat)
    requires i < |s.dicts| + |batch| && !(s.dicts + batch)[i].synthesized
    ensures var s' := AfterBatch(s, batch, active, molted, snapshot);
            && |s'.dicts| == |s.dicts| + |batch| && !s'.dicts[i].synthesized
               && s'.dicts[i].body == (s.dicts + batch)[i].body
            && forall key :: key !in PAYLOAD_KEYS + RUNTIME_KEYS ==>
               Block(s'.dicts[i], key) == Block((s.dicts + batch)[i], key)
  {
    var first := |s.dicts|;
    var arrived := s.(dicts := s.dicts + batch);
    NotificationFrame(arrived, first, active, molted, i);
    RuntimeFrame(MoveNotifications(arrived, first, active, molted), first, Target(first, |arrived.dicts|), snapshot, i);
  }

  lemma {:induction false} ArrivedOrdinary(op: Op, r: Run, i: nat)
    requires Enabled(op, r) && !op.Pair? && |r.s.dicts| <= i < |Do(op, r).s.dicts|
    ensures !Do(op, r).s.dicts[i].synthesized
  {
    match op
    case Batch(batch, active, molted, snapshot) =>
      var first := |r.s.dicts|;
      BatchLength(r.s, batch, active, molted, snapshot);
      assert (r.s.dicts + batch)[i] == batch[i - first] && batch[i - first] in batch;
      BatchKeepsOrdinary(r.s, batch, active, molted, snapshot, i);
    case Cleared =>
    case Molt(_) =>
  }

  lemma {:induction false} BatchLength(s: State, batch: seq<Dict>, active: Option<Payload>, molted: bool,
          snapshot: Value)
    ensures |AfterBatch(s, batch, active, molted, snapshot).dicts| == |s.dicts| + |batch|
  {
  }

  // Along any run, from wherever it starts.
  lemma {:induction false} ResultsArePermanent(ops: seq<Op>, from: Run, to: Run, i: nat)
    requires Leads(ops, from, to) && i < |from.s.dicts| && !from.s.dicts[i].synthesized
    ensures |from.s.dicts| <= |to.s.dicts| && !to.s.dicts[i].synthesized && to.s.dicts[i].body == from.s.dicts[i].body
    ensures forall key :: key !in PAYLOAD_KEYS + RUNTIME_KEYS ==>
            Block(to.s.dicts[i], key) == Block(from.s.dicts[i], key)
    decreases |ops|
  {
    if ops != [] {
      var init, last := ops[..|ops| - 1], ops[|ops| - 1];
      var prev :| Leads(init, from, prev) && Enabled(last, prev) && to == Do(last, prev);
      ResultsArePermanent(init, from, prev, i);
      OrdinaryKept(last, prev, i);
    }
  }

  // ----- the agent snapshot -----

  // A dict on the wire shows this snapshot.
  ghost predicate Visible(r: Run, material: string) {
    exists i :: 0 <= i < |r.s.dicts| && i !in r.gone && Has(r.s.dicts[i], AgentMeta)
                && r.s.dicts[i].meta.blocks[AgentMeta].material == material
  }

  // After a batch whose newest dict brings a snapshot, the wire shows it exactly
  // when it changed or the dict that had it is still there: a molt does not
  // forget the signature of a snapshot it removed.
  lemma {:induction false} SnapshotIsVisible(ops: seq<Op>, r: Run, batch: seq<Dict>, active: Option<Payload>,
          molted: bool, snapshot: Value)
    requires Leads(ops, START, r) && (forall d <- batch :: Plain(d)) && batch != [] && batch[|batch| - 1].pending
    ensures Visible(r.(s := AfterBatch(r.s, batch, active, molted, snapshot)), snapshot.material) <==>
            r.s.runtimeSignature != Some(snapshot.material) || (r.s.runtime.Some? && r.s.runtime.value !in r.gone)
  {
    Always(ops, START, r);
    BatchStep(r, batch, active, molted, snapshot);
    var r' := r.(s := AfterBatch(r.s, batch, active, molted, snapshot));
    SnapshotRecorded(r.s, batch, active, molted, snapshot);
    assert Inv(r');
    var at := r'.s.runtime.value;
    assert Has(r'.s.dicts[at], AgentMeta) && r'.s.dicts[at].meta.blocks[AgentMeta].material == snapshot.material;
  }

  lemma {:induction false} SnapshotRecorded(s: State, batch: seq<Dict>, active: Option<Payload>, molted: bool,
          snapshot: Value)
    requires (forall d <- batch :: Plain(d)) && batch != [] && batch[|batch| - 1].pending
    ensures var s' := AfterBatch(s, batch, active, molted, snapshot);
            && s'.runtimeSignature == Some(snapshot.material)
            && s'.runtime ==
               if s.runtimeSignature == Some(snapshot.material) then s.runtime else Some(|s.dicts| + |batch| - 1)
  {
    var first := |s.dicts|;
    var arrived := s.(dicts := s.dicts + batch);
    assert arrived.dicts[first + |batch| - 1] == batch[|batch| - 1] && batch[|batch| - 1] in batch;
    NotificationFrame(arrived, first, active, molted, first + |batch| - 1);
  }

  // A changed snapshot lands on the newest dict, as it was taken.
  lemma {:induction false} SnapshotLands(s: State, batch: seq<Dict>, active: Option<Payload>, molted: bool,
          snapshot: Value)
    requires (forall d <- batch :: Plain(d)) && batch != [] && batch[|batch| - 1].pending
    requires s.runtimeSignature != Some(snapshot.material)
    ensures var s', last := AfterBatch(s, batch, active, molted, snapshot), |s.dicts| + |batch| - 1;
            && last < |s'.dicts| && s'.runtime == Some(last)
            && Block(s'.dicts[last], AgentMeta) == Some(snapshot)
            && Block(s'.dicts[last], Guidance) == Some(Value("meta_guidance", ""))
  {
    SnapshotRecorded(s, batch, active, molted, snapshot);
    BatchLength(s, batch, active, molted, snapshot);
  }

  // ----- where the code falls short -----

  const NEWS := Payload(Value("news", ""), GUIDANCE_REF)
  const MAIL := Payload(Value("mail", ""), GUIDANCE_REF)
  const RESULT := Dict(false, false, true, "ok", Absent)
  const CALM := Value("calm", "")

  lemma {:induction false} OneStep(ops: seq<Op>, r: Run, op: Op)
    requires Leads(ops, START, r) && Enabled(op, r)
    ensures Leads(ops + [op], START, Do(op, r))
  {
    var longer := ops + [op];
    assert longer[..|longer| - 1] == ops && longer[|longer| - 1] == op;
  }

  lemma {:induction false} FirstBatch() returns (r: Run)
    ensures Leads([Batch([RESULT], Some(NEWS), false, CALM)], START, r)
    ensures r.s.signature == Some(NEWS) && r.s.holder == Some(0) && |r.s.dicts| == 1 && Shows(r.s.dicts[0], NEWS)
    ensures r.s.runtimeSignature == Some(CALM.material) && r.s.runtime == Some(0) && r.gone == {} && r.strays == {}
  {
    var op := Batch([RESULT], Some(NEWS), false, CALM);
    assert Leads([], START, START);
    OneStep([], START, op);
    assert [] + [op] == [op];
    r := Do(op, START);
    Always([op], START, r);
    SnapshotRecorded(START.s, [RESULT], Some(NEWS), false, CALM);
    assert !StaleHolder(START.s, NEWS, RESULT);
    assert [RESULT][0] == RESULT;
    BatchIsCurrent([], START, [RESULT], NEWS, CALM);
  }

  // News on a tool result, then a pair injected with mail, then news again: the
  // next batch leaves the holder showing mail.
  lemma {:induction false} InjectionHidesNews() returns (ops: seq<Op>, r: Run)
    ensures Leads(ops, START, r)
    ensures !Current(AfterBatch(r.s, [RESULT], Some(NEWS), false, CALM), NEWS)
  {
    var before := FirstBatch();
    var first := [Batch([RESULT], Some(NEWS), false, CALM)];
    var pair := Pair("check", MAIL);
    OneStep(first, before, pair);
    ops, r := first + [pair], Do(pair, before);
    assert r.s.dicts[1] == PairBody("check", MAIL);
    assert [RESULT][0] == RESULT;
    BatchIsCurrent(ops, r, [RESULT], NEWS, CALM);
  }

  // A molt that drops the dict with the snapshot: an unchanged one is not shown again.
  lemma {:induction false} MoltHidesSnapshot() returns (ops: seq<Op>, r: Run)
    ensures Leads(ops, START, r)
    ensures !Visible(r.(s := AfterBatch(r.s, [RESULT], None, false, CALM)), CALM.material)
  {
    var before := FirstBatch();
    var first := [Batch([RESULT], Some(NEWS), false, CALM)];
    OneStep(first, before, Molt({0}));
    ops, r := first + [Molt({0})], Do(Molt({0}), before);
    assert [RESULT][0] == RESULT;
    SnapshotIsVisible(ops, r, [RESULT], None, false, CALM);
  }

  // A molt that keeps the holder: its payload stays on the wire without a holder.
  lemma {:induction false} MoltKeepsStray() returns (ops: seq<Op>, r: Run)
    ensures Leads(ops, START, r) && r.s.holder == None
    ensures |r.s.dicts| == 1 && 0 !in r.gone && Carries(r.s.dicts[0])
  {
    var before := FirstBatch();
    var first := [Batch([RESULT], Some(NEWS), false, CALM)];
    OneStep(first, before, Molt({}));
    ops, r := first + [Molt({})], Do(Molt({}), before);
  }
}
