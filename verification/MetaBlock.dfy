/** The `_meta` envelope of tool results and the two blocks that move along the
    history: the notification payload and the agent snapshot
    (src/lingtai_kernel/meta_block.py, src/lingtai_kernel/base_agent/turn.py). */
module MetaBlock {
  import opened Wrappers

  // ----- one tool-result dict -----

  datatype Key = ToolMeta | AgentMeta | Guidance | Notifications | NotificationGuidance | Other(name: string)

  // A block: what its signature covers, and bookkeeping that it ignores.
  datatype Value = Value(material: string, volatile: string)

  type Blocks = map<Key, Value>

  // `_meta` may be missing, or hold something that is not a dict.
  datatype Envelope = Absent | Opaque(text: string) | Envelope(blocks: Blocks)

  datatype Dict = Dict(synthesized: bool, placeholder: bool, pending: bool, body: string, meta: Envelope)

  datatype Payload = Payload(notifications: Value, guidance: Value)

  const PAYLOAD_KEYS: set<Key> := {Notifications, NotificationGuidance}
  const RUNTIME_KEYS: set<Key> := {AgentMeta, Guidance}
  const GUIDANCE_REF := Value("meta_guidance", "")
  const SKELETON := Dict(true, true, false, "moved to a newer tool result or cleared", Absent)

  function BlocksOf(meta: Envelope): Blocks {
    if meta.Envelope? then meta.blocks else map[]
  }

  // Pops keys; an envelope that becomes empty is dropped.
  function Pop(meta: Envelope, keys: set<Key>): Envelope {
    match meta
    case Envelope(blocks) => if blocks - keys == map[] then Absent else Envelope(blocks - keys)
    case _ => meta
  }

  function Skeleton(d: Dict): Dict {
    if d.synthesized then SKELETON else d.(meta := Pop(d.meta, PAYLOAD_KEYS))
  }

  function Stamp(d: Dict, p: Payload): Dict {
    d.(meta := Envelope(BlocksOf(d.meta)[Notifications := p.notifications][NotificationGuidance := p.guidance]))
  }

  function Shed(d: Dict): Dict {
    d.(meta := Pop(d.meta, RUNTIME_KEYS))
  }

  function StampRuntime(d: Dict, snapshot: Value): Dict {
    d.(meta := Envelope(BlocksOf(d.meta)[AgentMeta := snapshot][Guidance := GUIDANCE_REF]))
  }

  predicate Has(d: Dict, key: Key) {
    d.meta.Envelope? && key in d.meta.blocks
  }

  function Block(d: Dict, key: Key): Option<Value> {
    if Has(d, key) then Some(d.meta.blocks[key]) else None
  }

  predicate Carries(d: Dict) {
    Has(d, Notifications) || Has(d, NotificationGuidance)
  }

  predicate Shows(d: Dict, p: Payload) {
    Block(d, Notifications) == Some(p.notifications) && Block(d, NotificationGuidance) == Some(p.guidance)
  }

  // Moving notifications off an ordinary holder leaves every other block, and the result itself, as it was.
  lemma {:induction false} SkeletonKeepsBlocks(d: Dict, key: Key)
    requires !d.synthesized
    ensures !Carries(Skeleton(d)) && Skeleton(d).body == d.body && !Skeleton(d).synthesized
    ensures Skeleton(d).meta != Envelope(map[])
    ensures key !in PAYLOAD_KEYS ==> Block(Skeleton(d), key) == Block(d, key)
  {
    if Has(d, key) && key !in PAYLOAD_KEYS {
      assert key in d.meta.blocks - PAYLOAD_KEYS;
    }
  }

  // Moving the agent snapshot leaves the notifications and every other block as they were.
  lemma {:induction false} ShedKeepsBlocks(d: Dict, key: Key)
    ensures !Has(Shed(d), AgentMeta) && !Has(Shed(d), Guidance)
    ensures Shed(d).body == d.body && Shed(d).synthesized == d.synthesized
    ensures Shed(d).meta != Envelope(map[])
    ensures key !in RUNTIME_KEYS ==> Block(Shed(d), key) == Block(d, key)
  {
    if Has(d, key) && key !in RUNTIME_KEYS {
      assert key in d.meta.blocks - RUNTIME_KEYS;
    }
  }

  // ----- the state -----

  // Every dict ever put on the wire, and where the live ones are.
  datatype State = State(
    dicts: seq<Dict>,
    holder: Option<nat>,            // `_notification_live_holder`
    signature: Option<Payload>,     // `_notification_payload_signature`
    runtime: Option<nat>,           // `_runtime_live_holder`
    runtimeSignature: Option<string>)

  function Put(dicts: seq<Dict>, i: nat, d: Dict): (r: seq<Dict>)
    ensures |r| == |dicts|
    ensures forall j :: 0 <= j < |dicts| && j != i ==> r[j] == dicts[j]
    ensures i < |dicts| ==> r[i] == d
  {
    if i < |dicts| then dicts[i := d] else dicts
  }

  function DictAt(dicts: seq<Dict>, i: nat): Dict {
    if i < |dicts| then dicts[i] else SKELETON
  }

  function Skeletonize(s: State): State {
    match s.holder
    case None => s
    case Some(h) => s.(dicts := Put(s.dicts, h, Skeleton(DictAt(s.dicts, h))), holder := None)
  }

  // `attach_active_notifications` on the batch whose last dict is `target`.
  function Attach(s: State, payload: Option<Payload>, target: Option<nat>): State {
    if payload.None? then Skeletonize(s).(signature := None)
    else if target.None? then s
    else if Keeps(s, payload.value, target.value) then s
    else
      Register(Skeletonize(s), payload.value, target.value)
  }

  function Register(s: State, payload: Payload, target: nat): State {
    s.(dicts := Put(s.dicts, target, Stamp(DictAt(s.dicts, target), payload)),
       holder := Some(target),
       signature := Some(payload))
  }

  // The sparse gate: unchanged payload, an ordinary target, a holder to keep it.
  predicate Keeps(s: State, payload: Payload, target: nat) {
    s.signature == Some(payload) && !DictAt(s.dicts, target).placeholder && s.holder.Some?
  }

  function Clean(d: Dict): Dict {
    d.(pending := false)
  }

  // Strips the scaffolding of the batch that starts at `first`.
  function CleanFrom(dicts: seq<Dict>, first: nat): (r: seq<Dict>)
    ensures |r| == |dicts|
    ensures forall i :: 0 <= i < |dicts| ==> r[i] == if i < first then dicts[i] else Clean(dicts[i])
  {
    seq(|dicts|, i requires 0 <= i < |dicts| => if i < first then dicts[i] else Clean(dicts[i]))
  }

  // `attach_active_runtime`; `snapshot` is the agent snapshot of this moment.
  function AttachRuntime(s: State, first: nat, target: Option<nat>, snapshot: Value): State {
    var clean := s.(dicts := CleanFrom(s.dicts, first));
    if Moves(s, target, snapshot) then RegisterSnapshot(ShedHolder(clean), snapshot, target.value) else clean
  }

  // There is a snapshot for the newest dict, and it materially changed.
  predicate Moves(s: State, target: Option<nat>, snapshot: Value) {
    target.Some? && DictAt(s.dicts, target.value).pending && s.runtimeSignature != Some(snapshot.material)
  }

  function ShedHolder(s: State): State {
    match s.runtime
    case None => s
    case Some(r) => s.(dicts := Put(s.dicts, r, Shed(DictAt(s.dicts, r))))
  }

  function RegisterSnapshot(s: State, snapshot: Value, target: nat): State {
    s.(dicts := Put(s.dicts, target, StampRuntime(DictAt(s.dicts, target), snapshot)),
       runtime := Some(target),
       runtimeSignature := Some(snapshot.material))
  }

  function Target(first: nat, size: nat): Option<nat> {
    if first < size then Some(size - 1) else None
  }

  // The turn loop after a tool batch: the dicts of its results go on the wire,
  // then both blocks move. A batch that molted only takes the notifications away.
  function AfterBatch(s: State, batch: seq<Dict>, payload: Option<Payload>, molt: bool, snapshot: Value): State {
    MoveBlocks(s.(dicts := s.dicts + batch), |s.dicts|, payload, molt, snapshot)
  }

  function MoveBlocks(s: State, first: nat, payload: Option<Payload>, molt: bool, snapshot: Value): State {
    AttachRuntime(MoveNotifications(s, first, payload, molt), first, Target(first, |s.dicts|), snapshot)
  }

  function MoveNotifications(s: State, first: nat, payload: Option<Payload>, molt: bool): State {
    if molt then Skeletonize(s) else Attach(s, payload, Target(first, |s.dicts|))
  }

  function PairBody(body: string, payload: Payload): Dict {
    Dict(true, false, false, body,
        Envelope(map[Notifications := payload.notifications, NotificationGuidance := payload.guidance]))
  }

  // `_inject_notification_pair`: the signature is not recorded.
  function Inject(s: State, body: string, payload: Payload): State {
    Skeletonize(s.(dicts := s.dicts + [PairBody(body, payload)])).(holder := Some(|s.dicts|))
  }

  // ----- the same on the heap -----

  class ResultDict {
    ghost const at: nat             // its place among all dicts put on the wire
    var content: Dict

    constructor (content: Dict, ghost at: nat)
      ensures this.content == content && this.at == at
    {
      this.content, this.at := content, at;
    }

    // The `_meta` dict is there to be updated after this.
    method MetaBlock()
      modifies this
      ensures content == old(content).(meta := Envelope(BlocksOf(old(content).meta)))
    {
      if !content.meta.Envelope? {
        content := content.(meta := Envelope(map[]));
      }
    }

    method PopMeta(keys: set<Key>)
      modifies this
      ensures content == old(content).(meta := Pop(old(content).meta, keys))
    {
      if content.meta.Envelope? {
        content := content.(meta := Envelope(content.meta.blocks - keys));
        if content.meta.blocks == map[] {
          content := content.(meta := Absent);
        }
      }
    }

    method StampPayload(p: Payload)
      modifies this
      ensures content == Stamp(old(content), p)
    {
      MetaBlock();
      var marked := content.meta.blocks[Notifications := p.notifications];
      content := content.(meta := Envelope(marked[NotificationGuidance := p.guidance]));
    }

    method StampSnapshot(snapshot: Value)
      modifies this
      ensures content == StampRuntime(old(content), snapshot)
    {
      MetaBlock();
      content := content.(meta := Envelope(content.meta.blocks[AgentMeta := snapshot][Guidance := GUIDANCE_REF]));
    }

    method Skeletonize()
      modifies this
      ensures content == Skeleton(old(content))
    {
      if content.synthesized {
        content := SKELETON;
      } else {
        PopMeta(PAYLOAD_KEYS);
      }
    }
  }

  // What a tool result carries: its content is a dict, or something else.
  datatype Content = Text(text: string) | Held(dict: ResultDict)

  class Agent {
    ghost var state: State
    ghost var dicts: seq<ResultDict>
    var notificationLiveHolder: ResultDict?
    var payloadSignature: Option<Payload>
    var runtimeLiveHolder: ResultDict?
    var agentMetaSignature: Option<string>

    // `state` is what the objects hold.
    ghost predicate Valid()
      reads this, dicts
    {
      && |state.dicts| == |dicts|
      && (forall i :: 0 <= i < |dicts| ==> dicts[i].at == i && dicts[i].content == state.dicts[i])
      && Refers(notificationLiveHolder, state.holder)
      && Refers(runtimeLiveHolder, state.runtime)
      && state.signature == payloadSignature && state.runtimeSignature == agentMetaSignature
    }

    ghost predicate Refers(d: ResultDict?, at: Option<nat>)
      reads this
    {
      match at
      case None => d == null
      case Some(i) => i < |dicts| && d == dicts[i]
    }

    constructor ()
      ensures Valid() && state == State([], None, None, None, None)
    {
      dicts := [];
      state := State([], None, None, None, None);
      notificationLiveHolder, runtimeLiveHolder := null, null;
      payloadSignature, agentMetaSignature := None, None;
    }

    method SkeletonizeNotificationHolder()
      requires Valid()
      modifies this`notificationLiveHolder, this`state, dicts
      ensures Valid() && state == Skeletonize(old(state))
    {
      if notificationLiveHolder != null {
        notificationLiveHolder.Skeletonize();
      }
      notificationLiveHolder := null;
      state := Skeletonize(state);
    }

    ghost method PutOnWire(arrived: seq<ResultDict>, batch: seq<Dict>)
      requires Valid() && Newcomers(arrived, batch, |dicts|)
      modifies this`dicts, this`state
      ensures Valid() && dicts == old(dicts) + arrived && state == old(state).(dicts := old(state).dicts + batch)
    {
      dicts := dicts + arrived;
      state := state.(dicts := state.dicts + batch);
    }

    // The results' dicts have just been put on the wire, from `first` on.
    method AfterToolBatch(results: seq<Content>, payload: Option<Payload>, molt: bool, snapshot: Value,
            ghost first: nat)
      requires Valid() && IsBatch(results, dicts, first)
      modifies this`notificationLiveHolder, this`payloadSignature, this`runtimeLiveHolder, this`agentMetaSignature,
          this`state, dicts
      ensures Valid() && state == MoveBlocks(old(state), first, payload, molt, snapshot)
    {
      MoveNotificationsOf(results, payload, molt, first);
      runtimeLiveHolder := AttachActiveRuntime(results, snapshot, runtimeLiveHolder, first);
    }

    method MoveNotificationsOf(results: seq<Content>, payload: Option<Payload>, molt: bool, ghost first: nat)
      requires Valid() && IsBatch(results, dicts, first)
      modifies this`notificationLiveHolder, this`payloadSignature, this`state, dicts
      ensures Valid() && state == MoveNotifications(old(state), first, payload, molt)
    {
      if molt {
        if notificationLiveHolder != null {
          SkeletonizeNotificationHolder();
        }
      } else {
        notificationLiveHolder := AttachActiveNotifications(payload, results, notificationLiveHolder, first);
      }
    }

    // The caller has made sure that no tool call is pending.
    method InjectNotificationPair(body: string, payload: Payload)
      requires Valid()
      modifies this, dicts
      ensures Valid() && |dicts| == |old(dicts)| + 1 && dicts[..|old(dicts)|] == old(dicts)
      ensures state == Inject(old(state), body, payload)
    {
      var content := new ResultDict(PairBody(body, payload), |dicts|);
      PutOnWire([content], [PairBody(body, payload)]);
      if notificationLiveHolder != null && notificationLiveHolder != content {
        SkeletonizeNotificationHolder();
      }
      notificationLiveHolder := content;
      state := state.(holder := Some(|dicts| - 1));
    }

    // The newest dict of the results, whose dicts are the last ones on the wire.
    method LastDictResult(results: seq<Content>, ghost first: nat) returns (target: ResultDict?)
      requires Valid() && IsBatch(results, dicts, first)
      ensures target == if first < |dicts| then dicts[|dicts| - 1] else null
    {
      var i := |results|;
      target := null;
      assert results[..i] == results;
      while i > 0
        invariant 0 <= i <= |results| && target == null
        invariant DictsIn(results) == DictsIn(results[..i])
      {
        i := i - 1;
        assert results[..i + 1][..i] == results[..i];
        if results[i].Held? {
          return results[i].dict;
        }
      }
    }

    // `prior` is the live holder, as the turn loop passes it.
    method AttachActiveNotifications(payload: Option<Payload>, results: seq<Content>, prior: ResultDict?,
            ghost first: nat)
      returns (holder: ResultDict?)
      requires Valid() && prior == notificationLiveHolder && IsBatch(results, dicts, first)
      modifies this`notificationLiveHolder, this`payloadSignature, this`state, dicts
      ensures Valid() && holder == notificationLiveHolder
      ensures state == Attach(old(state), payload, Target(first, |dicts|))
    {
      if payload.None? {
        Clear(prior);
        return null;
      }
      var target := LastDictResult(results, first);
      if target == null {
        return prior;
      }
      if payloadSignature == payload && !target.content.placeholder && prior != null {
        return prior;
      }
      Vacate(prior);
      RegisterHolder(target, payload.value);
      return target;
    }

    method Clear(prior: ResultDict?)
      requires Valid() && prior == notificationLiveHolder
      modifies this`notificationLiveHolder, this`payloadSignature, this`state, dicts
      ensures Valid() && state == Skeletonize(old(state)).(signature := None) && notificationLiveHolder == null
    {
      Vacate(prior);
      payloadSignature := None;
      state := state.(signature := None);
    }

    method Vacate(prior: ResultDict?)
      requires Valid() && prior == notificationLiveHolder
      modifies this`notificationLiveHolder, this`state, dicts
      ensures Valid() && state == Skeletonize(old(state)) && notificationLiveHolder == null
    {
      if prior != null {
        notificationLiveHolder := prior;
        SkeletonizeNotificationHolder();
      }
    }

    method RegisterHolder(target: ResultDict, payload: Payload)
      requires Valid() && dicts != [] && target == dicts[|dicts| - 1]
      modifies this`notificationLiveHolder, this`payloadSignature, this`state, target
      ensures Valid() && notificationLiveHolder == target
      ensures state == Register(old(state), payload, |dicts| - 1)
    {
      target.StampPayload(payload);
      notificationLiveHolder := target;
      payloadSignature := Some(payload);
      state := Register(state, payload, |dicts| - 1);
    }

    method StripRuntimePending(results: seq<Content>, ghost first: nat)
      requires Valid() && IsBatch(results, dicts, first)
      modifies this`state, dicts
      ensures Valid() && state == old(state).(dicts := CleanFrom(old(state).dicts, first))
    {
      ghost var next := first;
      for i := 0 to |results|
        invariant state == old(state) && next == first + |DictsIn(results[..i])| <= |dicts|
        invariant forall j :: 0 <= j < |dicts| ==> dicts[j].at == j
        invariant forall j :: 0 <= j < |dicts| ==>
                  dicts[j].content == (if first <= j < next then Clean(state.dicts[j]) else state.dicts[j])
      {
        DictsInNext(results, i);
        if results[i].Held? {
          assert results[i].dict == dicts[next];
          results[i].dict.content := Clean(results[i].dict.content);
          next := next + 1;
        }
      }
      assert results[..|results|] == results;
      state := state.(dicts := CleanFrom(state.dicts, first));
    }

    method AttachActiveRuntime(results: seq<Content>, snapshot: Value, prior: ResultDict?, ghost first: nat)
      returns (holder: ResultDict?)
      requires Valid() && prior == runtimeLiveHolder && IsBatch(results, dicts, first)
      modifies this`runtimeLiveHolder, this`agentMetaSignature, this`state, dicts
      ensures Valid() && holder == runtimeLiveHolder
      ensures state == AttachRuntime(old(state), first, Target(first, |dicts|), snapshot)
    {
      var target := LastDictResult(results, first);
      var pending := target != null && target.content.pending;
      assert Moves(state, Target(first, |dicts|), snapshot)
             <==> pending && agentMetaSignature != Some(snapshot.material);
      StripRuntimePending(results, first);
      if !pending || agentMetaSignature == Some(snapshot.material) {
        return prior;
      }
      MoveSnapshot(target, snapshot, prior);
      return target;
    }

    method MoveSnapshot(target: ResultDict, snapshot: Value, prior: ResultDict?)
      requires Valid() && dicts != [] && target == dicts[|dicts| - 1] && prior == runtimeLiveHolder
      modifies this`runtimeLiveHolder, this`agentMetaSignature, this`state, dicts
      ensures Valid() && runtimeLiveHolder == target
      ensures state == RegisterSnapshot(ShedHolder(old(state)), snapshot, |dicts| - 1)
    {
      StripAgentMetaAndGuidance(prior);
      RegisterRuntime(target, snapshot);
    }

    method StripAgentMetaAndGuidance(prior: ResultDict?)
      requires Valid() && prior == runtimeLiveHolder
      modifies this`state, dicts
      ensures Valid() && state == ShedHolder(old(state))
    {
      if prior != null {
        prior.PopMeta(RUNTIME_KEYS);
      }
      state := ShedHolder(state);
    }

    method RegisterRuntime(target: ResultDict, snapshot: Value)
      requires Valid() && dicts != [] && target == dicts[|dicts| - 1]
      modifies this`runtimeLiveHolder, this`agentMetaSignature, this`state, target
      ensures Valid() && runtimeLiveHolder == target
      ensures state == RegisterSnapshot(old(state), snapshot, |dicts| - 1)
    {
      target.StampSnapshot(snapshot);
      agentMetaSignature := Some(snapshot.material);
      runtimeLiveHolder := target;
      state := RegisterSnapshot(state, snapshot, |dicts| - 1);
    }
  }

  ghost predicate Newcomers(arrived: seq<ResultDict>, batch: seq<Dict>, first: nat)
    reads arrived
  {
    |arrived| == |batch| && forall i :: 0 <= i < |batch| ==>
        arrived[i].at == first + i && arrived[i].content == batch[i]
  }

  // The dicts of this batch are the ones on the wire from `first` on.
  ghost predicate IsBatch(results: seq<Content>, dicts: seq<ResultDict>, first: nat) {
    first <= |dicts| && DictsIn(results) == dicts[first..]
  }

  function DictsIn(results: seq<Content>): (r: seq<ResultDict>) {
    if results == [] then []
    else DictsIn(results[..|results| - 1]) + (match results[|results| - 1] case Text(_) => [] case Held(d) => [d])
  }

  lemma {:induction false} DictsInPrefix(results: seq<Content>, i: nat)
    requires i <= |results|
    ensures DictsIn(results[..i]) <= DictsIn(results)
    decreases |results| - i
  {
    if i < |results| {
      DictsInPrefix(results, i + 1);
      assert results[..i + 1][..i] == results[..i];
    } else {
      assert results[..i] == results;
    }
  }

  // One more result brings the next dict, or none.
  lemma {:induction false} DictsInNext(results: seq<Content>, i: nat)
    requires i < |results|
    ensures var held := DictsIn(results[..i]);
            if results[i].Held?
            then DictsIn(results[..i + 1]) == held + [results[i].dict] && |held| < |DictsIn(results)|
                && DictsIn(results)[|held|] == results[i].dict
            else DictsIn(results[..i + 1]) == held
  {
    assert results[..i + 1][..i] == results[..i];
    DictsInPrefix(results, i + 1);
  }
}
