/** The port-forward manager of internal/api/portforwards.go: two indexes over shared
    instances.  EnsureOpen first reads the active context, then takes the lock to look for a
    forward, gives it up, picks the client of the cluster active by then, opens a tunnel, and
    takes the lock again to register: the steps Ask, Lookup, Dial, Opened and Commit, between
    which any other step may run, a switch of the active cluster among them. */
module PortForwards {
  import opened Text

  const IDLE_AFTER: int := 30 * 60 * 1_000_000_000

  datatype Entry = Entry(id: string, vm: string, remotePort: nat, localPort: nat, protocol: string,
                         tag: string, created: int, lastUsed: int, context: string)

  /* ---------- keys and IDs ---------- */

  /** fmt.Sprintf("%s|%s|%d", ctx, vm, port) */
  function PfKey(ctx: string, vm: string, port: nat): string {
    ctx + "|" + vm + "|" + Decimal(port)
  }

  /** fmt.Sprintf("pf-%s-%d-%d", vm, remotePort, nanos) */
  function PfId(vm: string, port: nat, nanos: nat): string {
    "pf-" + vm + "-" + Decimal(port) + "-" + Decimal(nanos)
  }

  predicate AlphaNum(c: char) {
    'a' <= c <= 'z' || IsDigit(c)
  }

  /** kubevirt.ValidateVMName: a lower-case DNS tag. */
  predicate ValidVmName(vm: string) {
    1 <= |vm| <= 63 && AlphaNum(vm[0]) && AlphaNum(vm[|vm| - 1]) &&
    forall i :: 0 <= i < |vm| ==> AlphaNum(vm[i]) || vm[i] == '-'
  }

  /** Whatever the contexts contain, keys of validated names tell forwards apart. */
  lemma PfKeyInjective(ctx1: string, vm1: string, port1: nat, ctx2: string, vm2: string, port2: nat)
    requires ValidVmName(vm1) && ValidVmName(vm2)
    requires PfKey(ctx1, vm1, port1) == PfKey(ctx2, vm2, port2)
    ensures ctx1 == ctx2 && vm1 == vm2 && port1 == port2
  {
    LastCutUnique(ctx1 + "|" + vm1, ctx2 + "|" + vm2, Decimal(port1), Decimal(port2), '|');
    LastCutUnique(ctx1, ctx2, vm1, vm2, '|');
    DecimalInjective(port1, port2);
  }

  /** An ID tells the machine, the port and the clock reading it was made at. */
  lemma PfIdInjective(vm1: string, port1: nat, nanos1: nat, vm2: string, port2: nat, nanos2: nat)
    requires PfId(vm1, port1, nanos1) == PfId(vm2, port2, nanos2)
    ensures nanos1 == nanos2 && vm1 == vm2 && port1 == port2
  {
    LastCutUnique("pf-" + vm1 + "-" + Decimal(port1), "pf-" + vm2 + "-" + Decimal(port2),
      Decimal(nanos1), Decimal(nanos2), '-');
    DecimalInjective(nanos1, nanos2);
    LastCutUnique("pf-" + vm1, "pf-" + vm2, Decimal(port1), Decimal(port2), '-');
    DecimalInjective(port1, port2);
    assert ("pf-" + vm1)[3..] == vm1 && ("pf-" + vm2)[3..] == vm2;
  }

  function Key(e: Entry): string {
    PfKey(e.context, e.vm, e.remotePort)
  }

  /* ---------- states and steps ---------- */

  /** An instance with the key its entry has for life: the fields behind it never change. */
  datatype Inst = Inst(entry: Entry, key: string)

  /** What a call of EnsureOpen is for; `context` is the active one when it began. */
  datatype Request = Request(context: string, vm: string, port: nat, protocol: string, tag: string)

  /** Calls of EnsureOpen are numbered, and a tunnel has the number of the call that opened it.
      `insts` gives the instance made for each tunnel ever opened, shared by whatever index
      refers to it.  A call is in `asking` until it has looked for a forward, in `opening` while
      it opens a tunnel, and in `inFlight` until it commits.  `active` is the active cluster's
      context, and `dialled` gives the cluster whose client a call has picked. */
  datatype State = State(insts: map<nat, Inst>, byKey: map<string, nat>, byId: map<string, nat>,
                         inFlight: set<nat>, stopped: set<nat>, clockReads: set<nat>,
                         calls: map<nat, Request>, asking: set<nat>, opening: set<nat>,
                         active: string, dialled: map<nat, string>)

  datatype Step =
    | Switch(context: string)
    | Ask(call: nat, request: Request)
    | Lookup(call: nat, now: int)
    | Dial(call: nat)
    | Opened(call: nat, entry: Entry, nanos: nat)
    | OpenFailed(call: nat)
    | Commit(call: nat, now: int)
    | Delete(id: string)
    | Touch(context: string, vm: string, port: nat, now: int)
    | DropAll
    | Sweep(now: int)

  const INIT := State(map[], map[], map[], {}, {}, {}, map[], {}, {}, "", map[])

  predicate For(r: Request, e: Entry) {
    e.context == r.context && e.vm == r.vm && e.remotePort == r.port
  }

  predicate MadeFor(r: Request, e: Entry) {
    For(r, e) && e.protocol == r.protocol && e.tag == r.tag
  }

  /** Callers have validated the name.  The entry made for a new tunnel is for what was asked,
      with its protocol and tag, and carries an ID from a clock reading that no other opening got. */
  predicate Enabled(s: State, step: Step) {
    match step
    case Ask(c, r) => c !in s.calls && ValidVmName(r.vm) && r.context == s.active
    case Lookup(c, _) => c in s.asking && c in s.calls
    case Dial(c) => c in s.opening && c !in s.dialled
    case Opened(t, e, nanos) =>
      && t in s.opening && t in s.dialled && t in s.calls && t !in s.insts && MadeFor(s.calls[t], e)
      && nanos !in s.clockReads && ValidVmName(e.vm) && e.id == PfId(e.vm, e.remotePort, nanos)
    case OpenFailed(c) => c in s.opening
    case Commit(t, _) => t in s.inFlight && t in s.insts
    case _ => true
  }

  function Refreshed(e: Entry, protocol: string, tag: string, now: int): Entry {
    e.(lastUsed := now,
       tag := if tag != "" then tag else e.tag,
       protocol := if protocol != "" then protocol else e.protocol)
  }

  /** Does the key index refer to an instance here? */
  predicate Live(s: State, key: string) {
    key in s.byKey && s.byKey[key] in s.insts
  }

  function Update(s: State, t: nat, e: Entry): State
    requires t in s.insts
  {
    s.(insts := s.insts[t := s.insts[t].(entry := e)])
  }

  function Register(s: State, t: nat): State
    requires t in s.insts
  {
    s.(byKey := s.byKey[s.insts[t].key := t], byId := s.byId[s.insts[t].entry.id := t], inFlight := s.inFlight - {t})
  }

  function IdleIds(s: State, now: int): set<string> {
    set id | id in s.byId && s.byId[id] in s.insts && now - s.insts[s.byId[id]].entry.lastUsed > IDLE_AFTER
  }

  function GoneTunnels(s: State, ids: set<string>): set<nat> {
    set id | id in s.byId && id in ids :: s.byId[id]
  }

  function GoneKeys(s: State, ids: set<string>): set<string> {
    set id | id in s.byId && id in ids && s.byId[id] in s.insts :: s.insts[s.byId[id]].key
  }

  /** Stops the instances with these IDs and takes them out of both indexes. */
  function Removed(s: State, ids: set<string>): State {
    s.(byId := s.byId - ids, byKey := s.byKey - GoneKeys(s, ids), stopped := s.stopped + GoneTunnels(s, ids))
  }

  function AfterLookup(s: State, key: string, protocol: string, tag: string, now: int): State {
    if Live(s, key) then
      Update(s, s.byKey[key], Refreshed(s.insts[s.byKey[key]].entry, protocol, tag, now))
    else s
  }

  function KeyOf(r: Request): string {
    PfKey(r.context, r.vm, r.port)
  }

  /** The call has refreshed the forward it found, or goes on to open one. */
  function LookedUp(s: State, c: nat, now: int): State
    requires c in s.calls
  {
    var r := s.calls[c];
    var s1 := AfterLookup(s, KeyOf(r), r.protocol, r.tag, now);
    s1.(asking := s.asking - {c}, opening := if Live(s, KeyOf(r)) then s.opening else s.opening + {c})
  }

  function AfterOpened(s: State, t: nat, e: Entry, nanos: nat): State {
    s.(insts := s.insts[t := Inst(e, Key(e))], inFlight := s.inFlight + {t}, clockReads := s.clockReads + {nanos},
       opening := s.opening - {t})
  }

  function AfterCommit(s: State, t: nat, now: int): State
    requires t in s.insts
  {
    var key := s.insts[t].key;
    if Live(s, key) then
      var s1 := Update(s, s.byKey[key], s.insts[s.byKey[key]].entry.(lastUsed := now));
      s1.(inFlight := s.inFlight - {t}, stopped := s.stopped + {t})
    else Register(s, t)
  }

  function Next(s: State, step: Step): State {
    if !Enabled(s, step) then s
    else
      match step
      case Switch(context) => s.(active := context)
      case Ask(c, r) => s.(calls := s.calls[c := r], asking := s.asking + {c})
      case Lookup(c, now) => LookedUp(s, c, now)
      case Dial(c) => s.(dialled := s.dialled[c := s.active])
      case Opened(t, e, nanos) => AfterOpened(s, t, e, nanos)
      case OpenFailed(c) => s.(opening := s.opening - {c})
      case Commit(t, now) => AfterCommit(s, t, now)
      case Delete(id) => Removed(s, {id})
      case Touch(ctx, vm, port, now) => AfterLookup(s, PfKey(ctx, vm, port), "", "", now)
      case DropAll => Removed(s, s.byId.Keys).(byKey := map[])
      case Sweep(now) => Removed(s, IdleIds(s, now))
  }

  function LookupResult(s: State, key: string, protocol: string, tag: string, now: int): Option<Entry> {
    if Live(s, key) then Some(Refreshed(s.insts[s.byKey[key]].entry, protocol, tag, now)) else None
  }

  function CommitResult(s: State, t: nat, now: int): Entry
    requires t in s.insts
  {
    var key := s.insts[t].key;
    if Live(s, key) then s.insts[s.byKey[key]].entry.(lastUsed := now) else s.insts[t].entry
  }

  /** The entry that EnsureOpen returns at this step, if it returns successfully here. */
  function Returned(s: State, step: Step): Option<Entry> {
    if !Enabled(s, step) then None
    else
      match step
      case Lookup(c, now) =>
        var r := s.calls[c];
        LookupResult(s, KeyOf(r), r.protocol, r.tag, now)
      case Commit(t, now) => Some(CommitResult(s, t, now))
      case _ => None
  }

  function Reach(steps: seq<Step>): State {
    if steps == [] then INIT else Next(Reach(steps[..|steps| - 1]), steps[|steps| - 1])
  }

  /* ---------- the invariant ---------- */

  predicate IdOk(s: State, id: string)
    requires id in s.byId
  {
    var t := s.byId[id];
    t in s.insts && s.insts[t].entry.id == id && s.insts[t].key in s.byKey && s.byKey[s.insts[t].key] == t
  }

  predicate KeyOk(s: State, k: string)
    requires k in s.byKey
  {
    var t := s.byKey[k];
    t in s.insts && s.insts[t].key == k && s.insts[t].entry.id in s.byId && s.byId[s.insts[t].entry.id] == t
  }

  /** Both indexes hold the same instances, each under its own ID and its own key. */
  predicate IndexesAgree(s: State) {
    (forall id :: id in s.byId ==> IdOk(s, id)) && (forall k :: k in s.byKey ==> KeyOk(s, k))
  }

  predicate Registered(s: State, t: nat) {
    t in s.insts && s.insts[t].entry.id in s.byId && s.byId[s.insts[t].entry.id] == t
  }

  predicate OnePlace(s: State, t: nat) {
    var flying, registered, stopped := t in s.inFlight, Registered(s, t), t in s.stopped;
    (flying && !registered && !stopped) || (!flying && registered && !stopped) || (!flying && !registered && stopped)
  }

  /** Every opened tunnel is in flight, registered or stopped, and only one of these. */
  predicate Accounted(s: State) {
    && s.inFlight <= s.insts.Keys && s.stopped <= s.insts.Keys
    && forall t :: t in s.insts ==> OnePlace(s, t)
  }

  predicate DistinctIds(s: State) {
    forall t, u :: t in s.insts && u in s.insts && s.insts[t].entry.id == s.insts[u].entry.id ==> t == u
  }

  /** The name was validated, the ID stems from a clock reading, the key from the entry. */
  predicate Minted(clock: set<nat>, i: Inst) {
    && ValidVmName(i.entry.vm) && i.key == Key(i.entry)
    && exists n :: n in clock && i.entry.id == PfId(i.entry.vm, i.entry.remotePort, n)
  }

  predicate AllMinted(s: State) {
    forall t :: t in s.insts ==> Minted(s.clockReads, s.insts[t])
  }

  /** A call is at one stage at a time, and the instance it makes is for what it asked. */
  predicate Staged(s: State) {
    && s.asking + s.opening + s.insts.Keys <= s.calls.Keys
    && s.asking !! s.opening && s.asking !! s.insts.Keys && s.opening !! s.insts.Keys
    && s.insts.Keys <= s.dialled.Keys <= s.calls.Keys && s.dialled.Keys !! s.asking
    && (forall c :: c in s.calls ==> ValidVmName(s.calls[c].vm))
    && (forall t :: t in s.insts && t in s.calls ==> For(s.calls[t], s.insts[t].entry))
  }

  predicate Identities(s: State) {
    DistinctIds(s) && AllMinted(s) && Staged(s)
  }

  predicate Inv(s: State) {
    IndexesAgree(s) && Accounted(s) && Identities(s)
  }

  /* ---------- every step keeps the invariant ---------- */

  predicate SameIdentity(e: Entry, o: Entry) {
    e.id == o.id && e.vm == o.vm && e.remotePort == o.remotePort && e.context == o.context
  }

  lemma MintedUpdate(clock: set<nat>, i: Inst, e: Entry)
    requires Minted(clock, i) && SameIdentity(e, i.entry)
    ensures Minted(clock, i.(entry := e))
  {
  }

  lemma UpdateIndexes(s: State, t: nat, e: Entry)
    requires IndexesAgree(s) && t in s.insts && e.id == s.insts[t].entry.id
    ensures IndexesAgree(Update(s, t, e))
  {
  }

  lemma UpdateAccounted(s: State, t: nat, e: Entry)
    requires Accounted(s) && t in s.insts && e.id == s.insts[t].entry.id
    ensures Accounted(Update(s, t, e))
  {
  }

  lemma UpdateDistinct(s: State, t: nat, e: Entry)
    requires DistinctIds(s) && t in s.insts && e.id == s.insts[t].entry.id
    ensures DistinctIds(Update(s, t, e))
  {
  }

  lemma UpdateMinted(s: State, t: nat, e: Entry)
    requires AllMinted(s) && t in s.insts && SameIdentity(e, s.insts[t].entry)
    ensures AllMinted(Update(s, t, e))
  {
    MintedUpdate(s.clockReads, s.insts[t], e);
    hide Minted;
  }

  lemma UpdateStaged(s: State, t: nat, e: Entry)
    requires Staged(s) && t in s.insts && SameIdentity(e, s.insts[t].entry)
    ensures Staged(Update(s, t, e))
  {
  }

  lemma UpdateIdentities(s: State, t: nat, e: Entry)
    requires Identities(s) && t in s.insts && SameIdentity(e, s.insts[t].entry)
    ensures Identities(Update(s, t, e))
  {
    UpdateDistinct(s, t, e);
    UpdateMinted(s, t, e);
    UpdateStaged(s, t, e);
    hide DistinctIds, AllMinted, Staged;
  }

  /** Changing an entry without touching its identity keeps the invariant. */
  lemma UpdateKeeps(s: State, t: nat, e: Entry)
    requires Inv(s) && t in s.insts && SameIdentity(e, s.insts[t].entry)
    ensures Inv(Update(s, t, e))
  {
    hide IndexesAgree, Accounted, Identities;
    UpdateIndexes(s, t, e);
    UpdateAccounted(s, t, e);
    UpdateIdentities(s, t, e);
  }

  /** A new clock reading gives an ID that no instance has. */
  lemma FreshId(s: State, e: Entry, nanos: nat, t: nat)
    requires AllMinted(s) && t in s.insts && nanos !in s.clockReads && e.id == PfId(e.vm, e.remotePort, nanos)
    ensures s.insts[t].entry.id != e.id
  {
    var o := s.insts[t].entry;
    assert Minted(s.clockReads, s.insts[t]);
    var n :| n in s.clockReads && o.id == PfId(o.vm, o.remotePort, n);
    if o.id == e.id {
      PfIdInjective(o.vm, o.remotePort, n, e.vm, e.remotePort, nanos);
    }
  }

  lemma MintedLater(s: State, s1: State, t: nat)
    requires AllMinted(s) && t in s.insts && s.clockReads <= s1.clockReads
    ensures Minted(s1.clockReads, s.insts[t])
  {
  }

  lemma AddedIndexes(s: State, t: nat, i: Inst)
    requires IndexesAgree(s) && t !in s.insts
    ensures IndexesAgree(s.(insts := s.insts[t := i]))
  {
  }

  lemma AddedAccounted(s: State, t: nat, i: Inst)
    requires IndexesAgree(s) && Accounted(s) && t !in s.insts
    requires forall u :: u in s.insts ==> s.insts[u].entry.id != i.entry.id
    ensures Accounted(s.(insts := s.insts[t := i], inFlight := s.inFlight + {t}))
  {
  }

  lemma IndexesIgnore(s: State, s1: State)
    requires IndexesAgree(s) && s1.insts == s.insts && s1.byId == s.byId && s1.byKey == s.byKey
    ensures IndexesAgree(s1)
  {
  }

  lemma AccountedIgnores(s: State, s1: State)
    requires Accounted(s) && s1.insts == s.insts && s1.byId == s.byId
    requires s1.inFlight == s.inFlight && s1.stopped == s.stopped
    ensures Accounted(s1)
  {
    forall t | t in s1.insts
      ensures OnePlace(s1, t)
    {
      assert OnePlace(s, t);
    }
  }

  /** Steps between the locked ones touch only the calls' stages. */
  lemma StageChange(s: State, s1: State)
    requires Inv(s) && Staged(s1)
    requires s1 == s.(calls := s1.calls, asking := s1.asking, opening := s1.opening, active := s1.active,
      dialled := s1.dialled)
    ensures Inv(s1)
  {
    IndexesIgnore(s, s1);
    AccountedIgnores(s, s1);
  }

  lemma OpenedIdentities(s: State, t: nat, e: Entry, nanos: nat)
    requires Identities(s) && Enabled(s, Opened(t, e, nanos))
    ensures Identities(AfterOpened(s, t, e, nanos))
    ensures forall u :: u in s.insts ==> s.insts[u].entry.id != e.id
  {
    var s1 := AfterOpened(s, t, e, nanos);
    hide PfId, Key;
    forall u | u in s.insts
      ensures s.insts[u].entry.id != e.id && Minted(s1.clockReads, s.insts[u])
    {
      FreshId(s, e, nanos, u);
      MintedLater(s, s1, u);
    }
    assert nanos in s1.clockReads;
    assert Minted(s1.clockReads, s1.insts[t]);
  }

  lemma OpenedKeeps(s: State, t: nat, e: Entry, nanos: nat)
    requires Inv(s) && Enabled(s, Opened(t, e, nanos))
    ensures Inv(AfterOpened(s, t, e, nanos))
  {
    var s1, i := AfterOpened(s, t, e, nanos), Inst(e, Key(e));
    OpenedIdentities(s, t, e, nanos);
    hide IndexesAgree, Accounted, Identities;
    AddedIndexes(s, t, i);
    IndexesIgnore(s.(insts := s.insts[t := i]), s1);
    AddedAccounted(s, t, i);
    AccountedIgnores(s.(insts := s.insts[t := i], inFlight := s.inFlight + {t}), s1);
  }

  lemma StopInFlight(s: State, t: nat)
    requires IndexesAgree(s) && Accounted(s) && t in s.inFlight
    ensures
      var s1 := s.(inFlight := s.inFlight - {t}, stopped := s.stopped + {t});
      IndexesAgree(s1) && Accounted(s1)
  {
  }

  lemma RegisterIndexes(s: State, t: nat)
    requires IndexesAgree(s) && t in s.insts && s.insts[t].key !in s.byKey && s.insts[t].entry.id !in s.byId
    ensures IndexesAgree(Register(s, t))
  {
  }

  lemma RegisterAccounted(s: State, t: nat)
    requires Accounted(s) && DistinctIds(s) && t in s.inFlight && s.insts[t].entry.id !in s.byId
    ensures Accounted(Register(s, t))
  {
  }

  lemma CommitKeeps(s: State, t: nat, now: int)
    requires Inv(s) && Enabled(s, Commit(t, now))
    ensures Inv(AfterCommit(s, t, now))
  {
    var key := s.insts[t].key;
    if Live(s, key) {
      var winner := s.byKey[key];
      var s1 := Update(s, winner, s.insts[winner].entry.(lastUsed := now));
      UpdateKeeps(s, winner, s.insts[winner].entry.(lastUsed := now));
      StopInFlight(s1, t);
    } else {
      assert key in s.byKey ==> KeyOk(s, key);
      assert s.insts[t].entry.id in s.byId ==> IdOk(s, s.insts[t].entry.id);
      assert OnePlace(s, t);
      RegisterIndexes(s, t);
      RegisterAccounted(s, t);
    }
  }

  lemma SameKeySameId(s: State, id1: string, id2: string)
    requires IndexesAgree(s) && id1 in s.byId && id2 in s.byId && IdOk(s, id1) && IdOk(s, id2)
    requires s.insts[s.byId[id1]].key == s.insts[s.byId[id2]].key
    ensures id1 == id2
  {
  }

  lemma RemovedIndexes(s: State, ids: set<string>)
    requires IndexesAgree(s)
    ensures IndexesAgree(Removed(s, ids))
  {
  }

  lemma GoneAreRegistered(s: State, ids: set<string>, t: nat)
    requires IndexesAgree(s)
    ensures t in GoneTunnels(s, ids) <==> Registered(s, t) && s.insts[t].entry.id in ids
  {
  }

  lemma RemovedKeeps(s: State, ids: set<string>)
    requires Inv(s)
    ensures Inv(Removed(s, ids))
  {
    var s1 := Removed(s, ids);
    RemovedIndexes(s, ids);
    forall t | t in GoneTunnels(s, ids)
      ensures t in s.insts
    {
      GoneAreRegistered(s, ids, t);
    }
    forall t | t in s1.insts
      ensures OnePlace(s1, t)
    {
      assert OnePlace(s, t);
      GoneAreRegistered(s, ids, t);
    }
  }

  /** Dropping everything is removing every ID: no key stays behind. */
  lemma DropAllRemoves(s: State)
    requires IndexesAgree(s)
    ensures Next(s, DropAll) == Removed(s, s.byId.Keys)
  {
  }

  lemma AfterLookupKeeps(s: State, key: string, protocol: string, tag: string, now: int)
    requires Inv(s)
    ensures Inv(AfterLookup(s, key, protocol, tag, now))
  {
    if Live(s, key) {
      UpdateKeeps(s, s.byKey[key], Refreshed(s.insts[s.byKey[key]].entry, protocol, tag, now));
    }
  }

  lemma LookedUpKeeps(s: State, c: nat, now: int)
    requires Inv(s) && Enabled(s, Lookup(c, now))
    ensures Inv(LookedUp(s, c, now))
  {
    var r := s.calls[c];
    var s1 := AfterLookup(s, KeyOf(r), r.protocol, r.tag, now);
    AfterLookupKeeps(s, KeyOf(r), r.protocol, r.tag, now);
    RefreshKeepsStages(s, KeyOf(r), r.protocol, r.tag, now);
    hide AfterLookup, Live;
    assert Inv(s1) ==> Staged(s1);
    hide Inv, Staged;
    StageMoves(s1, c);
    StageChange(s1, LookedUp(s, c, now));
  }

  lemma RefreshKeepsStages(s: State, key: string, protocol: string, tag: string, now: int)
    ensures
      var s1 := AfterLookup(s, key, protocol, tag, now);
      s1 == s.(insts := s1.insts)
  {
  }

  lemma StageMoves(s: State, c: nat)
    requires Staged(s) && c in s.asking
    ensures Staged(s.(asking := s.asking - {c})) && Staged(s.(asking := s.asking - {c}, opening := s.opening + {c}))
  {
  }

  lemma AskKeeps(s: State, c: nat, r: Request)
    requires Inv(s) && Enabled(s, Ask(c, r))
    ensures Inv(s.(calls := s.calls[c := r], asking := s.asking + {c}))
  {
    StageChange(s, s.(calls := s.calls[c := r], asking := s.asking + {c}));
  }

  lemma SwitchKeeps(s: State, context: string)
    requires Inv(s)
    ensures Inv(s.(active := context))
  {
    StageChange(s, s.(active := context));
  }

  lemma DialKeeps(s: State, c: nat)
    requires Inv(s) && c in s.opening
    ensures Inv(s.(dialled := s.dialled[c := s.active]))
  {
    StageChange(s, s.(dialled := s.dialled[c := s.active]));
  }

  lemma OpenFailedKeeps(s: State, c: nat)
    requires Inv(s)
    ensures Inv(s.(opening := s.opening - {c}))
  {
    StageChange(s, s.(opening := s.opening - {c}));
  }

  lemma DropAllKeeps(s: State)
    requires Inv(s)
    ensures Inv(Next(s, DropAll))
  {
    DropAllRemoves(s);
    RemovedKeeps(s, s.byId.Keys);
  }

  lemma NextKeeps(s: State, step: Step)
    requires Inv(s)
    ensures Inv(Next(s, step))
  {
    hide Inv, LookedUp, AfterLookup, AfterOpened, AfterCommit, Removed;
    if Enabled(s, step) {
      match step
      case Switch(context) => SwitchKeeps(s, context);
      case Ask(c, r) => AskKeeps(s, c, r);
      case Lookup(c, now) => LookedUpKeeps(s, c, now);
      case Opened(t, e, nanos) => OpenedKeeps(s, t, e, nanos);
      case Dial(c) => DialKeeps(s, c);
      case OpenFailed(c) => OpenFailedKeeps(s, c);
      case Commit(t, now) => CommitKeeps(s, t, now);
      case Delete(id) => RemovedKeeps(s, {id});
      case Touch(ctx, vm, port, now) => AfterLookupKeeps(s, PfKey(ctx, vm, port), "", "", now);
      case DropAll => DropAllKeeps(s);
      case Sweep(now) => RemovedKeeps(s, IdleIds(s, now));
    }
  }

  /** For every interleaving: the indexes agree, and every opened tunnel is in exactly one of
      in flight, registered (in both indexes) and stopped. */
  lemma {:induction false} AlwaysInv(steps: seq<Step>)
    ensures Inv(Reach(steps))
  {
    if steps == [] {
      assert Inv(INIT);
    } else {
      AlwaysInv(steps[..|steps| - 1]);
      NextKeeps(Reach(steps[..|steps| - 1]), steps[|steps| - 1]);
    }
  }

  /** One forward per context, machine and port. */
  lemma OnePerTarget(steps: seq<Step>, id1: string, id2: string)
    requires
      var s := Reach(steps);
      id1 in s.byId && id2 in s.byId && s.byId[id1] in s.insts && s.byId[id2] in s.insts &&
      var e1, e2 := s.insts[s.byId[id1]].entry, s.insts[s.byId[id2]].entry;
      e1.context == e2.context && e1.vm == e2.vm && e1.remotePort == e2.remotePort
    ensures id1 == id2
  {
    AlwaysInv(steps);
    var s := Reach(steps);
    assert Minted(s.clockReads, s.insts[s.byId[id1]]) && Minted(s.clockReads, s.insts[s.byId[id2]]);
    assert IdOk(s, id1) && IdOk(s, id2);
    SameKeySameId(s, id1, id2);
  }

  /** What a step stops was in flight or registered just before. */
  lemma StopsOnlyRunning(s: State, step: Step, t: nat)
    requires Inv(s) && t in Next(s, step).stopped && t !in s.stopped
    ensures t in s.inFlight || Registered(s, t)
  {
    hide Removed, AfterLookup, AfterCommit, IdleIds, Registered;
    match step
    case Commit(c, now) => CommitStops(s, c, now, t);
    case Delete(id) => RemovalStops(s, {id}, t);
    case DropAll => RemovalStops(s, s.byId.Keys, t);
    case Sweep(now) => RemovalStops(s, IdleIds(s, now), t);
    case Lookup(c, now) => RefreshStops(s, KeyOf(s.calls[c]), s.calls[c].protocol, s.calls[c].tag, now);
    case Touch(ctx, vm, port, now) => RefreshStops(s, PfKey(ctx, vm, port), "", "", now);
    case _ =>
  }

  lemma RemovalStops(s: State, ids: set<string>, t: nat)
    requires IndexesAgree(s)
    ensures t in Removed(s, ids).stopped && t !in s.stopped ==> Registered(s, t)
  {
    GoneAreRegistered(s, ids, t);
  }

  lemma CommitStops(s: State, c: nat, now: int, t: nat)
    requires c in s.insts
    ensures t in AfterCommit(s, c, now).stopped && t !in s.stopped ==> t == c
  {
  }

  lemma RefreshStops(s: State, key: string, protocol: string, tag: string, now: int)
    ensures AfterLookup(s, key, protocol, tag, now).stopped == s.stopped
  {
  }

  lemma NextStopped(s: State, step: Step)
    ensures s.stopped <= Next(s, step).stopped
  {
  }

  /** No tunnel is stopped twice: a step stops only what is in flight or registered, and what
      is stopped is neither and stays stopped. */
  lemma StoppedOnce(steps: seq<Step>, step: Step, t: nat)
    ensures
      var s, s1 := Reach(steps), Next(Reach(steps), step);
      && (t in s.stopped ==> t in s1.stopped && t !in s.inFlight && !Registered(s, t))
      && (t in s1.stopped && t !in s.stopped ==> t in s.inFlight || Registered(s, t))
  {
    var s, s1 := Reach(steps), Next(Reach(steps), step);
    AlwaysInv(steps);
    NextStopped(s, step);
    hide Reach, Next, Registered;
    if t in s.stopped {
      assert OnePlace(s, t);
    } else if t in s1.stopped {
      StopsOnlyRunning(s, step, t);
    }
  }

  predicate AsksFor(s: State, step: Step, e: Entry) {
    match step
    case Lookup(c, _) => c in s.calls && For(s.calls[c], e)
    case Commit(t, _) => t in s.calls && For(s.calls[t], e)
    case _ => false
  }

  /** The entry stands in both indexes, exactly as given. */
  predicate Holds(s: State, e: Entry) {
    && e.id in s.byId && s.byId[e.id] in s.insts && s.insts[s.byId[e.id]] == Inst(e, Key(e))
    && Key(e) in s.byKey && s.byKey[Key(e)] == s.byId[e.id]
  }

  lemma LookupReturns(s: State, ctx: string, vm: string, port: nat, e: Entry)
    requires Inv(s) && ValidVmName(vm) && Live(s, PfKey(ctx, vm, port))
    requires SameIdentity(e, s.insts[s.byKey[PfKey(ctx, vm, port)]].entry)
    ensures e.context == ctx && e.vm == vm && e.remotePort == port
    ensures Holds(Update(s, s.byKey[PfKey(ctx, vm, port)], e), e)
  {
    var key := PfKey(ctx, vm, port);
    assert KeyOk(s, key);
    var held := s.insts[s.byKey[key]];
    assert Minted(s.clockReads, held);
    PfKeyInjective(ctx, vm, port, held.entry.context, held.entry.vm, held.entry.remotePort);
  }

  /** Every successful EnsureOpen returns an entry for what was asked, and at that very step
      the entry is registered in both indexes, as it stands there. */
  lemma ReturnsRegistered(steps: seq<Step>, step: Step)
    requires Returned(Reach(steps), step).Some?
    ensures
      var s, e := Reach(steps), Returned(Reach(steps), step).value;
      AsksFor(s, step, e) && Holds(Next(s, step), e)
  {
    AlwaysInv(steps);
    var s, e := Reach(steps), Returned(Reach(steps), step).value;
    if step.Lookup? {
      var r := s.calls[step.call];
      LookupReturns(s, r.context, r.vm, r.port, e);
    } else {
      var mine := s.insts[step.call];
      assert Minted(s.clockReads, mine);
      if Live(s, mine.key) {
        LookupReturns(s, mine.entry.context, mine.entry.vm, mine.entry.remotePort, e);
      }
    }
  }

  /** A sweep removes exactly the forwards idle for longer than IDLE_AFTER, and what it leaves
      it leaves as it was. */
  lemma SweepExactly(steps: seq<Step>, now: int, id: string)
    requires id in Reach(steps).byId
    ensures
      var s, s1 := Reach(steps), Next(Reach(steps), Sweep(now));
      && s.byId[id] in s.insts
      && (id in s1.byId <==> now - s.insts[s.byId[id]].entry.lastUsed <= IDLE_AFTER)
      && (id in s1.byId ==> s1.byId[id] == s.byId[id] && s1.insts[s.byId[id]] == s.insts[s.byId[id]])
      && (id !in s1.byId ==> s.byId[id] in s1.stopped && s.insts[s.byId[id]].key !in s1.byKey)
  {
    var s := Reach(steps);
    RegisteredIdOk(steps, id);
    NextSweep(s, now);
    hide Reach, Next, Removed, IdleIds;
    IdleMember(s, now, id);
    RemovedOrKept(s, IdleIds(s, now), id);
  }

  lemma RegisteredIdOk(steps: seq<Step>, id: string)
    requires id in Reach(steps).byId
    ensures IdOk(Reach(steps), id)
  {
    AlwaysInv(steps);
    hide Reach;
  }

  lemma NextSweep(s: State, now: int)
    ensures Next(s, Sweep(now)) == Removed(s, IdleIds(s, now))
  {
  }

  lemma RemovedOrKept(s: State, ids: set<string>, id: string)
    requires id in s.byId && IdOk(s, id)
    ensures
      var s1 := Removed(s, ids);
      if id in ids then id !in s1.byId && s.byId[id] in s1.stopped && s.insts[s.byId[id]].key !in s1.byKey
      else id in s1.byId && s1.byId[id] == s.byId[id] && s1.insts == s.insts
  {
  }

  /** The forward is the old one, used now, with the new protocol and tag where given. */
  predicate RefreshedFrom(e: Entry, o: Entry, protocol: string, tag: string, now: int) {
    && e.id == o.id && e.vm == o.vm && e.remotePort == o.remotePort && e.localPort == o.localPort
    && e.created == o.created && e.context == o.context && e.lastUsed == now
    && (protocol != "" ==> e.protocol == protocol) && (protocol == "" ==> e.protocol == o.protocol)
    && (tag != "" ==> e.tag == tag) && (tag == "" ==> e.tag == o.tag)
  }

  /** Whichever forward is registered for a target is the one its key finds. */
  lemma FoundIff(s: State, ctx: string, vm: string, port: nat)
    requires Inv(s) && ValidVmName(vm)
    ensures Live(s, PfKey(ctx, vm, port)) ==>
      Registered(s, s.byKey[PfKey(ctx, vm, port)]) && For(Request(ctx, vm, port, "", ""), s.insts[s.byKey[PfKey(ctx, vm, port)]].entry)
    ensures forall t :: Registered(s, t) && For(Request(ctx, vm, port, "", ""), s.insts[t].entry) ==>
      Live(s, PfKey(ctx, vm, port)) && s.byKey[PfKey(ctx, vm, port)] == t
  {
    var key := PfKey(ctx, vm, port);
    if Live(s, key) {
      assert KeyOk(s, key);
      var held := s.insts[s.byKey[key]];
      assert Minted(s.clockReads, held);
      PfKeyInjective(ctx, vm, port, held.entry.context, held.entry.vm, held.entry.remotePort);
    }
    forall t | Registered(s, t) && For(Request(ctx, vm, port, "", ""), s.insts[t].entry)
      ensures Live(s, key) && s.byKey[key] == t
    {
      assert IdOk(s, s.insts[t].entry.id) && Minted(s.clockReads, s.insts[t]);
    }
  }

  /** EnsureOpen finds a forward exactly if one is registered for what it asks, and returns it
      refreshed; otherwise it goes on to open one. */
  lemma LookupFinds(steps: seq<Step>, c: nat, now: int)
    requires Enabled(Reach(steps), Lookup(c, now))
    ensures
      var s, r := Reach(steps), Reach(steps).calls[c];
      var found := Returned(s, Lookup(c, now));
      && (found.Some? <==> exists t :: Registered(s, t) && For(r, s.insts[t].entry))
      && (forall t :: Registered(s, t) && For(r, s.insts[t].entry) && found.Some? ==>
            RefreshedFrom(found.value, s.insts[t].entry, r.protocol, r.tag, now))
      && (found.None? <==> c in Next(s, Lookup(c, now)).opening)
  {
    hide Reach, Inv, Registered, PfKey;
    AlwaysInv(steps);
    var s, r := Reach(steps), Reach(steps).calls[c];
    AskingOnly(s, c);
    FoundIff(s, r.context, r.vm, r.port);
    assert Next(s, Lookup(c, now)) == LookedUp(s, c, now);
    hide Next;
  }

  lemma AskingOnly(s: State, c: nat)
    requires Inv(s) && c in s.asking && c in s.calls
    ensures c !in s.opening && ValidVmName(s.calls[c].vm)
  {
  }

  /** At its second lock EnsureOpen registers its new tunnel if nothing is registered for what
      it asked, and returns its entry as it was made; otherwise it stops the tunnel and returns
      the registered forward, used now. */
  lemma CommitDecides(steps: seq<Step>, t: nat, now: int)
    requires t in Reach(steps).inFlight
    ensures
      var s := Reach(steps);
      var s1, got := Next(s, Commit(t, now)), Returned(s, Commit(t, now));
      && t in s.insts && got.Some?
      && ((forall u :: Registered(s, u) ==> !SameTarget(s.insts[u].entry, s.insts[t].entry)) ==>
            Registered(s1, t) && got.value == s.insts[t].entry)
      && (forall u :: Registered(s, u) && SameTarget(s.insts[u].entry, s.insts[t].entry) ==>
            t in s1.stopped && Registered(s1, u) && RefreshedFrom(got.value, s.insts[u].entry, "", "", now))
  {
    ReachCommit(steps, t, now);
    AlwaysInv(steps);
    var s := Reach(steps);
    var e := s.insts[t].entry;
    assert Minted(s.clockReads, s.insts[t]);
    FoundIff(s, e.context, e.vm, e.remotePort);
    CommitOutcome(s, t, now);
    hide Reach, Inv, AfterCommit, Registered, Live;
  }

  predicate SameTarget(a: Entry, b: Entry) {
    a.context == b.context && a.vm == b.vm && a.remotePort == b.remotePort
  }

  lemma CommitOutcome(s: State, t: nat, now: int)
    requires Inv(s) && t in s.inFlight && t in s.insts
    ensures
      var s1, key := AfterCommit(s, t, now), s.insts[t].key;
      if Live(s, key) then
        && t in s1.stopped && Registered(s1, s.byKey[key])
        && RefreshedFrom(CommitResult(s, t, now), s.insts[s.byKey[key]].entry, "", "", now)
      else Registered(s1, t) && CommitResult(s, t, now) == s.insts[t].entry
  {
    var key := s.insts[t].key;
    if Live(s, key) {
      assert KeyOk(s, key);
    }
  }

  /** Deleting takes out that forward, stops its tunnel, and leaves every other one. */
  lemma DeleteExactly(steps: seq<Step>, id: string, other: string)
    ensures
      var s, s1 := Reach(steps), Next(Reach(steps), Delete(id));
      && id !in s1.byId && (id in s.byId ==> s.byId[id] in s1.stopped)
      && (other != id ==> (other in s.byId <==> other in s1.byId))
      && (other != id && other in s.byId ==> s1.byId[other] == s.byId[other] && s1.insts == s.insts)
  {
    hide Reach, Next, Removed;
    var s := Reach(steps);
    NextDelete(s, id);
    RemovedShape(s, {id});
    if id in s.byId {
      RegisteredIdOk(steps, id);
      RemovedOrKept(s, {id}, id);
    }
  }

  lemma NextDelete(s: State, id: string)
    ensures Next(s, Delete(id)) == Removed(s, {id})
  {
    hide Removed;
  }

  /** A touch changes the time of last use of the forward registered for its target, and
      nothing else. */
  lemma TouchOnly(steps: seq<Step>, ctx: string, vm: string, port: nat, now: int, t: nat)
    requires ValidVmName(vm) && t in Reach(steps).insts
    ensures
      var s, s1 := Reach(steps), Next(Reach(steps), Touch(ctx, vm, port, now));
      && s1 == s.(insts := s1.insts) && s1.insts.Keys == s.insts.Keys
      && s1.insts[t].entry ==
           if Registered(s, t) && For(Request(ctx, vm, port, "", ""), s.insts[t].entry)
           then s.insts[t].entry.(lastUsed := now) else s.insts[t].entry
  {
    hide Reach, Inv, Registered, PfKey;
    AlwaysInv(steps);
    var s, key := Reach(steps), PfKey(ctx, vm, port);
    FoundIff(s, ctx, vm, port);
    assert Next(s, Touch(ctx, vm, port, now)) == AfterLookup(s, key, "", "", now);
    hide Next;
  }

  /** A step that does not drop forward `id`, with a clock reading not before `at` where it
      refreshes and at most IDLE_AFTER later where it sweeps. */
  predicate Harmless(step: Step, id: string, at: int) {
    match step
    case Lookup(_, now) => now >= at
    case Commit(_, now) => now >= at
    case Touch(_, _, _, now) => now >= at
    case Sweep(now) => now - at <= IDLE_AFTER
    case Delete(other) => other != id
    case DropAll => false
    case _ => true
  }

  /** Forward `id` is registered with tunnel t, and was last used at `at` or later. */
  predicate UsedSince(s: State, id: string, t: nat, at: int) {
    id in s.byId && s.byId[id] == t && t in s.insts && s.insts[t].entry.lastUsed >= at
  }

  lemma UpdateUsed(s: State, u: nat, e: Entry, id: string, t: nat, at: int)
    requires UsedSince(s, id, t, at) && u in s.insts && e.lastUsed >= at
    ensures UsedSince(Update(s, u, e), id, t, at)
  {
  }

  lemma RefreshUsed(s: State, key: string, protocol: string, tag: string, now: int, id: string, t: nat, at: int)
    requires UsedSince(s, id, t, at) && now >= at
    ensures UsedSince(AfterLookup(s, key, protocol, tag, now), id, t, at)
  {
    if Live(s, key) {
      UpdateUsed(s, s.byKey[key], Refreshed(s.insts[s.byKey[key]].entry, protocol, tag, now), id, t, at);
    }
  }

  lemma CommitUsed(s: State, c: nat, now: int, id: string, t: nat, at: int)
    requires Inv(s) && c in s.inFlight && c in s.insts && UsedSince(s, id, t, at) && now >= at
    ensures UsedSince(AfterCommit(s, c, now), id, t, at)
  {
    var key := s.insts[c].key;
    if Live(s, key) {
      UpdateUsed(s, s.byKey[key], s.insts[s.byKey[key]].entry.(lastUsed := now), id, t, at);
    } else {
      assert IdOk(s, id) && OnePlace(s, t) && OnePlace(s, c);
    }
  }

  lemma RemovedUsed(s: State, ids: set<string>, id: string, t: nat, at: int)
    requires UsedSince(s, id, t, at) && id !in ids
    ensures UsedSince(Removed(s, ids), id, t, at)
  {
  }

  lemma NotIdle(s: State, now: int, id: string, t: nat, at: int)
    requires UsedSince(s, id, t, at) && now - at <= IDLE_AFTER
    ensures id !in IdleIds(s, now)
  {
  }

  lemma StaysUsed(s: State, step: Step, id: string, t: nat, at: int)
    requires Inv(s) && UsedSince(s, id, t, at) && Harmless(step, id, at)
    ensures UsedSince(Next(s, step), id, t, at)
  {
    hide Inv, AfterLookup, AfterCommit, Removed, IdleIds, PfId, For;
    if Enabled(s, step) {
      match step
      case Lookup(c, now) =>
        var r := s.calls[c];
        RefreshUsed(s, KeyOf(r), r.protocol, r.tag, now, id, t, at);
      case Commit(c, now) => CommitUsed(s, c, now, id, t, at);
      case Touch(ctx, vm, port, now) => RefreshUsed(s, PfKey(ctx, vm, port), "", "", now, id, t, at);
      case Delete(other) => RemovedUsed(s, {other}, id, t, at);
      case Sweep(now) =>
        NotIdle(s, now, id, t, at);
        RemovedUsed(s, IdleIds(s, now), id, t, at);
      case _ =>
    }
  }

  /** A forward used at some moment stays registered, with the same tunnel, through anything
      that happens up to IDLE_AFTER later except its deletion and a cluster switch. */
  lemma {:induction false} RefreshedSurvives(steps: seq<Step>, more: seq<Step>, id: string, t: nat, at: int)
    requires UsedSince(Reach(steps), id, t, at)
    requires forall i :: 0 <= i < |more| ==> Harmless(more[i], id, at)
    ensures UsedSince(Reach(steps + more), id, t, at)
  {
    if more == [] {
      assert steps + more == steps;
    } else {
      var front := more[..|more| - 1];
      assert (steps + more)[..|steps + more| - 1] == steps + front;
      RefreshedSurvives(steps, front, id, t, at);
      AlwaysInv(steps + front);
      StaysUsed(Reach(steps + front), more[|more| - 1], id, t, at);
    }
  }

  /** What EnsureOpen returns stays registered that long, counted from the last use it shows. */
  lemma ReturnedSurvives(steps: seq<Step>, step: Step, more: seq<Step>)
    requires Returned(Reach(steps), step).Some?
    requires
      var e := Returned(Reach(steps), step).value;
      forall i :: 0 <= i < |more| ==> Harmless(more[i], e.id, e.lastUsed)
    ensures
      var s1, e := Next(Reach(steps), step), Returned(Reach(steps), step).value;
      e.id in s1.byId && UsedSince(Reach(steps + [step] + more), e.id, s1.byId[e.id], e.lastUsed)
  {
    ReturnsRegistered(steps, step);
    assert (steps + [step])[..|steps|] == steps;
    var e := Returned(Reach(steps), step).value;
    RefreshedSurvives(steps + [step], more, e.id, Reach(steps + [step]).byId[e.id], e.lastUsed);
  }

  /** So does what a touch finds, counted from the touch. */
  lemma TouchedSurvives(steps: seq<Step>, ctx: string, vm: string, port: nat, at: int, more: seq<Step>)
    requires Live(Reach(steps), PfKey(ctx, vm, port))
    requires
      var s := Reach(steps);
      forall i :: 0 <= i < |more| ==> Harmless(more[i], s.insts[s.byKey[PfKey(ctx, vm, port)]].entry.id, at)
    ensures
      var s := Reach(steps);
      var t := s.byKey[PfKey(ctx, vm, port)];
      UsedSince(Reach(steps + [Touch(ctx, vm, port, at)] + more), s.insts[t].entry.id, t, at)
  {
    var key, s := PfKey(ctx, vm, port), Reach(steps);
    AlwaysInv(steps);
    assert KeyOk(s, key);
    ReachTouch(steps, ctx, vm, port, at);
    RefreshedSurvives(steps + [Touch(ctx, vm, port, at)], more, s.insts[s.byKey[key]].entry.id, s.byKey[key], at);
  }

  /* ---------- forwards that outlive a cluster switch ---------- */

  /** Calls of EnsureOpen that have read the context and neither returned nor failed yet. */
  function Pending(s: State): set<nat> {
    s.asking + s.opening + s.inFlight
  }

  /** A call that is over without a forward of its own being registered. */
  predicate Finished(s: State, t: nat) {
    t in s.calls && t !in Pending(s) && !Registered(s, t)
  }

  lemma FinishedRefresh(s: State, key: string, protocol: string, tag: string, now: int, t: nat)
    requires Finished(s, t)
    ensures Finished(AfterLookup(s, key, protocol, tag, now), t)
  {
  }

  lemma FinishedCommit(s: State, c: nat, now: int, t: nat)
    requires Inv(s) && c in s.inFlight && c in s.insts && Finished(s, t)
    ensures Finished(AfterCommit(s, c, now), t)
  {
  }

  lemma FinishedRemoved(s: State, ids: set<string>, t: nat)
    requires Finished(s, t)
    ensures Finished(Removed(s, ids), t) && Finished(Removed(s, ids).(byKey := map[]), t)
  {
  }

  lemma FinishedStays(s: State, step: Step, t: nat)
    requires Inv(s) && Finished(s, t)
    ensures Finished(Next(s, step), t)
  {
    hide Inv, AfterLookup, AfterCommit, Removed, IdleIds, PfId, For;
    if Enabled(s, step) {
      match step
      case Lookup(c, now) =>
        var r := s.calls[c];
        FinishedRefresh(s, KeyOf(r), r.protocol, r.tag, now, t);
      case Commit(c, now) => FinishedCommit(s, c, now, t);
      case Touch(ctx, vm, port, now) => FinishedRefresh(s, PfKey(ctx, vm, port), "", "", now, t);
      case Delete(id) => FinishedRemoved(s, {id}, t);
      case DropAll => FinishedRemoved(s, s.byId.Keys, t);
      case Sweep(now) => FinishedRemoved(s, IdleIds(s, now), t);
      case _ =>
    }
  }

  lemma {:induction false} FinishedForGood(steps: seq<Step>, more: seq<Step>, t: nat)
    requires Finished(Reach(steps), t)
    ensures Finished(Reach(steps + more), t)
  {
    if more == [] {
      assert steps + more == steps;
    } else {
      var front := more[..|more| - 1];
      assert (steps + more)[..|steps + more| - 1] == steps + front;
      FinishedForGood(steps, front, t);
      AlwaysInv(steps + front);
      FinishedStays(Reach(steps + front), more[|more| - 1], t);
    }
  }

  /** A tunnel in flight when everything was dropped is registered by its commit. */
  lemma LateCommit(steps: seq<Step>, t: nat, now: int)
    requires Reach(steps).byKey == map[] && t in Reach(steps).inFlight
    ensures Registered(Reach(steps + [Commit(t, now)]), t)
  {
    ReachCommit(steps, t, now);
  }

  lemma FreshReading(used: set<nat>) returns (nanos: nat)
    ensures nanos !in used
  {
    if used == {} {
      nanos := 0;
    } else {
      var m :| m in used;
      nanos := FreshAbove(used, m);
    }
  }

  lemma FreshAbove(used: set<nat>, m: nat) returns (nanos: nat)
    ensures nanos !in used && nanos >= m
    decreases |used|
  {
    if m !in used {
      nanos := m;
    } else {
      var n := FreshAbove(used - {m}, m + 1);
      nanos := n;
    }
  }

  /** An opening that was under way then is completed and registered. */
  lemma LateOpening(steps: seq<Step>, t: nat) returns (more: seq<Step>)
    requires Reach(steps).byKey == map[] && t in Reach(steps).opening
    ensures Registered(Reach(steps + more), t)
  {
    if t in Reach(steps).dialled {
      more := LateTunnel(steps, t);
    } else {
      ReachNext(steps, Dial(t));
      var later := LateTunnel(steps + [Dial(t)], t);
      more := [Dial(t)] + later;
      assert steps + more == steps + [Dial(t)] + later;
    }
  }

  lemma LateTunnel(steps: seq<Step>, t: nat) returns (more: seq<Step>)
    requires Reach(steps).byKey == map[] && t in Reach(steps).opening && t in Reach(steps).dialled
    ensures Registered(Reach(steps + more), t)
  {
    AlwaysInv(steps);
    var s := Reach(steps);
    var nanos := FreshReading(s.clockReads);
    var r := s.calls[t];
    var e := Entry(PfId(r.vm, r.port, nanos), r.vm, r.port, 0, r.protocol, r.tag, 0, 0, r.context);
    ReachOpened(steps, t, e, nanos);
    LateCommit(steps + [Opened(t, e, nanos)], t, 0);
    more := [Opened(t, e, nanos), Commit(t, 0)];
    assert steps + more == steps + [Opened(t, e, nanos)] + [Commit(t, 0)];
  }

  /** A call that had read the old context then finds nothing and opens a forward. */
  lemma LateLookup(steps: seq<Step>, t: nat) returns (more: seq<Step>)
    requires Reach(steps).byKey == map[] && t in Reach(steps).asking
    ensures Registered(Reach(steps + more), t)
  {
    AlwaysInv(steps);
    ReachLookup(steps, t, 0);
    var later := LateOpening(steps + [Lookup(t, 0)], t);
    more := [Lookup(t, 0)] + later;
    assert steps + more == steps + [Lookup(t, 0)] + later;
  }

  lemma DropFinishes(steps: seq<Step>, t: nat)
    requires t in Reach(steps).calls && t !in Pending(Reach(steps))
    ensures Finished(Reach(steps + [DropAll]), t)
  {
    ReachDropAll(steps);
  }

  /** A forward that was asked for before everything was dropped (a cluster switch) is there at
      some time afterwards, in some continuation, exactly when its call was still pending at the
      drop: before its lookup, while opening the tunnel, or before its commit. */
  lemma AfterDropAll(steps: seq<Step>, t: nat)
    requires t in Reach(steps).calls
    ensures (exists more :: Registered(Reach(steps + [DropAll] + more), t)) <==> t in Pending(Reach(steps))
  {
    var drop := steps + [DropAll];
    ReachDropAll(steps);
    if t in Pending(Reach(steps)) {
      var more: seq<Step>;
      if t in Reach(steps).asking {
        more := LateLookup(drop, t);
      } else if t in Reach(steps).opening {
        more := LateOpening(drop, t);
      } else {
        LateCommit(drop, t, 0);
        more := [Commit(t, 0)];
      }
      assert Registered(Reach(drop + more), t);
    } else {
      DropFinishes(steps, t);
      forall more
        ensures !Registered(Reach(drop + more), t)
      {
        FinishedForGood(drop, more, t);
      }
    }
  }

  /** What is registered is for the context its call had read. */
  lemma RegisteredForItsCall(steps: seq<Step>, t: nat)
    requires Registered(Reach(steps), t)
    ensures t in Reach(steps).calls && For(Reach(steps).calls[t], Reach(steps).insts[t].entry)
  {
    AlwaysInv(steps);
  }

  /** After a switch no forward asked for `context` before it ever shows up again exactly when
      no call for that context was pending at the switch. */
  lemma CleanSwitchIff(steps: seq<Step>, context: string)
    ensures
      var s := Reach(steps);
      (forall t, more :: t in s.calls && s.calls[t].context == context ==> !Registered(Reach(steps + [DropAll] + more), t))
        <==> forall t :: t in Pending(s) ==> t in s.calls && s.calls[t].context != context
  {
    var s := Reach(steps);
    AlwaysInv(steps);
    forall t | t in s.calls
      ensures (exists more :: Registered(Reach(steps + [DropAll] + more), t)) <==> t in Pending(s)
    {
      AfterDropAll(steps, t);
    }
    assert forall t :: t in Pending(s) ==> t in s.calls;
  }

  /** All three ways occur. */
  lemma EveryStageOccurs(r: Request, nanos: nat, e: Entry)
    requires ValidVmName(r.vm) && MadeFor(r, e) && e.id == PfId(r.vm, r.port, nanos)
    ensures
      var asked := [Switch(r.context)] + [Ask(0, r)];
      var missed := asked + [Lookup(0, 0)] + [Dial(0)];
      && Reach(asked).asking == {0} && Reach(missed).opening == {0}
      && Reach(missed + [Opened(0, e, nanos)]).inFlight == {0}
  {
    FirstSteps(r, r.context);
    var missed := [Switch(r.context)] + [Ask(0, r)] + [Lookup(0, 0)];
    ReachNext(missed, Dial(0));
    ReachOpened(missed + [Dial(0)], 0, e, nanos);
  }

  lemma FirstSteps(r: Request, context: string)
    requires ValidVmName(r.vm)
    ensures
      var asked := [Switch(r.context)] + [Ask(0, r)];
      && Reach(asked) == INIT.(active := r.context, calls := map[0 := r], asking := {0})
      && Reach(asked + [Lookup(0, 0)]) == INIT.(active := r.context, calls := map[0 := r], opening := {0})
  {
    assert [] + [Switch(r.context)] == [Switch(r.context)];
    ReachNext([], Switch(r.context));
    ReachAsk([Switch(r.context)], 0, r);
    ReachLookup([Switch(r.context)] + [Ask(0, r)], 0, 0);
  }

  /* ---------- which cluster a forward leads to ---------- */

  /** The active context after these steps. */
  function LastSwitch(active: string, steps: seq<Step>): string {
    if steps == [] then active
    else
      match steps[|steps| - 1]
      case Switch(context) => context
      case _ => LastSwitch(active, steps[..|steps| - 1])
  }

  lemma ActiveNext(s: State, step: Step)
    ensures Next(s, step).active == if step.Switch? then step.context else s.active
  {
  }

  lemma {:induction false} ActiveFollows(steps: seq<Step>, more: seq<Step>)
    ensures Reach(steps + more).active == LastSwitch(Reach(steps).active, more)
  {
    if more == [] {
      assert steps + more == steps;
    } else {
      var front := more[..|more| - 1];
      assert (steps + more)[..|steps + more| - 1] == steps + front;
      ActiveFollows(steps, front);
      ActiveNext(Reach(steps + front), more[|more| - 1]);
      hide Next;
    }
  }

  lemma CallNext(s: State, step: Step, c: nat)
    requires c in s.calls
    ensures c in Next(s, step).calls && Next(s, step).calls[c] == s.calls[c]
    ensures c in s.dialled ==> c in Next(s, step).dialled && Next(s, step).dialled[c] == s.dialled[c]
  {
  }

  lemma {:induction false} CallStays(steps: seq<Step>, more: seq<Step>, c: nat)
    requires c in Reach(steps).calls
    ensures
      var s, s1 := Reach(steps), Reach(steps + more);
      && c in s1.calls && s1.calls[c] == s.calls[c]
      && (c in s.dialled ==> c in s1.dialled && s1.dialled[c] == s.dialled[c])
  {
    if more == [] {
      assert steps + more == steps;
    } else {
      var front := more[..|more| - 1];
      assert (steps + more)[..|steps + more| - 1] == steps + front;
      CallStays(steps, front, c);
      CallNext(Reach(steps + front), more[|more| - 1], c);
      hide Next;
    }
  }

  /** A forward leads to the cluster that was active when its call picked the client, and is
      registered under the context that was active when the call began: it leads where it
      says exactly if the last switch in between, if there was one, was to that context. */
  lemma LeadsWhereItSaysIff(before: seq<Step>, c: nat, r: Request, between: seq<Step>, later: seq<Step>)
    requires Enabled(Reach(before), Ask(c, r))
    requires Enabled(Reach(before + [Ask(c, r)] + between), Dial(c))
    requires Registered(Reach(before + [Ask(c, r)] + between + [Dial(c)] + later), c)
    ensures
      var s := Reach(before + [Ask(c, r)] + between + [Dial(c)] + later);
      && c in s.dialled
      && (s.dialled[c] == s.insts[c].entry.context <==> LastSwitch(r.context, between) == r.context)
  {
    var asked := before + [Ask(c, r)];
    var dialled := asked + between + [Dial(c)];
    ReachAsk(before, c, r);
    ActiveFollows(asked, between);
    CallStays(asked, between, c);
    ReachNext(asked + between, Dial(c));
    CallStays(dialled, later, c);
    RegisteredForItsCall(dialled + later, c);
    hide Reach, Registered, LastSwitch;
  }

  /** A call begun before a switch and served after it: the forward leads to the new cluster
      and is registered under the old one's context. */
  lemma LeadsElsewhere(r: Request, context: string, nanos: nat, e: Entry)
    requires ValidVmName(r.vm) && MadeFor(r, e) && e.id == PfId(r.vm, r.port, nanos)
    ensures
      var steps := [Switch(r.context)] + [Ask(0, r)] + [Lookup(0, 0)] + [Switch(context)] + [DropAll] + [Dial(0)]
        + [Opened(0, e, nanos)] + [Commit(0, 0)];
      var s := Reach(steps);
      Registered(s, 0) && s.insts[0].entry.context == r.context && 0 in s.dialled && s.dialled[0] == context
  {
    FirstSteps(r, context);
    var o3 := [Switch(r.context)] + [Ask(0, r)] + [Lookup(0, 0)];
    var o5 := o3 + [Switch(context)] + [DropAll];
    var o6 := o5 + [Dial(0)];
    var o7 := o6 + [Opened(0, e, nanos)];
    ReachNext(o3, Switch(context));
    ReachDropAll(o3 + [Switch(context)]);
    ReachNext(o5, Dial(0));
    ReachOpened(o6, 0, e, nanos);
    LateCommit(o7, 0, 0);
    ReachCommit(o7, 0, 0);
    hide Reach, Key;
  }

  lemma RemovedInSteps(s: State, ids: set<string>, id: string)
    requires id !in ids
    ensures Removed(Removed(s, ids), {id}) == Removed(s, ids + {id})
  {
  }

  /** The bookkeeping of one removal. */
  function TakeOut(s: State, id: string): State
    requires id in s.byId && s.byId[id] in s.insts
  {
    var t := s.byId[id];
    s.(byId := s.byId - {id}, byKey := s.byKey - {s.insts[t].key}, stopped := s.stopped + {t})
  }

  lemma TakeOutRemoves(s: State, id: string)
    requires id in s.byId && s.byId[id] in s.insts
    ensures Removed(s, {id}) == TakeOut(s, id)
  {
  }

  /* ---------- the class ---------- */

  class Instance {
    var entry: Entry
    ghost const tunnel: nat
    ghost const key: string
    ghost var stopped: bool

    constructor (entry: Entry, ghost tunnel: nat)
      ensures this.entry == entry && this.tunnel == tunnel && key == Key(entry) && !stopped
    {
      this.entry := entry;
      this.tunnel := tunnel;
      key := Key(entry);
      stopped := false;
    }

    /** Closes the tunnel; it must still be running. */
    method Stop()
      requires !stopped
      modifies this`stopped
      ensures stopped
    {
      stopped := true;
    }
  }

  /** A manager; `history` are the locked steps it has performed. */
  class Manager {
    var byKey: map<string, Instance>
    var byId: map<string, Instance>
    ghost var repr: set<Instance>
    ghost var view: State
    ghost var history: seq<Step>

    /** The instance is as the view says. */
    ghost predicate Shows(i: Instance)
      reads this`view, i
    {
      && i.tunnel in view.insts && view.insts[i.tunnel] == Inst(i.entry, i.key)
      && (i.stopped <==> i.tunnel in view.stopped)
    }

    /** The heap is laid out as the view says: one instance per tunnel, shared by the indexes. */
    ghost predicate Linked()
      reads this`byKey, this`byId, this`repr, this`view, repr
    {
      && (forall i :: i in repr ==> Shows(i))
      && (forall i, j :: i in repr && j in repr && i.tunnel == j.tunnel ==> i == j)
      && (forall k :: k in byKey <==> k in view.byKey)
      && (forall id :: id in byId <==> id in view.byId)
      && (forall k :: k in byKey ==> byKey[k] in repr && byKey[k].tunnel == view.byKey[k])
      && (forall id :: id in byId ==> byId[id] in repr && byId[id].tunnel == view.byId[id])
    }

    /** The heap shows the state that the steps performed so far lead to. */
    ghost predicate Valid()
      reads this, repr
    {
      Linked() && view == Reach(history)
    }

    lemma LinkedKeys()
      requires Linked()
      ensures byId.Keys == view.byId.Keys && forall id :: id in byId ==> byId[id] in repr
    {
    }

    constructor ()
      ensures Valid() && history == []
    {
      byKey, byId := map[], map[];
      repr, view, history := {}, INIT, [];
    }

    /** Writes one shared instance: visible through both indexes. */
    method SetEntry(inst: Instance, e: Entry)
      requires Linked() && inst in repr
      modifies this`view, inst`entry
      ensures Linked() && view == Update(old(view), inst.tunnel, e)
    {
      inst.entry := e;
      view := Update(view, inst.tunnel, e);
    }

    /** Refreshes the instance under a key, if there is one. */
    method Refresh(key: string, protocol: string, tag: string, now: int) returns (r: Option<Entry>)
      requires Linked()
      modifies this`view, repr
      ensures Linked()
      ensures view == AfterLookup(old(view), key, protocol, tag, now)
      ensures r == LookupResult(old(view), key, protocol, tag, now)
    {
      if key !in byKey {
        return None;
      }
      var existing := byKey[key];
      var e := existing.entry.(lastUsed := now);
      if tag != "" {
        e := e.(tag := tag);
      }
      if protocol != "" {
        e := e.(protocol := protocol);
      }
      SetEntry(existing, e);
      r := Some(e);
    }

    /** Steps in which the manager has no part: the active cluster is switched, a call of
        EnsureOpen reads the active context or picks the client, or fails to open a tunnel. */
    ghost method Outside(step: Step)
      requires Valid() && Enabled(view, step) && (step.Switch? || step.Ask? || step.Dial? || step.OpenFailed?)
      modifies this`view, this`history
      ensures Valid() && history == old(history) + [step] && view == Next(old(view), step)
    {
      ReachNext(history, step);
      history := history + [step];
      view := Reach(history);
    }

    ghost method SetStage(asking: set<nat>, opening: set<nat>)
      requires Linked()
      modifies this`view
      ensures Linked() && view == old(view).(asking := asking, opening := opening)
    {
      view := view.(asking := asking, opening := opening);
    }

    /** EnsureOpen under the first lock; None means a tunnel has to be opened. */
    method Lookup(ghost call: nat, q: Request, now: int) returns (r: Option<Entry>)
      requires Valid() && call in view.asking && call in view.calls && view.calls[call] == q
      modifies this`view, this`history, repr
      ensures Valid() && history == old(history) + [Step.Lookup(call, now)]
      ensures r == LookupResult(old(view), PfKey(q.context, q.vm, q.port), q.protocol, q.tag, now)
    {
      ReachLookup(history, call, now);
      ghost var s := view;
      hide Reach, Refreshed;
      r := Refresh(PfKey(q.context, q.vm, q.port), q.protocol, q.tag, now);
      SetStage(s.asking - {call}, if r.Some? then s.opening else s.opening + {call});
      history := history + [Step.Lookup(call, now)];
    }

    method Touch(context: string, vm: string, port: nat, now: int)
      requires Valid()
      modifies this`view, this`history, repr
      ensures Valid() && history == old(history) + [Step.Touch(context, vm, port, now)]
    {
      ReachTouch(history, context, vm, port, now);
      var _ := Refresh(PfKey(context, vm, port), "", "", now);
      history := history + [Step.Touch(context, vm, port, now)];
    }

    /** StartPortForward succeeded: the instance exists but no index knows it yet. */
    method Open(e: Entry, ghost call: nat, ghost nanos: nat) returns (inst: Instance)
      requires Valid() && Enabled(view, Opened(call, e, nanos))
      modifies this`repr, this`view, this`history
      ensures Valid() && history == old(history) + [Opened(call, e, nanos)]
      ensures fresh(inst) && inst.tunnel == call && repr == old(repr) + {inst}
    {
      ReachOpened(history, call, e, nanos);
      inst := new Instance(e, call);
      repr := repr + {inst};
      view := AfterOpened(view, call, e, nanos);
      history := history + [Opened(call, e, nanos)];
    }

    /** Stops one running instance. */
    method StopOne(inst: Instance)
      requires Linked() && inst in repr && !inst.stopped
      modifies this`view, inst`stopped
      ensures Linked() && view == old(view).(stopped := old(view).stopped + {inst.tunnel})
    {
      inst.Stop();
      view := view.(stopped := view.stopped + {inst.tunnel});
    }

    /** Lost the race: stop the new tunnel and refresh the winner. */
    method Yield(inst: Instance, winner: Instance, now: int) returns (r: Entry)
      requires Linked() && inst in repr && !inst.stopped
      requires winner in repr
      modifies this`view, inst`stopped, winner`entry
      ensures Linked() && r == old(winner.entry).(lastUsed := now)
      ensures
        var s1 := Update(old(view), winner.tunnel, r);
        view == s1.(inFlight := s1.inFlight - {inst.tunnel}, stopped := s1.stopped + {inst.tunnel})
    {
      r := winner.entry.(lastUsed := now);
      StopOne(inst);
      view := view.(inFlight := view.inFlight - {inst.tunnel});
      SetEntry(winner, r);
    }

    method Enter(inst: Instance, key: string)
      requires Linked() && inst in repr && inst.key == key
      modifies this`byKey, this`byId, this`view
      ensures Linked() && view == Register(old(view), inst.tunnel)
    {
      byKey := byKey[key := inst];
      byId := byId[inst.entry.id := inst];
      view := Register(view, inst.tunnel);
    }

    /** EnsureOpen after the second lock. */
    method Commit(inst: Instance, now: int) returns (r: Entry)
      requires Valid() && inst in repr && inst.tunnel in view.inFlight
      modifies this`byKey, this`byId, this`view, this`history, repr
      ensures Valid() && history == old(history) + [Step.Commit(inst.tunnel, now)]
      ensures r == CommitResult(old(view), inst.tunnel, now)
    {
      ReachCommit(history, inst.tunnel, now);
      history := history + [Step.Commit(inst.tunnel, now)];
      var key := PfKey(inst.entry.context, inst.entry.vm, inst.entry.remotePort);
      assert Shows(inst);
      assert key == inst.key;
      if key in byKey {
        var winner := byKey[key];
        assert Shows(winner);
        r := Yield(inst, winner, now);
      } else {
        r := inst.entry;
        Enter(inst, key);
      }
    }

    method Unlink(id: string, key: string)
      requires Linked()
      modifies this`byKey, this`byId, this`view
      ensures Linked() && byId == old(byId) - {id}
      ensures view == old(view).(byId := old(view).byId - {id}, byKey := old(view).byKey - {key})
    {
      byId := byId - {id};
      byKey := byKey - {key};
      view := view.(byId := view.byId - {id}, byKey := view.byKey - {key});
    }

    /** Stops one instance and takes it out of both indexes. */
    method Remove(id: string, inst: Instance)
      requires Linked() && id in byId && byId[id] == inst && !inst.stopped && inst.key == Key(inst.entry)
      modifies this`byKey, this`byId, this`view, inst`stopped
      ensures Linked() && byId == old(byId) - {id}
      ensures old(id in view.byId && view.byId[id] in view.insts) && view == TakeOut(old(view), id)
    {
      hide Key;
      assert Shows(inst);
      StopOne(inst);
      Unlink(id, Key(inst.entry));
    }

    method Delete(id: string) returns (ok: bool)
      requires Valid()
      modifies this`byKey, this`byId, this`view, this`history, repr
      ensures Valid() && history == old(history) + [Step.Delete(id)]
      ensures ok == (id in old(view).byId)
    {
      ReachDelete(history, id);
      ok := id in byId;
      if ok {
        StillRunning(history, {}, id);
        assert Shows(byId[id]);
        Remove(id, byId[id]);
      }
      history := history + [Step.Delete(id)];
    }

    /** Takes out one more instance while a sweep is under way. */
    method RemoveNext(id: string, inst: Instance, ghost steps: seq<Step>, ghost gone: set<string>)
      requires Linked() && view == Removed(Reach(steps), gone) && id in byId && byId[id] == inst && id !in gone
      modifies this`byKey, this`byId, this`view, inst`stopped
      ensures Linked() && view == Removed(Reach(steps), gone + {id}) && byId == old(byId) - {id}
    {
      NextToGo(steps, gone, id);
      hide Reach, Removed;
      assert Shows(inst);
      Remove(id, inst);
    }

    /** One turn of the sweep's loop; forwards `gone` are out already. */
    method SweepOne(id: string, inst: Instance, now: int, ghost steps: seq<Step>, ghost gone: set<string>)
      requires Linked() && view == Removed(Reach(steps), gone) && id in byId && byId[id] == inst && id !in gone
      modifies this`byKey, this`byId, this`view, inst`stopped
      ensures Linked()
      ensures
        var idle := id in IdleIds(Reach(steps), now);
        && byId == (if idle then old(byId) - {id} else old(byId))
        && view == Removed(Reach(steps), if idle then gone + {id} else gone)
    {
      assert Shows(inst);
      RemovedShape(Reach(steps), gone);
      IdleMember(Reach(steps), now, id);
      hide Reach, Removed, IdleIds;
      if now - inst.entry.lastUsed > IDLE_AFTER {
        RemoveNext(id, inst, steps, gone);
      }
    }

    /** Stops and takes out the registered instances that are idle; `steps` led to the view. */
    method SweepIdle(now: int, ghost steps: seq<Step>)
      requires Linked() && view == Reach(steps)
      modifies this`byKey, this`byId, this`view, repr
      ensures Linked() && view == Removed(old(view), IdleIds(old(view), now))
    {
      ghost var s, idle, gone := view, IdleIds(view, now), {};
      RemovedShape(s, {});
      IdleSubset(s, now);
      hide Reach, Removed, IdleIds, Linked;
      LinkedKeys();
      var todo := byId.Keys;
      while todo != {}
        invariant Linked() && repr == old(repr) && todo <= byId.Keys
        invariant view == Removed(s, gone) && gone == idle - todo
      {
        LinkedKeys();
        var id :| id in todo;
        SweepOne(id, byId[id], now, steps, gone);
        todo := todo - {id};
        gone := if id in idle then gone + {id} else gone;
      }
      assert gone == idle;
    }

    method Sweep(now: int)
      requires Valid()
      modifies this`byKey, this`byId, this`view, this`history, repr
      ensures Valid() && history == old(history) + [Step.Sweep(now)]
    {
      ReachSweep(history, now);
      hide Reach, Removed, IdleIds;
      SweepIdle(now, history);
      history := history + [Step.Sweep(now)];
    }

    /** Stops one more instance while all are being dropped. */
    method StopNext(id: string, inst: Instance, ghost steps: seq<Step>, ghost gone: set<string>)
      requires Linked() && id in byId && byId[id] == inst && id !in gone
      requires var s := Reach(steps); view == s.(stopped := s.stopped + GoneTunnels(s, gone))
      modifies this`view, inst`stopped
      ensures Linked()
      ensures var s := Reach(steps); view == s.(stopped := s.stopped + GoneTunnels(s, gone + {id}))
    {
      StillRunning(steps, gone, id);
      GoneOneMore(Reach(steps), gone, id);
      hide Reach, GoneTunnels;
      assert Shows(inst);
      StopOne(inst);
    }

    /** Stops every registered instance, leaving the indexes as they are. */
    method StopAll(ghost steps: seq<Step>)
      requires Linked() && view == Reach(steps)
      modifies this`view, repr
      ensures Linked()
      ensures var s := Reach(steps); view == s.(stopped := s.stopped + GoneTunnels(s, s.byId.Keys))
    {
      ghost var s, gone := view, {};
      GoneNone(s);
      hide Reach, GoneTunnels, Key, Registered, Linked;
      LinkedKeys();
      var todo := byId.Keys;
      while todo != {}
        invariant todo <= byId.Keys && gone == byId.Keys - todo && byId == old(byId) && repr == old(repr)
        invariant Linked()
        invariant view == s.(stopped := s.stopped + GoneTunnels(s, gone))
      {
        var id :| id in todo;
        LinkedKeys();
        StopNext(id, byId[id], steps, gone);
        todo, gone := todo - {id}, gone + {id};
      }
      assert gone == s.byId.Keys;
    }

    method DropAll()
      requires Valid()
      modifies this`byKey, this`byId, this`view, this`history, repr
      ensures Valid() && history == old(history) + [Step.DropAll]
    {
      hide GoneTunnels, Reach;
      ReachDropAll(history);
      StopAll(history);
      byId, byKey := map[], map[];
      view := view.(byId := map[], byKey := map[]);
      history := history + [Step.DropAll];
    }
  }

  /* What each step adds to a history. */

  lemma ReachNext(steps: seq<Step>, step: Step)
    ensures Reach(steps + [step]) == Next(Reach(steps), step)
  {
    assert (steps + [step])[..|steps|] == steps;
    hide Next;
  }

  lemma ReachAsk(steps: seq<Step>, c: nat, r: Request)
    requires Enabled(Reach(steps), Ask(c, r))
    ensures
      var s := Reach(steps);
      Reach(steps + [Ask(c, r)]) == s.(calls := s.calls[c := r], asking := s.asking + {c})
  {
    ReachNext(steps, Ask(c, r));
    hide Reach;
  }

  lemma ReachLookup(steps: seq<Step>, c: nat, now: int)
    requires Enabled(Reach(steps), Lookup(c, now))
    ensures Reach(steps + [Lookup(c, now)]) == LookedUp(Reach(steps), c, now)
  {
    ReachNext(steps, Lookup(c, now));
    hide Reach, LookedUp;
  }

  lemma ReachTouch(steps: seq<Step>, ctx: string, vm: string, port: nat, now: int)
    ensures Reach(steps + [Touch(ctx, vm, port, now)]) == AfterLookup(Reach(steps), PfKey(ctx, vm, port), "", "", now)
  {
    ReachNext(steps, Touch(ctx, vm, port, now));
    hide Reach, AfterLookup;
  }

  lemma ReachOpened(steps: seq<Step>, t: nat, e: Entry, nanos: nat)
    requires Enabled(Reach(steps), Opened(t, e, nanos))
    ensures Reach(steps + [Opened(t, e, nanos)]) == AfterOpened(Reach(steps), t, e, nanos)
    ensures t !in Reach(steps).stopped
  {
    AlwaysInv(steps);
    ReachNext(steps, Opened(t, e, nanos));
  }

  lemma ReachCommit(steps: seq<Step>, t: nat, now: int)
    requires t in Reach(steps).inFlight
    ensures
      var s := Reach(steps);
      && t in s.insts && t !in s.stopped && s.insts[t].key == Key(s.insts[t].entry)
      && Reach(steps + [Commit(t, now)]) == AfterCommit(s, t, now)
  {
    AlwaysInv(steps);
    var s := Reach(steps);
    assert OnePlace(s, t) && Minted(s.clockReads, s.insts[t]);
    ReachNext(steps, Commit(t, now));
  }

  lemma ReachRemoved(steps: seq<Step>, id: string)
    ensures Reach(steps + [Delete(id)]) == Removed(Reach(steps), {id})
  {
    ReachNext(steps, Delete(id));
    hide Reach, Removed;
  }

  lemma ReachDelete(steps: seq<Step>, id: string)
    ensures
      var s := Reach(steps);
      if id in s.byId then s.byId[id] in s.insts && Reach(steps + [Delete(id)]) == TakeOut(s, id)
      else Reach(steps + [Delete(id)]) == s
  {
    AlwaysInv(steps);
    ReachRemoved(steps, id);
    hide Reach;
    var s := Reach(steps);
    if id in s.byId {
      assert IdOk(s, id);
      TakeOutRemoves(s, id);
    } else {
      RemovedAbsent(s, id);
    }
  }

  lemma RemovedAbsent(s: State, id: string)
    requires id !in s.byId
    ensures Removed(s, {id}) == s
  {
  }

  lemma StillRunning(steps: seq<Step>, gone: set<string>, id: string)
    requires id in Reach(steps).byId && id !in gone
    ensures
      var s := Reach(steps);
      s.byId[id] in s.insts && s.byId[id] !in s.stopped && s.byId[id] !in GoneTunnels(s, gone)
      && s.insts[s.byId[id]].key == Key(s.insts[s.byId[id]].entry)
  {
    AlwaysInv(steps);
    var s := Reach(steps);
    assert IdOk(s, id) && OnePlace(s, s.byId[id]) && Minted(s.clockReads, s.insts[s.byId[id]]);
    assert forall other :: other in s.byId ==> IdOk(s, other);
  }

  lemma ReachSweep(steps: seq<Step>, now: int)
    ensures Reach(steps + [Sweep(now)]) == Removed(Reach(steps), IdleIds(Reach(steps), now))
  {
    ReachNext(steps, Sweep(now));
    hide Reach, Removed, IdleIds;
  }

  lemma ReachDropAll(steps: seq<Step>)
    ensures
      var s := Reach(steps);
      Reach(steps + [DropAll])
        == s.(byId := map[], byKey := map[], stopped := s.stopped + GoneTunnels(s, s.byId.Keys))
  {
    ReachNext(steps, DropAll);
    hide Reach, GoneTunnels, GoneKeys;
  }

  lemma GoneNone(s: State)
    ensures GoneTunnels(s, {}) == {} && s.(stopped := s.stopped + {}) == s
  {
  }

  lemma GoneOneMore(s: State, gone: set<string>, id: string)
    requires id in s.byId
    ensures GoneTunnels(s, gone + {id}) == GoneTunnels(s, gone) + {s.byId[id]}
  {
  }

  lemma RemovedShape(s: State, ids: set<string>)
    ensures Removed(s, ids).insts == s.insts && Removed(s, ids).byId == s.byId - ids
    ensures ids == {} ==> Removed(s, ids) == s
  {
  }

  /** In the middle of a sweep, what is still registered is still running. */
  lemma NextToGo(steps: seq<Step>, gone: set<string>, id: string)
    requires id in Removed(Reach(steps), gone).byId && id !in gone
    ensures
      var s, v := Reach(steps), Removed(Reach(steps), gone);
      && v.byId[id] in v.insts && v.byId[id] !in v.stopped
      && v.insts[v.byId[id]].key == Key(v.insts[v.byId[id]].entry)
      && Removed(s, gone + {id}) == TakeOut(v, id)
  {
    StillRunning(steps, gone, id);
    RemovedInSteps(Reach(steps), gone, id);
    TakeOutRemoves(Removed(Reach(steps), gone), id);
  }

  lemma IdleMember(s: State, now: int, id: string)
    ensures id in IdleIds(s, now) <==>
      id in s.byId && s.byId[id] in s.insts && now - s.insts[s.byId[id]].entry.lastUsed > IDLE_AFTER
  {
  }

  lemma IdleSubset(s: State, now: int)
    ensures IdleIds(s, now) <= s.byId.Keys
  {
  }
}
