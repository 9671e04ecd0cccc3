/**
 Concurrent dials through the resolver of internal/dns/resolver.go: any number of dialHost calls for
 any hosts share a cache and the lookups in flight, while reloads replace the list of DNS servers.

 Unlike the certificate authority, a leader here deregisters its call before it stores the answer and
 does not look into the cache again, so a name can be asked for twice within one time to live. What
 holds is proved below: one lookup per key at a time, no dial without a connection and without an
 error, two passes at most, and answers of an old server list only from leaders that had loaded it.

 `generation` counts the server lists stored and tags each answer with the list that was asked. It is
 bookkeeping of the model; no decision depends on it.
 */
module DnsFlight {
  import opened GoText
  import opened HostPort
  import opened Caches
  import opened Sums
  import opened Resolvers

  const MAX_CACHED_LOOKUPS := 512

  datatype Servers = Servers(addresses: seq<string>, generation: nat)

  /** A cached or delivered list of targets, tagged with the server list it was asked of. */
  datatype Entry = Entry(targets: seq<string>, generation: nat)

  datatype Delivery = Delivery(entry: Entry, err: Option<DialError>)

  const NOTHING := Delivery(Entry([], 0), None)

  /** A lookupCall. Its number is its identity; `leader` records who created it. */
  datatype Call = Call(leader: nat, closed: bool, result: Delivery)

  datatype Shared = Shared(servers: Servers, cache: Store<Entry>, inflight: map<string, nat>, calls: seq<Call>)

  // ---------------------------------------------------------------------------------------------
  // Critical sections
  // ---------------------------------------------------------------------------------------------

  datatype Begun = Begun(shared: Shared, call: nat, leads: bool)

  function Begin(sh: Shared, key: string, who: nat): Begun {
    if key in sh.inflight then Begun(sh, sh.inflight[key], false)
    else
      var call := |sh.calls|;
      Begun(sh.(inflight := sh.inflight[key := call], calls := sh.calls + [Call(who, false, NOTHING)]), call, true)
  }

  function Deregister(sh: Shared, key: string): Shared {
    sh.(inflight := sh.inflight - {key})
  }

  function Assign(sh: Shared, call: nat, result: Delivery): Shared
    requires call < |sh.calls|
  {
    sh.(calls := sh.calls[call := sh.calls[call].(result := result)])
  }

  /** close(call.done); closing twice would panic. */
  function Close(sh: Shared, call: nat): Shared
    requires call < |sh.calls| && !sh.calls[call].closed
  {
    sh.(calls := sh.calls[call := sh.calls[call].(closed := true)])
  }

  /** current.Store in Update. */
  function StoreServers(sh: Shared, addresses: seq<string>): Shared {
    sh.(servers := Servers(addresses, sh.servers.generation + 1))
  }

  // ---------------------------------------------------------------------------------------------
  // Callers
  // ---------------------------------------------------------------------------------------------

  datatype Phase =
    | Load
    | Query(servers: Servers)
    | Leave(result: Delivery)
    | Deliver(result: Delivery)
    | Broadcast(result: Delivery)

  /** Where a dialHost call is; `pass` is 1, or 2 once a cached answer has failed it. */
  datatype Pc =
    | Lookup(pass: nat)
    | Register(pass: nat)
    | Wait(pass: nat, call: nat)
    | Lead(pass: nat, call: nat, phase: Phase)
    | PutAnswer(pass: nat, entry: Entry)
    | Connect(pass: nat, entry: Entry, fromCache: bool)
    | Drop
    | Done(conn: Option<nat>, err: Option<DialError>)

  datatype Caller = Caller(host: string, port: string, pc: Pc)

  /** `stored` says that an Update has stored its list and has yet to clear the cache. */
  datatype State = State(now: int, shared: Shared, callers: seq<Caller>, stored: bool)

  /** What the outside gives a step: the servers' answers, the sockets' answers, a context that is done. */
  datatype Input = Input(answers: seq<Answer>, attempts: seq<Attempt>, cancelled: Option<string>)

  function Key(caller: Caller): string {
    JoinHostPort(caller.host, caller.port)
  }

  /** Dials share an answer exactly when they are for the same host and port. */
  lemma KeyIffSameDial(a: Caller, b: Caller)
    requires BracketFree(a.host) && BracketFree(a.port) && ':' !in a.port
    requires BracketFree(b.host) && BracketFree(b.port) && ':' !in b.port
    ensures Key(a) == Key(b) <==> a.host == b.host && a.port == b.port
  {
    SplitJoined(a.host, a.port);
    SplitJoined(b.host, b.port);
    hide SplitHostPort, JoinHostPort;
  }

  function Move(s: State, i: nat, pc: Pc, shared: Shared): State
    requires i < |s.callers|
  {
    s.(shared := shared, callers := s.callers[i := s.callers[i].(pc := pc)])
  }

  /** The input fits the step: an answer per server asked, an attempt per target dialled. */
  predicate CanStep(s: State, i: nat, input: Input)
    requires i < |s.callers|
  {
    match s.callers[i].pc
    case Wait(_, call) => input.cancelled.Some? || (call < |s.shared.calls| && s.shared.calls[call].closed)
    case Lead(_, call, phase) =>
      && call < |s.shared.calls|
      && (phase.Query? ==> |input.answers| == |ServersOf(phase.servers.addresses)|)
      && (phase.Broadcast? ==> !s.shared.calls[call].closed)
    case Connect(_, entry, _) => |input.attempts| == |entry.targets|
    case Done(_, _) => false
    case _ => true
  }

  /** What lookup hands back to dialHost. */
  function Continue(pass: nat, result: Delivery): Pc {
    if result.err.Some? then Done(None, result.err) else Connect(pass, result.entry, false)
  }

  function StepCaller(s: State, i: nat, input: Input): State
    requires i < |s.callers| && CanStep(s, i, input)
  {
    var sh, key := s.shared, Key(s.callers[i]);
    match s.callers[i].pc
    case Lookup(pass) =>
      var hit := Caches.Lookup(sh.cache, key, s.now);
      Move(s, i, if hit.Some? then Connect(pass, hit.value, true) else Register(pass),
           sh.(cache := AfterGet(sh.cache, key, s.now)))
    case Register(pass) =>
      var begun := Begin(sh, key, i);
      Move(s, i, if begun.leads then Lead(pass, begun.call, Load) else Wait(pass, begun.call), begun.shared)
    case Wait(pass, call) =>
      Move(s, i, if input.cancelled.Some? then Done(None, Some(ContextDone(input.cancelled.value)))
                 else Continue(pass, sh.calls[call].result), sh)
    case Lead(pass, call, phase) => StepLeader(s, i, input, pass, call, phase)
    case PutAnswer(pass, entry) =>
      Move(s, i, Connect(pass, entry, false), sh.(cache := AfterPut(sh.cache, key, entry, s.now)))
    case Connect(pass, entry, fromCache) =>
      var result := DialResult(input.attempts);
      Move(s, i, if result.conn.None? && fromCache && pass == 1 then Drop else Done(result.conn, result.err), sh)
    case Drop => Move(s, i, Lookup(2), sh.(cache := AfterEvict(sh.cache, key)))
  }

  function StepLeader(s: State, i: nat, input: Input, pass: nat, call: nat, phase: Phase): State
    requires i < |s.callers| && call < |s.shared.calls|
    requires phase.Query? ==> |input.answers| == |ServersOf(phase.servers.addresses)|
    requires phase.Broadcast? ==> !s.shared.calls[call].closed
  {
    var sh, caller := s.shared, s.callers[i];
    match phase
    case Load => Move(s, i, Lead(pass, call, Query(sh.servers)), sh)
    case Query(servers) =>
      var found := Resolution(input.answers, caller.host, caller.port);
      Move(s, i, Lead(pass, call, Leave(Delivery(Entry(found.targets, servers.generation), found.err))), sh)
    case Leave(result) => Move(s, i, Lead(pass, call, Deliver(result)), Deregister(sh, Key(caller)))
    case Deliver(result) => Move(s, i, Lead(pass, call, Broadcast(result)), Assign(sh, call, result))
    case Broadcast(result) =>
      Move(s, i, if result.err.Some? then Done(None, result.err) else PutAnswer(pass, result.entry), Close(sh, call))
  }

  datatype Action =
    | Step(caller: nat, input: Input)
    | Tick(elapsed: nat)
    | ClearCache
    | UpdateStore(addresses: seq<string>)
    | UpdateClear

  /** Updates run one at a time (under the reload lock) and store only a list that differs. */
  predicate Enabled(s: State, a: Action) {
    match a
    case Step(i, input) => i < |s.callers| && CanStep(s, i, input)
    case UpdateStore(addresses) => !s.stored && addresses != s.shared.servers.addresses
    case UpdateClear => s.stored
    case _ => true
  }

  function Next(s: State, a: Action): State
    requires Enabled(s, a)
  {
    match a
    case Step(i, input) => StepCaller(s, i, input)
    case Tick(elapsed) => s.(now := s.now + elapsed)
    case ClearCache => s.(shared := s.shared.(cache := AfterClear(s.shared.cache)))
    case UpdateStore(addresses) => s.(shared := StoreServers(s.shared, addresses), stored := true)
    case UpdateClear => s.(shared := s.shared.(cache := AfterClear(s.shared.cache)), stored := false)
  }

  datatype Dial = Dial(host: string, port: string)

  function Init(now: int, ttl: int, addresses: seq<string>, dials: seq<Dial>): State {
    State(now, Shared(Servers(addresses, 0), Empty(ttl, MAX_CACHED_LOOKUPS), map[], []),
          seq(|dials|, i requires 0 <= i < |dials| => Caller(dials[i].host, dials[i].port, Lookup(1))), false)
  }

  // ---------------------------------------------------------------------------------------------
  // Invariant
  // ---------------------------------------------------------------------------------------------

  /** Between begin and the deregistration in finish. */
  predicate Registered(phase: Phase) {
    phase.Load? || phase.Query? || phase.Leave?
  }

  /** Addresses or an error, never both and never neither, and never of a list yet to come. */
  predicate ResultOk(s: State, result: Delivery) {
    && Sound(Found(result.entry.targets, result.err))
    && result.entry.generation <= s.shared.servers.generation
  }

  predicate EntryOk(s: State, entry: Entry) {
    entry.targets != [] && entry.generation <= s.shared.servers.generation
  }

  predicate PhaseOk(s: State, call: nat, phase: Phase)
    requires call < |s.shared.calls|
  {
    match phase
    case Load => true
    case Query(servers) => servers.generation <= s.shared.servers.generation
    case Leave(result) => ResultOk(s, result)
    case Deliver(result) => ResultOk(s, result)
    case Broadcast(result) => ResultOk(s, result) && s.shared.calls[call].result == result
  }

  predicate CallerOk(s: State, i: nat)
    requires i < |s.callers|
  {
    var sh, key := s.shared, Key(s.callers[i]);
    match s.callers[i].pc
    case Lookup(pass) => 1 <= pass <= 2
    case Register(pass) => 1 <= pass <= 2
    case Wait(pass, call) => 1 <= pass <= 2 && call < |sh.calls|
    case Lead(pass, call, phase) =>
      && 1 <= pass <= 2
      && call < |sh.calls| && sh.calls[call].leader == i && !sh.calls[call].closed
      && (Registered(phase) ==> key in sh.inflight && sh.inflight[key] == call)
      && PhaseOk(s, call, phase)
    case PutAnswer(pass, entry) => 1 <= pass <= 2 && EntryOk(s, entry)
    case Connect(pass, entry, _) => 1 <= pass <= 2 && EntryOk(s, entry)
    case Drop => true
    case Done(conn, err) => conn.Some? <==> err.None?
  }

  /** An open call is held by its leader; a closed one carries addresses or an error. */
  predicate CallOk(s: State, c: nat)
    requires c < |s.shared.calls|
  {
    var call := s.shared.calls[c];
    if call.closed then ResultOk(s, call.result)
    else
      && call.leader < |s.callers|
      && s.callers[call.leader].pc.Lead? && s.callers[call.leader].pc.call == c
  }

  /** A key in flight belongs to the leader of its call, which is between begin and finish. */
  predicate KeyOk(s: State, key: string)
    requires key in s.shared.inflight
  {
    var c := s.shared.inflight[key];
    && c < |s.shared.calls|
    && s.shared.calls[c].leader < |s.callers|
    && var leader := s.callers[s.shared.calls[c].leader];
       leader.pc.Lead? && leader.pc.call == c && Registered(leader.pc.phase) && Key(leader) == key
  }

  predicate SlotOk(s: State, key: string)
    requires key in s.shared.cache.entries
  {
    EntryOk(s, s.shared.cache.entries[key].value)
  }

  ghost predicate Inv(s: State) {
    && (forall i :: 0 <= i < |s.callers| ==> CallerOk(s, i))
    && (forall c :: 0 <= c < |s.shared.calls| ==> CallOk(s, c))
    && (forall key :: key in s.shared.inflight ==> KeyOk(s, key))
    && (forall key :: key in s.shared.cache.entries ==> SlotOk(s, key))
  }

  lemma InitInv(now: int, ttl: int, addresses: seq<string>, dials: seq<Dial>)
    ensures Inv(Init(now, ttl, addresses, dials))
  {
  }

  /** Two leaders between begin and finish never have the same key. */
  lemma OneLeaderPerKey(s: State, i: nat, j: nat)
    requires i < |s.callers| && j < |s.callers| && CallerOk(s, i) && CallerOk(s, j)
    requires s.callers[i].pc.Lead? && Registered(s.callers[i].pc.phase)
    requires s.callers[j].pc.Lead? && Registered(s.callers[j].pc.phase)
    requires Key(s.callers[i]) == Key(s.callers[j])
    ensures i == j
  {
  }

  lemma StepKeepsSelf(s: State, i: nat, input: Input)
    requires i < |s.callers| && CallerOk(s, i) && CanStep(s, i, input)
    requires var key := Key(s.callers[i]);
             && (key in s.shared.inflight ==> KeyOk(s, key))
             && (key in s.shared.cache.entries ==> SlotOk(s, key))
    requires var pc := s.callers[i].pc;
             pc.Wait? && pc.call < |s.shared.calls| ==> CallOk(s, pc.call)
    ensures CallerOk(StepCaller(s, i, input), i)
  {
    hide JoinHostPort, DialResult;
    if s.callers[i].pc.Lead? {
      LeaderKeepsSelf(s, i, input);
    }
  }

  lemma LeaderKeepsSelf(s: State, i: nat, input: Input)
    requires i < |s.callers| && CallerOk(s, i) && CanStep(s, i, input)
    requires s.callers[i].pc.Lead?
    ensures var pc := s.callers[i].pc; CallerOk(StepLeader(s, i, input, pc.pass, pc.call, pc.phase), i)
  {
    hide JoinHostPort, Resolution;
    if s.callers[i].pc.phase.Query? {
      ResolutionIsSound(input.answers, s.callers[i].host, s.callers[i].port);
    }
  }

  lemma StepKeepsOther(s: State, i: nat, input: Input, j: nat)
    requires i < |s.callers| && CallerOk(s, i) && CanStep(s, i, input)
    requires j < |s.callers| && j != i && CallerOk(s, j)
    ensures CallerOk(StepCaller(s, i, input), j)
  {
    hide JoinHostPort, DialResult, ServersOf, Sound;
    if s.callers[i].pc.Lead? {
      LeaderKeepsOther(s, i, input, j);
    }
  }

  lemma LeaderKeepsOther(s: State, i: nat, input: Input, j: nat)
    requires i < |s.callers| && CallerOk(s, i) && CanStep(s, i, input)
    requires j < |s.callers| && j != i && CallerOk(s, j)
    requires s.callers[i].pc.Lead?
    ensures var pc := s.callers[i].pc; CallerOk(StepLeader(s, i, input, pc.pass, pc.call, pc.phase), j)
  {
    hide JoinHostPort, Resolution, ServersOf, Sound;
    var p, q := s.callers[i].pc, s.callers[j].pc;
    if Registered(p.phase) && q.Lead? && Registered(q.phase) && Key(s.callers[i]) == Key(s.callers[j]) {
      OneLeaderPerKey(s, i, j);
    }
  }

  lemma StepKeepsCall(s: State, i: nat, input: Input, c: nat)
    requires i < |s.callers| && CallerOk(s, i) && CanStep(s, i, input)
    requires c < |s.shared.calls| && CallOk(s, c)
    ensures c < |StepCaller(s, i, input).shared.calls| && CallOk(StepCaller(s, i, input), c)
  {
    hide JoinHostPort, DialResult, ServersOf, Sound, Caches.Lookup, AfterGet, AfterPut;
    if s.callers[i].pc.Lead? {
      LeaderKeepsCall(s, i, input, c);
    }
  }

  lemma LeaderKeepsCall(s: State, i: nat, input: Input, c: nat)
    requires i < |s.callers| && CallerOk(s, i) && CanStep(s, i, input)
    requires c < |s.shared.calls| && CallOk(s, c)
    requires s.callers[i].pc.Lead?
    ensures var pc := s.callers[i].pc;
            var t := StepLeader(s, i, input, pc.pass, pc.call, pc.phase);
            c < |t.shared.calls| && CallOk(t, c)
  {
    hide JoinHostPort, Resolution, ServersOf, Sound;
  }

  lemma StepOpensCall(s: State, i: nat, input: Input, c: nat)
    requires i < |s.callers| && CallerOk(s, i) && CanStep(s, i, input)
    requires |s.shared.calls| <= c < |StepCaller(s, i, input).shared.calls|
    ensures CallOk(StepCaller(s, i, input), c)
  {
    hide JoinHostPort, DialResult, Resolution, ServersOf, Sound, Caches.Lookup, AfterGet, AfterPut;
  }

  lemma StepKeepsKey(s: State, i: nat, input: Input, key: string)
    requires i < |s.callers| && CallerOk(s, i) && CanStep(s, i, input)
    requires key in s.shared.inflight && KeyOk(s, key)
    requires key in StepCaller(s, i, input).shared.inflight
    ensures KeyOk(StepCaller(s, i, input), key)
  {
    hide JoinHostPort, DialResult, ServersOf, Sound, Caches.Lookup, AfterGet, AfterPut;
    if s.callers[i].pc.Lead? {
      LeaderKeepsKey(s, i, input, key);
    }
  }

  lemma LeaderKeepsKey(s: State, i: nat, input: Input, key: string)
    requires i < |s.callers| && CallerOk(s, i) && CanStep(s, i, input)
    requires key in s.shared.inflight && KeyOk(s, key)
    requires s.callers[i].pc.Lead?
    requires var pc := s.callers[i].pc; key in StepLeader(s, i, input, pc.pass, pc.call, pc.phase).shared.inflight
    ensures var pc := s.callers[i].pc; KeyOk(StepLeader(s, i, input, pc.pass, pc.call, pc.phase), key)
  {
    hide JoinHostPort, Resolution, ServersOf, Sound;
  }

  lemma StepOpensKey(s: State, i: nat, input: Input, key: string)
    requires i < |s.callers| && CallerOk(s, i) && CanStep(s, i, input)
    requires key !in s.shared.inflight && key in StepCaller(s, i, input).shared.inflight
    ensures KeyOk(StepCaller(s, i, input), key)
  {
    hide JoinHostPort, DialResult, Resolution, ServersOf, Sound, Caches.Lookup, AfterGet, AfterPut;
  }

  lemma StepKeepsSlot(s: State, i: nat, input: Input, key: string)
    requires i < |s.callers| && CallerOk(s, i) && CanStep(s, i, input)
    requires key in s.shared.cache.entries ==> SlotOk(s, key)
    requires key in StepCaller(s, i, input).shared.cache.entries
    ensures SlotOk(StepCaller(s, i, input), key)
  {
    hide JoinHostPort, DialResult, Resolution, ServersOf, Sound, Caches.Lookup;
  }

  lemma CallerStepKeepsInv(s: State, i: nat, input: Input)
    requires Inv(s) && i < |s.callers| && CanStep(s, i, input)
    ensures Inv(StepCaller(s, i, input))
  {
    hide CallerOk, CallOk, KeyOk, SlotOk, JoinHostPort;
    var t := StepCaller(s, i, input);
    StepKeepsSelf(s, i, input);
    forall j | 0 <= j < |t.callers|
      ensures CallerOk(t, j)
    {
      if j != i {
        StepKeepsOther(s, i, input, j);
      }
    }
    forall c | 0 <= c < |t.shared.calls|
      ensures CallOk(t, c)
    {
      if c < |s.shared.calls| {
        StepKeepsCall(s, i, input, c);
      } else {
        StepOpensCall(s, i, input, c);
      }
    }
    forall key | key in t.shared.inflight
      ensures KeyOk(t, key)
    {
      if key in s.shared.inflight {
        StepKeepsKey(s, i, input, key);
      } else {
        StepOpensKey(s, i, input, key);
      }
    }
    forall key | key in t.shared.cache.entries
      ensures SlotOk(t, key)
    {
      StepKeepsSlot(s, i, input, key);
    }
  }

  /** The clock, the updates and the clearing of the cache touch no call and no caller. */
  lemma EnvironmentKeepsInv(s: State, t: State)
    requires Inv(s)
    requires t.callers == s.callers && t.shared.inflight == s.shared.inflight && t.shared.calls == s.shared.calls
    requires s.shared.servers.generation <= t.shared.servers.generation
    requires t.shared.cache.entries == s.shared.cache.entries || t.shared.cache.entries == map[]
    ensures Inv(t)
  {
    hide JoinHostPort;
    forall i | 0 <= i < |t.callers|
      ensures CallerOk(t, i)
    {
      assert CallerOk(s, i);
    }
    forall c | 0 <= c < |t.shared.calls|
      ensures CallOk(t, c)
    {
      assert CallOk(s, c);
    }
    forall key | key in t.shared.inflight
      ensures KeyOk(t, key)
    {
      assert KeyOk(s, key);
    }
    forall key | key in t.shared.cache.entries
      ensures SlotOk(t, key)
    {
      assert SlotOk(s, key);
    }
  }

  /** Every action keeps the invariant. */
  lemma NextKeepsInv(s: State, a: Action)
    requires Inv(s) && Enabled(s, a)
    ensures Inv(Next(s, a))
  {
    hide Inv;
    if a.Step? {
      CallerStepKeepsInv(s, a.caller, a.input);
    } else {
      EnvironmentKeepsInv(s, Next(s, a));
    }
  }

  // ---------------------------------------------------------------------------------------------
  // Runs
  // ---------------------------------------------------------------------------------------------

  /** A run: states[k + 1] is what actions[k] makes of states[k]. */
  datatype Run = Run(states: seq<State>, actions: seq<Action>)

  ghost predicate IsRun(run: Run, first: State) {
    && |run.states| == |run.actions| + 1
    && run.states[0] == first
    && forall k :: 0 <= k < |run.actions| ==>
         Enabled(run.states[k], run.actions[k]) && run.states[k + 1] == Next(run.states[k], run.actions[k])
  }

  lemma SizesOfRun(run: Run, first: State)
    requires IsRun(run, first)
    ensures |run.states| == |run.actions| + 1
  {
  }

  lemma StepOfRun(run: Run, first: State, k: nat)
    requires IsRun(run, first) && k < |run.actions|
    ensures |run.states| == |run.actions| + 1
    ensures Enabled(run.states[k], run.actions[k]) && run.states[k + 1] == Next(run.states[k], run.actions[k])
  {
  }

  lemma NextKeepsCallers(s: State, a: Action)
    requires Enabled(s, a)
    ensures |Next(s, a).callers| == |s.callers|
    ensures forall i :: 0 <= i < |s.callers| ==> Key(Next(s, a).callers[i]) == Key(s.callers[i])
  {
    hide JoinHostPort, Resolution, DialResult, ServersOf, Caches.Lookup, AfterGet, AfterPut;
  }

  lemma {:induction false} RunKeepsInv(run: Run, first: State, n: nat)
    requires IsRun(run, first) && Inv(first) && n < |run.states|
    ensures Inv(run.states[n])
    ensures |run.states[n].callers| == |first.callers|
    ensures forall i :: 0 <= i < |first.callers| ==> Key(run.states[n].callers[i]) == Key(first.callers[i])
  {
    hide Inv, Next, Enabled, Key;
    if n > 0 {
      RunKeepsInv(run, first, n - 1);
      NextKeepsInv(run.states[n - 1], run.actions[n - 1]);
      NextKeepsCallers(run.states[n - 1], run.actions[n - 1]);
    }
  }

  // ---------------------------------------------------------------------------------------------
  // The cache over a run
  // ---------------------------------------------------------------------------------------------

  /** The step that puts an answer into the cache. */
  predicate Stores(s: State, a: Action, key: string, entry: Entry)
    requires Enabled(s, a)
  {
    && a.Step? && s.callers[a.caller].pc.PutAnswer? && s.callers[a.caller].pc.entry == entry
    && Key(s.callers[a.caller]) == key
  }

  /** What an action does to the cache: nothing, or one operation, and a put only to store. */
  lemma CacheEvent(s: State, a: Action) returns (event: Option<Event<Entry>>)
    requires Enabled(s, a)
    ensures Next(s, a).shared.cache == if event.None? then s.shared.cache else Apply(s.shared.cache, event.value)
    ensures event.Some? ==>
              && event.value.at == s.now
              && (event.value.op.Put? ==> Stores(s, a, event.value.op.key, event.value.op.value))
  {
    hide Key, AfterGet, AfterPut, AfterEvict, Caches.Lookup, Begin, Deregister, Assign, Close, StoreServers, Resolution,
      DialResult, ServersOf, Continue;
    CallsLeaveCache(s.shared);
    event := None;
    match a {
      case Tick(_) =>
      case ClearCache => event := Some(Event(s.now, Op.Clear));
      case UpdateStore(_) =>
      case UpdateClear => event := Some(Event(s.now, Op.Clear));
      case Step(i, _) =>
        var key := Key(s.callers[i]);
        match s.callers[i].pc {
          case Lookup(_) => event := Some(Event(s.now, Op.Get(key)));
          case PutAnswer(_, entry) => event := Some(Event(s.now, Op.Put(key, entry)));
          case Drop => event := Some(Event(s.now, Op.Evict(key)));
          case _ =>
        }
    }
  }

  /** The calls in flight and the server list are none of the cache's business. */
  lemma CallsLeaveCache(sh: Shared)
    ensures forall key, who :: Begin(sh, key, who).shared.cache == sh.cache
    ensures forall key :: Deregister(sh, key).cache == sh.cache
    ensures forall call: nat, result :: call < |sh.calls| ==> Assign(sh, call, result).cache == sh.cache
    ensures forall call: nat :: call < |sh.calls| && !sh.calls[call].closed ==> Close(sh, call).cache == sh.cache
    ensures forall addresses :: StoreServers(sh, addresses).cache == sh.cache
  {
  }

  /** So the cache is at every moment of every run what its operations have made of it. */
  lemma {:induction false} CacheIsReplay(run: Run, now: int, ttl: int, addresses: seq<string>, dials: seq<Dial>, n: nat)
    returns (log: seq<Event<Entry>>, at: seq<nat>)
    requires IsRun(run, Init(now, ttl, addresses, dials)) && n < |run.states|
    ensures run.states[n].shared.cache == Replay(log, ttl, MAX_CACHED_LOOKUPS)
    ensures |at| == |log|
    ensures forall j :: 0 <= j < |log| ==>
              && at[j] < n && log[j].at == run.states[at[j]].now
              && (log[j].op.Put? ==> Stores(run.states[at[j]], run.actions[at[j]], log[j].op.key, log[j].op.value))
  {
    hide Next, Enabled, Stores, Apply;
    log, at := [], [];
    if n > 0 {
      log, at := CacheIsReplay(run, now, ttl, addresses, dials, n - 1);
      var event := CacheEvent(run.states[n - 1], run.actions[n - 1]);
      if event.Some? {
        assert (log + [event.value])[..|log|] == log;
        log, at := log + [event.value], at + [n - 1];
      }
    }
  }

  /**
   At every moment of every run at most 512 answers are cached, and one that is used from the cache was
   stored for the host and the port less than the time to live before.
   */
  lemma CachedAnswerIsRecent(run: Run, now: int, ttl: int, addresses: seq<string>, dials: seq<Dial>, n: nat, key: string, entry: Entry)
    requires IsRun(run, Init(now, ttl, addresses, dials)) && n < |run.states|
    ensures |run.states[n].shared.cache.entries| <= 512
    ensures Caches.Lookup(run.states[n].shared.cache, key, run.states[n].now) == Some(entry) ==>
              exists m :: 0 <= m < n && Stores(run.states[m], run.actions[m], key, entry)
                          && run.states[n].now < run.states[m].now + ttl
  {
    hide Next, Enabled, Stores;
    var log, at := CacheIsReplay(run, now, ttl, addresses, dials, n);
    SizeBounded(log, ttl, MAX_CACHED_LOOKUPS);
    if Caches.Lookup(run.states[n].shared.cache, key, run.states[n].now) == Some(entry) {
      var i := EntryComesFromPut(log, ttl, MAX_CACHED_LOOKUPS, key);
      assert Stores(run.states[at[i]], run.actions[at[i]], key, entry);
    }
  }

  // ---------------------------------------------------------------------------------------------
  // One lookup per key at a time
  // ---------------------------------------------------------------------------------------------

  predicate Leads(s: State, i: nat, key: string)
    requires i < |s.callers|
  {
    s.callers[i].pc.Lead? && Registered(s.callers[i].pc.phase) && Key(s.callers[i]) == key
  }

  /** A key is in flight exactly when a leader is between begin and finish, and then it is the only one. */
  lemma InflightIffOneLeader(s: State, key: string)
    requires Inv(s)
    ensures key in s.shared.inflight <==> exists i :: 0 <= i < |s.callers| && Leads(s, i, key)
    ensures forall i, j :: 0 <= i < |s.callers| && 0 <= j < |s.callers| && Leads(s, i, key) && Leads(s, j, key) ==> i == j
  {
    hide JoinHostPort;
    if key in s.shared.inflight {
      assert KeyOk(s, key);
      assert Leads(s, s.shared.calls[s.shared.inflight[key]].leader, key);
    }
    forall i | 0 <= i < |s.callers| && Leads(s, i, key)
      ensures key in s.shared.inflight && s.shared.calls[s.shared.inflight[key]].leader == i
    {
      assert CallerOk(s, i);
    }
  }

  // ---------------------------------------------------------------------------------------------
  // Every dial ends, after two passes at most, with a connection or an error
  // ---------------------------------------------------------------------------------------------

  function PhaseRank(phase: Phase): nat {
    match phase
    case Load => 7
    case Query(_) => 6
    case Leave(_) => 5
    case Deliver(_) => 4
    case Broadcast(_) => 3
  }

  function PassRank(pass: nat): nat {
    if pass == 1 then 10 else 0
  }

  /** A bound on the steps a dial has still to make. */
  function PcRank(pc: Pc): nat {
    match pc
    case Lookup(pass) => PassRank(pass) + 9
    case Register(pass) => PassRank(pass) + 8
    case Wait(pass, _) => PassRank(pass) + 2
    case Lead(pass, _, phase) => PassRank(pass) + PhaseRank(phase)
    case PutAnswer(pass, _) => PassRank(pass) + 2
    case Connect(pass, _, _) => PassRank(pass) + 1
    case Drop => 10
    case Done(_, _) => 0
  }

  /** How many more times a dial may ask lookup. */
  function LookupsLeft(pc: Pc): nat {
    match pc
    case Lookup(pass) => if pass == 1 then 2 else 1
    case Register(pass) => if pass == 1 then 1 else 0
    case Wait(pass, _) => if pass == 1 then 1 else 0
    case Lead(pass, _, _) => if pass == 1 then 1 else 0
    case PutAnswer(pass, _) => if pass == 1 then 1 else 0
    case Connect(pass, _, _) => if pass == 1 then 1 else 0
    case Drop => 1
    case Done(_, _) => 0
  }

  function CallerRank(caller: Caller): nat {
    PcRank(caller.pc)
  }

  function Rank(s: State): nat {
    Total(s.callers, CallerRank)
  }

  lemma StepMovesOne(s: State, i: nat, input: Input)
    requires i < |s.callers| && CanStep(s, i, input)
    ensures var t := StepCaller(s, i, input);
            && |t.callers| == |s.callers| && t.callers == s.callers[i := t.callers[i]]
            && PcRank(t.callers[i].pc) < PcRank(s.callers[i].pc)
            && LookupsLeft(t.callers[i].pc) + (if s.callers[i].pc.Lookup? then 1 else 0) <= LookupsLeft(s.callers[i].pc)
            && t.callers[i].host == s.callers[i].host && t.callers[i].port == s.callers[i].port
  {
    hide JoinHostPort, Resolution, DialResult, ServersOf, Caches.Lookup, AfterGet, AfterPut, Begin;
    if s.callers[i].pc.Lead? {
      LeaderMovesOne(s, i, input);
    }
  }

  lemma LeaderMovesOne(s: State, i: nat, input: Input)
    requires i < |s.callers| && CanStep(s, i, input) && s.callers[i].pc.Lead?
    ensures var pc := s.callers[i].pc;
            var t := StepLeader(s, i, input, pc.pass, pc.call, pc.phase);
            && |t.callers| == |s.callers| && t.callers == s.callers[i := t.callers[i]]
            && PcRank(t.callers[i].pc) < PcRank(pc)
            && LookupsLeft(t.callers[i].pc) <= LookupsLeft(pc)
            && t.callers[i].host == s.callers[i].host && t.callers[i].port == s.callers[i].port
  {
    hide JoinHostPort, Resolution, DialResult, ServersOf;
  }

  lemma StepLowersRank(s: State, i: nat, input: Input)
    requires i < |s.callers| && CanStep(s, i, input)
    ensures Rank(StepCaller(s, i, input)) < Rank(s)
  {
    hide StepCaller, CanStep;
    var t := StepCaller(s, i, input);
    StepMovesOne(s, i, input);
    TotalUpdate(s.callers, i, t.callers[i], CallerRank);
  }

  lemma EnvironmentKeepsCallers(s: State, a: Action)
    requires Enabled(s, a) && !a.Step?
    ensures Next(s, a).callers == s.callers
    ensures Rank(Next(s, a)) == Rank(s)
  {
  }

  function CallerSteps(actions: seq<Action>): nat {
    if |actions| == 0 then 0
    else CallerSteps(actions[..|actions| - 1]) + if actions[|actions| - 1].Step? then 1 else 0
  }

  lemma {:induction false} StepsAndRank(run: Run, first: State, n: nat)
    requires IsRun(run, first) && n < |run.states|
    ensures CallerSteps(run.actions[..n]) + Rank(run.states[n]) <= Rank(first)
  {
    if n > 0 {
      hide CanStep, StepCaller, Rank;
      StepsAndRank(run, first, n - 1);
      assert run.actions[..n][..n - 1] == run.actions[..n - 1];
      var s, a := run.states[n - 1], run.actions[n - 1];
      if a.Step? {
        StepLowersRank(s, a.caller, a.input);
      } else {
        EnvironmentKeepsCallers(s, a);
      }
    }
  }

  /** The times dial `i` asks lookup among the first `n` steps of a run. */
  function Lookups(run: Run, i: nat, n: nat): nat
    requires n <= |run.actions| < |run.states|
    requires forall k :: 0 <= k < |run.actions| ==> Enabled(run.states[k], run.actions[k])
  {
    if n == 0 then 0
    else
      var a := run.actions[n - 1];
      Lookups(run, i, n - 1)
      + if a.Step? && a.caller == i && run.states[n - 1].callers[i].pc.Lookup? then 1 else 0
  }

  lemma {:induction false} LookupsAreBounded(run: Run, first: State, i: nat, n: nat)
    requires IsRun(run, first) && Inv(first) && i < |first.callers| && n < |run.states|
    ensures |run.states[n].callers| == |first.callers|
    ensures Lookups(run, i, n) + LookupsLeft(run.states[n].callers[i].pc) <= LookupsLeft(first.callers[i].pc)
  {
    RunKeepsInv(run, first, n);
    if n > 0 {
      hide CanStep, StepCaller, Inv;
      LookupsAreBounded(run, first, i, n - 1);
      var s, a := run.states[n - 1], run.actions[n - 1];
      if a.Step? {
        StepMovesOne(s, a.caller, a.input);
      } else {
        EnvironmentKeepsCallers(s, a);
      }
    }
  }

  /** A dial looks its host up twice at most: a second time only after a cached answer failed it. */
  lemma TwoPassesAtMost(run: Run, now: int, ttl: int, addresses: seq<string>, dials: seq<Dial>, i: nat)
    requires IsRun(run, Init(now, ttl, addresses, dials)) && i < |dials|
    ensures Lookups(run, i, |run.actions|) <= 2
  {
    InitInv(now, ttl, addresses, dials);
    LookupsAreBounded(run, Init(now, ttl, addresses, dials), i, |run.actions|);
  }

  /** The dial can make a step without its context being done. */
  ghost predicate CanGoOn(s: State, i: nat)
    requires i < |s.callers|
  {
    exists input: Input :: input.cancelled.None? && CanStep(s, i, input)
  }

  /** Only waiting stops a dial: a leader, in particular, never closes a closed channel. */
  lemma NotWaitingCanGoOn(s: State, i: nat)
    requires Inv(s) && i < |s.callers| && !s.callers[i].pc.Done? && !s.callers[i].pc.Wait?
    ensures CanGoOn(s, i)
  {
    hide JoinHostPort, ServersOf;
    assert CallerOk(s, i);
    var pc := s.callers[i].pc;
    var asked := if pc.Lead? && pc.phase.Query? then |ServersOf(pc.phase.servers.addresses)| else 0;
    var dialled := if pc.Connect? then |pc.entry.targets| else 0;
    assert CanStep(s, i, Input(seq(asked, _ => NoAnswer("")), seq(dialled, _ => Refused("")), None));
  }

  /** A dial that cannot go on waits for a call whose leader can. */
  lemma BlockedOnLiveLeader(s: State, i: nat)
    requires Inv(s) && i < |s.callers| && !s.callers[i].pc.Done? && !CanGoOn(s, i)
    ensures s.callers[i].pc.Wait?
    ensures var call := s.callers[i].pc.call;
            && call < |s.shared.calls| && s.shared.calls[call].leader < |s.callers|
            && CanGoOn(s, s.shared.calls[call].leader)
  {
    var pc := s.callers[i].pc;
    if pc.Wait? {
      assert CallerOk(s, i) && CallOk(s, pc.call);
      assert !CanStep(s, i, Input([], [], None));
      NotWaitingCanGoOn(s, s.shared.calls[pc.call].leader);
    } else {
      NotWaitingCanGoOn(s, i);
    }
  }

  /** When no dial can go on, all have returned and nothing is in flight. */
  lemma StuckMeansDone(s: State)
    requires Inv(s)
    requires forall i :: 0 <= i < |s.callers| ==> !CanGoOn(s, i)
    ensures forall i :: 0 <= i < |s.callers| ==> s.callers[i].pc.Done?
    ensures s.shared.inflight == map[]
  {
    hide CanGoOn;
    if s.shared.inflight != map[] {
      var key :| key in s.shared.inflight;
      assert KeyOk(s, key);
      NotWaitingCanGoOn(s, s.shared.calls[s.shared.inflight[key]].leader);
    }
    forall i | 0 <= i < |s.callers|
      ensures s.callers[i].pc.Done?
    {
      if !s.callers[i].pc.Done? {
        BlockedOnLiveLeader(s, i);
      }
    }
  }

  /** A dial that has returned, by whatever way, has a connection or an error and not both. */
  lemma NeverNilAndNil(run: Run, now: int, ttl: int, addresses: seq<string>, dials: seq<Dial>, n: nat, i: nat)
    requires IsRun(run, Init(now, ttl, addresses, dials)) && n < |run.states| && i < |run.states[n].callers|
    requires run.states[n].callers[i].pc.Done?
    ensures run.states[n].callers[i].pc.conn.Some? <==> run.states[n].callers[i].pc.err.None?
  {
    InitInv(now, ttl, addresses, dials);
    RunKeepsInv(run, Init(now, ttl, addresses, dials), n);
    assert CallerOk(run.states[n], i);
  }

  /**
   Whatever the servers and the sockets answer and however reloads interfere, the dials make at most
   nineteen steps each, and a run in which none can go on has every dial returned, with a connection or
   an error.
   */
  lemma MaximalRunEnds(run: Run, now: int, ttl: int, addresses: seq<string>, dials: seq<Dial>)
    requires IsRun(run, Init(now, ttl, addresses, dials))
    requires var last := run.states[|run.actions|]; forall i :: 0 <= i < |last.callers| ==> !CanGoOn(last, i)
    ensures CallerSteps(run.actions) <= 19 * |dials|
    ensures var last := run.states[|run.actions|];
            && |last.callers| == |dials|
            && (forall i :: 0 <= i < |last.callers| ==>
                  last.callers[i].pc.Done? && (last.callers[i].pc.conn.Some? <==> last.callers[i].pc.err.None?))
            && last.shared.inflight == map[]
  {
    hide CanGoOn, Next, Enabled;
    var first, n := Init(now, ttl, addresses, dials), |run.actions|;
    InitInv(now, ttl, addresses, dials);
    RunKeepsInv(run, first, n);
    StepsAndRank(run, first, n);
    assert run.actions[..n] == run.actions;
    TotalBound(first.callers, CallerRank, 19);
    StuckMeansDone(run.states[n]);
    forall i | 0 <= i < |dials|
      ensures run.states[n].callers[i].pc.conn.Some? <==> run.states[n].callers[i].pc.err.None?
    {
      assert CallerOk(run.states[n], i);
    }
  }

  // ---------------------------------------------------------------------------------------------
  // Freshness after an update
  // ---------------------------------------------------------------------------------------------

  /** The server list whose answer a dial is fetching, or has and may still store. */
  function Carried(pc: Pc): Option<nat> {
    match pc
    case Lead(_, _, Query(servers)) => Some(servers.generation)
    case Lead(_, _, Leave(result)) => Some(result.entry.generation)
    case Lead(_, _, Deliver(result)) => Some(result.entry.generation)
    case Lead(_, _, Broadcast(result)) => Some(result.entry.generation)
    case PutAnswer(_, entry) => Some(entry.generation)
    case _ => None
  }

  /** Only a dial that carries an old list goes on carrying it: what is loaded now is new. */
  lemma OldIsNotTakenUp(s: State, a: Action, i: nat, generation: nat)
    requires Enabled(s, a) && i < |s.callers|
    requires |Next(s, a).callers| == |s.callers|
    requires Carried(Next(s, a).callers[i].pc) == Some(generation) && generation < s.shared.servers.generation
    ensures Carried(s.callers[i].pc) == Some(generation)
  {
    hide JoinHostPort, Resolution, DialResult, ServersOf, Caches.Lookup, AfterGet, AfterPut;
  }

  /** What is cached was cached before, or has just been stored by a dial that carried it. */
  lemma CachedWasCarried(s: State, a: Action, key: string)
    requires Enabled(s, a) && key in Next(s, a).shared.cache.entries
    ensures var slot := Next(s, a).shared.cache.entries[key];
            || (key in s.shared.cache.entries && s.shared.cache.entries[key] == slot)
            || (a.Step? && Key(s.callers[a.caller]) == key
                && Carried(s.callers[a.caller].pc) == Some(slot.value.generation))
  {
    hide JoinHostPort, Resolution, DialResult, ServersOf, Caches.Lookup;
  }

  lemma NextGeneration(s: State, a: Action)
    requires Enabled(s, a)
    ensures s.shared.servers.generation <= Next(s, a).shared.servers.generation
  {
    hide JoinHostPort, Resolution, DialResult, ServersOf, Caches.Lookup, AfterGet, AfterPut;
  }

  lemma {:induction false} GenerationsGrow(run: Run, first: State, m: nat, n: nat)
    requires IsRun(run, first) && m <= n < |run.states|
    ensures run.states[m].shared.servers.generation <= run.states[n].shared.servers.generation
  {
    hide Next, Enabled, IsRun;
    if m < n {
      SizesOfRun(run, first);
      StepOfRun(run, first, n - 1);
      GenerationsGrow(run, first, m, n - 1);
      NextGeneration(run.states[n - 1], run.actions[n - 1]);
    }
  }

  /** A dial that carries an old list after a newer one was stored carried it when that one was stored. */
  lemma {:induction false} OldWasCarried(run: Run, first: State, stored: nat, n: nat, i: nat, generation: nat)
    requires IsRun(run, first) && Inv(first) && i < |first.callers|
    requires stored < n < |run.states|
    requires generation < run.states[stored + 1].shared.servers.generation
    requires |run.states[n].callers| == |first.callers| == |run.states[stored + 1].callers|
    requires Carried(run.states[n].callers[i].pc) == Some(generation)
    ensures Carried(run.states[stored + 1].callers[i].pc) == Some(generation)
  {
    hide Next, Enabled, Inv, Carried, Key, IsRun;
    if stored + 1 < n {
      assert |run.states| == |run.actions| + 1 by { SizesOfRun(run, first); }
      StepOfRun(run, first, n - 1);
      GenerationsGrow(run, first, stored + 1, n - 1);
      RunKeepsInv(run, first, n - 1);
      OldIsNotTakenUp(run.states[n - 1], run.actions[n - 1], i, generation);
      OldWasCarried(run, first, stored, n - 1, i, generation);
    }
  }

  /** Some dial for the key had loaded that list when the update stored its own. */
  ghost predicate CarriedAtStore(run: Run, stored: nat, key: string, generation: nat)
    requires stored < |run.states|
  {
    exists i :: 0 <= i < |run.states[stored].callers| && Key(run.states[stored].callers[i]) == key
                && Carried(run.states[stored].callers[i].pc) == Some(generation)
  }

  /**
   Once an update has stored its list and cleared the cache, an answer of an older list is in the cache
   only if a dial for that key had already loaded the older list when the update stored the new one.
   */
  lemma {:induction false} StaleWasCarriedAtStore(run: Run, first: State, stored: nat, cleared: nat, n: nat, key: string)
    requires IsRun(run, first) && Inv(first)
    requires stored < cleared < |run.actions| && cleared < n < |run.states|
    requires run.actions[stored].UpdateStore? && run.actions[cleared].UpdateClear?
    requires key in run.states[n].shared.cache.entries
    requires run.states[n].shared.cache.entries[key].value.generation < run.states[stored + 1].shared.servers.generation
    ensures CarriedAtStore(run, stored, key, run.states[n].shared.cache.entries[key].value.generation)
  {
    hide Enabled, Inv, Carried, StepCaller, CanStep;
    var s, a := run.states[n - 1], run.actions[n - 1];
    var generation := run.states[n].shared.cache.entries[key].value.generation;
    if cleared + 1 < n {
      CachedWasCarried(s, a, key);
      if key in s.shared.cache.entries && s.shared.cache.entries[key] == run.states[n].shared.cache.entries[key] {
        StaleWasCarriedAtStore(run, first, stored, cleared, n - 1, key);
      } else {
        CallerIsThere(s, a);
        RunKeepsInv(run, first, n - 1);
        RunKeepsInv(run, first, stored);
        RunKeepsInv(run, first, stored + 1);
        OldWasCarried(run, first, stored, n - 1, a.caller, generation);
        EnvironmentKeepsCallers(run.states[stored], run.actions[stored]);
        assert Carried(run.states[stored].callers[a.caller].pc) == Some(generation);
      }
    }
  }

  lemma CallerIsThere(s: State, a: Action)
    requires Enabled(s, a) && a.Step?
    ensures a.caller < |s.callers|
  {
  }

  // One dial on its own, for the runs built below and for the object.

  function Solo(now: int, sh: Shared, dial: Dial, pc: Pc, stored: bool): State {
    State(now, sh, [Caller(dial.host, dial.port, pc)], stored)
  }

  ghost predicate SoloStep(now: int, sh: Shared, dial: Dial, pc: Pc, stored: bool, input: Input, sh': Shared, pc': Pc) {
    && CanStep(Solo(now, sh, dial, pc, stored), 0, input)
    && StepCaller(Solo(now, sh, dial, pc, stored), 0, input) == Solo(now, sh', dial, pc', stored)
  }

  /** A miss makes the first dial the leader, and it loads the list in use. */
  lemma SoloLoads(now: int, sh: Shared, dial: Dial, pass: nat, stored: bool, input: Input)
    requires var key := JoinHostPort(dial.host, dial.port); key !in sh.cache.entries && key !in sh.inflight
    ensures var begun := Begin(sh, JoinHostPort(dial.host, dial.port), 0);
            && SoloStep(now, sh, dial, Lookup(pass), stored, input, sh, Register(pass))
            && SoloStep(now, sh, dial, Register(pass), stored, input, begun.shared, Lead(pass, begun.call, Load))
            && SoloStep(now, begun.shared, dial, Lead(pass, begun.call, Load), stored, input, begun.shared,
                        Lead(pass, begun.call, Query(sh.servers)))
  {
    hide JoinHostPort;
    var key := JoinHostPort(dial.host, dial.port);
    assert AfterGet(sh.cache, key, now) == sh.cache;
  }

  /** What a leader has got to once its servers have answered. */
  function Asked(servers: Servers, dial: Dial, input: Input): Delivery {
    var found := Resolution(input.answers, dial.host, dial.port);
    Delivery(Entry(found.targets, servers.generation), found.err)
  }

  /** The rest of a leader's way: ask, deregister, deliver, close, and store what was found. */
  lemma SoloFinishes(now: int, sh: Shared, dial: Dial, pass: nat, stored: bool, input: Input, rest: Input,
                     call: nat, servers: Servers)
    requires call < |sh.calls| && !sh.calls[call].closed
    requires |input.answers| == |ServersOf(servers.addresses)|
    ensures var result := Asked(servers, dial, input);
            var sh1 := Deregister(sh, JoinHostPort(dial.host, dial.port));
            var sh2 := Assign(sh1, call, result);
            var sh3 := Close(sh2, call);
            var end := if result.err.Some? then Done(None, result.err) else PutAnswer(pass, result.entry);
            && SoloStep(now, sh, dial, Lead(pass, call, Query(servers)), stored, input, sh, Lead(pass, call, Leave(result)))
            && SoloStep(now, sh, dial, Lead(pass, call, Leave(result)), stored, rest, sh1, Lead(pass, call, Deliver(result)))
            && SoloStep(now, sh1, dial, Lead(pass, call, Deliver(result)), stored, rest, sh2,
                        Lead(pass, call, Broadcast(result)))
            && SoloStep(now, sh2, dial, Lead(pass, call, Broadcast(result)), stored, rest, sh3, end)
  {
    hide JoinHostPort, Resolution, ServersOf;
  }

  lemma SoloPuts(now: int, sh: Shared, dial: Dial, pass: nat, stored: bool, input: Input, entry: Entry)
    ensures SoloStep(now, sh, dial, PutAnswer(pass, entry), stored, input,
                     sh.(cache := AfterPut(sh.cache, JoinHostPort(dial.host, dial.port), entry, now)),
                     Connect(pass, entry, false))
  {
    hide JoinHostPort, AfterPut;
  }

  lemma SoloIsNext(now: int, sh: Shared, dial: Dial, pc: Pc, stored: bool, input: Input, sh': Shared, pc': Pc)
    requires SoloStep(now, sh, dial, pc, stored, input, sh', pc')
    ensures Enabled(Solo(now, sh, dial, pc, stored), Step(0, input))
    ensures Next(Solo(now, sh, dial, pc, stored), Step(0, input)) == Solo(now, sh', dial, pc', stored)
  {
    hide CanStep, StepCaller;
  }

  /**
   A dial that has loaded the old list when an update stores and clears, and then gets its answer and
   stores it.
   */
  lemma OvertakenRun(now: int, ttl: int, dial: Dial, older: seq<string>, newer: seq<string>, input: Input) returns (run: Run)
    requires older != newer
    requires |input.answers| == |ServersOf(older)| && Asked(Servers(older, 0), dial, input).err.None?
    ensures IsRun(run, Init(now, ttl, older, [dial]))
    ensures var key, entry := JoinHostPort(dial.host, dial.port), Asked(Servers(older, 0), dial, input).entry;
            && var last := run.states[|run.actions|];
            && !last.stored && last.now == now
            && last.shared.servers == Servers(newer, 1)
            && last.shared.cache == AfterPut(Empty(ttl, MAX_CACHED_LOOKUPS), key, entry, now)
  {
    hide JoinHostPort, Asked, ServersOf, SoloStep, Enabled, Next, AfterPut, Begin;
    var key, go := JoinHostPort(dial.host, dial.port), Step(0, input);
    var sh0 := Shared(Servers(older, 0), Empty(ttl, MAX_CACHED_LOOKUPS), map[], []);
    var sh1 := Begin(sh0, key, 0).shared;
    FirstCall(sh0, key);
    var sh2 := StoreServers(sh1, newer);
    var sh3 := Deregister(sh2, key);
    var result := Asked(sh0.servers, dial, input);
    var sh4 := Assign(sh3, 0, result);
    var sh5 := Close(sh4, 0);
    var sh6 := sh5.(cache := AfterPut(sh5.cache, key, result.entry, now));
    SoloLoads(now, sh0, dial, 1, false, input);
    SoloFinishes(now, sh2, dial, 1, false, input, input, 0, sh0.servers);
    SoloPuts(now, sh5, dial, 1, false, input, result.entry);
    var query := Lead(1, 0, Query(sh0.servers));
    SoloIsNext(now, sh0, dial, Lookup(1), false, input, sh0, Register(1));
    SoloIsNext(now, sh0, dial, Register(1), false, input, sh1, Lead(1, 0, Load));
    SoloIsNext(now, sh1, dial, Lead(1, 0, Load), false, input, sh1, query);
    UpdateIsNext(now, sh1, dial, query, newer);
    SoloIsNext(now, sh2, dial, query, false, input, sh2, Lead(1, 0, Leave(result)));
    SoloIsNext(now, sh2, dial, Lead(1, 0, Leave(result)), false, input, sh3, Lead(1, 0, Deliver(result)));
    SoloIsNext(now, sh3, dial, Lead(1, 0, Deliver(result)), false, input, sh4, Lead(1, 0, Broadcast(result)));
    SoloIsNext(now, sh4, dial, Lead(1, 0, Broadcast(result)), false, input, sh5, PutAnswer(1, result.entry));
    SoloIsNext(now, sh5, dial, PutAnswer(1, result.entry), false, input, sh6, Connect(1, result.entry, false));
    run := Run([Solo(now, sh0, dial, Lookup(1), false),
                Solo(now, sh0, dial, Register(1), false),
                Solo(now, sh1, dial, Lead(1, 0, Load), false),
                Solo(now, sh1, dial, query, false),
                Solo(now, sh2, dial, query, true),
                Solo(now, sh2, dial, query, false),
                Solo(now, sh2, dial, Lead(1, 0, Leave(result)), false),
                Solo(now, sh3, dial, Lead(1, 0, Deliver(result)), false),
                Solo(now, sh4, dial, Lead(1, 0, Broadcast(result)), false),
                Solo(now, sh5, dial, PutAnswer(1, result.entry), false),
                Solo(now, sh6, dial, Connect(1, result.entry, false), false)],
               [go, go, go, UpdateStore(newer), UpdateClear, go, go, go, go, go]);
  }

  /**
   The condition is not idle. Whatever the host, the two lists and the answers, as long as a server of
   the old list gives an address: there is a run with this one dial and this one update at whose end
   the update is complete and the cache still gives the old list's answer.
   */
  lemma StaleAnswerOutlivesUpdate(now: int, ttl: int, dial: Dial, older: seq<string>, newer: seq<string>,
                                  answers: seq<Answer>)
    requires ttl > 0 && older != newer
    requires |answers| == |ServersOf(older)| && exists k :: 0 <= k < |answers| && Useful(answers[k])
    ensures exists run: Run ::
              && IsRun(run, Init(now, ttl, older, [dial]))
              && var last, key := run.states[|run.actions|], JoinHostPort(dial.host, dial.port);
                 && !last.stored
                 && Fresh(last.shared.cache, key, last.now)
                 && last.shared.cache.entries[key].value.generation < last.shared.servers.generation
  {
    hide JoinHostPort, Resolution, ServersOf, IsRun, Useful;
    var input := Input(answers, [], None);
    FoundFor(older, dial, input);
    var run := OvertakenRun(now, ttl, dial, older, newer, input);
    SizesOfRun(run, Init(now, ttl, older, [dial]));
  }

  lemma FirstCall(sh: Shared, key: string)
    requires sh.inflight == map[] && sh.calls == []
    ensures Begin(sh, key, 0).call == 0
    ensures Begin(sh, key, 0).shared == sh.(inflight := map[key := 0], calls := [Call(0, false, NOTHING)])
  {
  }

  lemma UpdateIsNext(now: int, sh: Shared, dial: Dial, pc: Pc, addresses: seq<string>)
    requires sh.cache.entries == map[] && addresses != sh.servers.addresses
    ensures Enabled(Solo(now, sh, dial, pc, false), UpdateStore(addresses))
    ensures Next(Solo(now, sh, dial, pc, false), UpdateStore(addresses))
         == Solo(now, StoreServers(sh, addresses), dial, pc, true)
    ensures Enabled(Solo(now, StoreServers(sh, addresses), dial, pc, true), UpdateClear)
    ensures Next(Solo(now, StoreServers(sh, addresses), dial, pc, true), UpdateClear)
         == Solo(now, StoreServers(sh, addresses), dial, pc, false)
  {
  }

  lemma FoundFor(addresses: seq<string>, dial: Dial, input: Input)
    requires exists k :: 0 <= k < |input.answers| && Useful(input.answers[k])
    ensures Asked(Servers(addresses, 0), dial, input).err.None?
    ensures Asked(Servers(addresses, 0), dial, input).entry.generation == 0
  {
  }

  /** The server list whose answer a dial may still store. */
  function MayStore(pc: Pc): Option<nat> {
    match pc
    case Lead(_, _, Query(servers)) => Some(servers.generation)
    case Lead(_, _, Leave(result)) => if result.err.None? then Some(result.entry.generation) else None
    case Lead(_, _, Deliver(result)) => if result.err.None? then Some(result.entry.generation) else None
    case Lead(_, _, Broadcast(result)) => if result.err.None? then Some(result.entry.generation) else None
    case PutAnswer(_, entry) => Some(entry.generation)
    case _ => None
  }

  /** An answer of a list older than the given one is in the cache. */
  predicate OlderCached(s: State, key: string, generation: nat) {
    key in s.shared.cache.entries && s.shared.cache.entries[key].value.generation < generation
  }

  lemma OldMayStoreStep(s: State, a: Action, i: nat, generation: nat)
    requires Enabled(s, a) && i < |s.callers| == |Next(s, a).callers|
    requires MayStore(Next(s, a).callers[i].pc) == Some(generation) && generation < s.shared.servers.generation
    ensures MayStore(s.callers[i].pc) == Some(generation)
  {
    hide JoinHostPort, Resolution, DialResult, ServersOf, Caches.Lookup, AfterGet, AfterPut;
  }

  lemma {:induction false} OldMightStore(run: Run, first: State, n: nat, i: nat, generation: nat)
    requires IsRun(run, first) && Inv(first) && n < |run.states| && i < |first.callers| == |run.states[n].callers|
    requires MayStore(run.states[n].callers[i].pc) == Some(generation) && generation < first.shared.servers.generation
    ensures MayStore(first.callers[i].pc) == Some(generation)
  {
    hide Next, Enabled, Inv, MayStore, Key, IsRun;
    FirstOfRun(run, first);
    if n > 0 {
      SizesOfRun(run, first);
      StepOfRun(run, first, n - 1);
      RunKeepsInv(run, first, n - 1);
      GenerationsGrow(run, first, 0, n - 1);
      OldMayStoreStep(run.states[n - 1], run.actions[n - 1], i, generation);
      OldMightStore(run, first, n - 1, i, generation);
    }
  }

  lemma FirstOfRun(run: Run, first: State)
    requires IsRun(run, first)
    ensures |run.states| > 0 && run.states[0] == first
  {
  }

  lemma StoredByMayStore(s: State, a: Action, key: string)
    requires Enabled(s, a) && key in Next(s, a).shared.cache.entries
    ensures var slot := Next(s, a).shared.cache.entries[key];
            || (key in s.shared.cache.entries && s.shared.cache.entries[key] == slot)
            || (a.Step? && Key(s.callers[a.caller]) == key
                && MayStore(s.callers[a.caller].pc) == Some(slot.value.generation))
  {
    hide JoinHostPort, Resolution, DialResult, ServersOf, Caches.Lookup;
  }

  /** An older answer that comes into the cache was a dial's to store from the beginning. */
  lemma {:induction false} OlderCameFrom(run: Run, first: State, n: nat, key: string)
    requires IsRun(run, first) && Inv(first) && n < |run.states|
    requires !OlderCached(first, key, first.shared.servers.generation)
    requires OlderCached(run.states[n], key, first.shared.servers.generation)
    ensures exists i :: 0 <= i < |first.callers| && Key(first.callers[i]) == key
              && MayStore(first.callers[i].pc) == Some(run.states[n].shared.cache.entries[key].value.generation)
  {
    hide Next, Enabled, Inv, MayStore, Key, IsRun;
    FirstOfRun(run, first);
    SizesOfRun(run, first);
    StepOfRun(run, first, n - 1);
    var s, a := run.states[n - 1], run.actions[n - 1];
    StoredByMayStore(s, a, key);
    if key in s.shared.cache.entries && s.shared.cache.entries[key] == run.states[n].shared.cache.entries[key] {
      OlderCameFrom(run, first, n - 1, key);
    } else {
      CallerIsThere(s, a);
      RunKeepsInv(run, first, n - 1);
      OldMightStore(run, first, n - 1, a.caller, run.states[n].shared.cache.entries[key].value.generation);
    }
  }

  /** What the outside may answer so that the dial goes on to store. */
  function HelpfulInput(pc: Pc): Input {
    var asked := if pc.Lead? && pc.phase.Query? then |ServersOf(pc.phase.servers.addresses)| else 0;
    Input(seq(asked, _ => Addresses([IP("192.0.2.1", true)])), [], None)
  }

  lemma HelpfulStep(s: State, i: nat)
    requires Inv(s) && i < |s.callers| && MayStore(s.callers[i].pc).Some? && !s.callers[i].pc.PutAnswer?
    ensures CanStep(s, i, HelpfulInput(s.callers[i].pc))
    ensures var t := StepCaller(s, i, HelpfulInput(s.callers[i].pc));
            && i < |t.callers| && MayStore(t.callers[i].pc) == MayStore(s.callers[i].pc)
            && Key(t.callers[i]) == Key(s.callers[i])
            && t.shared.servers == s.shared.servers && t.shared.cache == s.shared.cache
  {
    hide JoinHostPort, Resolution, ServersOf;
    assert CallerOk(s, i);
    if s.callers[i].pc.phase.Query? {
      HelpfulAnswers(s.callers[i].pc, s.callers[i].host, s.callers[i].port);
    }
  }

  lemma HelpfulAnswers(pc: Pc, host: string, port: string)
    requires pc.Lead? && pc.phase.Query?
    ensures |HelpfulInput(pc).answers| == |ServersOf(pc.phase.servers.addresses)|
    ensures Resolution(HelpfulInput(pc).answers, host, port).err.None?
  {
    assert Useful(HelpfulInput(pc).answers[0]);
  }

  lemma ThenRun(s: State, a: Action, rest: Run) returns (run: Run)
    requires Enabled(s, a) && IsRun(rest, Next(s, a))
    ensures IsRun(run, s) && run.states[|run.actions|] == rest.states[|rest.actions|]
  {
    run := Run([s] + rest.states, [a] + rest.actions);
    forall k | 0 <= k < |run.actions|
      ensures Enabled(run.states[k], run.actions[k]) && run.states[k + 1] == Next(run.states[k], run.actions[k])
    {
      if k > 0 {
        assert run.states[k] == rest.states[k - 1] && run.actions[k] == rest.actions[k - 1];
      }
    }
  }

  /** A dial that may still store an answer can go on, alone, until it has. */
  lemma {:induction false} CanStillStore(s: State, i: nat) returns (run: Run)
    requires Inv(s) && s.shared.cache.ttl > 0 && i < |s.callers| && MayStore(s.callers[i].pc).Some?
    ensures IsRun(run, s)
    ensures var last, key := run.states[|run.actions|], Key(s.callers[i]);
            && key in last.shared.cache.entries
            && last.shared.cache.entries[key].value.generation == MayStore(s.callers[i].pc).value
    decreases PcRank(s.callers[i].pc)
  {
    hide Inv, StepCaller, CanStep, Key, IsRun, MayStore, HelpfulInput;
    var input := HelpfulInput(s.callers[i].pc);
    if s.callers[i].pc.PutAnswer? {
      var rest := JustStored(s, i, input);
      run := ThenRun(s, Step(i, input), rest);
    } else {
      HelpfulStep(s, i);
      StepMovesOne(s, i, input);
      CallerStepKeepsInv(s, i, input);
      var rest := CanStillStore(StepCaller(s, i, input), i);
      run := ThenRun(s, Step(i, input), rest);
    }
  }

  lemma JustStored(s: State, i: nat, input: Input) returns (rest: Run)
    requires s.shared.cache.ttl > 0 && i < |s.callers| && s.callers[i].pc.PutAnswer?
    ensures Enabled(s, Step(i, input)) && IsRun(rest, Next(s, Step(i, input)))
    ensures var last, key := rest.states[|rest.actions|], Key(s.callers[i]);
            && key in last.shared.cache.entries
            && last.shared.cache.entries[key].value.generation == MayStore(s.callers[i].pc).value
  {
    hide JoinHostPort;
    rest := Run([Next(s, Step(i, input))], []);
  }

  /**
   From any moment with no older answer in the cache, right after an update or whenever else: one can
   still get there if and only if some dial is asking an older list, or has its answer yet to store.
   */
  lemma OlderCanReturnIff(s: State)
    requires Inv(s) && s.shared.cache.ttl > 0
    requires forall key :: !OlderCached(s, key, s.shared.servers.generation)
    ensures (exists run: Run, key: string ::
               IsRun(run, s) && OlderCached(run.states[|run.actions|], key, s.shared.servers.generation))
       <==> exists i :: 0 <= i < |s.callers| && MayStore(s.callers[i].pc).Some?
              && MayStore(s.callers[i].pc).value < s.shared.servers.generation
  {
    hide Inv, Next, Enabled, MayStore, Key;
    if run: Run, key: string :|
      IsRun(run, s) && OlderCached(run.states[|run.actions|], key, s.shared.servers.generation) {
      SizesOfRun(run, s);
      OlderCameFrom(run, s, |run.actions|, key);
    }
    if i :| 0 <= i < |s.callers| && MayStore(s.callers[i].pc).Some?
            && MayStore(s.callers[i].pc).value < s.shared.servers.generation {
      var run := CanStillStore(s, i);
      assert OlderCached(run.states[|run.actions|], Key(s.callers[i]), s.shared.servers.generation);
    }
  }

  // ---------------------------------------------------------------------------------------------
  // The object
  // ---------------------------------------------------------------------------------------------

  /**
   What the outside does during one pass of a dial: the servers and the sockets, the clock when the cache
   is read and when it is written, and the context, if it is what ends a wait.
   */
  datatype World = World(
    ask: Server -> Answer, reach: string -> Attempt, readAt: int, storedAt: int, cancelled: Option<string>)

  function AnswersIn(world: World, addresses: seq<string>): seq<Answer> {
    var servers := ServersOf(addresses);
    seq(|servers|, k requires 0 <= k < |servers| => world.ask(servers[k]))
  }

  /** The server gives at least one address. */
  predicate Gives(world: World, server: Server) {
    world.ask(server).Addresses? && world.ask(server).ips != []
  }

  /**
   Failover in the configured order: the first server that gives an address decides, all others after it
   are not needed; if none does the last one's error is the error, an answer without addresses included.
   Without configured servers the system decides.
   */
  lemma FailoverInOrder(world: World, addresses: seq<string>, host: string, port: string, k: nat)
    requires forall j :: 0 <= j < k && j < |addresses| ==> !Gives(world, At(addresses[j]))
    requires k < |addresses| ==> Gives(world, At(addresses[k]))
    ensures var found := Resolution(AnswersIn(world, addresses), host, port);
            && (k < |addresses| ==> found == Found(Targets(world.ask(At(addresses[k])).ips, port), None))
            && (addresses == [] && Gives(world, System) ==> found == Found(Targets(world.ask(System).ips, port), None))
            && (k >= |addresses| && (addresses == [] ==> !Gives(world, System)) ==>
                  var last := world.ask(if addresses == [] then System else At(addresses[|addresses| - 1]));
                  found == Found([], Some(if last.Addresses? then NoAddresses(host) else ServerFailed(last.reason))))
  {
    ServersInOrder(addresses);
    var answers := AnswersIn(world, addresses);
    forall j | 0 <= j < |answers|
      ensures answers[j] == world.ask(if addresses == [] then System else At(addresses[j]))
    {
    }
    hide Resolution, Targets, AnswersIn, ServersOf;
    var found := Resolution(answers, host, port);
    assert k < |addresses| ==> Useful(answers[k]);
    if exists j :: 0 <= j < |answers| && Useful(answers[j]) {
      var first :| 0 <= first < |answers| && Useful(answers[first]) && (forall j :: 0 <= j < first ==> !Useful(answers[j]))
                   && found == Found(Targets(answers[first].ips, port), None);
      if k < |addresses| {
        assert !(first < k) && !(k < first);
      }
    }
  }

  function AttemptsIn(world: World, targets: seq<string>): seq<Attempt> {
    seq(|targets|, k requires 0 <= k < |targets| => world.reach(targets[k]))
  }

  /** The targets are tried in their order: the first that accepts gives the connection, and else the last one the error. */
  lemma AttemptsInOrder(world: World, targets: seq<string>, k: nat)
    requires forall j :: 0 <= j < k && j < |targets| ==> world.reach(targets[j]).Refused?
    requires k < |targets| ==> world.reach(targets[k]).Connected?
    ensures var result := DialResult(AttemptsIn(world, targets));
            && (k < |targets| ==> result == Dialed(Some(world.reach(targets[k]).conn), None))
            && (k >= |targets| > 0 ==> result == Dialed(None, Some(ConnectFailed(world.reach(targets[|targets| - 1]).reason))))
  {
    var attempts := AttemptsIn(world, targets);
    assert k < |targets| ==> attempts[k].Connected?;
    assert forall j :: 0 <= j < k && j < |targets| ==> attempts[j].Refused?;
  }

  datatype Passes = Passes(first: World, second: World)

  function WorldOf(passes: Passes, pass: nat): World {
    if pass == 1 then passes.first else passes.second
  }

  function InputAt(pc: Pc, passes: Passes): Input {
    match pc
    case Lead(pass, _, Query(servers)) => Input(AnswersIn(WorldOf(passes, pass), servers.addresses), [], None)
    case Connect(pass, entry, _) => Input([], AttemptsIn(WorldOf(passes, pass), entry.targets), None)
    case Wait(pass, _) => Input([], [], WorldOf(passes, pass).cancelled)
    case _ => Input([], [], None)
  }

  /** The clock at a step; only the steps on the cache look at it. */
  function ClockAt(pc: Pc, passes: Passes): int {
    match pc
    case Lookup(pass) => WorldOf(passes, pass).readAt
    case PutAnswer(pass, _) => WorldOf(passes, pass).storedAt
    case _ => 0
  }

  /** What one dial on its own makes of the shared state, and where it returns or has to wait. */
  function EndOf(sh: Shared, dial: Dial, pc: Pc, passes: Passes): (Shared, Pc)
    decreases PcRank(pc)
  {
    var s, input := Solo(ClockAt(pc, passes), sh, dial, pc, false), InputAt(pc, passes);
    if !CanStep(s, 0, input) then (sh, pc)
    else
      StepMovesOne(s, 0, input);
      var t := StepCaller(s, 0, input);
      EndOf(t.shared, dial, t.callers[0].pc, passes)
  }

  lemma StepSolo(sh: Shared, dial: Dial, pc: Pc, passes: Passes, sh': Shared, pc': Pc)
    requires SoloStep(ClockAt(pc, passes), sh, dial, pc, false, InputAt(pc, passes), sh', pc')
    ensures EndOf(sh, dial, pc, passes) == EndOf(sh', dial, pc', passes)
  {
    hide StepCaller;
  }

  predicate Stopped(sh: Shared, pc: Pc, passes: Passes) {
    || pc.Done?
    || (pc.Wait? && WorldOf(passes, pc.pass).cancelled.None? && (pc.call < |sh.calls| ==> !sh.calls[pc.call].closed))
  }

  lemma StoppedSolo(sh: Shared, dial: Dial, pc: Pc, passes: Passes)
    requires Stopped(sh, pc, passes)
    ensures EndOf(sh, dial, pc, passes) == (sh, pc)
  {
  }

  lemma HitSolo(sh: Shared, dial: Dial, pass: nat, passes: Passes)
    ensures var key, now := JoinHostPort(dial.host, dial.port), WorldOf(passes, pass).readAt;
            var hit := Caches.Lookup(sh.cache, key, now);
            EndOf(sh, dial, Lookup(pass), passes)
            == EndOf(sh.(cache := AfterGet(sh.cache, key, now)), dial,
                     if hit.Some? then Connect(pass, hit.value, true) else Register(pass), passes)
  {
    hide JoinHostPort, Caches.Lookup, AfterGet, EndOf;
    var key, now := JoinHostPort(dial.host, dial.port), WorldOf(passes, pass).readAt;
    var hit := Caches.Lookup(sh.cache, key, now);
    StepSolo(sh, dial, Lookup(pass), passes, sh.(cache := AfterGet(sh.cache, key, now)),
             if hit.Some? then Connect(pass, hit.value, true) else Register(pass));
  }

  lemma RegisterSolo(sh: Shared, dial: Dial, pass: nat, passes: Passes)
    ensures var begun := Begin(sh, JoinHostPort(dial.host, dial.port), 0);
            EndOf(sh, dial, Register(pass), passes)
            == EndOf(begun.shared, dial,
                     if begun.leads then Lead(pass, begun.call, Load) else Wait(pass, begun.call), passes)
  {
    hide JoinHostPort, Begin, EndOf;
    var begun := Begin(sh, JoinHostPort(dial.host, dial.port), 0);
    StepSolo(sh, dial, Register(pass), passes, begun.shared,
             if begun.leads then Lead(pass, begun.call, Load) else Wait(pass, begun.call));
  }

  lemma AwaitSolo(sh: Shared, dial: Dial, pass: nat, passes: Passes, call: nat)
    requires WorldOf(passes, pass).cancelled.None? ==> call < |sh.calls| && sh.calls[call].closed
    ensures var cancelled := WorldOf(passes, pass).cancelled;
            EndOf(sh, dial, Wait(pass, call), passes)
            == EndOf(sh, dial, if cancelled.Some? then Done(None, Some(ContextDone(cancelled.value)))
                               else Continue(pass, sh.calls[call].result), passes)
  {
    hide JoinHostPort, EndOf;
    var cancelled := WorldOf(passes, pass).cancelled;
    StepSolo(sh, dial, Wait(pass, call), passes, sh,
             if cancelled.Some? then Done(None, Some(ContextDone(cancelled.value)))
             else Continue(pass, sh.calls[call].result));
  }

  lemma LeadSolo(sh: Shared, dial: Dial, pass: nat, passes: Passes, call: nat)
    requires call < |sh.calls| && !sh.calls[call].closed
    ensures var input := InputAt(Lead(pass, call, Query(sh.servers)), passes);
            var result := Asked(sh.servers, dial, input);
            var sh' := Close(Assign(Deregister(sh, JoinHostPort(dial.host, dial.port)), call, result), call);
            EndOf(sh, dial, Lead(pass, call, Load), passes)
            == EndOf(sh', dial, if result.err.Some? then Done(None, result.err) else PutAnswer(pass, result.entry), passes)
  {
    hide JoinHostPort, EndOf, Asked, SoloStep, AnswersIn;
    var query := Lead(pass, call, Query(sh.servers));
    var input, rest := InputAt(query, passes), InputAt(Drop, passes);
    var result := Asked(sh.servers, dial, input);
    var sh1 := Deregister(sh, JoinHostPort(dial.host, dial.port));
    var sh2 := Assign(sh1, call, result);
    var sh3 := Close(sh2, call);
    LoadStep(0, sh, dial, pass, call, rest);
    StepSolo(sh, dial, Lead(pass, call, Load), passes, sh, query);
    assert |input.answers| == |ServersOf(sh.servers.addresses)| by { AnswersFit(WorldOf(passes, pass), sh.servers.addresses); }
    SoloFinishes(0, sh, dial, pass, false, input, rest, call, sh.servers);
    StepSolo(sh, dial, query, passes, sh, Lead(pass, call, Leave(result)));
    StepSolo(sh, dial, Lead(pass, call, Leave(result)), passes, sh1, Lead(pass, call, Deliver(result)));
    StepSolo(sh1, dial, Lead(pass, call, Deliver(result)), passes, sh2, Lead(pass, call, Broadcast(result)));
    StepSolo(sh2, dial, Lead(pass, call, Broadcast(result)), passes, sh3,
             if result.err.Some? then Done(None, result.err) else PutAnswer(pass, result.entry));
  }

  lemma AnswersFit(world: World, addresses: seq<string>)
    ensures |AnswersIn(world, addresses)| == |ServersOf(addresses)|
  {
  }

  lemma LoadStep(now: int, sh: Shared, dial: Dial, pass: nat, call: nat, input: Input)
    requires call < |sh.calls|
    ensures SoloStep(now, sh, dial, Lead(pass, call, Load), false, input, sh, Lead(pass, call, Query(sh.servers)))
  {
    hide JoinHostPort;
  }

  lemma PutSolo(sh: Shared, dial: Dial, pass: nat, passes: Passes, entry: Entry)
    ensures var key, now := JoinHostPort(dial.host, dial.port), WorldOf(passes, pass).storedAt;
            EndOf(sh, dial, PutAnswer(pass, entry), passes)
            == EndOf(sh.(cache := AfterPut(sh.cache, key, entry, now)), dial, Connect(pass, entry, false), passes)
  {
    hide JoinHostPort, AfterPut, EndOf, SoloStep;
    var key, now := JoinHostPort(dial.host, dial.port), WorldOf(passes, pass).storedAt;
    SoloPuts(now, sh, dial, pass, false, InputAt(PutAnswer(pass, entry), passes), entry);
    StepSolo(sh, dial, PutAnswer(pass, entry), passes, sh.(cache := AfterPut(sh.cache, key, entry, now)),
             Connect(pass, entry, false));
  }

  lemma ConnectSolo(sh: Shared, dial: Dial, pass: nat, passes: Passes, entry: Entry, fromCache: bool)
    ensures var result := DialResult(AttemptsIn(WorldOf(passes, pass), entry.targets));
            EndOf(sh, dial, Connect(pass, entry, fromCache), passes)
            == EndOf(sh, dial,
                     if result.conn.None? && fromCache && pass == 1 then Drop else Done(result.conn, result.err), passes)
  {
    hide JoinHostPort, DialResult, EndOf;
    var result := DialResult(AttemptsIn(WorldOf(passes, pass), entry.targets));
    StepSolo(sh, dial, Connect(pass, entry, fromCache), passes, sh,
             if result.conn.None? && fromCache && pass == 1 then Drop else Done(result.conn, result.err));
  }

  lemma DropSolo(sh: Shared, dial: Dial, passes: Passes)
    ensures EndOf(sh, dial, Drop, passes)
         == EndOf(sh.(cache := AfterEvict(sh.cache, JoinHostPort(dial.host, dial.port))), dial, Lookup(2), passes)
  {
    hide JoinHostPort, EndOf, AfterEvict;
    StepSolo(sh, dial, Drop, passes, sh.(cache := AfterEvict(sh.cache, JoinHostPort(dial.host, dial.port))), Lookup(2));
  }

  /** Update as one caller sees it: what becomes of the shared state, and whether anything changed. */
  function Updated(sh: Shared, entries: seq<string>, isIP: string -> bool): (Shared, Result<bool, NameserverError>) {
    match NormalizeNameservers(entries, isIP)
    case Err(e) => (sh, Err(e))
    case Ok(addresses) =>
      if addresses == sh.servers.addresses then (sh, Ok(false))
      else (StoreServers(sh, addresses).(cache := AfterClear(sh.cache)), Ok(true))
  }

  /**
   Updating to the same entries a second time, or to the addresses a resolver reports, is accepted,
   reports no change and makes none.
   */
  lemma UpdateSettles(sh: Shared, entries: seq<string>, isIP: string -> bool)
    requires AcceptsOnlyIPText(isIP)
    requires Updated(sh, entries, isIP).1.Ok?
    ensures var sh' := Updated(sh, entries, isIP).0;
            && Updated(sh', entries, isIP) == (sh', Ok(false))
            && Updated(sh', sh'.servers.addresses, isIP) == (sh', Ok(false))
  {
    NormalizedListIsStable(entries, isIP);
  }

  /**
   What an update does: it is refused if an entry is, with the first one's error, and then changes
   nothing, as when the list is the one in use; else the list is in use, under a new generation, the cache
   is empty, and the lookups in flight are as they were.
   */
  lemma UpdateReplaces(sh: Shared, entries: seq<string>, isIP: string -> bool)
    ensures var (after, changed) := Updated(sh, entries, isIP);
            var normalized := NormalizeNameservers(entries, isIP);
            && (normalized.Err? ==> changed == Err(normalized.error) && after == sh)
            && (normalized.Ok? && normalized.value == sh.servers.addresses ==> changed == Ok(false) && after == sh)
            && (normalized.Ok? && normalized.value != sh.servers.addresses ==>
                  && changed == Ok(true)
                  && after.servers == Servers(normalized.value, sh.servers.generation + 1)
                  && after.cache.entries == map[] && after.cache.ttl == sh.cache.ttl && after.cache.capacity == sh.cache.capacity
                  && after.inflight == sh.inflight && after.calls == sh.calls)
  {
  }

  /** An update that changes the list is the two steps of the machine, one after the other. */
  lemma UpdateIsSteps(s: State, entries: seq<string>, isIP: string -> bool)
    requires !s.stored && Updated(s.shared, entries, isIP).1 == Ok(true)
    ensures var addresses := NormalizeNameservers(entries, isIP).value;
            && Enabled(s, UpdateStore(addresses))
            && Enabled(Next(s, UpdateStore(addresses)), UpdateClear)
            && Next(Next(s, UpdateStore(addresses)), UpdateClear) == s.(shared := Updated(s.shared, entries, isIP).0)
  {
    hide NormalizeNameservers;
  }

  class Resolver {
    var servers: Servers
    const cache: Cache<Entry>
    var inflight: map<string, nat>
    var calls: seq<Call>

    ghost function Value(): Shared
      reads this, cache
    {
      Shared(servers, cache.Value(), inflight, calls)
    }

    constructor (addresses: seq<string>, ttl: int)
      ensures fresh(cache)
      ensures Value() == Shared(Servers(addresses, 0), Empty(ttl, MAX_CACHED_LOOKUPS), map[], [])
    {
      servers := Servers(addresses, 0);
      cache := new Cache(MAX_CACHED_LOOKUPS, ttl);
      inflight := map[];
      calls := [];
    }

    method Update(entries: seq<string>, isIP: string -> bool) returns (changed: Result<bool, NameserverError>)
      modifies this, cache
      ensures (Value(), changed) == old(Updated(Value(), entries, isIP))
    {
      hide NormalizeNameservers;
      var addresses := NormalizeEntries(entries, isIP);
      if addresses.Err? {
        return Err(addresses.error);
      }
      if servers.addresses == addresses.value {
        return Ok(false);
      }
      servers := Servers(addresses.value, servers.generation + 1);
      cache.Clear();
      return Ok(true);
    }

    method ClearCache()
      modifies cache
      ensures Value() == old(Value().(cache := AfterClear(Value().cache)))
    {
      cache.Clear();
    }

    method DropCached(host: string, port: string)
      modifies cache
      ensures Value() == old(Value().(cache := AfterEvict(Value().cache, JoinHostPort(host, port))))
    {
      cache.Evict(JoinHostPort(host, port));
    }

    method BeginCall(key: string, who: nat) returns (call: nat, leads: bool)
      modifies this
      ensures Begun(Value(), call, leads) == old(Begin(Value(), key, who))
    {
      if key in inflight {
        return inflight[key], false;
      }
      call := |calls|;
      calls := calls + [Call(who, false, NOTHING)];
      inflight := inflight[key := call];
      return call, true;
    }

    method FinishCall(key: string, call: nat, result: Delivery)
      requires call < |calls| && !calls[call].closed
      modifies this
      ensures Value() == old(Close(Assign(Deregister(Value(), key), call, result), call))
    {
      inflight := inflight - {key};
      calls := calls[call := calls[call].(result := result)];
      calls := calls[call := calls[call].(closed := true)];
    }

    method Ask(dial: Dial, world: World) returns (result: Delivery)
      ensures result == Asked(servers, dial, Input(AnswersIn(world, servers.addresses), [], None))
    {
      var list := BuildResolvers(servers.addresses);
      var answers := seq(|list|, k requires 0 <= k < |list| => world.ask(list[k]));
      var found := Resolve(answers, dial.host, dial.port);
      ResolutionIsUnique(answers, dial.host, dial.port, found, Resolution(answers, dial.host, dial.port));
      return Delivery(Entry(found.targets, servers.generation), found.err);
    }

    /** Goes as far as lookup does; the dial ends where it would have ended. */
    method LookupHost(dial: Dial, pass: nat, passes: Passes) returns (pc: Pc)
      modifies this, cache
      ensures EndOf(Value(), dial, pc, passes) == old(EndOf(Value(), dial, Lookup(pass), passes))
      ensures Stopped(Value(), pc, passes) || (pc.Connect? && pc.pass == pass)
    {
      HitSolo(Value(), dial, pass, passes);
      var key, world := JoinHostPort(dial.host, dial.port), WorldOf(passes, pass);
      var hit := cache.Get(key, world.readAt);
      if hit.Some? {
        return Connect(pass, hit.value, true);
      }
      RegisterSolo(Value(), dial, pass, passes);
      var call, leads := BeginCall(key, 0);
      if !leads {
        if world.cancelled.Some? {
          AwaitSolo(Value(), dial, pass, passes, call);
          return Done(None, Some(ContextDone(world.cancelled.value)));
        }
        if call < |calls| && calls[call].closed {
          AwaitSolo(Value(), dial, pass, passes, call);
          return Continue(pass, calls[call].result);
        }
        return Wait(pass, call);
      }
      LeadSolo(Value(), dial, pass, passes, call);
      var result := Ask(dial, world);
      FinishCall(key, call, result);
      if result.err.Some? {
        return Done(None, result.err);
      }
      PutSolo(Value(), dial, pass, passes, result.entry);
      cache.Put(key, result.entry, world.storedAt);
      return Connect(pass, result.entry, false);
    }

    /** connectAny on what a pass found. */
    method ConnectPass(targets: seq<string>, world: World) returns (result: Dialed)
      ensures result == DialResult(AttemptsIn(world, targets))
    {
      var attempts := seq(|targets|, k requires 0 <= k < |targets| => world.reach(targets[k]));
      result := ConnectAny(attempts);
      DialIsUnique(attempts, result, DialResult(attempts));
    }

    /**
     dialHost as one caller runs it when no other caller interferes: it ends where the steps of that
     caller end, which is its return or the wait for a call that is not delivered.
     */
    method DialHost(dial: Dial, passes: Passes) returns (pc: Pc)
      modifies this, cache
      ensures (Value(), pc) == old(EndOf(Value(), dial, Lookup(1), passes))
    {
      pc := LookupHost(dial, 1, passes);
      if pc.Connect? {
        ConnectSolo(Value(), dial, 1, passes, pc.entry, pc.fromCache);
        var first := ConnectPass(pc.entry.targets, passes.first);
        if first.conn.Some? || !pc.fromCache {
          pc := Done(first.conn, first.err);
        } else {
          DropSolo(Value(), dial, passes);
          DropCached(dial.host, dial.port);
          pc := LookupHost(dial, 2, passes);
          if pc.Connect? {
            ConnectSolo(Value(), dial, 2, passes, pc.entry, pc.fromCache);
            var second := ConnectPass(pc.entry.targets, passes.second);
            pc := Done(second.conn, second.err);
          }
        }
      }
      StoppedSolo(Value(), dial, pc, passes);
    }
  }
}
