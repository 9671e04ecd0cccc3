/**
 Signing certificates on demand (internal/ca/ca.go): any number of concurrent handshakes for any names,
 at most one of which signs for a name at a time while the others wait for its result.

 `Shared` is what the callers share: the certificate cache, the calls in flight and the calls
 themselves. Each function on it is one critical section or one channel operation. `State` adds the
 callers, each at a point between two such operations, and `Next` is one step of one of them, or of the
 clock, or of a reload that clears the cache. Signing is an oracle: it succeeds, fails or panics.
 */
module CertFlight {
  import opened GoText
  import opened Caches
  import opened Sums

  const CERT_TTL: int := 24 * 3600 * 1_000_000_000
  const MAX_CACHED_CERTS := 512

  datatype Cert = Cert(serial: nat)

  datatype Failure = SniMissing | SignFailed(reason: string)

  /** The two results of GetCertificate; None is nil. */
  datatype Reply = Reply(cert: Option<Cert>, err: Option<Failure>)

  const NOTHING := Reply(None, None)

  /** A certCall. Its number is its identity; `leader` records who created it. */
  datatype Call = Call(leader: nat, closed: bool, reply: Reply)

  datatype Shared = Shared(cache: Store<Cert>, inflight: map<string, nat>, calls: seq<Call>)

  datatype Outcome = Signed(cert: Cert) | Failed(reason: string) | Panicked

  // ---------------------------------------------------------------------------------------------
  // Critical sections
  // ---------------------------------------------------------------------------------------------

  datatype Begun = Begun(shared: Shared, call: nat, leads: bool)

  function Begin(sh: Shared, key: string, who: nat): Begun {
    if key in sh.inflight then Begun(sh, sh.inflight[key], false)
    else
      var call := |sh.calls|;
      Begun(sh.(inflight := sh.inflight[key := call], calls := sh.calls + [Call(who, false, NOTHING)]), call, true)
  }

  function Deregister(sh: Shared, key: string): Shared {
    sh.(inflight := sh.inflight - {key})
  }

  function Assign(sh: Shared, call: nat, reply: Reply): Shared
    requires call < |sh.calls|
  {
    sh.(calls := sh.calls[call := sh.calls[call].(reply := reply)])
  }

  /** close(c.done); closing twice would panic. */
  function Close(sh: Shared, call: nat): Shared
    requires call < |sh.calls| && !sh.calls[call].closed
  {
    sh.(calls := sh.calls[call := sh.calls[call].(closed := true)])
  }

  // ---------------------------------------------------------------------------------------------
  // Callers
  // ---------------------------------------------------------------------------------------------

  /** What a leader does next; `unwinding` says that signing panicked. */
  datatype Phase =
    | Recheck
    | Sign
    | PutCert(cert: Cert)
    | Leave(reply: Reply, unwinding: bool)
    | Deliver(reply: Reply, unwinding: bool)
    | Broadcast(reply: Reply, unwinding: bool)

  /** Where a caller of GetCertificate is. */
  datatype Pc =
    | Arrive
    | Register
    | Wait(call: nat)
    | Lead(call: nat, phase: Phase)
    | Returned(via: Option<nat>, reply: Reply)
    | Unwound(call: nat)

  datatype Caller = Caller(serverName: string, pc: Pc)

  datatype State = State(now: int, shared: Shared, callers: seq<Caller>)

  function Key(caller: Caller): string {
    ToLower(caller.serverName)
  }

  /** Callers share a certificate exactly when their names differ in the case of letters at most. */
  lemma KeyIffSameFold(a: Caller, b: Caller)
    ensures Key(a) == Key(b) <==> SameFold(a.serverName, b.serverName)
  {
    LowerIffSameFold(a.serverName, b.serverName);
  }

  function Move(s: State, i: nat, pc: Pc, shared: Shared): State
    requires i < |s.callers|
  {
    s.(shared := shared, callers := s.callers[i := s.callers[i].(pc := pc)])
  }

  predicate CanStep(s: State, i: nat)
    requires i < |s.callers|
  {
    match s.callers[i].pc
    case Wait(call) => call < |s.shared.calls| && s.shared.calls[call].closed
    case Lead(call, phase) => call < |s.shared.calls| && (phase.Broadcast? ==> !s.shared.calls[call].closed)
    case Returned(_, _) => false
    case Unwound(_) => false
    case _ => true
  }

  function StepCaller(s: State, i: nat, outcome: Outcome): State
    requires i < |s.callers| && CanStep(s, i)
  {
    var sh, key := s.shared, Key(s.callers[i]);
    match s.callers[i].pc
    case Arrive =>
      if key == "" then Move(s, i, Returned(None, Reply(None, Some(SniMissing))), sh)
      else
        var hit := Lookup(sh.cache, key, s.now);
        Move(s, i, if hit.Some? then Returned(None, Reply(hit, None)) else Register,
             sh.(cache := AfterGet(sh.cache, key, s.now)))
    case Register =>
      var begun := Begin(sh, key, i);
      Move(s, i, if begun.leads then Lead(begun.call, Recheck) else Wait(begun.call), begun.shared)
    case Wait(call) => Move(s, i, Returned(Some(call), sh.calls[call].reply), sh)
    case Lead(call, phase) => StepLeader(s, i, call, phase, outcome)
  }

  function StepLeader(s: State, i: nat, call: nat, phase: Phase, outcome: Outcome): State
    requires i < |s.callers| && call < |s.shared.calls|
    requires phase.Broadcast? ==> !s.shared.calls[call].closed
  {
    var sh, key := s.shared, Key(s.callers[i]);
    match phase
    case Recheck =>
      var hit := Lookup(sh.cache, key, s.now);
      Move(s, i, Lead(call, if hit.Some? then Leave(Reply(hit, None), false) else Sign),
           sh.(cache := AfterGet(sh.cache, key, s.now)))
    case Sign =>
      var next := match outcome
        case Signed(cert) => PutCert(cert)
        case Failed(reason) => Leave(Reply(None, Some(SignFailed(reason))), false)
        case Panicked => Leave(NOTHING, true);
      Move(s, i, Lead(call, next), sh)
    case PutCert(cert) =>
      Move(s, i, Lead(call, Leave(Reply(Some(cert), None), false)),
           sh.(cache := AfterPut(sh.cache, key, cert, s.now)))
    case Leave(reply, unwinding) => Move(s, i, Lead(call, Deliver(reply, unwinding)), Deregister(sh, key))
    case Deliver(reply, unwinding) => Move(s, i, Lead(call, Broadcast(reply, unwinding)), Assign(sh, call, reply))
    case Broadcast(reply, unwinding) =>
      Move(s, i, if unwinding then Unwound(call) else Returned(Some(call), reply), Close(sh, call))
  }

  datatype Action = Step(caller: nat, outcome: Outcome) | Tick(elapsed: nat) | ClearCache

  predicate Enabled(s: State, a: Action) {
    a.Step? ==> a.caller < |s.callers| && CanStep(s, a.caller)
  }

  function Next(s: State, a: Action): State
    requires Enabled(s, a)
  {
    match a
    case Step(i, outcome) => StepCaller(s, i, outcome)
    case Tick(elapsed) => s.(now := s.now + elapsed)
    case ClearCache => s.(shared := s.shared.(cache := AfterClear(s.shared.cache)))
  }

  function Init(now: int, names: seq<string>): State {
    State(now, Shared(Empty(CERT_TTL, MAX_CACHED_CERTS), map[], []),
          seq(|names|, i requires 0 <= i < |names| => Caller(names[i], Arrive)))
  }

  // ---------------------------------------------------------------------------------------------
  // Invariant
  // ---------------------------------------------------------------------------------------------

  /** Between begin and the deregistration in end. */
  predicate Registered(phase: Phase) {
    !phase.Deliver? && !phase.Broadcast?
  }

  predicate CallerOk(s: State, i: nat)
    requires i < |s.callers|
  {
    var sh, key := s.shared, Key(s.callers[i]);
    match s.callers[i].pc
    case Arrive => true
    case Register => true
    case Wait(call) => call < |sh.calls|
    case Lead(call, phase) =>
      && call < |sh.calls| && sh.calls[call].leader == i && !sh.calls[call].closed
      && (Registered(phase) ==> key in sh.inflight && sh.inflight[key] == call)
      && (phase.Sign? || phase.PutCert? ==> key !in sh.cache.entries)
      && (phase.Leave? || phase.Deliver? || phase.Broadcast? ==> (phase.reply == NOTHING <==> phase.unwinding))
      && (phase.Broadcast? ==> sh.calls[call].reply == phase.reply)
    case Returned(via, reply) =>
      via.Some? ==> via.value < |sh.calls| && sh.calls[via.value].closed && sh.calls[via.value].reply == reply
    case Unwound(call) => call < |sh.calls| && sh.calls[call].closed && sh.calls[call].leader == i
  }

  /** An open call is held by its leader; a closed one carries nothing only if its leader panicked. */
  predicate CallOk(s: State, c: nat)
    requires c < |s.shared.calls|
  {
    var call := s.shared.calls[c];
    && call.leader < |s.callers|
    && (!call.closed ==> s.callers[call.leader].pc.Lead? && s.callers[call.leader].pc.call == c)
    && (call.closed && call.reply == NOTHING <==> s.callers[call.leader].pc == Unwound(c))
  }

  /** A name in flight belongs to the leader of its call, which is between begin and end. */
  predicate KeyOk(s: State, key: string)
    requires key in s.shared.inflight
  {
    var c := s.shared.inflight[key];
    && c < |s.shared.calls|
    && s.shared.calls[c].leader < |s.callers|
    && var leader := s.callers[s.shared.calls[c].leader];
       leader.pc.Lead? && leader.pc.call == c && Registered(leader.pc.phase) && Key(leader) == key
  }

  ghost predicate Inv(s: State) {
    && s.shared.cache.ttl == CERT_TTL
    && (forall i :: 0 <= i < |s.callers| ==> CallerOk(s, i))
    && (forall c :: 0 <= c < |s.shared.calls| ==> CallOk(s, c))
    && (forall key :: key in s.shared.inflight ==> KeyOk(s, key))
  }

  lemma InitInv(now: int, names: seq<string>)
    ensures Inv(Init(now, names))
  {
  }

  /** Two leaders between begin and end never have the same name. */
  lemma OneLeaderPerName(s: State, i: nat, j: nat)
    requires i < |s.callers| && j < |s.callers| && CallerOk(s, i) && CallerOk(s, j)
    requires s.callers[i].pc.Lead? && Registered(s.callers[i].pc.phase)
    requires s.callers[j].pc.Lead? && Registered(s.callers[j].pc.phase)
    requires Key(s.callers[i]) == Key(s.callers[j])
    ensures i == j
  {
  }

  lemma StepKeepsSelf(s: State, i: nat, outcome: Outcome)
    requires i < |s.callers| && CallerOk(s, i) && CanStep(s, i)
    requires var key := Key(s.callers[i]); key in s.shared.inflight ==> KeyOk(s, key)
    ensures CallerOk(StepCaller(s, i, outcome), i)
  {
    hide ToLower;
    if s.callers[i].pc.Lead? {
      LeaderKeepsSelf(s, i, outcome);
    }
  }

  lemma LeaderKeepsSelf(s: State, i: nat, outcome: Outcome)
    requires i < |s.callers| && CallerOk(s, i) && CanStep(s, i)
    requires s.callers[i].pc.Lead?
    ensures CallerOk(StepLeader(s, i, s.callers[i].pc.call, s.callers[i].pc.phase, outcome), i)
  {
    hide ToLower, AfterPut;
  }

  lemma StepKeepsOther(s: State, i: nat, outcome: Outcome, j: nat)
    requires i < |s.callers| && CallerOk(s, i) && CanStep(s, i)
    requires j < |s.callers| && j != i && CallerOk(s, j)
    ensures CallerOk(StepCaller(s, i, outcome), j)
  {
    hide ToLower;
    if s.callers[i].pc.Lead? {
      LeaderKeepsOther(s, i, outcome, j);
    }
  }

  lemma LeaderKeepsOther(s: State, i: nat, outcome: Outcome, j: nat)
    requires i < |s.callers| && CallerOk(s, i) && CanStep(s, i)
    requires j < |s.callers| && j != i && CallerOk(s, j)
    requires s.callers[i].pc.Lead?
    ensures CallerOk(StepLeader(s, i, s.callers[i].pc.call, s.callers[i].pc.phase, outcome), j)
  {
    hide ToLower;
    var p, q := s.callers[i].pc, s.callers[j].pc;
    if Registered(p.phase) && q.Lead? && Registered(q.phase) && Key(s.callers[i]) == Key(s.callers[j]) {
      OneLeaderPerName(s, i, j);
    }
  }

  lemma StepKeepsCall(s: State, i: nat, outcome: Outcome, c: nat)
    requires i < |s.callers| && CallerOk(s, i) && CanStep(s, i)
    requires c < |s.shared.calls| && CallOk(s, c)
    ensures CallOk(StepCaller(s, i, outcome), c)
  {
    hide ToLower, Lookup, AfterGet, AfterPut;
    if s.callers[i].pc.Lead? {
      LeaderKeepsCall(s, i, outcome, c);
    }
  }

  lemma LeaderKeepsCall(s: State, i: nat, outcome: Outcome, c: nat)
    requires i < |s.callers| && CallerOk(s, i) && CanStep(s, i)
    requires c < |s.shared.calls| && CallOk(s, c)
    requires s.callers[i].pc.Lead?
    ensures CallOk(StepLeader(s, i, s.callers[i].pc.call, s.callers[i].pc.phase, outcome), c)
  {
    hide ToLower, Lookup, AfterGet, AfterPut;
  }

  lemma StepOpensCall(s: State, i: nat, outcome: Outcome, c: nat)
    requires i < |s.callers| && CallerOk(s, i) && CanStep(s, i)
    requires |s.shared.calls| <= c < |StepCaller(s, i, outcome).shared.calls|
    ensures CallOk(StepCaller(s, i, outcome), c)
  {
    hide ToLower, Lookup, AfterGet, AfterPut;
  }

  lemma StepKeepsKey(s: State, i: nat, outcome: Outcome, key: string)
    requires i < |s.callers| && CallerOk(s, i) && CanStep(s, i)
    requires key in s.shared.inflight && KeyOk(s, key)
    requires key in StepCaller(s, i, outcome).shared.inflight
    ensures KeyOk(StepCaller(s, i, outcome), key)
  {
    hide ToLower, Lookup, AfterGet, AfterPut;
    if s.callers[i].pc.Lead? {
      LeaderKeepsKey(s, i, outcome, key);
    }
  }

  lemma LeaderKeepsKey(s: State, i: nat, outcome: Outcome, key: string)
    requires i < |s.callers| && CallerOk(s, i) && CanStep(s, i)
    requires key in s.shared.inflight && KeyOk(s, key)
    requires s.callers[i].pc.Lead?
    requires key in StepLeader(s, i, s.callers[i].pc.call, s.callers[i].pc.phase, outcome).shared.inflight
    ensures KeyOk(StepLeader(s, i, s.callers[i].pc.call, s.callers[i].pc.phase, outcome), key)
  {
    hide ToLower, Lookup, AfterGet, AfterPut;
  }

  lemma StepOpensKey(s: State, i: nat, outcome: Outcome, key: string)
    requires i < |s.callers| && CallerOk(s, i) && CanStep(s, i)
    requires key !in s.shared.inflight
    requires key in StepCaller(s, i, outcome).shared.inflight
    ensures KeyOk(StepCaller(s, i, outcome), key)
  {
    hide ToLower, Lookup, AfterGet, AfterPut;
  }

  lemma CallerStepKeepsInv(s: State, i: nat, outcome: Outcome)
    requires Inv(s) && i < |s.callers| && CanStep(s, i)
    ensures Inv(StepCaller(s, i, outcome))
  {
    hide CallerOk, CallOk, KeyOk, ToLower;
    var t := StepCaller(s, i, outcome);
    StepKeepsSelf(s, i, outcome);
    forall j | 0 <= j < |t.callers|
      ensures CallerOk(t, j)
    {
      if j != i {
        StepKeepsOther(s, i, outcome, j);
      }
    }
    forall c | 0 <= c < |t.shared.calls|
      ensures CallOk(t, c)
    {
      if c < |s.shared.calls| {
        StepKeepsCall(s, i, outcome, c);
      } else {
        StepOpensCall(s, i, outcome, c);
      }
    }
    forall key | key in t.shared.inflight
      ensures KeyOk(t, key)
    {
      if key in s.shared.inflight {
        StepKeepsKey(s, i, outcome, key);
      } else {
        StepOpensKey(s, i, outcome, key);
      }
    }
  }

  /** The clock and the clearing of the cache touch no call, and take names out of the cache at most. */
  lemma EnvironmentKeepsInv(s: State, t: State)
    requires Inv(s)
    requires t == s.(now := t.now, shared := s.shared.(cache := t.shared.cache))
    requires t.shared.cache.ttl == CERT_TTL && t.shared.cache.entries.Keys <= s.shared.cache.entries.Keys
    ensures Inv(t)
  {
    hide ToLower;
    forall i | 0 <= i < |t.callers|
      ensures CallerOk(t, i)
    {
      assert CallerOk(s, i);
    }
    forall c | 0 <= c < |t.shared.calls|
      ensures CallOk(t, c)
    {
      assert CallOk(s, c);
    }
    forall key | key in t.shared.inflight
      ensures KeyOk(t, key)
    {
      assert KeyOk(s, key);
    }
  }

  /** Every action keeps the invariant. */
  lemma NextKeepsInv(s: State, a: Action)
    requires Inv(s) && Enabled(s, a)
    ensures Inv(Next(s, a))
  {
    hide Inv;
    match a
    case Step(i, outcome) => CallerStepKeepsInv(s, i, outcome);
    case Tick(_) => EnvironmentKeepsInv(s, Next(s, a)) by { CacheParameters(s); }
    case ClearCache => EnvironmentKeepsInv(s, Next(s, a)) by { CacheParameters(s); }
  }

  lemma CacheParameters(s: State)
    requires Inv(s)
    ensures s.shared.cache.ttl == CERT_TTL
  {
  }

  // ---------------------------------------------------------------------------------------------
  // Runs
  // ---------------------------------------------------------------------------------------------

  /** A run: states[k + 1] is what actions[k] makes of states[k]. */
  datatype Run = Run(states: seq<State>, actions: seq<Action>)

  ghost predicate IsRun(run: Run, now: int, names: seq<string>) {
    && |run.states| == |run.actions| + 1
    && run.states[0] == Init(now, names)
    && forall k :: 0 <= k < |run.actions| ==>
         Enabled(run.states[k], run.actions[k]) && run.states[k + 1] == Next(run.states[k], run.actions[k])
  }

  lemma {:induction false} RunKeepsInv(run: Run, now: int, names: seq<string>, n: nat)
    requires IsRun(run, now, names) && n < |run.states|
    ensures Inv(run.states[n])
    ensures |run.states[n].callers| == |names|
  {
    hide Inv, Next, Enabled;
    if n == 0 {
      InitInv(now, names);
    } else {
      RunKeepsInv(run, now, names, n - 1);
      NextKeepsInv(run.states[n - 1], run.actions[n - 1]);
      NextKeepsCallers(run.states[n - 1], run.actions[n - 1]);
    }
  }

  lemma NextKeepsCallers(s: State, a: Action)
    requires Enabled(s, a)
    ensures |Next(s, a).callers| == |s.callers|
    ensures forall i :: 0 <= i < |s.callers| ==> Next(s, a).callers[i].serverName == s.callers[i].serverName
  {
    hide ToLower, Lookup, AfterGet, AfterPut, Begin, Deregister, Assign, Close;
  }

  // ---------------------------------------------------------------------------------------------
  // The cache over a run
  // ---------------------------------------------------------------------------------------------

  /** The step that puts a signed certificate into the cache. */
  predicate Stores(s: State, a: Action, key: string, cert: Cert)
    requires Enabled(s, a)
  {
    && a.Step? && s.callers[a.caller].pc.Lead? && s.callers[a.caller].pc.phase == PutCert(cert)
    && Key(s.callers[a.caller]) == key
  }

  /** What an action does to the cache: nothing, or one operation, and a put only to store. */
  lemma CacheEvent(s: State, a: Action) returns (event: Option<Event<Cert>>)
    requires Enabled(s, a)
    ensures Next(s, a).shared.cache == if event.None? then s.shared.cache else Apply(s.shared.cache, event.value)
    ensures event.Some? ==>
              && event.value.at == s.now
              && (event.value.op.Put? ==> Stores(s, a, event.value.op.key, event.value.op.value))
  {
    hide Key, AfterGet, AfterPut, Lookup, Begin, Deregister, Assign, Close;
    CallsLeaveCache(s.shared);
    event := None;
    match a {
      case Tick(_) =>
      case ClearCache => event := Some(Event(s.now, Op.Clear));
      case Step(i, _) =>
        var key := Key(s.callers[i]);
        match s.callers[i].pc {
          case Arrive => event := if key == "" then None else Some(Event(s.now, Op.Get(key)));
          case Lead(_, Recheck) => event := Some(Event(s.now, Op.Get(key)));
          case Lead(_, PutCert(cert)) => event := Some(Event(s.now, Op.Put(key, cert)));
          case _ =>
        }
    }
  }

  /** The calls in flight are none of the cache's business. */
  lemma CallsLeaveCache(sh: Shared)
    ensures forall key, who :: Begin(sh, key, who).shared.cache == sh.cache
    ensures forall key :: Deregister(sh, key).cache == sh.cache
    ensures forall call: nat, reply :: call < |sh.calls| ==> Assign(sh, call, reply).cache == sh.cache
    ensures forall call: nat :: call < |sh.calls| && !sh.calls[call].closed ==> Close(sh, call).cache == sh.cache
  {
  }

  /** So the cache is at every moment of every run what its operations have made of it. */
  lemma {:induction false} CacheIsReplay(run: Run, now: int, names: seq<string>, n: nat)
    returns (log: seq<Event<Cert>>, at: seq<nat>)
    requires IsRun(run, now, names) && n < |run.states|
    ensures run.states[n].shared.cache == Replay(log, CERT_TTL, MAX_CACHED_CERTS)
    ensures |at| == |log|
    ensures forall j :: 0 <= j < |log| ==>
              && at[j] < n && log[j].at == run.states[at[j]].now
              && (log[j].op.Put? ==> Stores(run.states[at[j]], run.actions[at[j]], log[j].op.key, log[j].op.value))
  {
    hide Next, Enabled, Stores, Apply;
    log, at := [], [];
    if n > 0 {
      log, at := CacheIsReplay(run, now, names, n - 1);
      var event := CacheEvent(run.states[n - 1], run.actions[n - 1]);
      if event.Some? {
        assert (log + [event.value])[..|log|] == log;
        log, at := log + [event.value], at + [n - 1];
      }
    }
  }

  /**
   At every moment of every run at most 512 certificates are cached, and one that is served from the cache
   was signed for the name and stored less than 24 hours before.
   */
  lemma CachedCertificateIsRecent(run: Run, now: int, names: seq<string>, n: nat, name: string, cert: Cert)
    requires IsRun(run, now, names) && n < |run.states|
    ensures |run.states[n].shared.cache.entries| <= 512
    ensures Lookup(run.states[n].shared.cache, name, run.states[n].now) == Some(cert) ==>
              exists m :: 0 <= m < n && Stores(run.states[m], run.actions[m], name, cert)
                          && run.states[n].now < run.states[m].now + 86_400_000_000_000
  {
    hide Next, Enabled, Stores;
    var log, at := CacheIsReplay(run, now, names, n);
    SizeBounded(log, CERT_TTL, MAX_CACHED_CERTS);
    if Lookup(run.states[n].shared.cache, name, run.states[n].now) == Some(cert) {
      var i := EntryComesFromPut(log, CERT_TTL, MAX_CACHED_CERTS, name);
      assert Stores(run.states[at[i]], run.actions[at[i]], name, cert);
    }
  }

  // ---------------------------------------------------------------------------------------------
  // Every run ends with every caller back
  // ---------------------------------------------------------------------------------------------

  function PhaseRank(phase: Phase): nat {
    match phase
    case Recheck => 7
    case Sign => 6
    case PutCert(_) => 5
    case Leave(_, _) => 4
    case Deliver(_, _) => 3
    case Broadcast(_, _) => 2
  }

  /** A bound on the steps a caller has still to make. */
  function PcRank(pc: Pc): nat {
    match pc
    case Arrive => 9
    case Register => 8
    case Wait(_) => 1
    case Lead(_, phase) => PhaseRank(phase)
    case Returned(_, _) => 0
    case Unwound(_) => 0
  }

  function CallerRank(caller: Caller): nat {
    PcRank(caller.pc)
  }

  function Rank(s: State): nat {
    Total(s.callers, CallerRank)
  }

  predicate Back(caller: Caller) {
    caller.pc.Returned? || caller.pc.Unwound?
  }

  lemma StepLowersRank(s: State, i: nat, outcome: Outcome)
    requires i < |s.callers| && CanStep(s, i)
    ensures Rank(StepCaller(s, i, outcome)) < Rank(s)
  {
    hide ToLower, Lookup, AfterGet, AfterPut, Begin, Deregister, Assign, Close;
    var t := StepCaller(s, i, outcome);
    StepMovesOne(s, i, outcome);
    TotalUpdate(s.callers, i, t.callers[i], CallerRank);
  }

  lemma StepMovesOne(s: State, i: nat, outcome: Outcome)
    requires i < |s.callers| && CanStep(s, i)
    ensures var t := StepCaller(s, i, outcome);
            && |t.callers| == |s.callers| && t.callers == s.callers[i := t.callers[i]]
            && PcRank(t.callers[i].pc) < PcRank(s.callers[i].pc)
            && t.callers[i].serverName == s.callers[i].serverName
  {
    hide ToLower, Lookup, AfterGet, AfterPut, Begin, Deregister, Assign, Close;
  }

  function CallerSteps(actions: seq<Action>): nat {
    if |actions| == 0 then 0
    else CallerSteps(actions[..|actions| - 1]) + if actions[|actions| - 1].Step? then 1 else 0
  }

  lemma {:induction false} StepsAndRank(run: Run, now: int, names: seq<string>, n: nat)
    requires IsRun(run, now, names) && n < |run.states|
    ensures CallerSteps(run.actions[..n]) + Rank(run.states[n]) <= Rank(run.states[0])
  {
    if n > 0 {
      hide Init, CanStep, StepCaller, Rank;
      StepsAndRank(run, now, names, n - 1);
      assert run.actions[..n][..n - 1] == run.actions[..n - 1];
      var s, a := run.states[n - 1], run.actions[n - 1];
      if a.Step? {
        StepLowersRank(s, a.caller, a.outcome);
      } else {
        SameCallersSameRank(s, run.states[n]);
      }
    }
  }

  lemma SameCallersSameRank(s: State, t: State)
    requires s.callers == t.callers
    ensures Rank(s) == Rank(t)
  {
  }

  /** However the callers, the clock and the reloads interleave, the callers make at most nine steps each. */
  lemma CallerStepsAreBounded(run: Run, now: int, names: seq<string>)
    requires IsRun(run, now, names)
    ensures CallerSteps(run.actions) <= 9 * |names|
  {
    var n := |run.actions|;
    StepsAndRank(run, now, names, n);
    assert run.actions[..n] == run.actions;
    TotalBound(run.states[0].callers, CallerRank, 9);
  }

  /** A leader can always go on; in particular it never closes a closed channel. */
  lemma LeaderCanStep(s: State, i: nat)
    requires Inv(s) && i < |s.callers| && s.callers[i].pc.Lead?
    ensures CanStep(s, i)
  {
    assert CallerOk(s, i);
  }

  /** A caller that cannot go on waits for a call whose leader can. */
  lemma BlockedOnLiveLeader(s: State, i: nat)
    requires Inv(s) && i < |s.callers| && !Back(s.callers[i]) && !CanStep(s, i)
    ensures s.callers[i].pc.Wait?
    ensures var call := s.callers[i].pc.call;
            && call < |s.shared.calls| && s.shared.calls[call].leader < |s.callers|
            && CanStep(s, s.shared.calls[call].leader)
  {
    assert CallerOk(s, i);
    if s.callers[i].pc.Wait? {
      var call := s.callers[i].pc.call;
      assert CallOk(s, call);
      LeaderCanStep(s, s.shared.calls[call].leader);
    } else {
      LeaderCanStep(s, i);
    }
  }

  /** When no caller can go on, all are back, nothing is in flight and every call has been delivered. */
  lemma StuckMeansDone(s: State)
    requires Inv(s)
    requires forall i :: 0 <= i < |s.callers| ==> !CanStep(s, i)
    ensures forall i :: 0 <= i < |s.callers| ==> Back(s.callers[i])
    ensures s.shared.inflight == map[]
    ensures forall c :: 0 <= c < |s.shared.calls| ==> s.shared.calls[c].closed
  {
    hide CanStep;
    if s.shared.inflight != map[] {
      var key :| key in s.shared.inflight;
      assert KeyOk(s, key);
      LeaderCanStep(s, s.shared.calls[s.shared.inflight[key]].leader);
    }
    forall i | 0 <= i < |s.callers|
      ensures Back(s.callers[i])
    {
      if !Back(s.callers[i]) {
        BlockedOnLiveLeader(s, i);
      }
    }
    forall c | 0 <= c < |s.shared.calls|
      ensures s.shared.calls[c].closed
    {
      assert CallOk(s, c);
    }
  }

  /**
   A maximal run of any number of concurrent callers has at most nine steps of each, and ends with
   every caller back, nothing in flight and every channel closed, whether signing succeeds, fails or
   panics.
   */
  lemma MaximalRunEnds(run: Run, now: int, names: seq<string>)
    requires IsRun(run, now, names)
    requires var last := run.states[|run.actions|]; forall i :: 0 <= i < |last.callers| ==> !CanStep(last, i)
    ensures CallerSteps(run.actions) <= 9 * |names|
    ensures var last := run.states[|run.actions|];
            && |last.callers| == |names|
            && (forall i :: 0 <= i < |last.callers| ==> Back(last.callers[i]))
            && last.shared.inflight == map[]
            && forall c :: 0 <= c < |last.shared.calls| ==> last.shared.calls[c].closed
  {
    CallerStepsAreBounded(run, now, names);
    RunKeepsInv(run, now, names, |run.actions|);
    StuckMeansDone(run.states[|run.actions|]);
  }

  // ---------------------------------------------------------------------------------------------
  // One result per call
  // ---------------------------------------------------------------------------------------------

  /** A delivered call stays delivered, with the same pair. */
  lemma DeliveredIsFinal(s: State, a: Action, c: nat)
    requires Inv(s) && Enabled(s, a)
    requires c < |s.shared.calls| && s.shared.calls[c].closed
    ensures c < |Next(s, a).shared.calls| && Next(s, a).shared.calls[c] == s.shared.calls[c]
  {
    hide ToLower, Lookup, AfterGet, AfterPut;
    if a.Step? {
      assert CallerOk(s, a.caller);
    }
  }

  /**
   Whoever comes back through one call, leader or follower, has the same pair; it is the empty pair
   only if the leader's signing panicked, and then the leader unwound.
   */
  lemma OneResultPerCall(s: State, i: nat, j: nat)
    requires Inv(s) && i < |s.callers| && j < |s.callers|
    requires s.callers[i].pc.Returned? && s.callers[i].pc.via.Some?
    requires s.callers[j].pc.Returned? && s.callers[j].pc.via == s.callers[i].pc.via
    ensures s.callers[i].pc.reply == s.callers[j].pc.reply
    ensures var c := s.callers[i].pc.via.value;
            c < |s.shared.calls| && s.shared.calls[c].leader < |s.callers|
            && (s.callers[i].pc.reply == NOTHING <==> s.callers[s.shared.calls[c].leader].pc == Unwound(c))
  {
    assert CallerOk(s, i) && CallerOk(s, j);
    assert CallOk(s, s.callers[i].pc.via.value);
  }

  // ---------------------------------------------------------------------------------------------
  // Conservation of signatures
  // ---------------------------------------------------------------------------------------------

  /** The action is a successful signing for the name. */
  predicate Signs(s: State, a: Action, name: string)
    requires Enabled(s, a)
  {
    && a.Step? && a.outcome.Signed?
    && s.callers[a.caller].pc.Lead? && s.callers[a.caller].pc.phase.Sign?
    && Key(s.callers[a.caller]) == name
  }

  /** The name's entry leaves the cache. */
  predicate Drops(s: State, t: State, name: string) {
    name in s.shared.cache.entries && name !in t.shared.cache.entries
  }

  function One(b: bool): nat {
    if b then 1 else 0
  }

  function Unstored(name: string): Caller -> nat {
    (c: Caller) => One(c.pc.Lead? && c.pc.phase.PutCert? && Key(c) == name)
  }

  /** Certificates for the name that exist: in the cache, or signed by a leader that has yet to put it there. */
  function Held(s: State, name: string): nat {
    One(name in s.shared.cache.entries) + Total(s.callers, Unstored(name))
  }

  lemma StepConserves(s: State, a: Action, name: string)
    requires Inv(s) && Enabled(s, a)
    ensures One(Signs(s, a, name)) + Held(s, name) == One(Drops(s, Next(s, a), name)) + Held(Next(s, a), name)
  {
    hide ToLower, Total;
    var t := Next(s, a);
    if a.Step? {
      var i := a.caller;
      assert CallerOk(s, i);
      StepMovesOne(s, i, a.outcome);
      TotalUpdate(s.callers, i, t.callers[i], Unstored(name));
      hide Inv, CallerOk, StepCaller;
      CallerConserves(s, i, a.outcome, name);
    }
  }

  /** The same for the one caller that moves. */
  lemma CallerConserves(s: State, i: nat, outcome: Outcome, name: string)
    requires i < |s.callers| && CallerOk(s, i) && CanStep(s, i) && s.shared.cache.ttl == CERT_TTL
    ensures var t := StepCaller(s, i, outcome);
            && i < |t.callers|
            && One(Signs(s, Step(i, outcome), name)) + One(name in s.shared.cache.entries) + Unstored(name)(s.callers[i])
               == One(Drops(s, t, name)) + One(name in t.shared.cache.entries) + Unstored(name)(t.callers[i])
  {
    hide ToLower;
  }

  lemma HeldAtMostOne(s: State, name: string)
    requires Inv(s)
    ensures Held(s, name) <= 1
  {
    hide ToLower;
    forall i, j | 0 <= i < j < |s.callers|
      ensures Unstored(name)(s.callers[i]) == 0 || Unstored(name)(s.callers[j]) == 0
    {
      assert CallerOk(s, i) && CallerOk(s, j);
    }
    TotalAtMostOne(s.callers, Unstored(name));
    if name in s.shared.cache.entries {
      forall i | 0 <= i < |s.callers|
        ensures Unstored(name)(s.callers[i]) == 0
      {
        assert CallerOk(s, i);
      }
      TotalZero(s.callers, Unstored(name));
    }
  }

  function Signings(run: Run, name: string, n: nat): nat
    requires n <= |run.actions| < |run.states|
    requires forall k :: 0 <= k < |run.actions| ==> Enabled(run.states[k], run.actions[k])
  {
    if n == 0 then 0
    else Signings(run, name, n - 1) + One(Signs(run.states[n - 1], run.actions[n - 1], name))
  }

  function Dropped(run: Run, name: string, n: nat): nat
    requires n < |run.states|
  {
    if n == 0 then 0 else Dropped(run, name, n - 1) + One(Drops(run.states[n - 1], run.states[n], name))
  }

  /**
   For every name and at every moment of every run, the successful signings are the entries dropped so
   far, plus one if the name is cached, plus one for a leader that has signed but not stored.
   */
  lemma {:induction false} SigningsAreConserved(run: Run, now: int, names: seq<string>, name: string, n: nat)
    requires IsRun(run, now, names) && n < |run.states|
    ensures Signings(run, name, n) == Dropped(run, name, n) + Held(run.states[n], name)
  {
    if n == 0 {
      TotalZero(run.states[0].callers, Unstored(name));
    } else {
      hide Held, Signs, Drops, Next, Enabled, Init;
      SigningsAreConserved(run, now, names, name, n - 1);
      RunKeepsInv(run, now, names, n - 1);
      StepConserves(run.states[n - 1], run.actions[n - 1], name);
    }
  }

  /** While no entry of a name is dropped, at most one certificate is signed for it. */
  lemma OneSigningBetweenDrops(run: Run, now: int, names: seq<string>, name: string, from: nat, to: nat)
    requires IsRun(run, now, names) && from <= to < |run.states|
    requires Dropped(run, name, from) == Dropped(run, name, to)
    ensures Signings(run, name, to) <= Signings(run, name, from) + 1
  {
    SigningsAreConserved(run, now, names, name, from);
    SigningsAreConserved(run, now, names, name, to);
    RunKeepsInv(run, now, names, to);
    HeldAtMostOne(run.states[to], name);
  }

  // ---------------------------------------------------------------------------------------------
  // The object
  // ---------------------------------------------------------------------------------------------

  /** The clock when the cache is read on arrival, read again by a leader, and written. */
  datatype Clock = Clock(arrivedAt: int, recheckedAt: int, storedAt: int)

  /** The clock at a step; only the steps on the cache look at it. */
  function ClockAt(pc: Pc, clock: Clock): int {
    match pc
    case Arrive => clock.arrivedAt
    case Lead(_, Recheck) => clock.recheckedAt
    case Lead(_, PutCert(_)) => clock.storedAt
    case _ => 0
  }

  function Alone(now: int, sh: Shared, name: string, pc: Pc): State {
    State(now, sh, [Caller(name, pc)])
  }

  /** What one caller on its own makes of the shared state, and where it is back or has to wait. */
  function EndOf(sh: Shared, name: string, pc: Pc, outcome: Outcome, clock: Clock): (Shared, Pc)
    decreases PcRank(pc)
  {
    var s := Alone(ClockAt(pc, clock), sh, name, pc);
    if !CanStep(s, 0) then (sh, pc)
    else
      StepMovesOne(s, 0, outcome);
      var t := StepCaller(s, 0, outcome);
      EndOf(t.shared, name, t.callers[0].pc, outcome, clock)
  }

  lemma StepAlone(sh: Shared, name: string, pc: Pc, outcome: Outcome, clock: Clock, sh': Shared, pc': Pc)
    requires CanStep(Alone(ClockAt(pc, clock), sh, name, pc), 0)
    requires StepCaller(Alone(ClockAt(pc, clock), sh, name, pc), 0, outcome) == Alone(ClockAt(pc, clock), sh', name, pc')
    ensures EndOf(sh, name, pc, outcome, clock) == EndOf(sh', name, pc', outcome, clock)
  {
    hide StepCaller;
  }

  lemma BackAlone(sh: Shared, name: string, pc: Pc, outcome: Outcome, clock: Clock)
    requires pc.Returned? || pc.Unwound? || (pc.Wait? && (pc.call < |sh.calls| ==> !sh.calls[pc.call].closed))
    ensures EndOf(sh, name, pc, outcome, clock) == (sh, pc)
  {
  }

  lemma ArriveAlone(sh: Shared, name: string, outcome: Outcome, clock: Clock)
    ensures var key, now := ToLower(name), clock.arrivedAt;
            var hit := Lookup(sh.cache, key, now);
            && EndOf(sh, name, Arrive, outcome, clock)
               == if key == "" then (sh, Returned(None, Reply(None, Some(SniMissing))))
                  else EndOf(sh.(cache := AfterGet(sh.cache, key, now)), name,
                             if hit.Some? then Returned(None, Reply(hit, None)) else Register, outcome, clock)
  {
    hide ToLower, Lookup, AfterGet, EndOf;
    var key, now := ToLower(name), clock.arrivedAt;
    var hit := Lookup(sh.cache, key, now);
    if key == "" {
      var pc := Returned(None, Reply(None, Some(SniMissing)));
      StepAlone(sh, name, Arrive, outcome, clock, sh, pc);
      BackAlone(sh, name, pc, outcome, clock);
    } else {
      StepAlone(sh, name, Arrive, outcome, clock, sh.(cache := AfterGet(sh.cache, key, now)),
                if hit.Some? then Returned(None, Reply(hit, None)) else Register);
    }
  }

  lemma RegisterAlone(sh: Shared, name: string, outcome: Outcome, clock: Clock)
    ensures var begun := Begin(sh, ToLower(name), 0);
            && EndOf(sh, name, Register, outcome, clock)
               == EndOf(begun.shared, name, if begun.leads then Lead(begun.call, Recheck) else Wait(begun.call), outcome, clock)
  {
    hide ToLower, Begin, EndOf;
    var begun := Begin(sh, ToLower(name), 0);
    StepAlone(sh, name, Register, outcome, clock, begun.shared,
              if begun.leads then Lead(begun.call, Recheck) else Wait(begun.call));
  }

  lemma WaitAlone(sh: Shared, name: string, call: nat, outcome: Outcome, clock: Clock)
    requires call < |sh.calls| && sh.calls[call].closed
    ensures EndOf(sh, name, Wait(call), outcome, clock) == (sh, Returned(Some(call), sh.calls[call].reply))
  {
    hide ToLower, EndOf;
    StepAlone(sh, name, Wait(call), outcome, clock, sh, Returned(Some(call), sh.calls[call].reply));
    BackAlone(sh, name, Returned(Some(call), sh.calls[call].reply), outcome, clock);
  }

  /** A leader that found the name cached after all, or has to sign. */
  lemma RecheckAlone(sh: Shared, name: string, call: nat, outcome: Outcome, clock: Clock)
    requires call < |sh.calls|
    ensures var key, now := ToLower(name), clock.recheckedAt;
            var hit := Lookup(sh.cache, key, now);
            var phase := if hit.Some? then Leave(Reply(hit, None), false) else Sign;
            && EndOf(sh, name, Lead(call, Recheck), outcome, clock)
               == EndOf(sh.(cache := AfterGet(sh.cache, key, now)), name, Lead(call, phase), outcome, clock)
  {
    hide ToLower, Lookup, AfterGet, EndOf;
    var key, now := ToLower(name), clock.recheckedAt;
    var hit := Lookup(sh.cache, key, now);
    var phase := if hit.Some? then Leave(Reply(hit, None), false) else Sign;
    StepAlone(sh, name, Lead(call, Recheck), outcome, clock, sh.(cache := AfterGet(sh.cache, key, now)), Lead(call, phase));
  }

  /** What a leader has got to once it has signed and, on success, stored. */
  function AfterSigning(sh: Shared, key: string, now: int, outcome: Outcome): (Shared, Reply) {
    match outcome
    case Signed(cert) => (sh.(cache := AfterPut(sh.cache, key, cert, now)), Reply(Some(cert), None))
    case Failed(reason) => (sh, Reply(None, Some(SignFailed(reason))))
    case Panicked => (sh, NOTHING)
  }

  lemma SignAlone(sh: Shared, name: string, call: nat, outcome: Outcome, clock: Clock)
    requires call < |sh.calls|
    ensures var (sh', reply) := AfterSigning(sh, ToLower(name), clock.storedAt, outcome);
            && EndOf(sh, name, Lead(call, Sign), outcome, clock)
               == EndOf(sh', name, Lead(call, Leave(reply, outcome.Panicked?)), outcome, clock)
  {
    hide ToLower, AfterPut;
    var (sh', reply) := AfterSigning(sh, ToLower(name), clock.storedAt, outcome);
    var done := Lead(call, Leave(reply, outcome.Panicked?));
    if outcome.Signed? {
      StepAlone(sh, name, Lead(call, Sign), outcome, clock, sh, Lead(call, PutCert(outcome.cert)));
      StepAlone(sh, name, Lead(call, PutCert(outcome.cert)), outcome, clock, sh', done);
    } else {
      StepAlone(sh, name, Lead(call, Sign), outcome, clock, sh', done);
    }
  }

  /** The deferred end, whatever happened before it. */
  lemma EndAlone(sh: Shared, name: string, call: nat, reply: Reply, unwinding: bool, outcome: Outcome, clock: Clock)
    requires call < |sh.calls| && !sh.calls[call].closed
    ensures EndOf(sh, name, Lead(call, Leave(reply, unwinding)), outcome, clock)
         == (Close(Assign(Deregister(sh, ToLower(name)), call, reply), call),
             if unwinding then Unwound(call) else Returned(Some(call), reply))
  {
    hide ToLower, EndOf;
    var sh1 := Deregister(sh, ToLower(name));
    var sh2 := Assign(sh1, call, reply);
    var pc := if unwinding then Unwound(call) else Returned(Some(call), reply);
    StepAlone(sh, name, Lead(call, Leave(reply, unwinding)), outcome, clock, sh1, Lead(call, Deliver(reply, unwinding)));
    StepAlone(sh1, name, Lead(call, Deliver(reply, unwinding)), outcome, clock, sh2, Lead(call, Broadcast(reply, unwinding)));
    StepAlone(sh2, name, Lead(call, Broadcast(reply, unwinding)), outcome, clock, Close(sh2, call), pc);
    BackAlone(Close(sh2, call), name, pc, outcome, clock);
  }

  class Authority {
    const cache: Cache<Cert>
    var inflight: map<string, nat>
    var calls: seq<Call>

    ghost function Value(): Shared
      reads this, cache
    {
      Shared(cache.Value(), inflight, calls)
    }

    constructor ()
      ensures fresh(cache)
      ensures Value() == Shared(Empty(CERT_TTL, MAX_CACHED_CERTS), map[], [])
    {
      cache := new Cache(MAX_CACHED_CERTS, CERT_TTL);
      inflight := map[];
      calls := [];
    }

    method BeginCall(serverName: string, who: nat) returns (call: nat, leads: bool)
      modifies this
      ensures Begun(Value(), call, leads) == old(Begin(Value(), serverName, who))
    {
      if serverName in inflight {
        return inflight[serverName], false;
      }
      call := |calls|;
      calls := calls + [Call(who, false, NOTHING)];
      inflight := inflight[serverName := call];
      return call, true;
    }

    method EndCall(serverName: string, call: nat, reply: Reply)
      requires call < |calls| && !calls[call].closed
      modifies this
      ensures Value() == old(Close(Assign(Deregister(Value(), serverName), call, reply), call))
    {
      inflight := inflight - {serverName};
      calls := calls[call := calls[call].(reply := reply)];
      calls := calls[call := calls[call].(closed := true)];
    }

    method Clear()
      modifies cache
      ensures Value() == old(Value().(cache := AfterClear(Value().cache)))
    {
      cache.Clear();
    }

    /**
     GetCertificate as one caller runs it when no other caller interferes: it ends where the steps of that
     caller end, which is its return, its panic, or the wait for a call that is not delivered.
     */
    method GetCertificate(name: string, signing: Outcome, clock: Clock) returns (pc: Pc)
      modifies this, cache
      ensures (Value(), pc) == old(EndOf(Value(), name, Arrive, signing, clock))
    {
      ArriveAlone(Value(), name, signing, clock);
      var serverName := ToLower(name);
      if serverName == "" {
        return Returned(None, Reply(None, Some(SniMissing)));
      }
      var cached := cache.Get(serverName, clock.arrivedAt);
      if cached.Some? {
        BackAlone(Value(), name, Returned(None, Reply(cached, None)), signing, clock);
        return Returned(None, Reply(cached, None));
      }
      RegisterAlone(Value(), name, signing, clock);
      var call, leads := BeginCall(serverName, 0);
      if !leads {
        if call < |calls| && calls[call].closed {
          WaitAlone(Value(), name, call, signing, clock);
          return Returned(Some(call), calls[call].reply);
        }
        BackAlone(Value(), name, Wait(call), signing, clock);
        return Wait(call);
      }
      RecheckAlone(Value(), name, call, signing, clock);
      var reply, unwinding := NOTHING, false;
      cached := cache.Get(serverName, clock.recheckedAt);
      if cached.Some? {
        reply := Reply(cached, None);
      } else {
        SignAlone(Value(), name, call, signing, clock);
        match signing {
          case Signed(cert) =>
            reply := Reply(Some(cert), None);
            cache.Put(serverName, cert, clock.storedAt);
          case Failed(reason) =>
            reply := Reply(None, Some(SignFailed(reason)));
          case Panicked =>
            unwinding := true;
        }
      }
      EndAlone(Value(), name, call, reply, unwinding, signing, clock);
      EndCall(serverName, call, reply);
      return if unwinding then Unwound(call) else Returned(Some(call), reply);
    }
  }
}
