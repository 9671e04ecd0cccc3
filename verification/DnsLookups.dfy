/**
 How often a key is looked up at the DNS servers (lookup, begin and finish in
 internal/dns/resolver.go), over all the runs of DnsFlight.

 The comment at internal/dns/resolver.go:38 promises one query when the time to live runs out. That is
 not so: a leader leaves `inflight` before it stores its answer, so a dial that has missed the cache and
 comes to begin in between asks again. Below: what is conserved, how a second lookup comes about in a run,
 and, from any state, exactly how many lookups can still succeed before the key is next dropped.
 */
module DnsLookups {
  import opened GoText
  import opened HostPort
  import opened Caches
  import opened Sums
  import opened Resolvers
  import opened DnsFlight

  // ---------------------------------------------------------------------------------------------
  // Asking although an answer is cached
  // ---------------------------------------------------------------------------------------------

  /** The dial has missed the cache and may yet ask the servers. */
  predicate Asking(pc: Pc) {
    pc.Register? || (pc.Lead? && (pc.phase.Load? || pc.phase.Query?))
  }

  lemma FreshIsHit(s: State, a: Action, i: nat)
    requires Enabled(s, a) && i < |s.callers|
    requires |Next(s, a).callers| == |s.callers| && Asking(Next(s, a).callers[i].pc)
    requires Fresh(s.shared.cache, Key(s.callers[i]), s.now)
    ensures Asking(s.callers[i].pc)
  {
    hide JoinHostPort, Resolution, DialResult, ServersOf, AfterGet, AfterPut;
  }

  /**
   A dial that asks the servers while a fresh answer for its key is cached had missed the cache before
   that answer was stored.
   */
  lemma {:induction false} AskingMeansMissedBefore(run: Run, first: State, stored: nat, n: nat, i: nat)
    requires IsRun(run, first) && Inv(first) && i < |first.callers| && stored <= n < |run.states|
    requires forall k :: stored <= k < n ==> Fresh(run.states[k].shared.cache, Key(first.callers[i]), run.states[k].now)
    requires |run.states[n].callers| == |first.callers| == |run.states[stored].callers|
    requires Asking(run.states[n].callers[i].pc)
    ensures Asking(run.states[stored].callers[i].pc)
  {
    hide Next, Enabled, Inv, Asking, Key, IsRun, Fresh;
    if stored < n {
      SizesOfRun(run, first);
      StepOfRun(run, first, n - 1);
      RunKeepsInv(run, first, n - 1);
      FreshIsHit(run.states[n - 1], run.actions[n - 1], i);
      AskingMeansMissedBefore(run, first, stored, n - 1, i);
    }
  }

  // ---------------------------------------------------------------------------------------------
  // Conservation of answers
  // ---------------------------------------------------------------------------------------------

  /** The action is a lookup at the servers for the key, with or without an answer. */
  predicate Queries(s: State, a: Action, key: string)
    requires Enabled(s, a)
  {
    && a.Step? && s.callers[a.caller].pc.Lead? && s.callers[a.caller].pc.phase.Query?
    && Key(s.callers[a.caller]) == key
  }

  /** The action is a lookup for the key that some server answers. */
  predicate Answers(s: State, a: Action, key: string)
    requires Enabled(s, a)
  {
    && Queries(s, a, key)
    && Resolution(a.input.answers, s.callers[a.caller].host, s.callers[a.caller].port).err.None?
  }

  /** The key's entry leaves the cache. */
  predicate Drops(s: State, t: State, key: string) {
    key in s.shared.cache.entries && key !in t.shared.cache.entries
  }

  /** An answer for the key is put where one is already, or where nothing is kept. */
  predicate PutsInVain(s: State, a: Action, key: string)
    requires Enabled(s, a)
  {
    && a.Step? && s.callers[a.caller].pc.PutAnswer? && Key(s.callers[a.caller]) == key
    && (key in s.shared.cache.entries || s.shared.cache.ttl <= 0)
  }

  function One(b: bool): nat {
    if b then 1 else 0
  }

  /** The dial has an answer that it has yet to store. */
  predicate Unstored(pc: Pc) {
    match pc
    case Lead(_, _, Leave(result)) => result.err.None?
    case Lead(_, _, Deliver(result)) => result.err.None?
    case Lead(_, _, Broadcast(result)) => result.err.None?
    case PutAnswer(_, _) => true
    case _ => false
  }

  function UnstoredFor(key: string): Caller -> nat {
    (c: Caller) => One(Unstored(c.pc) && Key(c) == key)
  }

  /** Answers for the key that are at hand: in the cache, or with a dial that has yet to store it. */
  function Held(s: State, key: string): nat {
    One(key in s.shared.cache.entries) + Total(s.callers, UnstoredFor(key))
  }

  lemma StepConserves(s: State, a: Action, key: string)
    requires Enabled(s, a)
    ensures var t := Next(s, a);
            One(Answers(s, a, key)) + Held(s, key) == One(Drops(s, t, key)) + One(PutsInVain(s, a, key)) + Held(t, key)
  {
    hide Total, StepCaller, CanStep, Answers, PutsInVain, Unstored;
    var t := Next(s, a);
    if a.Step? {
      CallerIsThere(s, a);
      StepMovesOne(s, a.caller, a.input);
      TotalUpdate(s.callers, a.caller, t.callers[a.caller], UnstoredFor(key));
      CallerConserves(s, a.caller, a.input, key);
    } else {
      OutsideConserves(s, a, key);
    }
  }

  lemma OutsideConserves(s: State, a: Action, key: string)
    requires Enabled(s, a) && !a.Step?
    ensures Next(s, a).callers == s.callers && !Answers(s, a, key) && !PutsInVain(s, a, key)
    ensures key in Next(s, a).shared.cache.entries ==> key in s.shared.cache.entries
  {
  }

  /** The same for the one dial that moves. */
  lemma CallerConserves(s: State, i: nat, input: Input, key: string)
    requires i < |s.callers| && CanStep(s, i, input)
    ensures var t := StepCaller(s, i, input);
            && i < |t.callers|
            && One(Answers(s, Step(i, input), key)) + One(key in s.shared.cache.entries) + UnstoredFor(key)(s.callers[i])
               == One(Drops(s, t, key)) + One(PutsInVain(s, Step(i, input), key))
                  + One(key in t.shared.cache.entries) + UnstoredFor(key)(t.callers[i])
  {
    hide JoinHostPort, Resolution, DialResult, ServersOf;
    if s.callers[i].pc.Lead? {
      LeaderConserves(s, i, input, key);
    }
  }

  /** A leader touches no cache: it gains an answer by a successful lookup, and keeps it. */
  lemma LeaderConserves(s: State, i: nat, input: Input, key: string)
    requires i < |s.callers| && CanStep(s, i, input) && s.callers[i].pc.Lead?
    ensures var pc := s.callers[i].pc;
            var t := StepLeader(s, i, input, pc.pass, pc.call, pc.phase);
            && i < |t.callers| && t.shared.cache == s.shared.cache
            && One(Answers(s, Step(i, input), key)) + UnstoredFor(key)(s.callers[i]) == UnstoredFor(key)(t.callers[i])
  {
    hide JoinHostPort, Resolution, DialResult, ServersOf;
  }

  /** The successful lookups for the key among the first `n` steps. */
  function AnswersMade(run: Run, key: string, n: nat): nat
    requires n <= |run.actions| < |run.states|
    requires forall k :: 0 <= k < |run.actions| ==> Enabled(run.states[k], run.actions[k])
  {
    if n == 0 then 0
    else AnswersMade(run, key, n - 1) + One(Answers(run.states[n - 1], run.actions[n - 1], key))
  }

  /** The drops of the key among the first `n` steps, expired entries that a lookup deletes included. */
  function Dropped(run: Run, key: string, n: nat): nat
    requires n < |run.states|
  {
    if n == 0 then 0 else Dropped(run, key, n - 1) + One(Drops(run.states[n - 1], run.states[n], key))
  }

  /** The answers for the key put in vain among the first `n` steps. */
  function PutInVain(run: Run, key: string, n: nat): nat
    requires n <= |run.actions| < |run.states|
    requires forall k :: 0 <= k < |run.actions| ==> Enabled(run.states[k], run.actions[k])
  {
    if n == 0 then 0
    else PutInVain(run, key, n - 1) + One(PutsInVain(run.states[n - 1], run.actions[n - 1], key))
  }

  /**
   From any state, over any run: the successful lookups for a key and the answers held at first are the
   entries dropped, the answers put in vain and the answers held at last.
   */
  lemma {:induction false} AnswersBalance(run: Run, first: State, key: string, n: nat)
    requires IsRun(run, first) && n < |run.states|
    ensures AnswersMade(run, key, n) + Held(first, key)
         == Dropped(run, key, n) + PutInVain(run, key, n) + Held(run.states[n], key)
  {
    hide Held, Answers, Drops, PutsInVain, Next, Enabled;
    if n > 0 {
      AnswersBalance(run, first, key, n - 1);
      StepOfRun(run, first, n - 1);
      StepConserves(run.states[n - 1], run.actions[n - 1], key);
    }
  }

  /**
   For every key and at every moment of every run, the successful lookups are the entries dropped so far,
   plus the answers put in vain, plus one if the key is cached, plus the dials that have an answer and
   have yet to store it.
   */
  lemma AnswersAreConserved(run: Run, now: int, ttl: int, addresses: seq<string>, dials: seq<Dial>, key: string, n: nat)
    requires IsRun(run, Init(now, ttl, addresses, dials)) && n < |run.states|
    ensures AnswersMade(run, key, n) == Dropped(run, key, n) + PutInVain(run, key, n) + Held(run.states[n], key)
  {
    AnswersBalance(run, Init(now, ttl, addresses, dials), key, n);
    TotalZero(Init(now, ttl, addresses, dials).callers, UnstoredFor(key));
  }

  lemma NextKeepsTtl(s: State, a: Action)
    requires Enabled(s, a)
    ensures Next(s, a).shared.cache.ttl == s.shared.cache.ttl
  {
    hide JoinHostPort, Resolution, DialResult, ServersOf, Caches.Lookup;
  }

  lemma PutInVainStaysCached(s: State, a: Action, key: string)
    requires Enabled(s, a) && PutsInVain(s, a, key) && s.shared.cache.ttl > 0
    ensures key in Next(s, a).shared.cache.entries
  {
    hide JoinHostPort;
  }

  /** Between drops, a key that is put in vain is cached, and one that is cached stays so. */
  lemma {:induction false} UndroppedStaysCached(run: Run, first: State, key: string, from: nat, n: nat)
    requires IsRun(run, first) && from <= n < |run.states| && first.shared.cache.ttl > 0
    requires Dropped(run, key, from) == Dropped(run, key, n)
    ensures forall m :: from <= m <= n ==> Dropped(run, key, m) == Dropped(run, key, from)
    ensures PutInVain(run, key, from) <= PutInVain(run, key, n)
    ensures PutInVain(run, key, from) < PutInVain(run, key, n) ==> key in run.states[n].shared.cache.entries
    ensures forall m :: from <= m <= n && key in run.states[m].shared.cache.entries ==>
              key in run.states[n].shared.cache.entries
  {
    hide Next, Enabled, PutsInVain;
    if from < n {
      StepOfRun(run, first, n - 1);
      DropsGrow(run, key, from, n - 1);
      UndroppedStaysCached(run, first, key, from, n - 1);
      TtlStays(run, first, n - 1);
      var s, a := run.states[n - 1], run.actions[n - 1];
      if PutsInVain(s, a, key) {
        PutInVainStaysCached(s, a, key);
      }
    }
  }

  lemma {:induction false} DropsGrow(run: Run, key: string, m: nat, n: nat)
    requires m <= n < |run.states|
    ensures Dropped(run, key, m) <= Dropped(run, key, n)
  {
    if m < n {
      DropsGrow(run, key, m, n - 1);
    }
  }

  lemma {:induction false} TtlStays(run: Run, first: State, n: nat)
    requires IsRun(run, first) && n < |run.states|
    ensures run.states[n].shared.cache.ttl == first.shared.cache.ttl
  {
    hide Next, Enabled;
    if n > 0 {
      StepOfRun(run, first, n - 1);
      TtlStays(run, first, n - 1);
      NextKeepsTtl(run.states[n - 1], run.actions[n - 1]);
    }
  }

  /**
   Between any two moments without a drop of the key, after an expiry as much as at the start: the
   successful lookups are the answers put in vain and what has been added to those held. So if none was
   held, at most one lookup has succeeded if and only if no answer was put where one was already and at
   most one is held.
   */
  lemma OneAnswerIff(run: Run, first: State, key: string, from: nat, n: nat)
    requires IsRun(run, first) && from <= n < |run.states| && first.shared.cache.ttl > 0
    requires Dropped(run, key, from) == Dropped(run, key, n)
    ensures AnswersMade(run, key, n) - AnswersMade(run, key, from)
         == PutInVain(run, key, n) - PutInVain(run, key, from) + Held(run.states[n], key) - Held(run.states[from], key)
    ensures Held(run.states[from], key) == 0 ==>
              (AnswersMade(run, key, n) <= AnswersMade(run, key, from) + 1
               <==> PutInVain(run, key, n) == PutInVain(run, key, from) && Held(run.states[n], key) <= 1)
  {
    hide Held, Next, Enabled, Answers, PutsInVain, Drops;
    AnswersBalance(run, first, key, from);
    AnswersBalance(run, first, key, n);
    UndroppedStaysCached(run, first, key, from, n);
    CachedIsHeld(run.states[n], key);
  }

  // ---------------------------------------------------------------------------------------------
  // When a key is asked for twice
  // ---------------------------------------------------------------------------------------------

  /** The guard of begin: the action registers for the key and finds no lookup in flight. */
  predicate BeginsLookup(s: State, a: Action, key: string)
    requires Enabled(s, a)
  {
    && a.Step? && s.callers[a.caller].pc.Register? && Key(s.callers[a.caller]) == key
    && key !in s.shared.inflight
  }

  /** The dial leads a call and has yet to get its answer. */
  predicate LeadsUnanswered(pc: Pc, call: nat) {
    pc.Lead? && pc.call == call && (pc.phase.Load? || pc.phase.Query?)
  }

  /** Before it asks, a leader loads the servers, and before that it finds nothing in flight. */
  lemma LeaderBeganHere(s: State, a: Action, i: nat, call: nat)
    requires Enabled(s, a) && i < |s.callers| == |Next(s, a).callers|
    requires LeadsUnanswered(Next(s, a).callers[i].pc, call)
    ensures LeadsUnanswered(s.callers[i].pc, call)
            || (BeginsLookup(s, a, Key(s.callers[i])) && a.caller == i && call == |s.shared.calls|)
    ensures LeadsUnanswered(s.callers[i].pc, call) ==> !(Queries(s, a, Key(s.callers[i])) && a.caller == i)
  {
    hide JoinHostPort, Resolution, DialResult, ServersOf, Caches.Lookup, AfterGet, AfterPut;
  }

  /** The step at which the leader of a call began; from there on it has led the call without an answer. */
  lemma {:induction false} BeganAt(run: Run, first: State, l: nat, i: nat, call: nat) returns (r: nat)
    requires IsRun(run, first) && Inv(first) && l < |run.states| && i < |first.callers|
    requires forall j :: 0 <= j < |first.callers| ==> first.callers[j].pc.Lookup?
    requires |run.states[l].callers| == |first.callers| && LeadsUnanswered(run.states[l].callers[i].pc, call)
    ensures r < l && Enabled(run.states[r], run.actions[r])
    ensures BeginsLookup(run.states[r], run.actions[r], Key(first.callers[i])) && run.actions[r].caller == i
    ensures |run.states[r].shared.calls| == call
    ensures forall m :: r < m <= l ==>
              |run.states[m].callers| == |first.callers| && LeadsUnanswered(run.states[m].callers[i].pc, call)
    ensures forall m :: r < m < l ==>
              && Enabled(run.states[m], run.actions[m])
              && !(Queries(run.states[m], run.actions[m], Key(first.callers[i])) && run.actions[m].caller == i)
  {
    hide IsRun, Inv, Next, Enabled, LeadsUnanswered, BeginsLookup, Queries, Key;
    SizesOfRun(run, first);
    if l == 0 {
      NotLeadingAtFirst(run, first, i, call);
    } else {
      StepOfRun(run, first, l - 1);
      RunKeepsInv(run, first, l - 1);
      LeaderBeganHere(run.states[l - 1], run.actions[l - 1], i, call);
      if LeadsUnanswered(run.states[l - 1].callers[i].pc, call) {
        r := BeganAt(run, first, l - 1, i, call);
      } else {
        r := l - 1;
      }
    }
  }

  lemma NotLeadingAtFirst(run: Run, first: State, i: nat, call: nat)
    requires IsRun(run, first) && i < |first.callers| && first.callers[i].pc.Lookup?
    ensures !LeadsUnanswered(run.states[0].callers[i].pc, call)
  {
  }

  lemma QueryIsByLeader(s: State, a: Action, key: string)
    requires Enabled(s, a) && Queries(s, a, key)
    ensures a.Step? && a.caller < |s.callers| && Leads(s, a.caller, key)
    ensures LeadsUnanswered(s.callers[a.caller].pc, s.callers[a.caller].pc.call)
  {
  }

  lemma UnansweredLeads(s: State, i: nat, call: nat)
    requires i < |s.callers| && LeadsUnanswered(s.callers[i].pc, call)
    ensures Leads(s, i, Key(s.callers[i]))
  {
  }

  /** Two lookups for one key never overlap: the leader of the second began after the first had been made. */
  lemma SecondBeganLater(run: Run, first: State, k: nat, l: nat, key: string) returns (r: nat)
    requires IsRun(run, first) && Inv(first) && k < l < |run.actions|
    requires forall j :: 0 <= j < |first.callers| ==> first.callers[j].pc.Lookup?
    requires |run.states| == |run.actions| + 1
    requires Enabled(run.states[k], run.actions[k]) && Queries(run.states[k], run.actions[k], key)
    requires Enabled(run.states[l], run.actions[l]) && Queries(run.states[l], run.actions[l], key)
    ensures k < r < l && Enabled(run.states[r], run.actions[r])
    ensures BeginsLookup(run.states[r], run.actions[r], key) && run.actions[r].caller == run.actions[l].caller
  {
    hide IsRun, Inv, Enabled, Next, Queries, BeginsLookup, LeadsUnanswered, Leads, Key;
    QueryIsByLeader(run.states[k], run.actions[k], key);
    QueryIsByLeader(run.states[l], run.actions[l], key);
    var i, j := run.actions[k].caller, run.actions[l].caller;
    RunKeepsInv(run, first, k);
    RunKeepsInv(run, first, l);
    KeyOfLeader(run.states[l], j, key);
    r := BeganAt(run, first, l, j, run.states[l].callers[j].pc.call);
    if r < k {
      UnansweredLeads(run.states[k], j, run.states[l].callers[j].pc.call);
      InflightIffOneLeader(run.states[k], key);
    } else if r == k {
      BeginIsNoQuery(run.states[k], run.actions[k], key);
    }
  }

  lemma KeyOfLeader(s: State, i: nat, key: string)
    requires i < |s.callers| && Leads(s, i, key)
    ensures Key(s.callers[i]) == key
  {
  }

  lemma BeginIsNoQuery(s: State, a: Action, key: string)
    requires Enabled(s, a) && BeginsLookup(s, a, key)
    ensures !Queries(s, a, key)
  {
  }

  /** While a key is cached and stays so, no dial for it misses. */
  lemma CachedIsNotMissed(s: State, a: Action, i: nat)
    requires Enabled(s, a) && i < |s.callers| == |Next(s, a).callers|
    requires Asking(Next(s, a).callers[i].pc)
    requires Key(s.callers[i]) in s.shared.cache.entries && !Drops(s, Next(s, a), Key(s.callers[i]))
    ensures Asking(s.callers[i].pc)
  {
    hide JoinHostPort, Resolution, DialResult, ServersOf, AfterPut;
  }

  /** Between drops, a dial that asks had missed the cache before anything was stored for its key. */
  lemma {:induction false} MissedBeforeStored(run: Run, first: State, m: nat, n: nat, i: nat)
    requires IsRun(run, first) && Inv(first) && i < |first.callers| && m <= n < |run.states|
    requires first.shared.cache.ttl > 0 && Dropped(run, Key(first.callers[i]), m) == Dropped(run, Key(first.callers[i]), n)
    requires |run.states[n].callers| == |first.callers| == |run.states[m].callers|
    requires Key(first.callers[i]) in run.states[m].shared.cache.entries
    requires Asking(run.states[n].callers[i].pc)
    ensures Asking(run.states[m].callers[i].pc)
  {
    hide Next, Enabled, Inv, Asking, Key, IsRun, Drops;
    if m < n {
      SizesOfRun(run, first);
      StepOfRun(run, first, n - 1);
      RunKeepsInv(run, first, n - 1);
      DropsGrow(run, Key(first.callers[i]), m, n - 1);
      UndroppedStaysCached(run, first, Key(first.callers[i]), m, n - 1);
      CachedIsNotMissed(run.states[n - 1], run.actions[n - 1], i);
      MissedBeforeStored(run, first, m, n - 1, i);
    }
  }

  /**
   What makes a second lookup after the moment `from`: at step `r` a dial registers and finds nothing in
   flight although an answer is held, by a dial that has yet to store it or in the cache; since `from` it
   had missed the cache before anything was stored; and at step `l` it asks.
   */
  ghost predicate AsksAgain(run: Run, key: string, from: nat, r: nat, l: nat)
    requires |run.actions| < |run.states|
    requires forall k :: 0 <= k < |run.actions| ==> Enabled(run.states[k], run.actions[k])
  {
    && from <= r < l < |run.actions|
    && BeginsLookup(run.states[r], run.actions[r], key) && Held(run.states[r], key) > 0
    && Answers(run.states[l], run.actions[l], key) && run.actions[l].caller == run.actions[r].caller
    && var i := run.actions[r].caller;
       forall m :: from <= m <= r && key in run.states[m].shared.cache.entries ==>
         i < |run.states[m].callers| && Asking(run.states[m].callers[i].pc)
  }

  lemma {:induction false} AnswersGrow(run: Run, first: State, key: string, m: nat, n: nat)
    requires IsRun(run, first) && m <= n <= |run.actions|
    ensures AnswersMade(run, key, m) <= AnswersMade(run, key, n)
  {
    if m < n {
      AnswersGrow(run, first, key, m, n - 1);
    }
  }

  lemma {:induction false} SomeAnswer(run: Run, first: State, key: string, n: nat) returns (k: nat)
    requires IsRun(run, first) && n <= |run.actions| && AnswersMade(run, key, n) > 0
    ensures k < n && Answers(run.states[k], run.actions[k], key)
    ensures AnswersMade(run, key, k) == AnswersMade(run, key, n) - 1
  {
    hide Answers;
    if Answers(run.states[n - 1], run.actions[n - 1], key) {
      k := n - 1;
    } else {
      k := SomeAnswer(run, first, key, n - 1);
    }
  }

  /** Two successful lookups between drops, and the late registration between them. */
  lemma AskedTwiceHow(run: Run, now: int, ttl: int, addresses: seq<string>, dials: seq<Dial>,
                      key: string, from: nat, n: nat) returns (r: nat, l: nat)
    requires IsRun(run, Init(now, ttl, addresses, dials)) && from <= n < |run.states| && ttl > 0
    requires Dropped(run, key, from) == Dropped(run, key, n)
    requires AnswersMade(run, key, n) > AnswersMade(run, key, from) + 1
    ensures r < l < n && AsksAgain(run, key, from, r, l)
  {
    var first := Init(now, ttl, addresses, dials);
    InitInv(now, ttl, addresses, dials);
    InitLooksUp(now, ttl, addresses, dials);
    hide Enabled, Next, Init, Drops, PutsInVain, Inv, BeginsLookup, Asking, Queries, Key, Held;
    l := SomeAnswer(run, first, key, n);
    var k := SomeAnswer(run, first, key, l);
    if k < from {
      AnswersGrow(run, first, key, k + 1, from);
    }
    r := SecondBeganLater(run, first, k, l, key);
    BeginnerAsks(run.states[r], run.actions[r], key);
    UndroppedStaysCached(run, first, key, from, n);
    HeldAfterAnswer(run, first, key, from, k, r);
    RunKeepsInv(run, first, r);
    var i := run.actions[r].caller;
    forall m | from <= m <= r && key in run.states[m].shared.cache.entries
      ensures i < |run.states[m].callers| && Asking(run.states[m].callers[i].pc)
    {
      RunKeepsInv(run, first, m);
      MissedBeforeStored(run, first, m, r, i);
    }
  }

  /** An answer that has been made is held until the key is dropped. */
  lemma HeldAfterAnswer(run: Run, first: State, key: string, from: nat, k: nat, r: nat)
    requires IsRun(run, first) && first.shared.cache.ttl > 0
    requires k < r <= |run.actions| && Answers(run.states[k], run.actions[k], key)
    requires Dropped(run, key, k) == Dropped(run, key, r)
    ensures Held(run.states[r], key) > 0
  {
    hide Answers, Enabled, Next, Held, Drops, PutsInVain;
    AnswersGrow(run, first, key, k + 1, r);
    AnswersBalance(run, first, key, k);
    AnswersBalance(run, first, key, r);
    UndroppedStaysCached(run, first, key, k, r);
    CachedIsHeld(run.states[r], key);
  }

  /**
   From any moment at which no answer is held, as when the only entry has run out, and until the next
   drop: more than one lookup for the key succeeds if and only if some dial that missed the cache in time
   comes to begin only after the leader of an earlier lookup has left `inflight`, and asks.
   */
  lemma AskedTwiceIff(run: Run, now: int, ttl: int, addresses: seq<string>, dials: seq<Dial>, key: string, from: nat, n: nat)
    requires IsRun(run, Init(now, ttl, addresses, dials)) && from <= n < |run.states| && ttl > 0
    requires Dropped(run, key, from) == Dropped(run, key, n) && Held(run.states[from], key) == 0
    ensures AnswersMade(run, key, n) > AnswersMade(run, key, from) + 1
       <==> exists r, l :: from <= r < l < n && AsksAgain(run, key, from, r, l)
  {
    var first := Init(now, ttl, addresses, dials);
    hide Answers, Enabled, Next, Init, Held, Drops, PutsInVain, AsksAgain;
    if AnswersMade(run, key, n) > AnswersMade(run, key, from) + 1 {
      var r, l := AskedTwiceHow(run, now, ttl, addresses, dials, key, from, n);
      AskedAgainMeans(run, first, key, from, r, l);
    }
    if r, l :| from <= r < l < n && AsksAgain(run, key, from, r, l) {
      InitLooksUp(now, ttl, addresses, dials);
      AskedAgainCounts(run, first, key, from, r, l, n);
    }
  }

  lemma AskedAgainMeans(run: Run, first: State, key: string, from: nat, r: nat, l: nat)
    requires IsRun(run, first)
    requires AsksAgain(run, key, from, r, l)
    ensures from <= r < l < |run.actions| && Held(run.states[r], key) > 0
    ensures AnswersMade(run, key, r) < AnswersMade(run, key, l + 1)
  {
    hide Answers, Enabled, Next, Held, BeginsLookup, Asking;
    AnswersGrow(run, first, key, r, l);
  }

  lemma AskedAgainCounts(run: Run, first: State, key: string, from: nat, r: nat, l: nat, n: nat)
    requires IsRun(run, first) && first.shared.cache.ttl > 0 && from <= r < l < n < |run.states|
    requires Dropped(run, key, from) == Dropped(run, key, n) && Held(run.states[from], key) == 0
    requires AsksAgain(run, key, from, r, l)
    ensures AnswersMade(run, key, n) > AnswersMade(run, key, from) + 1
  {
    hide Answers, Enabled, Next, Held, Drops, PutsInVain, AsksAgain;
    AskedAgainMeans(run, first, key, from, r, l);
    AnswersGrow(run, first, key, l + 1, n);
    DropsGrow(run, key, from, r);
    DropsGrow(run, key, r, n);
    UndroppedStaysCached(run, first, key, from, r);
    AnswersBalance(run, first, key, from);
    AnswersBalance(run, first, key, r);
  }

  lemma InitLooksUp(now: int, ttl: int, addresses: seq<string>, dials: seq<Dial>)
    ensures var first := Init(now, ttl, addresses, dials);
            && first.shared.cache.ttl == ttl
            && forall j :: 0 <= j < |first.callers| ==> first.callers[j].pc.Lookup?
  {
  }

  lemma CachedIsHeld(s: State, key: string)
    ensures key in s.shared.cache.entries ==> Held(s, key) > 0
  {
  }

  lemma BeginnerAsks(s: State, a: Action, key: string)
    requires Enabled(s, a) && BeginsLookup(s, a, key)
    ensures a.Step? && a.caller < |s.callers| && Asking(s.callers[a.caller].pc) && Key(s.callers[a.caller]) == key
  {
  }

  // ---------------------------------------------------------------------------------------------
  // How many lookups can still succeed
  // ---------------------------------------------------------------------------------------------

  /** The dial will look into the cache, or may: it is about to, or holds a cached answer that may fail it. */
  predicate ComesToLookup(pc: Pc) {
    pc.Lookup? || pc.Drop? || (pc.Connect? && pc.pass == 1 && pc.fromCache)
  }

  /** The dial may ask the servers for the key: it has missed the cache, or the key is not cached and it may look. */
  predicate MayAsk(s: State, i: nat, key: string)
    requires i < |s.callers|
  {
    && Key(s.callers[i]) == key
    && (Asking(s.callers[i].pc) || (key !in s.shared.cache.entries && ComesToLookup(s.callers[i].pc)))
  }

  function AskWeight(cached: bool, key: string): Caller -> nat {
    (c: Caller) => One(Key(c) == key && (Asking(c.pc) || (!cached && ComesToLookup(c.pc))))
  }

  /** The number of dials that may ask for the key. */
  function Askers(s: State, key: string): nat {
    Total(s.callers, AskWeight(key in s.shared.cache.entries, key))
  }

  /** A dial that asks is one asker less, and nothing but a drop makes one more. */
  lemma AskersStep(s: State, a: Action, key: string)
    requires Enabled(s, a) && !Drops(s, Next(s, a), key)
    ensures One(Answers(s, a, key)) + Askers(Next(s, a), key) <= Askers(s, key)
  {
    hide Total, StepCaller, CanStep, Answers, Asking, ComesToLookup;
    var t := Next(s, a);
    var before, after := AskWeight(key in s.shared.cache.entries, key), AskWeight(key in t.shared.cache.entries, key);
    TotalMonotone(t.callers, after, before);
    if a.Step? {
      CallerIsThere(s, a);
      StepMovesOne(s, a.caller, a.input);
      TotalUpdate(s.callers, a.caller, t.callers[a.caller], before);
      AskerStep(s, a.caller, a.input, key);
    } else {
      OutsideConserves(s, a, key);
    }
  }

  /** The same for the one dial that moves. */
  lemma AskerStep(s: State, i: nat, input: Input, key: string)
    requires i < |s.callers| && CanStep(s, i, input) && !Drops(s, StepCaller(s, i, input), key)
    ensures var t, weight := StepCaller(s, i, input), AskWeight(key in s.shared.cache.entries, key);
            i < |t.callers| && One(Answers(s, Step(i, input), key)) + weight(t.callers[i]) <= weight(s.callers[i])
  {
    hide JoinHostPort, Resolution, DialResult, ServersOf, AfterPut;
  }

  /** Between drops, every successful lookup uses up a dial that might ask. */
  lemma {:induction false} LookupsUseAskers(run: Run, first: State, key: string, from: nat, n: nat)
    requires IsRun(run, first) && from <= n < |run.states|
    requires Dropped(run, key, from) == Dropped(run, key, n)
    ensures AnswersMade(run, key, n) + Askers(run.states[n], key)
         <= AnswersMade(run, key, from) + Askers(run.states[from], key)
  {
    hide Next, Enabled, Answers, Drops, Askers;
    if from < n {
      StepOfRun(run, first, n - 1);
      DropsGrow(run, key, from, n - 1);
      LookupsUseAskers(run, first, key, from, n - 1);
      AskersStep(run.states[n - 1], run.actions[n - 1], key);
    }
  }

  // And they can all be used: one after the other, each leaving `inflight` before it stores.

  /** What the outside may answer so that the dial goes on to ask, and is answered. */
  function AskingInput(pc: Pc, ips: seq<IP>): Input {
    var asked := if pc.Lead? && pc.phase.Query? then |ServersOf(pc.phase.servers.addresses)| else 0;
    var dialled := if pc.Connect? then |pc.entry.targets| else 0;
    Input(seq(asked, _ => Addresses(ips)), seq(dialled, _ => Refused("")), None)
  }

  lemma AskingAnswers(pc: Pc, ips: seq<IP>, host: string, port: string)
    requires pc.Lead? && pc.phase.Query? && |ips| > 0
    ensures |AskingInput(pc, ips).answers| == |ServersOf(pc.phase.servers.addresses)|
    ensures Resolution(AskingInput(pc, ips).answers, host, port).err.None?
  {
    assert Useful(AskingInput(pc, ips).answers[0]);
  }

  lemma RefusedFails(attempts: seq<Attempt>)
    requires forall k :: 0 <= k < |attempts| ==> attempts[k].Refused?
    ensures DialResult(attempts).conn.None?
  {
  }

  /** A dial that may ask and is not held up by another leader comes a step closer, or asks. */
  lemma AskerAdvances(s: State, i: nat, key: string, ips: seq<IP>)
    requires Inv(s) && i < |s.callers| && MayAsk(s, i, key) && |ips| > 0
    requires s.callers[i].pc.Register? ==> key !in s.shared.inflight
    ensures var input := AskingInput(s.callers[i].pc, ips);
            && CanStep(s, i, input)
            && var t, weight := StepCaller(s, i, input), AskWeight(key in s.shared.cache.entries, key);
            && i < |t.callers| && t.shared.cache == s.shared.cache && t.now == s.now
            && One(Answers(s, Step(i, input), key)) + weight(t.callers[i]) == weight(s.callers[i])
  {
    hide JoinHostPort, Resolution, DialResult, ServersOf;
    assert CallerOk(s, i);
    var pc, input := s.callers[i].pc, AskingInput(s.callers[i].pc, ips);
    if pc.Lead? && pc.phase.Query? {
      AskingAnswers(pc, ips, s.callers[i].host, s.callers[i].port);
    } else if pc.Connect? {
      RefusedFails(input.attempts);
    } else if pc.Lookup? {
      assert AfterGet(s.shared.cache, key, s.now) == s.shared.cache;
    } else if pc.Drop? {
      assert AfterEvict(s.shared.cache, key) == s.shared.cache;
    }
  }

  /** A leader that has its answer leaves `inflight` first, and takes nothing from the askers. */
  lemma LeaderLeaves(s: State, j: nat, key: string, ips: seq<IP>)
    requires Inv(s) && j < |s.callers| && s.callers[j].pc.Lead? && s.callers[j].pc.phase.Leave?
    ensures var input := AskingInput(s.callers[j].pc, ips);
            && CanStep(s, j, input)
            && var t, weight := StepCaller(s, j, input), AskWeight(key in s.shared.cache.entries, key);
            && j < |t.callers| && t.shared.cache == s.shared.cache && t.now == s.now
            && One(Answers(s, Step(j, input), key)) + weight(t.callers[j]) == weight(s.callers[j])
  {
    hide JoinHostPort, ServersOf;
    assert CallerOk(s, j);
  }

  /** Somebody can move so that no asker is lost but by asking. */
  lemma SomeAskerAdvances(s: State, key: string, ips: seq<IP>) returns (j: nat)
    requires Inv(s) && Askers(s, key) > 0 && |ips| > 0
    ensures j < |s.callers|
    ensures var input := AskingInput(s.callers[j].pc, ips);
            && CanStep(s, j, input)
            && var t := StepCaller(s, j, input);
            && t.shared.cache == s.shared.cache && t.now == s.now
            && One(Answers(s, Step(j, input), key)) + Askers(t, key) == Askers(s, key)
  {
    hide Total, StepCaller, CanStep, Answers, Inv, AskingInput, ComesToLookup;
    var weight := AskWeight(key in s.shared.cache.entries, key);
    var i := TotalPositive(s.callers, weight);
    if s.callers[i].pc.Register? && key in s.shared.inflight {
      j := LeaderInflight(s, key);
      if s.callers[j].pc.phase.Leave? {
        LeaderLeaves(s, j, key, ips);
      } else {
        AskerAdvances(s, j, key, ips);
      }
    } else {
      j := i;
      AskerAdvances(s, j, key, ips);
    }
    var input := AskingInput(s.callers[j].pc, ips);
    StepMovesOne(s, j, input);
    TotalUpdate(s.callers, j, StepCaller(s, j, input).callers[j], weight);
  }

  lemma LeaderInflight(s: State, key: string) returns (j: nat)
    requires Inv(s) && key in s.shared.inflight
    ensures j < |s.callers| && s.callers[j].pc.Lead? && Registered(s.callers[j].pc.phase) && Key(s.callers[j]) == key
  {
    assert KeyOk(s, key);
    j := s.shared.calls[s.shared.inflight[key]].leader;
  }

  /** One run after another. */
  function Joined(a: Run, b: Run): Run
    requires |a.actions| < |a.states|
  {
    Run(a.states[..|a.actions|] + b.states, a.actions + b.actions)
  }

  lemma JoinedIsRun(a: Run, b: Run, first: State)
    requires IsRun(a, first) && IsRun(b, a.states[|a.actions|])
    ensures IsRun(Joined(a, b), first)
    ensures Joined(a, b).states[|a.actions|] == a.states[|a.actions|]
    ensures Joined(a, b).states[|a.actions| + |b.actions|] == b.states[|b.actions|]
  {
    hide Next, Enabled;
    var run, m := Joined(a, b), |a.actions|;
    forall k | 0 <= k < |run.actions|
      ensures Enabled(run.states[k], run.actions[k]) && run.states[k + 1] == Next(run.states[k], run.actions[k])
    {
      if k < m {
        assert run.states[k + 1] == a.states[k + 1];
      } else {
        assert run.states[k] == b.states[k - m] && run.states[k + 1] == b.states[k - m + 1];
      }
    }
    assert run.states[0] == first;
  }

  lemma {:induction false} CountsBefore(a: Run, b: Run, first: State, key: string, n: nat)
    requires IsRun(a, first) && IsRun(b, a.states[|a.actions|]) && IsRun(Joined(a, b), first) && n <= |a.actions|
    ensures AnswersMade(Joined(a, b), key, n) == AnswersMade(a, key, n)
    ensures Dropped(Joined(a, b), key, n) == Dropped(a, key, n)
  {
    hide Next, Enabled, Answers, Drops;
    if n > 0 {
      CountsBefore(a, b, first, key, n - 1);
      assert Joined(a, b).states[n] == a.states[n];
    }
  }

  lemma {:induction false} CountsAfter(a: Run, b: Run, first: State, key: string, n: nat)
    requires IsRun(a, first) && IsRun(b, a.states[|a.actions|]) && IsRun(Joined(a, b), first) && n <= |b.actions|
    ensures AnswersMade(Joined(a, b), key, |a.actions| + n) == AnswersMade(a, key, |a.actions|) + AnswersMade(b, key, n)
    ensures Dropped(Joined(a, b), key, |a.actions| + n) == Dropped(a, key, |a.actions|) + Dropped(b, key, n)
  {
    hide Next, Enabled, Answers, Drops;
    if n == 0 {
      CountsBefore(a, b, first, key, |a.actions|);
    } else {
      CountsAfter(a, b, first, key, n - 1);
      var m := |a.actions| + n;
      assert Joined(a, b).states[m - 1] == b.states[n - 1] && Joined(a, b).states[m] == b.states[n];
      assert Joined(a, b).actions[m - 1] == b.actions[n - 1];
    }
  }

  function OneStep(s: State, a: Action): Run
    requires Enabled(s, a)
  {
    Run([s, Next(s, a)], [a])
  }

  lemma OneStepCounts(s: State, a: Action, key: string)
    requires Enabled(s, a)
    ensures IsRun(OneStep(s, a), s)
    ensures AnswersMade(OneStep(s, a), key, 1) == One(Answers(s, a, key))
    ensures Dropped(OneStep(s, a), key, 1) == One(Drops(s, Next(s, a), key))
  {
    hide Next, Enabled, Answers, Drops;
  }

  /** No time passes and nothing but the dials moves. */
  ghost predicate OnlySteps(run: Run) {
    forall k :: 0 <= k < |run.actions| ==> run.actions[k].Step?
  }

  /** As many of the askers as wanted are answered, with no time passing and the cache as it is. */
  lemma {:induction false} AskersCanAsk(s: State, key: string, k: nat, ips: seq<IP>) returns (run: Run)
    requires Inv(s) && |ips| > 0 && k <= Askers(s, key)
    ensures IsRun(run, s) && OnlySteps(run)
    ensures Dropped(run, key, |run.actions|) == 0 && AnswersMade(run, key, |run.actions|) == k
    decreases Rank(s)
  {
    hide Inv, CanStep, StepCaller, Answers, Askers, AskingInput, Rank, IsRun, AnswersMade, Dropped;
    if k == 0 {
      run := Run([s], []);
      StandingStill(s, key);
    } else {
      var j := SomeAskerAdvances(s, key, ips);
      var a := Step(j, AskingInput(s.callers[j].pc, ips));
      CallerStepKeepsInv(s, j, a.input);
      StepLowersRank(s, j, a.input);
      var rest := AskersCanAsk(Next(s, a), key, k - One(Answers(s, a, key)), ips);
      OneStepCounts(s, a, key);
      JoinedIsRun(OneStep(s, a), rest, s);
      CountsAfter(OneStep(s, a), rest, s, key, |rest.actions|);
      run := Joined(OneStep(s, a), rest);
    }
  }

  lemma StandingStill(s: State, key: string)
    ensures var run := Run([s], []); IsRun(run, s) && Dropped(run, key, 0) == 0 && AnswersMade(run, key, 0) == 0
  {
  }

  /** From the state: a run without a drop of the key in which that many lookups for it succeed. */
  ghost predicate CanSucceed(s: State, key: string, k: nat) {
    exists run: Run ::
      && IsRun(run, s)
      && Dropped(run, key, |run.actions|) == 0
      && AnswersMade(run, key, |run.actions|) == k
  }

  /**
   From any reachable state, before the key is next dropped: that many lookups for it can succeed if and
   only if that many dials may ask.
   */
  lemma SucceedingLookupsIff(s: State, key: string, k: nat)
    requires Inv(s)
    ensures CanSucceed(s, key, k) <==> k <= Askers(s, key)
  {
    hide Inv, Next, Enabled, Answers, Drops, Askers, AnswersMade, Dropped;
    if run: Run :| IsRun(run, s) && Dropped(run, key, |run.actions|) == 0 && AnswersMade(run, key, |run.actions|) == k {
      NothingAtFirst(run, s, key);
      LookupsUseAskers(run, s, key, 0, |run.actions|);
    }
    if k <= Askers(s, key) {
      var run := AskersCanAsk(s, key, k, [IP("192.0.2.1", true)]);
    }
  }

  lemma NothingAtFirst(run: Run, first: State, key: string)
    requires IsRun(run, first)
    ensures run.states[0] == first && Dropped(run, key, 0) == 0 && AnswersMade(run, key, 0) == 0
  {
  }

  /** A further lookup can succeed if and only if some dial may ask; where the key is cached, one that has missed. */
  lemma FurtherLookupIff(s: State, key: string)
    requires Inv(s)
    ensures CanSucceed(s, key, 1) <==> exists i :: 0 <= i < |s.callers| && MayAsk(s, i, key)
  {
    hide Inv, CanSucceed, Total, Asking, ComesToLookup;
    var weight := AskWeight(key in s.shared.cache.entries, key);
    SucceedingLookupsIff(s, key, 1);
    if Askers(s, key) >= 1 {
      var i := TotalPositive(s.callers, weight);
      assert MayAsk(s, i, key);
    }
    if i :| 0 <= i < |s.callers| && MayAsk(s, i, key) {
      TotalAtLeast(s.callers, i, weight);
    }
  }

  /** The promise of one lookup before the next drop holds in a state if and only if at most one dial may ask. */
  lemma OneLookupIff(s: State, key: string)
    requires Inv(s)
    ensures (forall run: Run :: IsRun(run, s) && Dropped(run, key, |run.actions|) == 0 ==>
               AnswersMade(run, key, |run.actions|) <= 1)
       <==> Askers(s, key) <= 1
  {
    hide Inv, Next, Enabled, Answers, Drops, Askers, AnswersMade, Dropped;
    SucceedingLookupsIff(s, key, 2);
    forall run: Run | IsRun(run, s) && Dropped(run, key, |run.actions|) == 0
      ensures AnswersMade(run, key, |run.actions|) <= Askers(s, key)
    {
      NothingAtFirst(run, s, key);
      LookupsUseAskers(run, s, key, 0, |run.actions|);
    }
  }

  // ---------------------------------------------------------------------------------------------
  // When the time to live runs out
  // ---------------------------------------------------------------------------------------------

  predicate Expired(s: State, key: string) {
    key in s.shared.cache.entries && !Fresh(s.shared.cache, key, s.now)
  }

  /** The dial that notices an expired entry drops it, and may ask; so may now all that come to look. */
  lemma NoticingDrops(s: State, i: nat, input: Input, key: string)
    requires i < |s.callers| && s.callers[i].pc.Lookup? && Key(s.callers[i]) == key && Expired(s, key)
    ensures CanStep(s, i, input)
    ensures var t := StepCaller(s, i, input);
            && Drops(s, t, key) && key !in t.shared.cache.entries && t.now == s.now
            && t.shared.inflight == s.shared.inflight
            && |t.callers| == |s.callers| && (forall j :: 0 <= j < |s.callers| && j != i ==> t.callers[j] == s.callers[j])
            && Key(t.callers[i]) == key && t.callers[i].pc == Register(s.callers[i].pc.pass)
  {
    hide JoinHostPort;
  }

  /**
   The comment, taken at its word: once a dial has noticed that the entry has run out, at most one lookup
   succeeds before the key is next dropped, whatever happens, if and only if no other dial for the key has
   missed, is about to look, or holds the old answer and may look again.
   */
  lemma OneLookupPerExpiryIff(s: State, i: nat, input: Input, key: string)
    requires Inv(s) && i < |s.callers| && s.callers[i].pc.Lookup? && Key(s.callers[i]) == key && Expired(s, key)
    ensures CanStep(s, i, input)
    ensures (forall run: Run :: IsRun(run, StepCaller(s, i, input)) && Dropped(run, key, |run.actions|) == 0 ==>
               AnswersMade(run, key, |run.actions|) <= 1)
       <==> forall j :: 0 <= j < |s.callers| && j != i && Key(s.callers[j]) == key ==>
              !Asking(s.callers[j].pc) && !ComesToLookup(s.callers[j].pc)
  {
    NoticingDrops(s, i, input, key);
    CallerStepKeepsInv(s, i, input);
    var t := StepCaller(s, i, input);
    hide Inv, StepCaller, CanStep, IsRun, AnswersMade, Dropped, Total, Key, Drops, Expired;
    OneLookupIff(t, key);
    var weight := AskWeight(false, key);
    if forall j :: 0 <= j < |s.callers| && j != i && Key(s.callers[j]) == key ==>
         !Asking(s.callers[j].pc) && !ComesToLookup(s.callers[j].pc) {
      TotalAtMostOne(t.callers, weight);
    } else {
      var j :| 0 <= j < |s.callers| && j != i && Key(s.callers[j]) == key
               && (Asking(s.callers[j].pc) || ComesToLookup(s.callers[j].pc));
      TotalAtLeastBoth(t.callers, if i < j then i else j, if i < j then j else i, weight);
    }
  }

  /** Two dials that look for an expired key at one instant can both ask, and be answered. */
  lemma TwoLookupsAtExpiry(s: State, i: nat, j: nat, key: string, ips: seq<IP>) returns (run: Run)
    requires Inv(s) && i < |s.callers| && j < |s.callers| && i != j && |ips| > 0 && Expired(s, key)
    requires s.callers[i].pc.Lookup? && Key(s.callers[i]) == key
    requires s.callers[j].pc.Lookup? && Key(s.callers[j]) == key
    ensures IsRun(run, s) && OnlySteps(run)
    ensures Dropped(run, key, |run.actions|) == 1 && AnswersMade(run, key, |run.actions|) == 2
  {
    var a := Step(i, Input([], [], None));
    NoticingDrops(s, i, a.input, key);
    CallerStepKeepsInv(s, i, a.input);
    LookingIsNoAnswer(s, i, a.input, key);
    hide Inv, StepCaller, CanStep, IsRun, AnswersMade, Dropped, Total, Key, Drops, Expired, Answers;
    TotalAtLeastBoth(Next(s, a).callers, if i < j then i else j, if i < j then j else i, AskWeight(false, key));
    var rest := AskersCanAsk(Next(s, a), key, 2, ips);
    OneStepCounts(s, a, key);
    JoinedIsRun(OneStep(s, a), rest, s);
    CountsAfter(OneStep(s, a), rest, s, key, |rest.actions|);
    run := Joined(OneStep(s, a), rest);
  }

  lemma LookingIsNoAnswer(s: State, i: nat, input: Input, key: string)
    requires i < |s.callers| && CanStep(s, i, input) && s.callers[i].pc.Lookup?
    ensures !Answers(s, Step(i, input), key)
  {
  }

  // Such a state comes about: a dial fills the cache, and the time to live passes.

  /** The dial leads the key's lookup, or will if it goes on. */
  predicate Filling(s: State, i: nat)
    requires i < |s.callers|
  {
    var pc, key := s.callers[i].pc, Key(s.callers[i]);
    || ((pc.Lookup? || pc.Register?) && key !in s.shared.cache.entries && key !in s.shared.inflight)
    || (pc.Lead? && pc.phase.Load?)
    || MayStore(pc).Some?
  }

  lemma FillingGoesOn(s: State, i: nat, ips: seq<IP>)
    requires Inv(s) && i < |s.callers| && Filling(s, i) && |ips| > 0
    ensures var input := AskingInput(s.callers[i].pc, ips);
            && CanStep(s, i, input)
            && var t := StepCaller(s, i, input);
            && i < |t.callers| && t.now == s.now && t.shared.cache.ttl == s.shared.cache.ttl && Key(t.callers[i]) == Key(s.callers[i])
            && (!s.callers[i].pc.PutAnswer? ==> Filling(t, i))
            && (s.callers[i].pc.PutAnswer? && s.shared.cache.ttl > 0 ==>
                  && Key(s.callers[i]) in t.shared.cache.entries
                  && t.shared.cache.entries[Key(s.callers[i])].expiresAt == s.now + s.shared.cache.ttl)
  {
    hide JoinHostPort, Resolution, DialResult, ServersOf;
    assert CallerOk(s, i);
    if s.callers[i].pc.Lead? && s.callers[i].pc.phase.Query? {
      AskingAnswers(s.callers[i].pc, ips, s.callers[i].host, s.callers[i].port);
    }
  }

  /** On its own it goes on until its answer is cached. */
  lemma {:induction false} CanFill(s: State, i: nat, ips: seq<IP>) returns (run: Run)
    requires Inv(s) && i < |s.callers| && Filling(s, i) && |ips| > 0 && s.shared.cache.ttl > 0
    ensures IsRun(run, s)
    ensures var last, key := run.states[|run.actions|], Key(s.callers[i]);
            && last.now == s.now && Inv(last)
            && |last.callers| == |s.callers| && (forall j :: 0 <= j < |s.callers| && j != i ==> last.callers[j] == s.callers[j])
            && key in last.shared.cache.entries
            && last.shared.cache.entries[key].expiresAt == s.now + s.shared.cache.ttl
    decreases PcRank(s.callers[i].pc)
  {
    hide Inv, CanStep, StepCaller, Filling, AskingInput, IsRun, Key, PcRank;
    var a := Step(i, AskingInput(s.callers[i].pc, ips));
    FillingGoesOn(s, i, ips);
    StepMovesOne(s, i, a.input);
    CallerStepKeepsInv(s, i, a.input);
    OneStepCounts(s, a, "");
    if s.callers[i].pc.PutAnswer? {
      run := OneStep(s, a);
    } else {
      var rest := CanFill(Next(s, a), i, ips);
      JoinedIsRun(OneStep(s, a), rest, s);
      run := Joined(OneStep(s, a), rest);
    }
  }

  /** Three dials for one key, at the moment the answer the first has cached runs out. */
  lemma ExpiringRun(now: int, ttl: int, dial: Dial, addresses: seq<string>, ips: seq<IP>) returns (run: Run)
    requires ttl > 0 && |ips| > 0
    ensures IsRun(run, Init(now, ttl, addresses, [dial, dial, dial]))
    ensures var last, key := run.states[|run.actions|], JoinHostPort(dial.host, dial.port);
            && Inv(last) && Expired(last, key) && |last.callers| == 3
            && forall j :: 1 <= j < 3 ==> last.callers[j].pc.Lookup? && Key(last.callers[j]) == key
  {
    var first := Init(now, ttl, addresses, [dial, dial, dial]);
    InitInv(now, ttl, addresses, [dial, dial, dial]);
    hide JoinHostPort, Inv;
    assert Filling(first, 0);
    var filled := CanFill(first, 0, ips);
    var full := filled.states[|filled.actions|];
    NextKeepsInv(full, Tick(ttl));
    OneStepCounts(full, Tick(ttl), "");
    JoinedIsRun(filled, OneStep(full, Tick(ttl)), first);
    run := Joined(filled, OneStep(full, Tick(ttl)));
  }

  /**
   It happens: for every host, list of servers, ttl and addresses answered there is a run in which the
   answer a dial has cached runs out, and then, with no time passing and nothing dropped but the expired
   entry, two lookups for the key succeed.
   */
  lemma TwoQueriesAtOneInstant(now: int, ttl: int, dial: Dial, addresses: seq<string>, ips: seq<IP>)
    requires ttl > 0 && |ips| > 0
    ensures exists run: Run, m: nat ::
              && IsRun(run, Init(now, ttl, addresses, [dial, dial, dial])) && m < |run.actions|
              && (forall k :: m <= k < |run.actions| ==> run.actions[k].Step?)
              && var key := JoinHostPort(dial.host, dial.port);
              && Expired(run.states[m], key)
              && Dropped(run, key, |run.actions|) == Dropped(run, key, m) + 1
              && AnswersMade(run, key, |run.actions|) == AnswersMade(run, key, m) + 2
  {
    hide JoinHostPort, Inv, Next, Enabled, Expired, AnswersMade, Dropped, Key;
    var key, first := JoinHostPort(dial.host, dial.port), Init(now, ttl, addresses, [dial, dial, dial]);
    var expiring := ExpiringRun(now, ttl, dial, addresses, ips);
    var asking := TwoLookupsAtExpiry(expiring.states[|expiring.actions|], 1, 2, key, ips);
    var run, m := Joined(expiring, asking), |expiring.actions|;
    JoinedIsRun(expiring, asking, first);
    CountsBefore(expiring, asking, first, key, m);
    CountsAfter(expiring, asking, first, key, |asking.actions|);
    SomethingHappens(asking, expiring.states[m], key);
    assert forall k :: m <= k < |run.actions| ==> run.actions[k] == asking.actions[k - m];
  }

  lemma SomethingHappens(run: Run, first: State, key: string)
    requires IsRun(run, first) && Dropped(run, key, |run.actions|) == 1
    ensures |run.actions| > 0
  {
  }
}
