/**
 Reloads over time (`reload` and `WatchFile` in internal/proxy/proxy.go). The file is written at any
 moment; actor 0 is the poller, the others are SIGHUP reloads. A reload takes the lock, reads the
 version that is current then, compares fingerprints, updates the nameservers and swaps the table, each
 a step of its own; what is live is visible between any two of them.

 `served` is history: the version read by the last reload that succeeded.
 */
module ReloadRuns {
  import opened GoText
  import opened HostPort
  import opened Targets
  import opened Routes
  import opened Fingerprints
  import opened Configs
  import opened Reloads

  /** What os.Stat says of the file. */
  datatype Meta = Meta(size: nat, modTime: int)

  /** A state of the file; without metadata it is not there. */
  datatype Version = Version(meta: Option<Meta>, content: Document)

  datatype Live = Live(index: Index, addresses: seq<string>)

  datatype Outcome = Succeeded(version: nat) | Failed(version: nat)

  datatype Pc =
    | Idle
    | Waiting
    | Locked
    | Compare(version: nat, loaded: Loaded)
    | Update(version: nat, loaded: Loaded, routesChanged: bool)
    | Swap(version: nat, loaded: Loaded, routesChanged: bool)
    | Release(outcome: Outcome)

  /** How the reload of the tick that set `previous` went; `NotYet` before any tick has set it. */
  datatype Status = NotYet | Pending | Ended(outcome: Outcome)

  /** The poller's variables; `version` is the version whose metadata `previous` is. */
  datatype Watch = Watch(previous: Option<Meta>, version: nat, status: Status)

  datatype State = State(
    file: seq<Version>, live: Live, served: nat, holder: Option<nat>, actors: seq<Pc>, watch: Watch)

  predicate CanStep(s: State, i: nat)
    requires i < |s.actors|
  {
    !s.actors[i].Idle? && (s.actors[i].Waiting? ==> s.holder.None?) && |s.file| > 0
  }

  function Move(s: State, i: nat, pc: Pc): State
    requires i < |s.actors|
  {
    s.(actors := s.actors[i := pc])
  }

  ghost function StepActor(s: State, i: nat, parsers: Parsers): (t: State)
    requires i < |s.actors| && CanStep(s, i)
    ensures |t.actors| == |s.actors| && t.file == s.file
  {
    match s.actors[i]
    case Waiting => Move(s, i, Locked).(holder := Some(i))
    case Locked =>
      var version := |s.file| - 1;
      var pc := match Load(s.file[version].content, parsers)
        case Err(_) => Release(Failed(version))
        case Ok(loaded) => Compare(version, loaded);
      Move(s, i, pc)
    case Compare(version, loaded) => Move(s, i, Update(version, loaded, Changes(Some(s.live.index), loaded.index)))
    case Update(version, loaded, routesChanged) =>
      (match NormalizeNameservers(loaded.nameservers, parsers.isIP)
       case Err(_) => Move(s, i, Release(Failed(version)))
       case Ok(addresses) =>
         if !routesChanged && addresses == s.live.addresses
         then Move(s, i, Release(Succeeded(version))).(served := version)
         else Move(s, i, Swap(version, loaded, routesChanged)).(live := s.live.(addresses := addresses)))
    case Swap(version, loaded, routesChanged) =>
      var index := if routesChanged then loaded.index else s.live.index;
      Move(s, i, Release(Succeeded(version))).(served := version, live := s.live.(index := index))
    case Release(outcome) =>
      var watch := if i == 0 then s.watch.(status := Ended(outcome)) else s.watch;
      Move(s, i, Idle).(holder := None, watch := watch)
  }

  datatype Action = Step(actor: nat) | Write(version: Version) | Signal(actor: nat) | Tick

  predicate Enabled(s: State, a: Action) {
    match a
    case Step(i) => i < |s.actors| && CanStep(s, i)
    case Write(_) => true
    case Signal(i) => 0 < i < |s.actors| && s.actors[i].Idle?
    case Tick => |s.actors| > 0 && s.actors[0].Idle? && |s.file| > 0
  }

  /** The tick would not read the file: its metadata is what it was. */
  predicate Skips(s: State) {
    |s.file| > 0 && s.file[|s.file| - 1].meta.Some? && s.watch.previous == s.file[|s.file| - 1].meta
  }

  ghost function Next(s: State, a: Action, parsers: Parsers): State
    requires Enabled(s, a)
  {
    match a
    case Step(i) => StepActor(s, i, parsers)
    case Write(version) => s.(file := s.file + [version])
    case Signal(i) => Move(s, i, Waiting)
    case Tick =>
      var current := s.file[|s.file| - 1];
      if current.meta.None? || Skips(s) then s
      else Move(s, 0, Waiting).(watch := Watch(current.meta, |s.file| - 1, Pending))
  }

  /**
   A tick starts a reload exactly when the file is there and its size or its time is not the one of the
   last reload the poller started, and keeps both then; else it changes nothing.
   */
  lemma TickReloadsIff(s: State, parsers: Parsers)
    requires Enabled(s, Tick)
    ensures var t, current, previous := Next(s, Tick, parsers), s.file[|s.file| - 1].meta, s.watch.previous;
            && t.file == s.file && t.live == s.live && t.holder == s.holder
            && (t.actors[0] == Waiting <==>
                  current.Some? && (previous.Some? ==>
                    previous.value.size != current.value.size || previous.value.modTime != current.value.modTime))
            && (t.actors[0] == Waiting ==> t.watch.previous == current && t.watch.version == |s.file| - 1)
            && (t.actors[0] != Waiting ==> t == s)
  {
  }

  // ---------------------------------------------------------------------------------------------
  // What a version says
  // ---------------------------------------------------------------------------------------------

  /** A reload of this content succeeds. */
  predicate Accepts(content: Document, parsers: Parsers) {
    && Load(content, parsers).Ok?
    && NormalizeNameservers(Load(content, parsers).value.nameservers, parsers.isIP).Ok?
  }

  ghost predicate RoutesAgree(index: Index, content: Document, parsers: Parsers) {
    Load(content, parsers).Ok? && SameTable(index, Load(content, parsers).value.index)
  }

  predicate AddressesAgree(addresses: seq<string>, content: Document, parsers: Parsers) {
    && Load(content, parsers).Ok?
    && NormalizeNameservers(Load(content, parsers).value.nameservers, parsers.isIP) == Ok(addresses)
  }

  /** What is live is what the content says. */
  ghost predicate Agrees(live: Live, content: Document, parsers: Parsers) {
    RoutesAgree(live.index, content, parsers) && AddressesAgree(live.addresses, content, parsers)
  }

  ghost predicate Sane(index: Index) {
    WellFormed(index) && Printable(index)
  }

  /** Every version that loads has strings the fingerprint can carry, and net/url prints schemes first. */
  ghost predicate PrintableFile(file: seq<Version>, parsers: Parsers) {
    PrintsScheme(parsers.url) &&
    forall v :: 0 <= v < |file| && Load(file[v].content, parsers).Ok? ==>
      Printable(Load(file[v].content, parsers).value.index)
  }

  lemma LoadedIsSane(file: seq<Version>, v: nat, parsers: Parsers)
    requires v < |file| && PrintableFile(file, parsers) && Load(file[v].content, parsers).Ok?
    ensures Sane(Load(file[v].content, parsers).value.index)
  {
    hide WellFormed, Printable, IndexOfServers, PrintsScheme;
    var content := file[v].content;
    BuiltIsWellFormed(content.servers, parsers.url);
  }

  // ---------------------------------------------------------------------------------------------
  // Invariant
  // ---------------------------------------------------------------------------------------------

  predicate HoldsLock(pc: Pc) {
    !pc.Idle? && !pc.Waiting?
  }

  predicate Read(s: State, version: nat, loaded: Loaded, parsers: Parsers) {
    s.served <= version < |s.file| && Load(s.file[version].content, parsers) == Ok(loaded)
  }

  ghost predicate ActorOk(s: State, i: nat, parsers: Parsers)
    requires i < |s.actors|
  {
    && (HoldsLock(s.actors[i]) <==> s.holder == Some(i))
    && match s.actors[i]
       case Compare(version, loaded) => Read(s, version, loaded, parsers)
       case Update(version, loaded, routesChanged) =>
         Read(s, version, loaded, parsers) && routesChanged == Changes(Some(s.live.index), loaded.index)
       case Swap(version, loaded, routesChanged) =>
         && Read(s, version, loaded, parsers) && routesChanged == Changes(Some(s.live.index), loaded.index)
         && AddressesAgree(s.live.addresses, s.file[version].content, parsers)
       case Release(Succeeded(version)) => version == s.served
       case Release(Failed(version)) => version < |s.file| && !Accepts(s.file[version].content, parsers)
       case _ => true
  }

  /** The version a reload has read. */
  function VersionRead(pc: Pc): Option<nat> {
    match pc
    case Compare(version, _) => Some(version)
    case Update(version, _, _) => Some(version)
    case Swap(version, _, _) => Some(version)
    case Release(outcome) => Some(outcome.version)
    case _ => None
  }

  predicate Swapping(s: State) {
    s.holder.Some? && s.holder.value < |s.actors| && s.actors[s.holder.value].Swap?
  }

  /** The live table is that of the version served, and so are the nameservers outside a swap. */
  ghost predicate LiveOk(s: State, parsers: Parsers) {
    && s.served < |s.file|
    && Sane(s.live.index)
    && RoutesAgree(s.live.index, s.file[s.served].content, parsers)
    && (Swapping(s) || AddressesAgree(s.live.addresses, s.file[s.served].content, parsers))
  }

  /** The poller's reload reads the version its tick saw or a later one. */
  predicate WatchOk(s: State, parsers: Parsers) {
    && |s.actors| > 0
    && s.watch.version < |s.file| && s.watch.previous == s.file[s.watch.version].meta
    && (s.watch.status == Pending <==> !s.actors[0].Idle?)
    && (VersionRead(s.actors[0]).Some? ==> s.watch.version <= VersionRead(s.actors[0]).value)
    && match s.watch.status
       case Ended(Succeeded(version)) => s.watch.version <= version <= s.served
       case Ended(Failed(version)) =>
         s.watch.version <= version < |s.file| && !Accepts(s.file[version].content, parsers)
       case _ => true
  }

  ghost predicate Inv(s: State, parsers: Parsers) {
    && (s.holder.Some? ==> s.holder.value < |s.actors|)
    && (forall i :: 0 <= i < |s.actors| ==> ActorOk(s, i, parsers))
    && LiveOk(s, parsers)
    && WatchOk(s, parsers)
  }

  /**
   After New and the first Stat of WatchFile: a version has been loaded, the current one, perhaps a later
   one, has been looked at, and no reload is under way.
   */
  ghost predicate Started(s: State, parsers: Parsers) {
    && |s.file| > 0 && |s.actors| > 0 && s.served < |s.file|
    && Sane(s.live.index) && Agrees(s.live, s.file[s.served].content, parsers)
    && s.holder == None && (forall i :: 0 <= i < |s.actors| ==> s.actors[i] == Idle)
    && s.watch == Watch(s.file[|s.file| - 1].meta, |s.file| - 1, NotYet)
  }

  lemma StartedInv(s: State, parsers: Parsers)
    requires Started(s, parsers)
    ensures Inv(s, parsers)
  {
    hide Load, Sane, SameTable;
  }

  lemma StepKeepsSelf(s: State, i: nat, parsers: Parsers)
    requires i < |s.actors| && CanStep(s, i) && ActorOk(s, i, parsers) && LiveOk(s, parsers)
    ensures ActorOk(StepActor(s, i, parsers), i, parsers)
  {
    hide Load, Sane, SameTable, NormalizeNameservers, Changes;
  }

  lemma StepKeepsOther(s: State, i: nat, parsers: Parsers, j: nat)
    requires i < |s.actors| && CanStep(s, i) && ActorOk(s, i, parsers)
    requires j < |s.actors| && j != i && ActorOk(s, j, parsers)
    ensures ActorOk(StepActor(s, i, parsers), j, parsers)
  {
    hide Load, Sane, SameTable, NormalizeNameservers, Changes;
  }

  /** Equal fingerprints make the live table that of the version just read. */
  lemma UnchangedRoutesAgree(s: State, version: nat, loaded: Loaded, parsers: Parsers)
    requires LiveOk(s, parsers) && PrintableFile(s.file, parsers) && Read(s, version, loaded, parsers)
    requires !Changes(Some(s.live.index), loaded.index)
    ensures RoutesAgree(s.live.index, s.file[version].content, parsers)
  {
    hide Load, SameTable, WellFormed, Printable;
    LoadedIsSane(s.file, version, parsers);
    EqualFingerprintsIffSameTable(s.live.index, loaded.index);
  }

  lemma SameAsItself(index: Index)
    ensures SameTable(index, index)
  {
  }

  lemma StepKeepsLive(s: State, i: nat, parsers: Parsers)
    requires i < |s.actors| && CanStep(s, i) && ActorOk(s, i, parsers)
    requires LiveOk(s, parsers) && PrintableFile(s.file, parsers)
    ensures LiveOk(StepActor(s, i, parsers), parsers)
  {
    hide Load, Sane, SameTable, NormalizeNameservers, Changes, PrintableFile;
    var pc := s.actors[i];
    if (pc.Update? || pc.Swap?) && !pc.routesChanged {
      UnchangedRoutesAgree(s, pc.version, pc.loaded, parsers);
    } else if pc.Swap? {
      LoadedIsSane(s.file, pc.version, parsers);
      SameAsItself(pc.loaded.index);
    }
  }

  lemma StepKeepsWatch(s: State, i: nat, parsers: Parsers)
    requires i < |s.actors| && CanStep(s, i) && ActorOk(s, i, parsers)
    requires LiveOk(s, parsers) && WatchOk(s, parsers)
    ensures WatchOk(StepActor(s, i, parsers), parsers)
  {
    hide Load, Sane, SameTable, NormalizeNameservers, Changes;
  }

  lemma StepKeepsInv(s: State, i: nat, parsers: Parsers)
    requires Inv(s, parsers) && i < |s.actors| && CanStep(s, i) && PrintableFile(s.file, parsers)
    ensures Inv(StepActor(s, i, parsers), parsers)
  {
    hide ActorOk, LiveOk, WatchOk, PrintableFile, Load, Changes, NormalizeNameservers;
    var t := StepActor(s, i, parsers);
    StepKeepsSelf(s, i, parsers);
    StepKeepsLive(s, i, parsers);
    StepKeepsWatch(s, i, parsers);
    forall j | 0 <= j < |t.actors|
      ensures ActorOk(t, j, parsers)
    {
      if j != i {
        StepKeepsOther(s, i, parsers, j);
      }
    }
  }

  lemma EnvironmentKeepsInv(s: State, a: Action, parsers: Parsers)
    requires Inv(s, parsers) && Enabled(s, a) && !a.Step?
    ensures Inv(Next(s, a, parsers), parsers)
  {
    hide Load, Sane, SameTable, NormalizeNameservers, Changes;
    var t := Next(s, a, parsers);
    forall j | 0 <= j < |t.actors|
      ensures ActorOk(t, j, parsers)
    {
      assert ActorOk(s, j, parsers);
    }
  }

  /** Every action keeps the invariant. */
  lemma NextKeepsInv(s: State, a: Action, parsers: Parsers)
    requires Inv(s, parsers) && Enabled(s, a) && PrintableFile(s.file, parsers)
    ensures Inv(Next(s, a, parsers), parsers)
  {
    hide Inv, PrintableFile;
    if a.Step? {
      StepKeepsInv(s, a.actor, parsers);
    } else {
      EnvironmentKeepsInv(s, a, parsers);
    }
  }

  // ---------------------------------------------------------------------------------------------
  // Runs
  // ---------------------------------------------------------------------------------------------

  /** A run: states[k + 1] is what actions[k] makes of states[k]. */
  datatype Run = Run(states: seq<State>, actions: seq<Action>)

  /** Every version the run writes can be printed; see PrintableFile. */
  ghost predicate IsRun(run: Run, first: State, parsers: Parsers) {
    && |run.states| == |run.actions| + 1
    && run.states[0] == first
    && (forall k :: 0 <= k < |run.actions| ==>
          Enabled(run.states[k], run.actions[k]) && run.states[k + 1] == Next(run.states[k], run.actions[k], parsers))
    && (forall k :: 0 <= k < |run.states| ==> PrintableFile(run.states[k].file, parsers))
  }

  lemma StepOfRun(run: Run, first: State, parsers: Parsers, k: nat)
    requires IsRun(run, first, parsers) && k < |run.states|
    ensures |run.states| == |run.actions| + 1
    ensures PrintableFile(run.states[k].file, parsers)
    ensures k == 0 ==> run.states[k] == first
    ensures k > 0 ==> Enabled(run.states[k - 1], run.actions[k - 1])
    ensures k > 0 ==> run.states[k] == Next(run.states[k - 1], run.actions[k - 1], parsers)
  {
  }

  lemma {:induction false} RunKeepsInv(run: Run, first: State, parsers: Parsers, n: nat)
    requires IsRun(run, first, parsers) && Started(first, parsers) && n < |run.states|
    ensures Inv(run.states[n], parsers)
  {
    hide IsRun, Inv, Next, Enabled, Started, PrintableFile;
    StepOfRun(run, first, parsers, n);
    if n == 0 {
      StartedInv(first, parsers);
    } else {
      RunKeepsInv(run, first, parsers, n - 1);
      StepOfRun(run, first, parsers, n - 1);
      NextKeepsInv(run.states[n - 1], run.actions[n - 1], parsers);
    }
  }

  // ---------------------------------------------------------------------------------------------
  // What is live
  // ---------------------------------------------------------------------------------------------

  /**
   At every moment, in the middle of a reload too, every request is routed as by the table of the
   version served, whether that table was swapped in or found to be the one in place.
   */
  lemma PicksAsServed(run: Run, first: State, parsers: Parsers, n: nat,
                      protocol: string, port: int, domain: string, path: string)
    requires IsRun(run, first, parsers) && Started(first, parsers) && n < |run.states|
    ensures var s := run.states[n];
            && s.served < |s.file| && Load(s.file[s.served].content, parsers).Ok?
            && SamePick(PickFrom(s.live.index, protocol, port, domain, path),
                        PickFrom(Load(s.file[s.served].content, parsers).value.index, protocol, port, domain, path))
  {
    hide IsRun, Started, SamePick, PickFrom, Load, SameTable;
    RunKeepsInv(run, first, parsers, n);
    var s := run.states[n];
    SameTableSamePick(s.live.index, Load(s.file[s.served].content, parsers).value.index, protocol, port, domain, path);
  }

  /**
   A reload that comes to its end has succeeded if and only if the version it read is acceptable, and
   then what is live, routes and nameservers, is what that version says.
   */
  lemma ReloadEndsRight(run: Run, first: State, parsers: Parsers, n: nat, i: nat)
    requires IsRun(run, first, parsers) && Started(first, parsers) && n < |run.states|
    requires i < |run.states[n].actors| && run.states[n].actors[i].Release?
    ensures var s := run.states[n];
            var outcome := s.actors[i].outcome;
            && outcome.version < |s.file|
            && (outcome.Succeeded? <==> Accepts(s.file[outcome.version].content, parsers))
            && (outcome.Succeeded? ==> s.served == outcome.version && Agrees(s.live, s.file[outcome.version].content, parsers))
  {
    hide IsRun, Started, Load, SameTable, Sane;
    RunKeepsInv(run, first, parsers, n);
    assert ActorOk(run.states[n], i, parsers);
  }

  lemma NextServed(s: State, a: Action, parsers: Parsers)
    requires Inv(s, parsers) && Enabled(s, a)
    ensures s.served <= Next(s, a, parsers).served
    ensures s.file <= Next(s, a, parsers).file
  {
    hide Load, Sane, SameTable, NormalizeNameservers, Changes;
    if a.Step? {
      assert ActorOk(s, a.actor, parsers);
    }
  }

  /** The version served never goes back, and versions are never rewritten. */
  lemma {:induction false} ServedNeverGoesBack(run: Run, first: State, parsers: Parsers, m: nat, n: nat)
    requires IsRun(run, first, parsers) && Started(first, parsers) && m <= n < |run.states|
    ensures run.states[m].served <= run.states[n].served
    ensures run.states[m].file <= run.states[n].file
  {
    hide IsRun, Started, Inv, Next, Enabled;
    if m < n {
      ServedNeverGoesBack(run, first, parsers, m, n - 1);
      RunKeepsInv(run, first, parsers, n - 1);
      StepOfRun(run, first, parsers, n);
      NextServed(run.states[n - 1], run.actions[n - 1], parsers);
    }
  }

  /** A reload under the lock that has changed nothing yet, or never will. */
  predicate Uncommitted(pc: Pc) {
    pc.Locked? || pc.Compare? || pc.Update? || (pc.Release? && pc.outcome.Failed?)
  }

  lemma UncommittedStep(s: State, a: Action, parsers: Parsers, i: nat)
    requires Inv(s, parsers) && Enabled(s, a)
    requires s.holder == Some(i) && i < |s.actors| == |Next(s, a, parsers).actors|
    requires Next(s, a, parsers).holder == Some(i) && Uncommitted(Next(s, a, parsers).actors[i])
    ensures Uncommitted(s.actors[i])
    ensures Next(s, a, parsers).live == s.live && Next(s, a, parsers).served == s.served
  {
    hide Load, Sane, SameTable, NormalizeNameservers, Changes;
    assert ActorOk(s, i, parsers);
    if a.Step? {
      assert ActorOk(s, a.actor, parsers);
    }
  }

  lemma {:induction false} ActorsStay(run: Run, first: State, parsers: Parsers, n: nat)
    requires IsRun(run, first, parsers) && n < |run.states|
    ensures |run.states[n].actors| == |first.actors|
  {
    hide IsRun, Load, NormalizeNameservers, Changes, PrintableFile;
    StepOfRun(run, first, parsers, n);
    if n > 0 {
      ActorsStay(run, first, parsers, n - 1);
    }
  }

  /** A reload that fails, at whatever check, leaves routes and nameservers as it found them under the lock. */
  lemma {:induction false} FailedReloadChangesNothing(run: Run, first: State, parsers: Parsers, m: nat, n: nat, i: nat)
    requires IsRun(run, first, parsers) && Started(first, parsers) && m <= n < |run.states|
    requires i < |first.actors| == |run.states[n].actors|
    requires forall k :: m <= k <= n ==> run.states[k].holder == Some(i)
    requires Uncommitted(run.states[n].actors[i])
    ensures run.states[n].live == run.states[m].live && run.states[n].served == run.states[m].served
  {
    hide IsRun, Started, Inv, Next, Enabled, Uncommitted;
    if m < n {
      StepOfRun(run, first, parsers, n);
      RunKeepsInv(run, first, parsers, n - 1);
      ActorsStay(run, first, parsers, n - 1);
      UncommittedStep(run.states[n - 1], run.actions[n - 1], parsers, i);
      FailedReloadChangesNothing(run, first, parsers, m, n - 1, i);
    }
  }

  /** The steps a reload has left under the lock. */
  function StepsLeft(pc: Pc): nat {
    match pc
    case Idle => 0
    case Waiting => 6
    case Locked => 5
    case Compare(_, _) => 4
    case Update(_, _, _) => 3
    case Swap(_, _, _) => 2
    case Release(_) => 1
  }

  /** Whoever holds the lock can go on, and gives it back after at most five steps of its own. */
  lemma LockIsGivenBack(s: State, parsers: Parsers)
    requires Inv(s, parsers) && s.holder.Some?
    ensures var i := s.holder.value;
            && i < |s.actors| && CanStep(s, i) && StepsLeft(s.actors[i]) <= 5
            && var t := StepActor(s, i, parsers);
               i < |t.actors| && StepsLeft(t.actors[i]) < StepsLeft(s.actors[i])
               && (t.holder == None <==> StepsLeft(t.actors[i]) == 0)
  {
    hide Load, Sane, SameTable, NormalizeNameservers, Changes;
    assert ActorOk(s, s.holder.value, parsers);
  }

  // ---------------------------------------------------------------------------------------------
  // Polling
  // ---------------------------------------------------------------------------------------------

  /** Metadata that comes back says that nothing has changed in between. */
  ghost predicate Faithful(file: seq<Version>) {
    forall a, m, b :: 0 <= a <= m <= b < |file| && file[a].meta.Some? && file[a].meta == file[b].meta ==>
      file[m].content == file[a].content
  }

  /**
   When a tick finds the metadata of an earlier tick again: if that tick's reload succeeded, what is live
   is what the file says now; if it failed, the file could not be loaded now either. Reloads on SIGHUP
   may have come in between, or be under way.
   */
  lemma SkippedTickIsRight(run: Run, first: State, parsers: Parsers, n: nat)
    requires IsRun(run, first, parsers) && Started(first, parsers) && n < |run.states|
    requires Faithful(run.states[n].file)
    requires Skips(run.states[n]) && run.states[n].watch.status.Ended?
    ensures var s := run.states[n];
            var current := s.file[|s.file| - 1].content;
            match s.watch.status.outcome
            case Succeeded(_) => Agrees(s.live, current, parsers)
            case Failed(_) => !Accepts(current, parsers)
  {
    RunKeepsInv(run, first, parsers, n);
    SkipIsRight(run.states[n], parsers);
  }

  lemma SkipIsRight(s: State, parsers: Parsers)
    requires Inv(s, parsers) && Faithful(s.file) && Skips(s) && s.watch.status.Ended?
    ensures s.watch.status.outcome.Succeeded? ==> Agrees(s.live, s.file[|s.file| - 1].content, parsers)
    ensures s.watch.status.outcome.Failed? ==> !Accepts(s.file[|s.file| - 1].content, parsers)
  {
    hide Load, Sane, SameTable, NormalizeNameservers, Changes, Agrees;
    var a, b := s.watch.version, |s.file| - 1;
    assert forall m :: a <= m <= b ==> s.file[m].content == s.file[a].content;
    if s.watch.status.outcome.Succeeded? {
      ServedSinceStat(s, parsers);
    }
  }

  /** Once the version of the metadata kept, or a later one, is served, skipping on it is right. */
  lemma ServedSinceStat(s: State, parsers: Parsers)
    requires Inv(s, parsers) && Faithful(s.file) && Skips(s) && s.watch.version <= s.served
    ensures Agrees(s.live, s.file[|s.file| - 1].content, parsers)
  {
    hide Load, Sane, SameTable, NormalizeNameservers, Changes;
    var a, b := s.watch.version, |s.file| - 1;
    assert forall m :: a <= m <= b ==> s.file[m].content == s.file[a].content;
    if Swapping(s) {
      assert ActorOk(s, s.holder.value, parsers);
    }
  }

  /** Two contents that load and say the same: routes up to the summaries of targets, and nameservers. */
  ghost predicate SaysSame(a: Document, b: Document, parsers: Parsers) {
    && Accepts(a, parsers) && Accepts(b, parsers)
    && SameTable(Load(a, parsers).value.index, Load(b, parsers).value.index)
    && NormalizeNameservers(Load(a, parsers).value.nameservers, parsers.isIP)
       == NormalizeNameservers(Load(b, parsers).value.nameservers, parsers.isIP)
  }

  /** Outside a swap, what is live is what a content says exactly when the version served says the same. */
  lemma AgreesIffSaysSame(s: State, content: Document, parsers: Parsers)
    requires LiveOk(s, parsers) && !Swapping(s)
    ensures Agrees(s.live, content, parsers) <==> SaysSame(s.file[s.served].content, content, parsers)
  {
    hide Load, SameTable, NormalizeNameservers, Sane;
    var served := s.file[s.served].content;
    if Load(content, parsers).Ok? {
      var index, other := Load(served, parsers).value.index, Load(content, parsers).value.index;
      if SameTable(index, other) {
        SameTableTransitive(s.live.index, index, other);
      }
      if SameTable(s.live.index, other) {
        SameTableSymmetric(s.live.index, index);
        SameTableTransitive(index, s.live.index, other);
      }
    }
  }

  /**
   At every moment of every run outside a swap, and so whenever the lock is free: the live configuration
   is that of the file if and only if the version served says the same as the current one.
   */
  lemma LiveIsCurrentIff(run: Run, first: State, parsers: Parsers, n: nat)
    requires IsRun(run, first, parsers) && Started(first, parsers) && n < |run.states|
    requires !Swapping(run.states[n])
    ensures var s := run.states[n];
            && s.served < |s.file|
            && (Agrees(s.live, s.file[|s.file| - 1].content, parsers)
                <==> SaysSame(s.file[s.served].content, s.file[|s.file| - 1].content, parsers))
  {
    hide IsRun, Started, Agrees, SaysSame;
    RunKeepsInv(run, first, parsers, n);
    AgreesIffSaysSame(run.states[n], run.states[n].file[|run.states[n].file| - 1].content, parsers);
  }

  /** One content per metadata. */
  ghost predicate Unambiguous(file: seq<Version>) {
    forall a, b :: 0 <= a < |file| && 0 <= b < |file| && file[a].meta.Some? && file[a].meta == file[b].meta ==>
      file[a].content == file[b].content
  }

  lemma FaithfulIsUnambiguous(file: seq<Version>)
    requires Faithful(file)
    ensures Unambiguous(file)
  {
    forall a, b | 0 <= a < |file| && 0 <= b < |file| && file[a].meta.Some? && file[a].meta == file[b].meta
      ensures file[a].content == file[b].content
    {
      if a <= b {
        assert file[b].content == file[a].content;
      }
    }
  }

  /**
   With one content per metadata, a tick that skips is right if and only if the version served says the
   same as the version whose metadata the poller keeps. That holds on the metadata of the first Stat as
   well, and whatever became of the tick's own reload.
   */
  lemma SkipIsRightIff(run: Run, first: State, parsers: Parsers, n: nat)
    requires IsRun(run, first, parsers) && Started(first, parsers) && n < |run.states|
    requires Unambiguous(run.states[n].file) && Skips(run.states[n]) && !Swapping(run.states[n])
    ensures var s := run.states[n];
            && s.served < |s.file| && s.watch.version < |s.file|
            && (Agrees(s.live, s.file[|s.file| - 1].content, parsers)
                <==> SaysSame(s.file[s.served].content, s.file[s.watch.version].content, parsers))
  {
    hide IsRun, Started, Agrees, SaysSame;
    LiveIsCurrentIff(run, first, parsers, n);
    RunKeepsInv(run, first, parsers, n);
    var s := run.states[n];
    assert s.file[s.watch.version].content == s.file[|s.file| - 1].content;
  }

  // The metadata of the first Stat.

  lemma NotYetStep(s: State, a: Action, parsers: Parsers)
    requires Enabled(s, a) && Next(s, a, parsers).watch.status == NotYet
    ensures s.watch == Next(s, a, parsers).watch
  {
    hide Load, NormalizeNameservers, Changes;
  }

  lemma {:induction false} NotYetIsFirst(run: Run, first: State, parsers: Parsers, n: nat)
    requires IsRun(run, first, parsers) && n < |run.states| && run.states[n].watch.status == NotYet
    ensures run.states[n].watch == first.watch
  {
    hide IsRun, Next, Enabled;
    StepOfRun(run, first, parsers, n);
    if n > 0 {
      NotYetStep(run.states[n - 1], run.actions[n - 1], parsers);
      NotYetIsFirst(run, first, parsers, n - 1);
    }
  }

  /** Whatever is read is the given version or a later one, and so is what is served if it has changed. */
  predicate ReadSince(s: State, served: nat, version: nat) {
    && version < |s.file|
    && (s.served == served || version <= s.served)
    && forall i :: 0 <= i < |s.actors| && VersionRead(s.actors[i]).Some? ==> version <= VersionRead(s.actors[i]).value
  }

  lemma ReadSinceStep(s: State, a: Action, parsers: Parsers, served: nat, version: nat)
    requires Enabled(s, a) && ReadSince(s, served, version)
    ensures ReadSince(Next(s, a, parsers), served, version)
  {
    hide Load, NormalizeNameservers, Changes;
  }

  lemma {:induction false} ServedSince(run: Run, first: State, parsers: Parsers, n: nat)
    requires IsRun(run, first, parsers) && Started(first, parsers) && n < |run.states|
    ensures ReadSince(run.states[n], first.served, |first.file| - 1)
  {
    hide IsRun, Next, Enabled, ReadSince, Agrees, Sane;
    StepOfRun(run, first, parsers, n);
    if n == 0 {
      StartedReadSince(first, parsers);
    } else {
      ServedSince(run, first, parsers, n - 1);
      ReadSinceStep(run.states[n - 1], run.actions[n - 1], parsers, first.served, |first.file| - 1);
    }
  }

  lemma StartedReadSince(first: State, parsers: Parsers)
    requires Started(first, parsers)
    ensures ReadSince(first, first.served, |first.file| - 1)
  {
  }

  /**
   When a tick skips on the metadata of the first Stat: what is live is what the file says if and only if
   a newer version has been served since the start, or what New loaded says the same as the file did at
   the first Stat.
   */
  lemma FirstStatSkipIff(run: Run, first: State, parsers: Parsers, n: nat)
    requires IsRun(run, first, parsers) && Started(first, parsers) && n < |run.states|
    requires Faithful(run.states[n].file) && Skips(run.states[n])
    requires run.states[n].watch.status == NotYet && !Swapping(run.states[n])
    ensures var s := run.states[n];
            Agrees(s.live, s.file[|s.file| - 1].content, parsers)
            <==> s.served > first.served
                 || SaysSame(first.file[first.served].content, first.file[|first.file| - 1].content, parsers)
  {
    hide IsRun, Agrees, Next, Enabled, SaysSame, Started, Inv, LiveOk, Skips;
    var s := run.states[n];
    StepOfRun(run, first, parsers, 0);
    StartedWatch(first, parsers);
    FaithfulIsUnambiguous(s.file);
    SkipIsRightIff(run, first, parsers, n);
    NotYetIsFirst(run, first, parsers, n);
    ServedSince(run, first, parsers, n);
    ServedNeverGoesBack(run, first, parsers, 0, n);
    RunKeepsInv(run, first, parsers, n);
    if s.served > first.served {
      ServedSinceStat(s, parsers);
    }
  }

  lemma StartedWatch(first: State, parsers: Parsers)
    requires Started(first, parsers)
    ensures first.watch.version == |first.file| - 1 && first.served < |first.file|
  {
  }

  /**
   So when nothing was written between the load in New and the first Stat, skipping on its metadata is
   right, reloads on SIGHUP in between or under way included.
   */
  lemma QuietStartIsRight(run: Run, first: State, parsers: Parsers, n: nat)
    requires IsRun(run, first, parsers) && Started(first, parsers) && n < |run.states|
    requires first.served == |first.file| - 1
    requires Faithful(run.states[n].file) && Skips(run.states[n]) && run.states[n].watch.status == NotYet
    ensures Agrees(run.states[n].live, run.states[n].file[|run.states[n].file| - 1].content, parsers)
  {
    hide IsRun, Agrees, Faithful, Skips, Started, Inv;
    StepOfRun(run, first, parsers, 0);
    StartedWatch(first, parsers);
    NotYetIsFirst(run, first, parsers, n);
    ServedNeverGoesBack(run, first, parsers, 0, n);
    RunKeepsInv(run, first, parsers, n);
    ServedSinceStat(run.states[n], parsers);
  }

  /**
   A change between the load in New and the first Stat of WatchFile is missed: whatever two versions say,
   the poller can start on the second with the first live, and then ticks do nothing until it changes again.
   */
  lemma ChangeBeforeFirstStatIsMissed(loaded: Version, changed: Version, live: Live, parsers: Parsers)
    requires Sane(live.index) && Agrees(live, loaded.content, parsers)
    requires changed.meta.Some? && !Agrees(live, changed.content, parsers)
    ensures exists s: State ::
              && Started(s, parsers) && s.file == [loaded, changed] && s.live == live
              && Enabled(s, Tick) && Next(s, Tick, parsers) == s
              && !Agrees(s.live, s.file[|s.file| - 1].content, parsers)
  {
    hide Agrees, Sane;
    var s := State([loaded, changed], live, 0, None, [Idle], Watch(changed.meta, 1, NotYet));
    assert Started(s, parsers) && Next(s, Tick, parsers) == s;
  }

  /** A step of the only actor. */
  ghost predicate Steps(s: State, t: State, parsers: Parsers) {
    Enabled(s, Step(0)) && Next(s, Step(0), parsers) == t
  }

  function Alone(file: seq<Version>, live: Live, served: nat, pc: Pc, watch: Watch): (s: State)
    ensures s.file == file
  {
    State(file, live, served, if HoldsLock(pc) then Some(0) else None, [pc], watch)
  }

  lemma SoloReload(file: seq<Version>, live: Live, served: nat, watch: Watch, parsers: Parsers,
                   loaded: Loaded, addresses: seq<string>)
    requires |file| > 0 && Load(file[|file| - 1].content, parsers) == Ok(loaded)
    requires NormalizeNameservers(loaded.nameservers, parsers.isIP) == Ok(addresses) && addresses != live.addresses
    ensures var v := |file| - 1;
            var routesChanged := Changes(Some(live.index), loaded.index);
            var moved := live.(addresses := addresses);
            var swapped := Live(if routesChanged then loaded.index else live.index, addresses);
            && Steps(Alone(file, live, served, Waiting, watch), Alone(file, live, served, Locked, watch), parsers)
            && Steps(Alone(file, live, served, Locked, watch),
                     Alone(file, live, served, Compare(v, loaded), watch), parsers)
            && Steps(Alone(file, live, served, Compare(v, loaded), watch),
                     Alone(file, live, served, Update(v, loaded, routesChanged), watch), parsers)
            && Steps(Alone(file, live, served, Update(v, loaded, routesChanged), watch),
                     Alone(file, moved, served, Swap(v, loaded, routesChanged), watch), parsers)
            && Steps(Alone(file, moved, served, Swap(v, loaded, routesChanged), watch),
                     Alone(file, swapped, v, Release(Succeeded(v)), watch), parsers)
            && Steps(Alone(file, swapped, v, Release(Succeeded(v)), watch),
                     Alone(file, swapped, v, Idle, watch.(status := Ended(Succeeded(v)))), parsers)
  {
    hide Load, NormalizeNameservers, Changes;
  }

  /** A tick, a write before its reload reads the file, and a write that puts the old version back. */
  lemma RestoringRun(x: Version, a: Version, b: Version, live: Live, parsers: Parsers,
                     loaded: Loaded, addresses: seq<string>) returns (run: Run, swapped: Live)
    requires a.meta.Some? && x.meta != a.meta
    requires PrintableFile([x, a, b, a], parsers)
    requires Load(b.content, parsers) == Ok(loaded)
    requires NormalizeNameservers(loaded.nameservers, parsers.isIP) == Ok(addresses) && addresses != live.addresses
    ensures |run.states| == |run.actions| + 1
    ensures IsRun(run, Alone([x], live, 0, Idle, Watch(x.meta, 0, NotYet)), parsers)
    ensures run.states[|run.actions|]
         == Alone([x, a, b, a], swapped, 2, Idle, Watch(a.meta, 1, Ended(Succeeded(2))))
    ensures swapped.addresses == addresses
  {
    hide Load, NormalizeNameservers, Changes, Next, Enabled, PrintableFile, Alone;
    var f1, f2, f3, f4 := [x], [x, a], [x, a, b], [x, a, b, a];
    assert f1 + [a] == f2 && f2 + [b] == f3 && f3 + [a] == f4;
    var w0, w, done := Watch(x.meta, 0, NotYet), Watch(a.meta, 1, Pending), Watch(a.meta, 1, Ended(Succeeded(2)));
    var routesChanged := Changes(Some(live.index), loaded.index);
    var moved := live.(addresses := addresses);
    swapped := Live(if routesChanged then loaded.index else live.index, addresses);
    SoloReload(f3, live, 0, w, parsers, loaded, addresses);
    WriteIsNext(f1, live, 0, Idle, w0, a, parsers);
    TickIsNext(f2, live, 0, w0, parsers);
    WriteIsNext(f2, live, 0, Waiting, w, b, parsers);
    WriteIsNext(f3, swapped, 2, Idle, done, a, parsers);
    PrintablePrefixes(x, a, b, parsers);
    run := Run([Alone(f1, live, 0, Idle, w0),
                Alone(f2, live, 0, Idle, w0),
                Alone(f2, live, 0, Waiting, w),
                Alone(f3, live, 0, Waiting, w),
                Alone(f3, live, 0, Locked, w),
                Alone(f3, live, 0, Compare(2, loaded), w),
                Alone(f3, live, 0, Update(2, loaded, routesChanged), w),
                Alone(f3, moved, 0, Swap(2, loaded, routesChanged), w),
                Alone(f3, swapped, 2, Release(Succeeded(2)), w),
                Alone(f3, swapped, 2, Idle, done),
                Alone(f4, swapped, 2, Idle, done)],
               [Write(a), Tick, Write(b), Step(0), Step(0), Step(0), Step(0), Step(0), Step(0), Write(a)]);
  }

  /**
   One content per metadata is not enough. Between a tick and its reload the file changes, and afterwards
   it is put back with its old metadata: from then on ticks skip, and what is live is the version between.
   */
  lemma RestoredFileIsMissed(x: Version, a: Version, b: Version, live: Live, parsers: Parsers,
                             loaded: Loaded, addresses: seq<string>)
    requires a.meta.Some? && b.meta.Some? && a.meta != b.meta && x.meta != a.meta && x.meta != b.meta
    requires Sane(live.index) && Agrees(live, x.content, parsers)
    requires PrintableFile([x, a, b, a], parsers)
    requires Load(b.content, parsers) == Ok(loaded)
    requires NormalizeNameservers(loaded.nameservers, parsers.isIP) == Ok(addresses)
    requires addresses != live.addresses && !AddressesAgree(addresses, a.content, parsers)
    ensures exists run: Run, first: State ::
              && IsRun(run, first, parsers) && Started(first, parsers)
              && var last := run.states[|run.actions|];
                 && last.file == [x, a, b, a] && Unambiguous(last.file)
                 && Skips(last) && last.watch.status == Ended(Succeeded(2))
                 && !Agrees(last.live, a.content, parsers)
  {
    hide Sane, Load, NormalizeNameservers, IsRun, RoutesAgree, AddressesAgree, PrintableFile;
    var run, swapped := RestoringRun(x, a, b, live, parsers, loaded, addresses);
    var first := Alone([x], live, 0, Idle, Watch(x.meta, 0, NotYet));
    assert Started(first, parsers);
  }

  /**
   There are such versions: a file without servers and nameservers, and for every nameserver entry that is
   accepted the same file with that one.
   */
  lemma RestoredFileHappens(entry: string, parsers: Parsers)
    requires PrintsScheme(parsers.url) && NormalizeNameserver(entry, parsers.isIP).Ok?
    ensures var plain, other := Decoded([], []), Decoded([], [entry]);
            var x, a, b := Version(Some(Meta(1, 1)), plain), Version(Some(Meta(1, 2)), plain), Version(Some(Meta(2, 3)), other);
            exists run: Run, first: State ::
              && IsRun(run, first, parsers) && Started(first, parsers)
              && var last := run.states[|run.actions|];
                 && last.file == [x, a, b, a] && Unambiguous(last.file)
                 && Skips(last) && last.watch.status == Ended(Succeeded(2))
                 && !Agrees(last.live, plain, parsers)
  {
    hide NormalizeNameserver, PrintsScheme, IsRun, Started, Skips, Unambiguous;
    var plain, other := Decoded([], []), Decoded([], [entry]);
    var x, a, b := Version(Some(Meta(1, 1)), plain), Version(Some(Meta(1, 2)), plain), Version(Some(Meta(2, 3)), other);
    var empty: Index := map[];
    var addresses := [NormalizeNameserver(entry, parsers.isIP).value];
    assert Load(plain, parsers) == Ok(Loaded(empty, [])) && Load(other, parsers) == Ok(Loaded(empty, [entry]));
    assert [entry][..0] == [] && [] + addresses == addresses;
    assert NormalizeNameservers([entry][..0], parsers.isIP) == Ok([]);
    assert NormalizeNameservers([entry], parsers.isIP) == Ok(addresses);
    RestoredFileIsMissed(x, a, b, Live(empty, []), parsers, Loaded(empty, [entry]), addresses);
  }

  lemma WriteIsNext(file: seq<Version>, live: Live, served: nat, pc: Pc, watch: Watch, version: Version, parsers: Parsers)
    ensures var s := Alone(file, live, served, pc, watch);
            && Enabled(s, Write(version))
            && Next(s, Write(version), parsers) == Alone(file + [version], live, served, pc, watch)
  {
  }

  lemma TickIsNext(file: seq<Version>, live: Live, served: nat, watch: Watch, parsers: Parsers)
    requires |file| > 0 && file[|file| - 1].meta.Some? && watch.previous != file[|file| - 1].meta
    ensures var s := Alone(file, live, served, Idle, watch);
            var t := Alone(file, live, served, Waiting, Watch(file[|file| - 1].meta, |file| - 1, Pending));
            Enabled(s, Tick) && Next(s, Tick, parsers) == t
  {
  }

  lemma PrintablePrefixes(x: Version, a: Version, b: Version, parsers: Parsers)
    requires PrintableFile([x, a, b, a], parsers)
    ensures PrintableFile([x], parsers) && PrintableFile([x, a], parsers) && PrintableFile([x, a, b], parsers)
  {
    hide Printable, Load;
    var all := [x, a, b, a];
    assert all[0] == x && all[1] == a && all[2] == b;
  }

  // ---------------------------------------------------------------------------------------------
  // The object and the steps
  // ---------------------------------------------------------------------------------------------

  /**
   On the object, the first reload in New included: a reload succeeds if and only if the document is
   acceptable, then leaves live what it says, and otherwise leaves everything as it was. If it changes
   anything, no cached answer or certificate outlives it; lookups in flight always do.
   */
  lemma ReloadedAgrees(whole: Whole, document: Document, parsers: Parsers)
    requires whole.index.Some? ==> Sane(whole.index.value)
    requires PrintableFile([Version(None, document)], parsers)
    ensures var (after, error) := Reloaded(whole, document, parsers);
            && (error.None? <==> Accepts(document, parsers))
            && (error.Some? ==> after == whole)
            && (after != whole ==>
                  && after.resolver.cache.entries == map[]
                  && (after.authority.Some? ==> after.authority.value.cache.entries == map[]))
            && after.resolver.inflight == whole.resolver.inflight && after.resolver.calls == whole.resolver.calls
            && (error.None? ==>
                  && after.index.Some? && Sane(after.index.value)
                  && Agrees(Live(after.index.value, after.resolver.servers.addresses), document, parsers))
  {
    hide Load, WellFormed, Printable, SameTable, Fingerprint, NormalizeNameservers;
    if Load(document, parsers).Ok? {
      var loaded := Load(document, parsers).value;
      LoadedIsSane([Version(None, document)], 0, parsers);
      SameAsItself(loaded.index);
      if whole.index.Some? {
        EqualFingerprintsIffSameTable(whole.index.value, loaded.index);
      }
    }
  }

  /**
   A reload of a document that is live already leaves everything as it is, caches included, and no other
   successful reload does: that one makes the document live and empties the caches.
   */
  lemma ReloadIsIdleIff(whole: Whole, document: Document, parsers: Parsers)
    requires whole.index.Some? && Sane(whole.index.value)
    requires PrintableFile([Version(None, document)], parsers)
    ensures Reloaded(whole, document, parsers) == (whole, None)
       <==> Agrees(Live(whole.index.value, whole.resolver.servers.addresses), document, parsers)
  {
    ReloadedAgrees(whole, document, parsers);
    hide Load, WellFormed, Printable, SameTable, Fingerprint, NormalizeNameservers;
    if Load(document, parsers).Ok? {
      LoadedIsSane([Version(None, document)], 0, parsers);
      EqualFingerprintsIffSameTable(whole.index.value, Load(document, parsers).value.index);
    }
  }

  ghost predicate AddressTaken(entry: string, parsers: Parsers) {
    exists host, port :: NamesServer(TrimSpace(entry), host, port, parsers.isIP)
  }

  /**
   What a reload accepts: a document that was read, of valid servers in different places and of
   nameservers that are addresses. The error of any other names what was checked first.
   */
  lemma AcceptsIff(whole: Whole, document: Document, parsers: Parsers)
    ensures Accepts(document, parsers) <==>
              && document.Decoded?
              && (forall k :: 0 <= k < |document.servers| ==> ValidServer(document.servers[k], parsers.url))
              && DistinctServers(document.servers)
              && (forall k :: 0 <= k < |document.nameservers| ==> AddressTaken(document.nameservers[k], parsers))
    ensures match Reloaded(whole, document, parsers).1
            case None => Accepts(document, parsers)
            case Some(LoadFailed(reason)) => document == Unreadable(reason)
            case Some(BadConfig(e)) => document.Decoded? && IndexOfServers(document.servers, parsers.url) == Err(e)
            case Some(BadNameserver(e)) =>
              && document.Decoded? && IndexOfServers(document.servers, parsers.url).Ok?
              && NormalizeNameservers(document.nameservers, parsers.isIP) == Err(e)
  {
    hide IndexOfServers, NormalizeNameservers, NormalizeNameserver, ValidServer, DistinctServers, Changes, NamesServer;
    if document.Decoded? {
      TableAcceptedIff(document.servers, parsers.url);
      NormalizedEntryByEntry(document.nameservers, parsers.isIP);
      forall k | 0 <= k < |document.nameservers|
        ensures AddressTaken(document.nameservers[k], parsers) <==> NormalizeNameserver(document.nameservers[k], parsers.isIP).Ok?
      {
        EntryTaken(document.nameservers[k], parsers);
      }
    }
  }

  lemma EntryTaken(entry: string, parsers: Parsers)
    ensures AddressTaken(entry, parsers) <==> NormalizeNameserver(entry, parsers.isIP).Ok?
  {
    hide NormalizeNameserver, NamesServer;
    if NormalizeNameserver(entry, parsers.isIP).Ok? {
      NormalizeIff(entry, parsers.isIP, NormalizeNameserver(entry, parsers.isIP).value);
    }
    forall host, port | NamesServer(TrimSpace(entry), host, port, parsers.isIP)
      ensures NormalizeNameserver(entry, parsers.isIP).Ok?
    {
      NormalizeIff(entry, parsers.isIP, JoinHostPort(host, port));
    }
  }

  /** A reload on its own, from the lock to giving it back. */
  ghost function Complete(s: State, i: nat, parsers: Parsers): State
    requires i < |s.actors|
    decreases StepsLeft(s.actors[i])
  {
    if !CanStep(s, i) then s else Complete(StepActor(s, i, parsers), i, parsers)
  }

  /**
   What a reload makes of the object, and whether it fails, is what its steps make of the live table and
   nameservers when nothing comes in between.
   */
  lemma CompleteIsReloaded(s: State, i: nat, whole: Whole, parsers: Parsers)
    requires i < |s.actors| && s.actors[i] == Locked && s.holder == Some(i) && |s.file| > 0
    requires whole.index == Some(s.live.index) && whole.resolver.servers.addresses == s.live.addresses
    ensures var (after, error) := Reloaded(whole, s.file[|s.file| - 1].content, parsers);
            var t := Complete(s, i, parsers);
            && after.index == Some(t.live.index) && after.resolver.servers.addresses == t.live.addresses
            && t.served == (if error.None? then |s.file| - 1 else s.served)
            && t.holder == None && t.file == s.file
  {
    hide Load, Changes, NormalizeNameservers, Complete;
    CompleteStep(s, i, parsers);
    var t1 := StepActor(s, i, parsers);
    if t1.actors[i].Compare? {
      CompleteStep(t1, i, parsers);
      var t2 := StepActor(t1, i, parsers);
      CompleteStep(t2, i, parsers);
      var t3 := StepActor(t2, i, parsers);
      if t3.actors[i].Swap? {
        CompleteStep(t3, i, parsers);
        EndsHere(StepActor(t3, i, parsers), i, parsers);
      } else {
        EndsHere(t3, i, parsers);
      }
    } else {
      EndsHere(t1, i, parsers);
    }
  }

  lemma CompleteStep(s: State, i: nat, parsers: Parsers)
    requires i < |s.actors| && CanStep(s, i)
    ensures Complete(s, i, parsers) == Complete(StepActor(s, i, parsers), i, parsers)
  {
    hide StepActor;
  }

  lemma EndsHere(s: State, i: nat, parsers: Parsers)
    requires i < |s.actors| && s.actors[i].Release? && |s.file| > 0
    ensures Complete(s, i, parsers).live == s.live && Complete(s, i, parsers).served == s.served
    ensures Complete(s, i, parsers).holder == None && Complete(s, i, parsers).file == s.file
  {
  }
}
