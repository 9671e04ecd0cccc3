/**
 Who closes a client connection (internal/frontend/frontend.go, internal/proxy/connect.go). `Serve` runs
 a one-connection http.Server on it. A CONNECT handler may take the connection over, and may then run
 another such server on it, inside TLS, in which a CONNECT may be taken over again, to any depth.

 Frame 0 is the goroutine of `Serve`, frame k + 1 the handler that took over the connection of layer k.
 A layer is one http.Server with its one-connection listener. net/http's part: it starts each
 connection it accepts in a goroutine of its own, ends it either by closing it or by one hijack, and
 calls ConnState in the middle of that. A frame that waits for its server therefore comes back while the
 handler that took over is still at work.
 */
module Tunnels {
  import opened Sums

  /** A layer's connection: `Hijacking` is between the two effects of the ConnState hook. */
  datatype Conn = New | Active | Hijacking | Hijacked | Closed

  /** `hijacked` and `done` are the flag and the channel that ServeSingleConn shares with the hook. */
  datatype Layer = Layer(conn: Conn, hijacked: bool, done: bool)

  datatype Frame =
    | Deciding   // has the connection, about to look at the target
    | Serving    // waits for its own server to return
    | Holding    // keeps the connection, about to close it
    | Left       // returned without closing: the connection had been taken over
    | Ended      // closed it

  datatype State = State(layers: seq<Layer>, frames: seq<Frame>)

  /** What a handler does with a connection it has taken over. */
  datatype Choice =
    | Relay            // no virtual server: a tunnel, to its end; or the relay of an upgraded request
    | NoCertificate    // an authority is missing: 502
    | WriteFailed      // the answer to CONNECT could not be written
    | Intercept        // another server on the connection

  datatype Action =
    | Accept(layer: nat)
    | ServerCloses(layer: nat)
    | SetHijacked(layer: nat)
    | FinishHijack(layer: nat)
    | Decide(frame: nat, choice: Choice)
    | ServerReturns(frame: nat)
    | Close(frame: nat)

  const FRESH_LAYER := Layer(New, false, false)

  const INIT := State([FRESH_LAYER], [Serving])

  predicate Enabled(s: State, a: Action) {
    match a
    case Accept(k) => k < |s.layers| && s.layers[k].conn == New
    case ServerCloses(k) => k < |s.layers| && s.layers[k].conn == Active
    case SetHijacked(k) => k < |s.layers| && s.layers[k].conn == Active
    case FinishHijack(k) => k < |s.layers| && s.layers[k].conn == Hijacking
    case Decide(k, _) => k < |s.frames| && s.frames[k] == Deciding
    case ServerReturns(k) => k < |s.frames| && s.frames[k] == Serving && k < |s.layers| && s.layers[k].done
    case Close(k) => k < |s.frames| && s.frames[k] == Holding
  }

  function Next(s: State, a: Action): State
    requires Enabled(s, a)
  {
    match a
    case Accept(k) => s.(layers := s.layers[k := s.layers[k].(conn := Active)])
    case ServerCloses(k) => s.(layers := s.layers[k := s.layers[k].(conn := Closed, done := true)])
    case SetHijacked(k) => s.(layers := s.layers[k := s.layers[k].(conn := Hijacking, hijacked := true)])
    case FinishHijack(k) =>
      State(s.layers[k := s.layers[k].(conn := Hijacked, done := true)], s.frames + [Deciding])
    case Decide(k, choice) =>
      if choice == Intercept then State(s.layers + [FRESH_LAYER], s.frames[k := Serving])
      else s.(frames := s.frames[k := Holding])
    case ServerReturns(k) => s.(frames := s.frames[k := if s.layers[k].hijacked then Left else Holding])
    case Close(k) => s.(frames := s.frames[k := Ended])
  }

  // ---------------------------------------------------------------------------------------------
  // Invariant
  // ---------------------------------------------------------------------------------------------

  predicate LayerOk(s: State, k: nat)
    requires k < |s.layers|
  {
    var layer := s.layers[k];
    && (layer.conn == Hijacked <==> k + 1 < |s.frames|)
    && (layer.hijacked <==> layer.conn == Hijacking || layer.conn == Hijacked)
    && (layer.done <==> layer.conn == Hijacked || layer.conn == Closed)
    && (k + 1 < |s.layers| ==> layer.conn == Hijacked)
  }

  predicate FrameOk(s: State, k: nat)
    requires k < |s.frames|
  {
    match s.frames[k]
    case Deciding => k == |s.layers|
    case Serving => k < |s.layers|
    case Left => k < |s.layers| && s.layers[k].conn == Hijacked
    case Holding => k == |s.layers| || (k + 1 == |s.layers| && s.layers[k].conn == Closed)
    case Ended => k == |s.layers| || (k + 1 == |s.layers| && s.layers[k].conn == Closed)
  }

  ghost predicate Inv(s: State) {
    && 1 <= |s.layers| <= |s.frames| <= |s.layers| + 1
    && (forall k :: 0 <= k < |s.layers| ==> LayerOk(s, k))
    && (forall k :: 0 <= k < |s.frames| ==> FrameOk(s, k))
  }

  /** Every action keeps the invariant. */
  lemma NextKeepsInv(s: State, a: Action)
    requires Inv(s) && Enabled(s, a)
    ensures Inv(Next(s, a))
  {
    var t := Next(s, a);
    SizesStay(s, a);
    forall k | 0 <= k < |t.layers|
      ensures LayerOk(t, k)
    {
      assert k < |s.layers| ==> LayerOk(s, k);
    }
    forall k | 0 <= k < |t.frames|
      ensures FrameOk(t, k)
    {
      assert k < |s.frames| ==> FrameOk(s, k);
      assert k < |s.layers| ==> LayerOk(s, k);
    }
  }

  lemma SizesStay(s: State, a: Action)
    requires Inv(s) && Enabled(s, a)
    ensures var t := Next(s, a); 1 <= |t.layers| <= |t.frames| <= |t.layers| + 1
    ensures a.FinishHijack? ==> a.layer == |s.layers| - 1 && |s.frames| == |s.layers|
    ensures a.Decide? ==> a.frame == |s.layers| && |s.frames| == |s.layers| + 1
    ensures a.ServerCloses? || a.SetHijacked? || a.Accept? ==> a.layer == |s.layers| - 1 && |s.frames| == |s.layers|
  {
    match a
    case Accept(k) => assert LayerOk(s, k);
    case ServerCloses(k) => assert LayerOk(s, k);
    case SetHijacked(k) => assert LayerOk(s, k);
    case FinishHijack(k) => assert LayerOk(s, k);
    case Decide(k, _) => assert FrameOk(s, k);
    case _ =>
  }

  // ---------------------------------------------------------------------------------------------
  // One frame closes, the deepest
  // ---------------------------------------------------------------------------------------------

  /** Only an interception puts another server on the connection; any other choice goes on to close it. */
  lemma ChoiceDecides(s: State, k: nat, choice: Choice)
    requires Enabled(s, Decide(k, choice))
    ensures var t := Next(s, Decide(k, choice));
            && (t.layers == if choice == Intercept then s.layers + [Layer(New, false, false)] else s.layers)
            && t.frames[k] == (if choice == Intercept then Serving else Holding)
            && (choice != Intercept ==> Enabled(t, Close(k)) && Next(t, Close(k)).frames[k] == Ended)
  {
  }

  predicate Closes(frame: Frame) {
    frame == Holding || frame == Ended
  }

  /** Only the deepest frame closes, or is about to; the connection has not been taken over from it. */
  lemma OnlyTheDeepestCloses(s: State, k: nat)
    requires Inv(s) && k < |s.frames| && Closes(s.frames[k])
    ensures k == |s.frames| - 1
    ensures k < |s.layers| ==> s.layers[k].conn == Closed && !s.layers[k].hijacked
  {
    assert FrameOk(s, k);
    if k < |s.layers| {
      assert LayerOk(s, k);
    }
  }

  /** Once a frame has closed the connection, nobody takes it over any more and nobody else closes it. */
  lemma ClosedIsFinal(s: State, a: Action, k: nat)
    requires Inv(s) && Enabled(s, a) && k < |s.frames| && s.frames[k] == Ended
    ensures |Next(s, a).frames| == |s.frames| && Next(s, a).frames[k] == Ended
  {
    OnlyTheDeepestCloses(s, k);
    SizesStay(s, a);
  }

  /** When nothing can happen any more, the deepest frame has closed and all the others have left. */
  lemma QuietMeansClosedOnce(s: State)
    requires Inv(s)
    requires forall a: Action :: !Enabled(s, a)
    ensures s.frames[|s.frames| - 1] == Ended
    ensures forall k :: 0 <= k < |s.frames| - 1 ==> s.frames[k] == Left
  {
    forall k | 0 <= k < |s.frames|
      ensures s.frames[k] == if k == |s.frames| - 1 then Ended else Left
    {
      assert FrameOk(s, k);
      assert !Enabled(s, Decide(k, Relay)) && !Enabled(s, Close(k)) && !Enabled(s, ServerReturns(k));
      if k < |s.layers| {
        assert LayerOk(s, k);
        assert !Enabled(s, Accept(k)) && !Enabled(s, ServerCloses(k)) && !Enabled(s, FinishHijack(k));
      }
    }
  }

  // ---------------------------------------------------------------------------------------------
  // Runs
  // ---------------------------------------------------------------------------------------------

  /** A run: states[k + 1] is what actions[k] makes of states[k]. */
  datatype Run = Run(states: seq<State>, actions: seq<Action>)

  ghost predicate IsRun(run: Run) {
    && |run.states| == |run.actions| + 1
    && run.states[0] == INIT
    && forall k :: 0 <= k < |run.actions| ==>
         Enabled(run.states[k], run.actions[k]) && run.states[k + 1] == Next(run.states[k], run.actions[k])
  }

  function FrameWork(frame: Frame): nat {
    match frame
    case Deciding => 0
    case Serving => 1
    case Holding => 2
    case Left => 3
    case Ended => 3
  }

  function LayerWork(layer: Layer): nat {
    match layer.conn
    case New => 0
    case Active => 1
    case Hijacking => 2
    case Hijacked => 3
    case Closed => 3
  }

  function Work(s: State): nat {
    Total(s.frames, FrameWork) + Total(s.layers, LayerWork)
  }

  lemma TotalSnoc<T>(items: seq<T>, item: T, weight: T -> nat)
    ensures Total(items + [item], weight) == Total(items, weight) + weight(item)
  {
    assert (items + [item])[..|items|] == items;
  }

  lemma StepWorks(s: State, a: Action)
    requires Inv(s) && Enabled(s, a)
    ensures Work(s) < Work(Next(s, a))
  {
    hide Total;
    var t := Next(s, a);
    SizesStay(s, a);
    match a
    case Accept(k) => TotalUpdate(s.layers, k, t.layers[k], LayerWork);
    case ServerCloses(k) => TotalUpdate(s.layers, k, t.layers[k], LayerWork);
    case SetHijacked(k) => TotalUpdate(s.layers, k, t.layers[k], LayerWork);
    case FinishHijack(k) =>
      TotalUpdate(s.layers, k, t.layers[k], LayerWork);
      TotalSnoc(s.frames, Deciding, FrameWork);
    case Decide(k, choice) =>
      TotalUpdate(s.frames, k, t.frames[k], FrameWork);
      TotalSnoc(s.layers, FRESH_LAYER, LayerWork);
    case ServerReturns(k) => TotalUpdate(s.frames, k, t.frames[k], FrameWork);
    case Close(k) => TotalUpdate(s.frames, k, t.frames[k], FrameWork);
  }

  lemma {:induction false} RunKeepsInv(run: Run, n: nat)
    requires IsRun(run) && n < |run.states|
    ensures Inv(run.states[n]) && n <= Work(run.states[n])
  {
    hide Next, Enabled, Work;
    if n > 0 {
      RunKeepsInv(run, n - 1);
      NextKeepsInv(run.states[n - 1], run.actions[n - 1]);
      StepWorks(run.states[n - 1], run.actions[n - 1]);
    }
  }

  /**
   At every moment of every run at most one frame has closed the connection, and it is the deepest that
   took it over. A run in which d handlers took it over has at most 6 (d + 1) steps; one that cannot go
   on has closed the connection exactly once.
   */
  lemma ClosedExactlyOnce(run: Run)
    requires IsRun(run)
    ensures forall n, k :: 0 <= n < |run.states| && 0 <= k < |run.states[n].frames| && run.states[n].frames[k] == Ended ==>
              k == |run.states[n].frames| - 1
    ensures var last := run.states[|run.actions|];
            && 1 <= |last.frames|
            && |run.actions| <= 6 * |last.frames|
            && ((forall a: Action :: !Enabled(last, a)) ==>
                  && last.frames[|last.frames| - 1] == Ended
                  && forall k :: 0 <= k < |last.frames| - 1 ==> last.frames[k] == Left)
  {
    hide Next, Enabled, Total;
    forall n, k | 0 <= n < |run.states| && 0 <= k < |run.states[n].frames| && run.states[n].frames[k] == Ended
      ensures k == |run.states[n].frames| - 1
    {
      RunKeepsInv(run, n);
      OnlyTheDeepestCloses(run.states[n], k);
    }
    var last := run.states[|run.actions|];
    RunKeepsInv(run, |run.actions|);
    TotalBound(last.frames, FrameWork, 3);
    TotalBound(last.layers, LayerWork, 3);
    if forall a: Action :: !Enabled(last, a) {
      QuietMeansClosedOnce(last);
    }
  }
}
