/**
 * The simulator side of a session (`OpenGymInterface`): three flags, a lazy
 * handshake, and one state-out / action-in exchange per notification.
 *
 * The shared-memory channel is an ordered trace: `log` holds what this side
 * sent and received, `replies` the frames the peer will write, in order.
 * Process exit (`std::exit`) and abort (`NS_ABORT`) are terminal phases; a
 * receive with no reply to come waits forever (phase `Blocked`).
 */
module GymInterface {
  import opened Wrappers
  import opened Scalars
  import opened Text
  import opened Messages
  import opened Container

  // ---------------------------------------------------------------------
  // Channel names
  // ---------------------------------------------------------------------

  datatype ChannelNames = ChannelNames(segment: string, cpp2py: string, py2cpp: string, lockable: string)

  /** The names the constructor gives the channel of environment `envId`. */
  function NamesFor(envId: uint32): ChannelNames
  {
    var id := Decimal(envId as nat);
    ChannelNames("seg" + id, "cpp2py" + id, "py2cpp" + id, "lockable" + id)
  }

  function NameSet(names: ChannelNames): set<string>
  {
    {names.segment, names.cpp2py, names.py2cpp, names.lockable}
  }

  /** A prefix followed by the decimal id determines the id. */
  lemma SamePrefixSameId(p: string, a: uint32, b: uint32)
    requires p + Decimal(a as nat) == p + Decimal(b as nat)
    ensures a == b
  {
    var x, y := p + Decimal(a as nat), p + Decimal(b as nat);
    assert Decimal(a as nat) == x[|p|..];
    assert Decimal(b as nat) == y[|p|..];
    DecimalInjective(a as nat, b as nat);
  }

  /** The four names of one environment are pairwise different. */
  lemma NamesDistinct(envId: uint32)
    ensures |NameSet(NamesFor(envId))| == 4
  {
    var n := NamesFor(envId);
    assert n.segment[0] == 's' && n.cpp2py[0] == 'c' && n.py2cpp[0] == 'p' && n.lockable[0] == 'l';
  }

  /** Two different environment ids share no name: instances never cross-talk. */
  lemma NamesDisjoint(a: uint32, b: uint32)
    requires a != b
    ensures NameSet(NamesFor(a)) !! NameSet(NamesFor(b))
  {
    var na, nb := NamesFor(a), NamesFor(b);
    var da, db := Decimal(a as nat), Decimal(b as nat);
    // Names of different kinds differ in their first letter.
    assert na.segment[0] == nb.segment[0] == 's';
    assert na.cpp2py[0] == nb.cpp2py[0] == 'c';
    assert na.py2cpp[0] == nb.py2cpp[0] == 'p';
    assert na.lockable[0] == nb.lockable[0] == 'l';
    // Names of the same kind differ in their ids.
    if na.segment == nb.segment { SamePrefixSameId("seg", a, b); }
    if na.cpp2py == nb.cpp2py { SamePrefixSameId("cpp2py", a, b); }
    if na.py2cpp == nb.py2cpp { SamePrefixSameId("py2cpp", a, b); }
    if na.lockable == nb.lockable { SamePrefixSameId("lockable", a, b); }
  }

  // ---------------------------------------------------------------------
  // Callbacks and the default-returning getters
  // ---------------------------------------------------------------------

  /**
   * What the registered callbacks return during one call; `None` for a
   * callback that is not set (or, for the `Ptr`-returning ones, returns
   * null). `action` is what the action callback replies.
   */
  datatype Callbacks = Callbacks(
    obsSpace: Option<SpaceDescription>,
    actSpace: Option<SpaceDescription>,
    observation: Option<Container>,
    reward: Option<Float32>,
    gameOver: Option<bool>,
    extraInfo: Option<string>,
    action: Option<bool>)

  /** The reward, 0.0 without a callback. */
  function GetReward(cb: Option<Float32>): (r: Float32)
    ensures cb.None? ==> r == FLOAT32_ZERO
    ensures cb.Some? ==> r == cb.value
  {
    cb.GetOr(FLOAT32_ZERO)
  }

  /** Game over when the callback says so or the simulation has ended. */
  function IsGameOver(cb: Option<bool>, simEnd: bool): (over: bool)
    ensures over <==> cb == Some(true) || simEnd
  {
    cb.GetOr(false) || simEnd
  }

  /** The extra info, empty without a callback. */
  function GetExtraInfo(cb: Option<string>): (info: string)
    ensures cb.None? ==> info == ""
    ensures cb.Some? ==> info == cb.value
  {
    cb.GetOr("")
  }

  /** The action callback's reply, `false` without a callback. */
  function ExecuteActions(cb: Option<bool>): (reply: bool)
    ensures reply <==> cb == Some(true)
  {
    cb.GetOr(false)
  }

  /** The init message: each space field is set exactly when its callback gives a space. */
  function InitMessage(cb: Callbacks): (m: SimInitMsg)
    ensures m.obsSpace.Some? <==> cb.obsSpace.Some?
    ensures m.actSpace.Some? <==> cb.actSpace.Some?
  {
    SimInitMsg(cb.obsSpace, cb.actSpace)
  }

  /** The state message of one notification. */
  function StateMessage(simEnd: bool, cb: Callbacks): (m: EnvStateMsg)
    ensures m.obsData.Some? <==> cb.observation.Some?
    ensures cb.observation.Some? ==> m.obsData == Some(Encode(cb.observation.value))
    ensures m.reward == GetReward(cb.reward) && m.info == GetExtraInfo(cb.extraInfo)
    ensures m.isGameOver <==> cb.gameOver == Some(true) || simEnd
    ensures m.reason.Some? <==> m.isGameOver
    ensures m.isGameOver ==> m.reason == Some(if simEnd then SimulationEnd else GameOver)
  {
    var obs := if cb.observation.Some? then Some(Encode(cb.observation.value)) else None;
    var over := IsGameOver(cb.gameOver, simEnd);
    var reason := if !over then None else if simEnd then Some(SimulationEnd) else Some(GameOver);
    EnvStateMsg(obs, GetReward(cb.reward), over, reason, GetExtraInfo(cb.extraInfo))
  }

  /** The reason a step reports: game over by the callback alone is `GameOver`; after the simulation end it is `SimulationEnd`. */
  lemma ReasonScenarios(cb: Callbacks)
    requires cb.gameOver == Some(true)
    ensures StateMessage(false, cb).reason == Some(GameOver)
    ensures StateMessage(true, cb).reason == Some(SimulationEnd)
    ensures StateMessage(true, cb.(gameOver := None)).reason == Some(SimulationEnd)
  {
  }

  // ---------------------------------------------------------------------
  // The session as a value
  // ---------------------------------------------------------------------

  /** `Exited`: `std::exit` after a stop request. `Aborted`: the action decoder's abort. */
  datatype Phase = Running | Exited | Aborted(error: DecodeError) | Blocked

  datatype Event = Sent(frame: SimFrame) | Received(reply: CtrlFrame)

  datatype Session = Session(
    initSimMsgSent: bool,
    simEnd: bool,
    stopEnvRequested: bool,
    phase: Phase,
    log: seq<Event>,
    replies: seq<CtrlFrame>,
    executed: seq<Container>)

  /** A newly constructed interface whose peer will write `replies`. */
  function Fresh(replies: seq<CtrlFrame>): Session
  {
    Session(false, false, false, Running, [], replies, [])
  }

  function Send(s: Session, f: SimFrame): Session
  {
    s.(log := s.log + [Sent(f)])
  }

  /** The next reply, or a wait that never ends when the peer writes none. */
  function Receive(s: Session): (Session, Option<CtrlFrame>)
  {
    if s.replies == [] then (s.(phase := Blocked), None)
    else (s.(log := s.log + [Received(s.replies[0])], replies := s.replies[1..]), Some(s.replies[0]))
  }

  /** `Init`: once only; the flag is set before the send. */
  function InitSpec(s: Session, cb: Callbacks): Session
  {
    if s.phase != Running || s.initSimMsgSent then s
    else
      var (s1, reply) := Receive(Send(s.(initSimMsgSent := true), InitFrame(InitMessage(cb))));
      if reply.Some? && AckOf(reply.value).stopSimReq then s1.(stopEnvRequested := true, phase := Exited)
      else s1
  }

  /** `NotifyCurrentState`. */
  function NotifySpec(s: Session, cb: Callbacks): Session
  {
    var s1 := if !s.initSimMsgSent then InitSpec(s, cb) else s;
    if s1.phase != Running || s1.stopEnvRequested then s1
    else
      var (s2, reply) := Receive(Send(s1, StateFrame(StateMessage(s1.simEnd, cb))));
      if reply.None? || s1.simEnd then s2
      else HandleAction(s2, ActOf(reply.value), cb)
  }

  /** The reply to a state frame sent before the simulation end: stop, or decode and execute the action. */
  function HandleAction(s: Session, act: EnvActMsg, cb: Callbacks): Session
  {
    if act.stopSimReq then s.(stopEnvRequested := true, phase := Exited)
    else
      match Decode(DataOrEmpty(act.actData))
      case Err(e) => s.(phase := Aborted(e))
      case Ok(c) => if cb.action.Some? then s.(executed := s.executed + [c]) else s
  }

  /** `NotifySimulationEnd`: set the flag, and flush one last state only after the handshake. */
  function SimulationEndSpec(s: Session, cb: Callbacks): Session
  {
    if s.phase != Running then s
    else
      var s1 := s.(simEnd := true);
      if s1.initSimMsgSent then NotifySpec(s1, cb) else s1
  }

  // ---------------------------------------------------------------------
  // The session invariant
  // ---------------------------------------------------------------------

  /** Sends and receives alternate, starting with a send. */
  predicate Alternates(log: seq<Event>)
  {
    forall i :: 0 <= i < |log| ==> (log[i].Sent? <==> i % 2 == 0)
  }

  /**
   * What every reachable session satisfies: strict alternation, with a send
   * left unanswered only while blocked; the init frame first and never
   * again; a stop request only in the exited phase.
   */
  predicate Consistent(s: Session)
  {
    && Alternates(s.log)
    && (|s.log| % 2 == 1 <==> s.phase == Blocked)
    && (s.initSimMsgSent <==> |s.log| > 0)
    && (|s.log| > 0 ==> s.log[0].Sent? && s.log[0].frame.InitFrame?)
    && (forall i :: 0 < i < |s.log| && s.log[i].Sent? ==> s.log[i].frame.StateFrame?)
    && (s.stopEnvRequested <==> s.phase == Exited)
  }

  lemma FreshConsistent(replies: seq<CtrlFrame>)
    ensures Consistent(Fresh(replies))
  {
  }

  /** One send then one receive (or a wait) keeps the invariant, for a state frame after the handshake. */
  lemma ExchangeKeeps(s: Session, f: SimFrame)
    requires Consistent(s) && s.phase == Running && s.initSimMsgSent && f.StateFrame?
    ensures var (s2, reply) := Receive(Send(s, f));
      && Alternates(s2.log)
      && (reply.Some? ==> |s2.log| == |s.log| + 2 && s2.phase == Running)
      && (reply.None? ==> |s2.log| == |s.log| + 1 && s2.phase == Blocked)
      && s2.log[|s.log|] == Sent(f)
      && s2.log[..|s.log|] == s.log
      && (forall i :: 0 < i < |s2.log| && s2.log[i].Sent? ==> s2.log[i].frame.StateFrame?)
  {
    var s1 := Send(s, f);
    assert s1.log[..|s.log|] == s.log;
  }

  lemma {:induction false} InitKeeps(s: Session, cb: Callbacks)
    requires Consistent(s)
    ensures Consistent(InitSpec(s, cb))
  {
    if s.phase == Running && !s.initSimMsgSent {
      assert s.log == [];
    }
  }

  lemma {:induction false} NotifyKeeps(s: Session, cb: Callbacks)
    requires Consistent(s)
    ensures Consistent(NotifySpec(s, cb))
  {
    var s1 := if !s.initSimMsgSent then InitSpec(s, cb) else s;
    InitKeeps(s, cb);
    if s1.phase == Running && !s1.stopEnvRequested {
      var f := StateFrame(StateMessage(s1.simEnd, cb));
      ExchangeKeeps(s1, f);
      var (s2, reply) := Receive(Send(s1, f));
      if reply.Some? && !s1.simEnd {
        HandleActionKeeps(s2, ActOf(reply.value), cb);
      }
    }
  }

  /** Handling a reply changes only the phase, the stop flag and the executed actions, and keeps the invariant. */
  lemma HandleActionKeeps(s: Session, act: EnvActMsg, cb: Callbacks)
    requires Consistent(s) && s.phase == Running
    ensures Consistent(HandleAction(s, act, cb))
    ensures HandleAction(s, act, cb).log == s.log && HandleAction(s, act, cb).replies == s.replies
  {
  }

  lemma SimulationEndKeeps(s: Session, cb: Callbacks)
    requires Consistent(s)
    ensures Consistent(SimulationEndSpec(s, cb))
  {
    if s.phase == Running {
      NotifyKeeps(s.(simEnd := true), cb);
    }
  }

  // ---------------------------------------------------------------------
  // Properties of the protocol
  // ---------------------------------------------------------------------

  /** A second `Init` changes nothing, whatever the callbacks return. */
  lemma InitIdempotent(s: Session, cb1: Callbacks, cb2: Callbacks)
    ensures InitSpec(InitSpec(s, cb1), cb2) == InitSpec(s, cb1)
  {
  }

  function CountInitFrames(log: seq<Event>): nat
  {
    if log == [] then 0
    else CountInitFrames(log[..|log| - 1]) + (if log[|log| - 1].Sent? && log[|log| - 1].frame.InitFrame? then 1 else 0)
  }

  /** In a consistent session exactly one init frame has been sent once the flag is set, none before. */
  lemma {:induction false} InitFramesCounted(s: Session)
    requires Consistent(s)
    ensures CountInitFrames(s.log) == if s.initSimMsgSent then 1 else 0
  {
    InitFramesIn(s.log, |s.log|);
    assert s.log[..|s.log|] == s.log;
  }

  lemma {:induction false} InitFramesIn(log: seq<Event>, n: nat)
    requires n <= |log|
    requires |log| > 0 ==> log[0].Sent? && log[0].frame.InitFrame?
    requires forall i :: 0 < i < |log| && log[i].Sent? ==> log[i].frame.StateFrame?
    ensures CountInitFrames(log[..n]) == if n > 0 then 1 else 0
  {
    if n > 0 {
      InitFramesIn(log, n - 1);
      assert log[..n][..n - 1] == log[..n - 1];
    }
  }

  /** Init called twice on a new interface puts exactly one init frame on the wire. */
  lemma InitTwiceSendsOne(replies: seq<CtrlFrame>, cb1: Callbacks, cb2: Callbacks)
    ensures CountInitFrames(InitSpec(InitSpec(Fresh(replies), cb1), cb2).log) == 1
  {
    var s := InitSpec(Fresh(replies), cb1);
    InitKeeps(Fresh(replies), cb1);
    InitFramesCounted(s);
  }

  /**
   * The handshake of a new interface: the init frame, then the peer's
   * acknowledgement; one that asks to stop ends the process at once.
   */
  lemma HandshakeOutcome(replies: seq<CtrlFrame>, cb: Callbacks)
    ensures var s := InitSpec(Fresh(replies), cb);
      && s.initSimMsgSent
      && s.log == [Sent(InitFrame(InitMessage(cb)))] + (if replies == [] then [] else [Received(replies[0])])
      && (s.phase == Blocked <==> replies == [])
      && (s.phase == Exited <==> replies != [] && AckOf(replies[0]).stopSimReq)
      && (s.stopEnvRequested <==> s.phase == Exited)
  {
  }

  /**
   * After the handshake, a notification that is not stopped sends exactly
   * one state frame and then receives exactly one reply (or waits forever).
   */
  lemma NotifyExchanges(s: Session, cb: Callbacks)
    requires Consistent(s) && s.phase == Running && s.initSimMsgSent
    ensures var s' := NotifySpec(s, cb);
      && s'.log[..|s.log|] == s.log
      && s'.log[|s.log|] == Sent(StateFrame(StateMessage(s.simEnd, cb)))
      && (s.replies != [] ==> |s'.log| == |s.log| + 2 && s'.log[|s.log| + 1] == Received(s.replies[0]))
      && (s.replies == [] ==> |s'.log| == |s.log| + 1 && s'.phase == Blocked)
  {
    ExchangeKeeps(s, StateFrame(StateMessage(s.simEnd, cb)));
  }

  /** After the simulation end the reply is consumed but neither its stop flag nor its action is used. */
  lemma SimEndIgnoresReply(s: Session, cb: Callbacks)
    requires Consistent(s) && s.phase == Running && s.initSimMsgSent && s.simEnd
    ensures var s' := NotifySpec(s, cb);
      && s'.executed == s.executed
      && !s'.stopEnvRequested
      && (s'.phase == Running || s'.phase == Blocked)
      && (s.replies != [] ==> s'.replies == s.replies[1..])
  {
  }

  /** A stop flag in the reply to a state frame ends the process. */
  lemma StopReplyExits(s: Session, cb: Callbacks)
    requires Consistent(s) && s.phase == Running && s.initSimMsgSent && !s.simEnd
    requires s.replies != [] && ActOf(s.replies[0]).stopSimReq
    ensures NotifySpec(s, cb).phase == Exited && NotifySpec(s, cb).stopEnvRequested
    ensures NotifySpec(s, cb).executed == s.executed
  {
  }

  /** Without a stop flag the decoded action is handed to the action callback, if there is one. */
  lemma ActionDelivered(s: Session, cb: Callbacks, c: Container)
    requires Consistent(s) && s.phase == Running && s.initSimMsgSent && !s.simEnd
    requires s.replies != [] && s.replies[0] == ActFrame(EnvActMsg(Some(Encode(c)), false))
    requires cb.action.Some?
    ensures NotifySpec(s, cb).phase == Running
    ensures NotifySpec(s, cb).executed == s.executed + [Erase(c)]
  {
    RoundTrip(c);
  }

  /** The simulation end flushes one terminal state only when the handshake was done. */
  lemma SimulationEndFlush(s: Session, cb: Callbacks)
    requires Consistent(s) && s.phase == Running
    ensures SimulationEndSpec(s, cb).simEnd
    ensures !s.initSimMsgSent ==> SimulationEndSpec(s, cb).log == s.log
    ensures s.initSimMsgSent ==>
      var s' := SimulationEndSpec(s, cb);
      && |s'.log| > |s.log|
      && s'.log[|s.log|].Sent?
      && var m := StateOf(s'.log[|s.log|].frame);
      m.isGameOver && m.reason == Some(SimulationEnd)
  {
    if s.initSimMsgSent {
      NotifyExchanges(s.(simEnd := true), cb);
    }
  }

  // ---------------------------------------------------------------------
  // Runs of several calls
  // ---------------------------------------------------------------------

  datatype Call = InitCall(cb: Callbacks) | NotifyCall(cb: Callbacks) | SimulationEndCall(cb: Callbacks)

  function Apply(s: Session, c: Call): Session
  {
    match c
    case InitCall(cb) => InitSpec(s, cb)
    case NotifyCall(cb) => NotifySpec(s, cb)
    case SimulationEndCall(cb) => SimulationEndSpec(s, cb)
  }

  function Run(s: Session, calls: seq<Call>): Session
    decreases |calls|
  {
    if calls == [] then s else Run(Apply(s, calls[0]), calls[1..])
  }

  lemma {:induction false} RunKeeps(s: Session, calls: seq<Call>)
    requires Consistent(s)
    ensures Consistent(Run(s, calls))
    decreases |calls|
  {
    if calls != [] {
      match calls[0] {
        case InitCall(cb) => InitKeeps(s, cb);
        case NotifyCall(cb) => NotifyKeeps(s, cb);
        case SimulationEndCall(cb) => SimulationEndKeeps(s, cb);
      }
      RunKeeps(Apply(s, calls[0]), calls[1..]);
    }
  }

  /** Once stopped (or aborted, or blocked), no later call sends or receives anything. */
  lemma {:induction false} StoppedStaysSilent(s: Session, calls: seq<Call>)
    requires s.phase != Running
    ensures Run(s, calls) == s
    decreases |calls|
  {
    if calls != [] {
      StoppedStaysSilent(Apply(s, calls[0]), calls[1..]);
    }
  }

  function Sends(log: seq<Event>): nat
  {
    if log == [] then 0 else Sends(log[..|log| - 1]) + (if log[|log| - 1].Sent? then 1 else 0)
  }

  /** After any run from a new interface, sends outnumber receives by at most one, and only while waiting. */
  lemma RunBalanced(replies: seq<CtrlFrame>, calls: seq<Call>)
    ensures var s := Run(Fresh(replies), calls);
      && 2 * Sends(s.log) == |s.log| + (if s.phase == Blocked then 1 else 0)
  {
    FreshConsistent(replies);
    RunKeeps(Fresh(replies), calls);
    var s := Run(Fresh(replies), calls);
    AlternatingSends(s.log, |s.log|);
    assert s.log[..|s.log|] == s.log;
  }

  lemma {:induction false} AlternatingSends(log: seq<Event>, n: nat)
    requires Alternates(log) && n <= |log|
    ensures 2 * Sends(log[..n]) == n + n % 2
  {
    if n > 0 {
      AlternatingSends(log, n - 1);
      assert log[..n][..n - 1] == log[..n - 1];
    }
  }

  // ---------------------------------------------------------------------
  // The class
  // ---------------------------------------------------------------------

  class OpenGymInterface {
    const envId: uint32
    const names: ChannelNames
    var initSimMsgSent: bool
    var simEnd: bool
    var stopEnvRequested: bool
    var phase: Phase
    var log: seq<Event>
    var replies: seq<CtrlFrame>
    var executed: seq<Container>

    function Snapshot(): Session
      reads this
    {
      Session(initSimMsgSent, simEnd, stopEnvRequested, phase, log, replies, executed)
    }

    /** The flags start false; the channel is named after `envId`. */
    constructor (envId: uint32, replies: seq<CtrlFrame>)
      ensures this.envId == envId && names == NamesFor(envId)
      ensures Snapshot() == Fresh(replies)
    {
      this.envId := envId;
      names := NamesFor(envId);
      initSimMsgSent, simEnd, stopEnvRequested := false, false, false;
      phase := Running;
      log := [];
      this.replies := replies;
      executed := [];
    }

    method CppSend(f: SimFrame)
      modifies this
      ensures Snapshot() == Send(old(Snapshot()), f)
    {
      log := log + [Sent(f)];
    }

    /** Waits for the peer's next frame; `None` when it never comes. */
    method CppRecv() returns (reply: Option<CtrlFrame>)
      modifies this
      ensures (Snapshot(), reply) == Receive(old(Snapshot()))
    {
      if replies == [] {
        phase := Blocked;
        reply := None;
      } else {
        reply := Some(replies[0]);
        log := log + [Received(replies[0])];
        replies := replies[1..];
      }
    }

    method Init(cb: Callbacks)
      modifies this
      ensures Snapshot() == InitSpec(old(Snapshot()), cb)
    {
      if phase != Running || initSimMsgSent {
        return;
      }
      initSimMsgSent := true;
      var msg := InitMessage(cb);
      CppSend(InitFrame(msg));
      var reply := CppRecv();
      if reply.Some? {
        var ack := AckOf(reply.value);
        if ack.stopSimReq {
          stopEnvRequested := true;
          phase := Exited;
        }
      }
    }

    method NotifyCurrentState(cb: Callbacks)
      modifies this
      ensures Snapshot() == NotifySpec(old(Snapshot()), cb)
    {
      if !initSimMsgSent {
        Init(cb);
      }
      if phase != Running || stopEnvRequested {
        return;
      }
      var msg := StateMessage(simEnd, cb);
      CppSend(StateFrame(msg));
      var reply := CppRecv();
      if reply.None? || simEnd {
        return;
      }
      var act := ActOf(reply.value);
      if act.stopSimReq {
        stopEnvRequested := true;
        phase := Exited;
        return;
      }
      var decoded := Decode(DataOrEmpty(act.actData));
      match decoded {
        case Err(e) =>
          phase := Aborted(e);
        case Ok(c) =>
          if cb.action.Some? {
            executed := executed + [c];
          }
      }
    }

    method WaitForStop(cb: Callbacks)
      modifies this
      ensures Snapshot() == NotifySpec(old(Snapshot()), cb)
    {
      NotifyCurrentState(cb);
    }

    method NotifySimulationEnd(cb: Callbacks)
      modifies this
      ensures Snapshot() == SimulationEndSpec(old(Snapshot()), cb)
    {
      if phase != Running {
        return;
      }
      simEnd := true;
      if initSimMsgSent {
        WaitForStop(cb);
      }
    }
  }
}
