/**
 * The two processes on one channel. The simulator's log and the
 * controller's log each record what their own side wrote and read. The
 * channel is in order and loses nothing, so each side reads a prefix of
 * what the other side wrote. From that alone, together with each side's
 * own invariant, the two logs agree: the simulator writes exactly where the
 * controller reads, and the reverse; the two sides are never more than one
 * frame apart; and every frame is answered in kind, the init message by the
 * acknowledgement and every state by an action message.
 */
module Lockstep {
  import opened Messages
  import G = GymInterface
  import C = Controller

  /** The frames the simulator wrote, in order. */
  function SimSent(log: seq<G.Event>): (fs: seq<SimFrame>)
    ensures |fs| <= |log|
    decreases |log|
  {
    if log == [] then []
    else
      var last := log[|log| - 1];
      SimSent(log[..|log| - 1]) + (if last.Sent? then [last.frame] else [])
  }

  /** The frames the simulator read, in order. */
  function SimReceived(log: seq<G.Event>): (rs: seq<CtrlFrame>)
    ensures |rs| <= |log|
    decreases |log|
  {
    if log == [] then []
    else
      var last := log[|log| - 1];
      SimReceived(log[..|log| - 1]) + (if last.Received? then [last.reply] else [])
  }

  /** The frames the controller wrote, in order. */
  function CtrlSent(log: seq<C.PyEvent>): (rs: seq<CtrlFrame>)
    ensures |rs| <= |log|
    decreases |log|
  {
    if log == [] then []
    else
      var last := log[|log| - 1];
      CtrlSent(log[..|log| - 1]) + (if last.PySent? then [last.reply] else [])
  }

  /** The frames the controller read, in order. */
  function CtrlReceived(log: seq<C.PyEvent>): (fs: seq<SimFrame>)
    ensures |fs| <= |log|
    decreases |log|
  {
    if log == [] then []
    else
      var last := log[|log| - 1];
      CtrlReceived(log[..|log| - 1]) + (if last.PyReceived? then [last.frame] else [])
  }

  /** A reply of the kind its frame asks for. */
  predicate Answers(f: SimFrame, r: CtrlFrame)
  {
    (f.InitFrame? && r.AckFrame?) || (f.StateFrame? && r.ActFrame?)
  }

  /** In an alternating simulator log the k-th write is at 2k and the k-th read at 2k + 1. */
  lemma {:induction false} SimViews(log: seq<G.Event>)
    requires G.Alternates(log)
    ensures |SimSent(log)| == (|log| + 1) / 2 && |SimReceived(log)| == |log| / 2
    ensures forall k :: 0 <= k < |SimSent(log)| ==> log[2 * k] == G.Sent(SimSent(log)[k])
    ensures forall k :: 0 <= k < |SimReceived(log)| ==> log[2 * k + 1] == G.Received(SimReceived(log)[k])
    decreases |log|
  {
    if log != [] {
      var init := log[..|log| - 1];
      assert G.Alternates(init) by {
        forall i | 0 <= i < |init| ensures init[i].Sent? <==> i % 2 == 0 {
          assert init[i] == log[i];
        }
      }
      SimViews(init);
      forall k | 0 <= k < |SimSent(init)| ensures log[2 * k] == G.Sent(SimSent(log)[k]) {
        assert log[2 * k] == init[2 * k];
      }
      forall k | 0 <= k < |SimReceived(init)| ensures log[2 * k + 1] == G.Received(SimReceived(log)[k]) {
        assert log[2 * k + 1] == init[2 * k + 1];
      }
    }
  }

  /** In an alternating controller log the k-th read is at 2k and the k-th write at 2k + 1. */
  lemma {:induction false} CtrlViews(log: seq<C.PyEvent>)
    requires C.PyAlternates(log)
    ensures |CtrlReceived(log)| == (|log| + 1) / 2 && |CtrlSent(log)| == |log| / 2
    ensures forall k :: 0 <= k < |CtrlReceived(log)| ==> log[2 * k] == C.PyReceived(CtrlReceived(log)[k])
    ensures forall k :: 0 <= k < |CtrlSent(log)| ==> log[2 * k + 1] == C.PySent(CtrlSent(log)[k])
    decreases |log|
  {
    if log != [] {
      var init := log[..|log| - 1];
      assert C.PyAlternates(init) by {
        forall i | 0 <= i < |init| ensures init[i].PyReceived? <==> i % 2 == 0 {
          assert init[i] == log[i];
        }
      }
      CtrlViews(init);
      forall k | 0 <= k < |CtrlReceived(init)| ensures log[2 * k] == C.PyReceived(CtrlReceived(log)[k]) {
        assert log[2 * k] == init[2 * k];
      }
      forall k | 0 <= k < |CtrlSent(init)| ensures log[2 * k + 1] == C.PySent(CtrlSent(log)[k]) {
        assert log[2 * k + 1] == init[2 * k + 1];
      }
    }
  }

  /**
   * Two alternating logs, each side having read a prefix of what the other
   * wrote: every frame read sits at the same position in the writer's log,
   * and the counts of the four directions lie within one of each other.
   */
  lemma {:induction false} SamePositions(slog: seq<G.Event>, clog: seq<C.PyEvent>)
    requires G.Alternates(slog) && C.PyAlternates(clog)
    requires SimReceived(slog) <= CtrlSent(clog)
    requires CtrlReceived(clog) <= SimSent(slog)
    ensures |SimReceived(slog)| <= |CtrlSent(clog)| <= |CtrlReceived(clog)| <= |SimSent(slog)| <= |SimReceived(slog)| + 1
    ensures forall i :: 0 <= i < |clog| && clog[i].PyReceived? ==> i < |slog| && slog[i] == G.Sent(clog[i].frame)
    ensures forall i :: 0 <= i < |slog| && slog[i].Received? ==> i < |clog| && clog[i] == C.PySent(slog[i].reply)
  {
    SimViews(slog);
    CtrlViews(clog);
    forall i | 0 <= i < |clog| && clog[i].PyReceived? ensures i < |slog| && slog[i] == G.Sent(clog[i].frame) {
      var k := i / 2;
      assert clog[2 * k] == C.PyReceived(CtrlReceived(clog)[k]);
      assert CtrlReceived(clog)[k] == SimSent(slog)[k];
    }
    forall i | 0 <= i < |slog| && slog[i].Received? ensures i < |clog| && clog[i] == C.PySent(slog[i].reply) {
      var k := i / 2;
      assert slog[2 * k + 1] == G.Received(SimReceived(slog)[k]);
      assert SimReceived(slog)[k] == CtrlSent(clog)[k];
    }
  }

  /**
   * With the positions agreeing, the kinds follow from each side's own
   * invariant: the simulator writes the init frame first and states after
   * it; the controller writes the acknowledgement second and actions after it.
   */
  lemma {:induction false} KindsMatch(slog: seq<G.Event>, clog: seq<C.PyEvent>)
    requires G.Alternates(slog) && C.PyAlternates(clog) && C.SentInKind(clog)
    requires |slog| > 0 ==> slog[0].Sent? && slog[0].frame.InitFrame?
    requires forall i :: 0 < i < |slog| && slog[i].Sent? ==> slog[i].frame.StateFrame?
    requires forall i :: 0 <= i < |clog| && clog[i].PyReceived? ==> i < |slog| && slog[i] == G.Sent(clog[i].frame)
    requires forall i :: 0 <= i < |slog| && slog[i].Received? ==> i < |clog| && clog[i] == C.PySent(slog[i].reply)
    ensures forall i :: 0 < i < |slog| && slog[i].Received? ==> slog[i - 1].Sent? && Answers(slog[i - 1].frame, slog[i].reply)
    ensures forall i :: 0 < i < |clog| && clog[i].PySent? ==> clog[i - 1].PyReceived? && Answers(clog[i - 1].frame, clog[i].reply)
  {
    forall i | 0 < i < |slog| && slog[i].Received? ensures slog[i - 1].Sent? && Answers(slog[i - 1].frame, slog[i].reply) {
      assert clog[i] == C.PySent(slog[i].reply);
    }
    forall i | 0 < i < |clog| && clog[i].PySent? ensures clog[i - 1].PyReceived? && Answers(clog[i - 1].frame, clog[i].reply) {
      assert clog[i - 1].PyReceived?;
      assert slog[i - 1] == G.Sent(clog[i - 1].frame);
    }
  }

  /**
   * A consistent simulator and a paired controller on one channel, each
   * having read a prefix of what the other wrote: the counts of the four
   * directions lie within one of each other, every frame a side read sits
   * at the same position in the writer's log, and every reply answers its
   * frame in kind.
   */
  lemma InStep(s: G.Session, e: C.Env)
    requires G.Consistent(s) && C.Paired(e)
    requires SimReceived(s.log) <= CtrlSent(e.log)
    requires CtrlReceived(e.log) <= SimSent(s.log)
    ensures |SimReceived(s.log)| <= |CtrlSent(e.log)| <= |CtrlReceived(e.log)| <= |SimSent(s.log)| <= |SimReceived(s.log)| + 1
    ensures forall i :: 0 <= i < |e.log| && e.log[i].PyReceived? ==> i < |s.log| && s.log[i] == G.Sent(e.log[i].frame)
    ensures forall i :: 0 <= i < |s.log| && s.log[i].Received? ==> i < |e.log| && e.log[i] == C.PySent(s.log[i].reply)
    ensures forall i :: 0 < i < |s.log| && s.log[i].Received? ==> s.log[i - 1].Sent? && Answers(s.log[i - 1].frame, s.log[i].reply)
    ensures forall i :: 0 < i < |e.log| && e.log[i].PySent? ==> e.log[i - 1].PyReceived? && Answers(e.log[i - 1].frame, e.log[i].reply)
  {
    SamePositions(s.log, e.log);
    KindsMatch(s.log, e.log);
  }

  /**
   * The same for every run of the simulator from a new interface: whatever
   * calls it receives, it stays in step with a paired controller that reads
   * what it writes and writes what it reads.
   */
  lemma RunInStep(replies: seq<CtrlFrame>, calls: seq<G.Call>, e: C.Env)
    requires C.Paired(e)
    requires SimReceived(G.Run(G.Fresh(replies), calls).log) <= CtrlSent(e.log)
    requires CtrlReceived(e.log) <= SimSent(G.Run(G.Fresh(replies), calls).log)
    ensures var s := G.Run(G.Fresh(replies), calls);
      && |SimReceived(s.log)| <= |CtrlSent(e.log)| <= |CtrlReceived(e.log)| <= |SimSent(s.log)| <= |SimReceived(s.log)| + 1
      && (forall i :: 0 < i < |s.log| && s.log[i].Received? ==> s.log[i - 1].Sent? && Answers(s.log[i - 1].frame, s.log[i].reply))
      && (forall i :: 0 < i < |e.log| && e.log[i].PySent? ==> e.log[i - 1].PyReceived? && Answers(e.log[i - 1].frame, e.log[i].reply))
  {
    G.FreshConsistent(replies);
    G.RunKeeps(G.Fresh(replies), calls);
    InStep(G.Run(G.Fresh(replies), calls), e);
  }
}
