/**
 * The edge-detection policy of one GPIO interrupt object (`obj->event`) and the
 * pure case analysis that gpio_irq_set performs on it.
 */
module Policy {
  import opened Wrappers

  /** The four CG_INTActiveState values the driver uses. */
  datatype ActiveState = Invalid | Rising | Falling | Both

  /** mbed's gpio_irq_event: IRQ_NONE, IRQ_RISE, IRQ_FALL. */
  datatype IrqEvent = IrqNone | IrqRise | IrqFall

  /** The edges a policy reacts to; IRQ_NONE is never one of them. */
  function Edges(s: ActiveState): (r: set<IrqEvent>)
    ensures IrqNone !in r
    ensures r == {} <==> s == Invalid
    ensures |r| == 2 <==> s == Both
  {
    match s
    case Invalid => {}
    case Rising => {IrqRise}
    case Falling => {IrqFall}
    case Both => {IrqRise, IrqFall}
  }

  /** The policy that reacts to exactly the given edges: the inverse of Edges. */
  function StateFor(e: set<IrqEvent>): (s: ActiveState)
    requires IrqNone !in e
    ensures Edges(s) == e
  {
    assert e <= {IrqRise, IrqFall} by {
      forall x | x in e ensures x in {IrqRise, IrqFall} { assert x != IrqNone; }
    }
    if IrqRise in e && IrqFall in e then Both
    else if IrqRise in e then Rising
    else if IrqFall in e then Falling
    else Invalid
  }

  lemma EdgesInjective(s: ActiveState, t: ActiveState)
    requires Edges(s) == Edges(t)
    ensures s == t
  {
    assert StateFor(Edges(s)) == s;
  }

  /**
   * The policy after enabling an edge: the edge is added to those already
   * detected (lines 193-206 of the source).
   */
  function AddEdge(current: ActiveState, edge: IrqEvent): (s: ActiveState)
    requires edge != IrqNone
    ensures s != Invalid
    ensures Edges(s) == Edges(current) + {edge}
  {
    if edge == IrqRise then
      (if current == Falling || current == Both then Both else Rising)
    else
      assert edge == IrqFall;
      (if current == Rising || current == Both then Both else Falling)
  }

  /**
   * The policy after disabling an edge: the edge is removed from those
   * detected, except that when no edge would remain the result is Both, so
   * the result is never Invalid.
   */
  function RemoveEdge(current: ActiveState, edge: IrqEvent): (s: ActiveState)
    requires edge != IrqNone
    ensures s != Invalid
    ensures Edges(current) - {edge} != {} ==> Edges(s) == Edges(current) - {edge}
    ensures Edges(current) - {edge} == {} ==> s == Both
  {
    if edge == IrqRise then
      (if current == Rising || current == Invalid then Both else Falling)
    else
      assert edge == IrqFall;
      (if current == Falling || current == Invalid then Both else Rising)
  }

  /**
   * The new policy gpio_irq_set computes from the current one, the requested
   * edge and the enable flag, or None for any edge other than Rise or Fall,
   * on which gpio_irq_set stops in error().
   */
  function NextState(current: ActiveState, event: IrqEvent, enable: bool): (r: Option<ActiveState>)
    ensures r.None? <==> event == IrqNone
    ensures r.Some? ==> r.value != Invalid
    ensures r.Some? && enable ==> Edges(r.value) == Edges(current) + {event}
    ensures r.Some? && !enable && Edges(current) - {event} != {} ==>
              Edges(r.value) == Edges(current) - {event}
    ensures r.Some? && !enable && Edges(current) - {event} == {} ==> r.value == Both
  {
    if event == IrqNone then None
    else if enable then Some(AddEdge(current, event))
    else Some(RemoveEdge(current, event))
  }

  /** One call of gpio_irq_set: the edge and the enable flag (non-zero means true). */
  datatype Request = Request(event: IrqEvent, enable: bool)

  /**
   * The policy after the given gpio_irq_set calls, starting from s.  A call
   * that fails reaches error(), which does not return, so the calls after it
   * never run.
   */
  function Replay(s: ActiveState, reqs: seq<Request>): ActiveState
    decreases |reqs|
  {
    if reqs == [] then s
    else
      match NextState(s, reqs[0].event, reqs[0].enable)
      case None => s
      case Some(t) => Replay(t, reqs[1..])
  }

  /** A policy that is not Invalid stays so under any sequence of calls. */
  lemma {:induction false} ReplayKeepsValid(s: ActiveState, reqs: seq<Request>)
    requires s != Invalid
    ensures Replay(s, reqs) != Invalid
    decreases |reqs|
  {
    if reqs != [] {
      match NextState(s, reqs[0].event, reqs[0].enable)
      case None =>
      case Some(t) => ReplayKeepsValid(t, reqs[1..]);
    }
  }

  /**
   * gpio_irq_init sets the policy to Both; so no sequence of gpio_irq_set calls
   * after it ever reaches Invalid, and the pin-high branch of gpio_irq_set is
   * never taken.
   */
  lemma {:induction false} InitPolicyNeverInvalid(reqs: seq<Request>)
    ensures Replay(Both, reqs) != Invalid
  {
    ReplayKeepsValid(Both, reqs);
  }

  /** Enabling Rise and Fall, in either order, yields Both from any policy. */
  lemma EnableBothEdgesCommutes(s: ActiveState)
    ensures Replay(s, [Request(IrqRise, true), Request(IrqFall, true)]) == Both
    ensures Replay(s, [Request(IrqFall, true), Request(IrqRise, true)]) == Both
  {
    var rf := [Request(IrqRise, true), Request(IrqFall, true)];
    var fr := [Request(IrqFall, true), Request(IrqRise, true)];
    ReplayStep(s, rf);
    ReplayStep(AddEdge(s, IrqRise), rf[1..]);
    ReplayStep(s, fr);
    ReplayStep(AddEdge(s, IrqFall), fr[1..]);
    assert rf[1..][1..] == [] && fr[1..][1..] == [];
    match s
    case Invalid =>
    case Rising =>
    case Falling =>
    case Both =>
  }

  /** Replaying a non-empty list of enabling or disabling calls runs the first, then the rest. */
  lemma ReplayStep(s: ActiveState, reqs: seq<Request>)
    requires reqs != [] && reqs[0].event != IrqNone
    ensures Replay(s, reqs) == Replay(if reqs[0].enable then AddEdge(s, reqs[0].event)
                                      else RemoveEdge(s, reqs[0].event), reqs[1..])
  {
  }

  /**
   * Enabling Rise on a policy that does not detect Fall (Invalid or Rising)
   * and then disabling Rise again does not park the policy: the code yields
   * Both, not Invalid.
   */
  lemma EnableThenDisableRiseGivesBoth(s: ActiveState)
    requires IrqFall !in Edges(s)
    ensures Replay(s, [Request(IrqRise, true), Request(IrqRise, false)]) == Both
  {
    var rr := [Request(IrqRise, true), Request(IrqRise, false)];
    ReplayStep(s, rr);
    ReplayStep(AddEdge(s, IrqRise), rr[1..]);
    assert rr[1..][1..] == [];
    assert AddEdge(s, IrqRise) == Rising by {
      EdgesInjective(AddEdge(s, IrqRise), Rising);
    }
  }
}
