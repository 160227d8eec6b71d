/**
 * What INIT can and cannot take back: a handler that found its request in the slot may still send
 * its reply after INIT emptied it, and that is the only way a reply meets a slot that is not its own.
 */
module Abandonment {
  import opened Bytes
  import opened CtapHid
  import opened Protocol

  predicate OutOfTheSlot(s: State) {
    forall n <- s.abandoned :: n in s.requests && s.busy != Some(n)
  }

  lemma AbandonedStayOut(s: State, e: Event)
    requires Discipline(s) && OutOfTheSlot(s) && Next(s, e).issued < 0x1_0000_0000
    ensures OutOfTheSlot(Next(s, e))
  {
    hide Protocol.Moved, Accepted, Cancelled, Told, Connected, Closed, PhoneHandled, Delivered, Discipline;
    hide OutOfTheSlot;
    match e
    case Accept(channel, data) => AcceptedOnesAreNew(s, channel, data);
    case Cancel(target, abandon) => CancelledOnesLeave(s, target, abandon);
    case Handler(n, move) =>
      if Working(s, n) {
        MovingOnesStayOut(s, n, move);
      } else {
        OutlivesAnAside(s, s);
      }
    case _ =>
      TransportIsAside(s, e);
      OutlivesAnAside(s, Next(s, e));
  }

  lemma AcceptedOnesAreNew(s: State, channel: Channel, data: seq<byte>)
    requires Discipline(s) && OutOfTheSlot(s) && Accepted(s, channel, data).issued < 0x1_0000_0000
    ensures OutOfTheSlot(Accepted(s, channel, data))
  {
    hide InOrder, RepliesTo;
  }

  lemma CancelledOnesLeave(s: State, target: Option<Channel>, abandon: bool)
    requires OutOfTheSlot(s)
    ensures OutOfTheSlot(Cancelled(s, target, abandon))
  {
  }

  lemma MovingOnesStayOut(s: State, n: nat, move: Move)
    requires OutOfTheSlot(s) && Working(s, n)
    ensures OutOfTheSlot(Protocol.Moved(s, n, move))
  {
    hide Protocol.Moved;
    MovesAreOfFourKinds(s, n, move);
  }

  lemma OutlivesAnAside(s: State, t: State)
    requires OutOfTheSlot(s) && Aside(s, t)
    ensures OutOfTheSlot(t)
  {
  }

  lemma {:induction false} AbandonedStayOutAlways(s: State, events: seq<Event>)
    requires Discipline(s) && OutOfTheSlot(s) && Run(s, events).issued < 0x1_0000_0000
    ensures OutOfTheSlot(Run(s, events)) && Discipline(Run(s, events))
    decreases |events|
  {
    hide Next, Discipline, OutOfTheSlot;
    if events != [] {
      RunIsMonotone(Next(s, events[0]), events[1..]);
      StepsAreDisciplined(s, events[0]);
      AbandonedStayOut(s, events[0]);
      AbandonedStayOutAlways(Next(s, events[0]), events[1..]);
    }
  }

  /** A reply about to be sent is the current request's, exactly unless INIT abandoned that request meanwhile. */
  lemma RepliesMeetTheirSlotIff(events: seq<Event>, n: nat)
    requires Run(START, events).issued < 0x1_0000_0000
    requires var s := Run(START, events); n in s.stages && s.stages[n].Replying?
    ensures var s := Run(START, events); s.busy == Some(n) <==> n !in s.abandoned
  {
    hide Run, RepliesTo;
    AbandonedStayOutAlways(START, events);
    var s := Run(START, events);
    assert InOrder(s, n, s.stages[n]);
  }
}
