/** The Lamport logical clock that the server and every client keep as a
    plain integer field, and the two rules that change it. */
module LamportClock {

  /** Receive rule: take the larger of the local value and the received
      stamp, then advance by one. The result exceeds both, and is the
      least value that does. */
  function Merge(local: int, received: int): (r: int)
    ensures r > local && r > received
    ensures r == local + 1 || r == received + 1
  {
    (if local < received then received else local) + 1
  }

  /** A local event that changes a clock: a tick before a send (or on
      shutdown), or the receipt of a stamped message. */
  datatype Event = Tick | Receive(stamp: int)

  function Step(clock: int, e: Event): (r: int)
    ensures r > clock
    ensures e.Receive? ==> r > e.stamp
  {
    match e
    case Tick => clock + 1
    case Receive(t) => Merge(clock, t)
  }

  /** The clock after a history of events, oldest first. */
  function Run(clock: int, events: seq<Event>): (r: int)
    ensures r >= clock + |events|
    decreases |events|
  {
    if events == [] then clock
    else Step(Run(clock, events[..|events| - 1]), events[|events| - 1])
  }

  lemma RunSnoc(clock: int, events: seq<Event>, e: Event)
    ensures Run(clock, events + [e]) == Step(Run(clock, events), e)
  {
    assert (events + [e])[..|events|] == events;
  }

  /** Along a history the clock advances by at least one per event:
      it never decreases and strictly increases on every event. */
  lemma {:induction false} RunAdvances(clock: int, events: seq<Event>, i: nat, j: nat)
    requires i <= j <= |events|
    ensures Run(clock, events[..i]) + (j - i) <= Run(clock, events[..j])
    decreases j - i
  {
    if i < j {
      RunAdvances(clock, events, i, j - 1);
      assert events[..j][..j - 1] == events[..j - 1];
    }
  }

  /** Causality: once a stamp has been received, the clock stays above it
      whatever happens afterwards. */
  lemma RunAboveReceived(clock: int, events: seq<Event>, k: nat)
    requires k < |events| && events[k].Receive?
    ensures Run(clock, events) > events[k].stamp
  {
    assert events[..k + 1][..k] == events[..k];
    RunAdvances(clock, events, k + 1, |events|);
    assert events[..|events|] == events;
  }
}
