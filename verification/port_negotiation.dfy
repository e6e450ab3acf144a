/** Finding the port the server is started on: probe the configured port
    and, while it is occupied, the next one up (the loop in
    `startDeckerServer`). That loop has no bound; here a free port at
    or above the start is a precondition, and the search is measured by the
    distance to one. */
module PortNegotiation {

  ghost predicate HasFreePortFrom(occupied: int -> bool, start: int) {
    exists q :: q >= start && !occupied(q)
  }

  /** `p` is the smallest free port at or above `start`. */
  predicate IsLeastFree(occupied: int -> bool, start: int, p: int) {
    p >= start && !occupied(p) && forall q :: start <= q < p ==> occupied(q)
  }

  /** `probes` is start, start + 1, ..., last: increasing, one per port. */
  predicate CountsUp(probes: seq<int>, start: int, last: int) {
    |probes| == last - start + 1 && forall i :: 0 <= i < |probes| ==> probes[i] == start + i
  }

  /** The chosen port and the ports probed on the way, in order. */
  datatype Outcome = Outcome(port: int, probes: seq<int>)

  function NegotiateUpTo(occupied: int -> bool, start: int, ghost bound: int): (r: Outcome)
    requires start <= bound && !occupied(bound)
    ensures IsLeastFree(occupied, start, r.port) && r.port <= bound
    ensures CountsUp(r.probes, start, r.port)
    decreases bound - start
  {
    if !occupied(start) then Outcome(start, [start])
    else
      var rest := NegotiateUpTo(occupied, start + 1, bound);
      Outcome(rest.port, [start] + rest.probes)
  }

  ghost function SomeFreePort(occupied: int -> bool, start: int): (q: int)
    requires HasFreePortFrom(occupied, start)
    ensures q >= start && !occupied(q)
  {
    var q :| q >= start && !occupied(q); q
  }

  /** Negotiation from `start`: the least free port, after probing every
      port from `start` up to it exactly once, in increasing order. */
  function Negotiate(occupied: int -> bool, start: int): (r: Outcome)
    requires HasFreePortFrom(occupied, start)
    ensures IsLeastFree(occupied, start, r.port)
    ensures CountsUp(r.probes, start, r.port)
  {
    NegotiateUpTo(occupied, start, SomeFreePort(occupied, start))
  }

  /** The loop in `startDeckerServer`: probe, and while occupied
      step to the next port and probe again. */
  method NegotiateLoop(occupied: int -> bool, start: int) returns (port: int, probes: seq<int>)
    requires HasFreePortFrom(occupied, start)
    ensures IsLeastFree(occupied, start, port)
    ensures CountsUp(probes, start, port)
    ensures Outcome(port, probes) == Negotiate(occupied, start)
  {
    ghost var bound := SomeFreePort(occupied, start);
    port := start;
    probes := [port];
    var busy := occupied(port);
    while busy
      invariant start <= port <= bound
      invariant busy == occupied(port)
      invariant forall q :: start <= q < port ==> occupied(q)
      invariant CountsUp(probes, start, port)
      decreases bound - port
    {
      port := port + 1;
      probes := probes + [port];
      busy := occupied(port);
    }
    LeastFreeUnique(occupied, start, port, Negotiate(occupied, start).port);
  }

  lemma LeastFreeUnique(occupied: int -> bool, start: int, p: int, q: int)
    requires IsLeastFree(occupied, start, p) && IsLeastFree(occupied, start, q)
    ensures p == q
  {
  }

  /** Starting the search anywhere between the configured port and the
      negotiated one lands on the same port. */
  lemma NegotiateFromSkippedPort(occupied: int -> bool, start: int, mid: int)
    requires HasFreePortFrom(occupied, start)
    requires start <= mid <= Negotiate(occupied, start).port
    ensures HasFreePortFrom(occupied, mid)
    ensures Negotiate(occupied, mid).port == Negotiate(occupied, start).port
  {
    var p := Negotiate(occupied, start).port;
    assert p >= mid && !occupied(p);
    LeastFreeUnique(occupied, mid, p, Negotiate(occupied, mid).port);
  }
}
