/** How a promise ends, read as "all settled": the engine never observes
    timing, only whether a promise resolved, rejected, or never settles at
    all (a loader whose error callback is a no-op leaves its promise pending
    for ever). */
module Promises {

  datatype Settlement = Fulfilled | Rejected | Pending

  /** `Promise.all(ps)`: rejects as soon as any member rejects (whatever the
      others do), resolves once every member resolved, and otherwise stays
      pending. */
  function All(ps: seq<Settlement>): (r: Settlement)
    ensures r == Rejected <==> Rejected in ps
    ensures r == Fulfilled <==> forall i :: 0 <= i < |ps| ==> ps[i] == Fulfilled
    ensures r == Pending <==> Rejected !in ps && Pending in ps
    decreases |ps|
  {
    if |ps| == 0 then Fulfilled
    else
      var rest := All(ps[1..]);
      assert ps == [ps[0]] + ps[1..];
      if ps[0] == Rejected || rest == Rejected then Rejected
      else if ps[0] == Pending || rest == Pending then Pending
      else Fulfilled
  }

  /** `p.catch(handler)` with a handler that logs and returns: a rejection
      becomes a resolution; anything else passes through. */
  function Caught(p: Settlement): (r: Settlement)
    ensures r != Rejected
    ensures p != Rejected ==> r == p
  {
    if p == Rejected then Fulfilled else p
  }
}
