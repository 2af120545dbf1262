/** The random walk as a function of the peer graph and of two oracles that stand
    for what the running system leaves to chance: which neighbour each hop picks
    (`rand.Intn`) and whether each forwarded hop's remote call succeeds (`call`).
    Hop `k` of a walk, counted from its origin, uses `choices[k]`, and the call
    that forwards the walk from hop `k` onwards is delivered iff `delivered[k]`. */
module Walk {
  import opened WhanauTypes

  /** Each known peer's neighbour list: the graph the walk runs over. */
  type Network = map<Address, seq<Address>>

  /** A peer that can serve a forwarded walk: it is known and has a neighbour to
      pick. A peer with no neighbours would panic in `rand.Intn(0)`; the model
      treats a walk forwarded to it as a failed call. */
  predicate Live(net: Network, a: Address) {
    a in net && |net[a]| > 0
  }

  /** The neighbour `rand.Intn` selects: any oracle value names one, and every
      neighbour can be named. */
  function Pick(nbrs: seq<Address>, choice: nat): (a: Address)
    requires |nbrs| > 0
    ensures a in nbrs
    ensures choice < |nbrs| ==> a == nbrs[choice]
  {
    nbrs[choice % |nbrs|]
  }

  /** What a walk brings back: the address of its last peer, or nothing. */
  datatype WalkOutcome = Reached(server: Address) | Failed

  /** The outcome of a walk of `steps` hops started by a peer whose neighbours are
      `nbrs`. With one step left the picked neighbour is the answer; otherwise the
      picked neighbour continues the walk with one step fewer, and its answer is
      taken only when the forwarding call was delivered. */
  function WalkFrom(nbrs: seq<Address>, net: Network, steps: int, choices: seq<nat>, delivered: seq<bool>): (r: WalkOutcome)
    requires |nbrs| > 0 && 1 <= steps <= |choices| && steps - 1 <= |delivered|
    ensures steps == 1 ==> r.Reached? && r.server in nbrs
    decreases steps
  {
    var neighbor := Pick(nbrs, choices[0]);
    if steps == 1 then Reached(neighbor)
    else if delivered[0] && Live(net, neighbor) then
      WalkFrom(net[neighbor], net, steps - 1, choices[1..], delivered[1..])
    else Failed
  }

  /** The peers a walk visits, in order, after its origin: it follows `choices`
      for `steps` hops and stops early at a peer that cannot carry the walk on. */
  function Hops(nbrs: seq<Address>, net: Network, steps: int, choices: seq<nat>): seq<Address>
    requires |nbrs| > 0 && steps <= |choices|
    decreases steps
  {
    if steps <= 0 then []
    else
      var next := Pick(nbrs, choices[0]);
      if steps > 1 && Live(net, next) then [next] + Hops(net[next], net, steps - 1, choices[1..])
      else [next]
  }

  /** `h` is a walk in `net` out of a peer with neighbours `nbrs`: its first peer is
      one of `nbrs`, and each later peer is a neighbour of the one before it. */
  ghost predicate IsWalk(nbrs: seq<Address>, net: Network, h: seq<Address>) {
    && (|h| > 0 ==> h[0] in nbrs)
    && (forall i :: 0 <= i < |h| - 1 ==> h[i] in net && h[i + 1] in net[h[i]])
  }

  /** The visited peers form a walk in the graph of at most `steps` hops. */
  lemma {:induction false} HopsIsWalk(nbrs: seq<Address>, net: Network, steps: int, choices: seq<nat>)
    requires |nbrs| > 0 && steps <= |choices|
    ensures var h := Hops(nbrs, net, steps, choices);
      IsWalk(nbrs, net, h) && |h| <= if steps < 0 then 0 else steps
    decreases steps
  {
    if steps > 1 {
      var next := Pick(nbrs, choices[0]);
      if Live(net, next) {
        var rest := Hops(net[next], net, steps - 1, choices[1..]);
        HopsIsWalk(net[next], net, steps - 1, choices[1..]);
        var h := [next] + rest;
        forall i | 0 <= i < |h| - 1
          ensures h[i] in net && h[i + 1] in net[h[i]]
        {
          if i > 0 {
            assert h[i] == rest[i - 1] && h[i + 1] == rest[i];
          }
        }
      }
    }
  }

  /** A walk succeeds exactly when it visits all `steps` peers and every forwarding
      call along the way is delivered; its answer is then the last peer visited.
      A failed walk names no peer at all: nothing stands in for the missing sample. */
  lemma {:induction false} WalkFollowsHops(nbrs: seq<Address>, net: Network, steps: int, choices: seq<nat>, delivered: seq<bool>)
    requires |nbrs| > 0 && 1 <= steps <= |choices| && steps - 1 <= |delivered|
    ensures var r := WalkFrom(nbrs, net, steps, choices, delivered);
      var h := Hops(nbrs, net, steps, choices);
      && (r.Reached? <==> |h| == steps && forall k :: 0 <= k < steps - 1 ==> delivered[k])
      && (r.Reached? ==> r.server == h[steps - 1])
    decreases steps
  {
    if steps > 1 {
      var next := Pick(nbrs, choices[0]);
      if Live(net, next) {
        WalkFollowsHops(net[next], net, steps - 1, choices[1..], delivered[1..]);
        var r := WalkFrom(nbrs, net, steps, choices, delivered);
        if forall k :: 0 <= k < steps - 1 ==> delivered[k] {
          assert forall k :: 0 <= k < steps - 2 ==> delivered[1..][k] == delivered[k + 1];
        } else if delivered[0] {
          var k :| 0 <= k < steps - 1 && !delivered[k];
          assert delivered[1..][k - 1] == delivered[k];
        }
      }
    }
  }

  /** A successful walk of `steps` hops ends at a peer reached from the origin by a
      walk of exactly `steps` hops through the graph. */
  lemma WalkEndsAtPathOfLength(nbrs: seq<Address>, net: Network, steps: int, choices: seq<nat>, delivered: seq<bool>)
    requires |nbrs| > 0 && 1 <= steps <= |choices| && steps - 1 <= |delivered|
    requires WalkFrom(nbrs, net, steps, choices, delivered).Reached?
    ensures var h := Hops(nbrs, net, steps, choices);
      && |h| == steps && IsWalk(nbrs, net, h)
      && h[steps - 1] == WalkFrom(nbrs, net, steps, choices, delivered).server
  {
    HopsIsWalk(nbrs, net, steps, choices);
    WalkFollowsHops(nbrs, net, steps, choices, delivered);
  }
}
