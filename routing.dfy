/** One peer's routing state and the three routing handlers that read and rebuild it. */
module Routing {
  import opened WhanauTypes
  import opened Sorting
  import opened Walk

  /** The tables a peer holds, as one value: what the table-building helpers see
      of the peer when they run in the middle of a setup pass. */
  datatype RoutingTables = RoutingTables(
    db: seq<Record>,
    ids: seq<KeyType>,
    fingers: seq<seq<Finger>>,
    succ: seq<seq<Record>>)

  /** The helpers a setup pass calls, whose bodies (random walks, remote calls and
      random choices) are outside this model. Each is given what it reads: the
      sample sizes and walk length, and, for the per-layer helpers, the peer's
      tables as far as the pass has built them. */
  datatype Collaborators = Collaborators(
    sampleRecords: (int, int) -> seq<Record>,                        // SampleRecords(rd, w)
    chooseId: (RoutingTables, int) -> KeyType,                         // ChooseID(i)
    constructFingers: (RoutingTables, int, int, int) -> seq<Finger>,   // ConstructFingers(i, rf, w)
    successors: (RoutingTables, int, int, int, int) -> seq<Record>)    // Successors(i, w, rs, t)

  /** The parameters of a setup pass: layers, finger-table size, walk length,
      database size, nodes sampled for successors, successors per sampled node. */
  datatype SetupParams = SetupParams(nlayers: int, rf: int, w: int, rd: int, rs: int, t: int)

  /** How many times `for i := 0; i < nlayers; i++` runs. */
  function LayerCount(nlayers: int): nat {
    if nlayers < 0 then 0 else nlayers
  }

  /** The tables as the pass had built them when layer `k`'s identifier was chosen
      (`stage` 0), its fingers constructed (1) or its successors collected (2). */
  function Stage(s: RoutingTables, k: nat, stage: nat): RoutingTables
    requires k < |s.ids| && k < |s.fingers| && k < |s.succ| && stage <= 2
  {
    RoutingTables(s.db,
      s.ids[..if stage >= 1 then k + 1 else k],
      s.fingers[..if stage >= 2 then k + 1 else k],
      s.succ[..k])
  }

  /** Layer `k` holds the identifier chosen for it, a finger table sorted by id and a
      successor table sorted by key, each table a rearrangement of what its builder
      returned when the earlier layers were already in place. */
  ghost predicate LayerBuilt(env: Collaborators, p: SetupParams, s: RoutingTables, k: nat)
    requires k < |s.ids| && k < |s.fingers| && k < |s.succ|
  {
    && s.ids[k] == env.chooseId(Stage(s, k, 0), k)
    && SortedBy(s.fingers[k], FingerId)
    && multiset(s.fingers[k]) == multiset(env.constructFingers(Stage(s, k, 1), k, p.rf, p.w))
    && SortedBy(s.succ[k], RecordKey)
    && multiset(s.succ[k]) == multiset(env.successors(Stage(s, k, 2), k, p.w, p.rs, p.t))
  }

  /** The tables a complete setup pass leaves: a freshly sampled database and one
      identifier, finger table and successor table per layer, built in layer order.
      Nothing in it refers to the tables the peer held before the pass. */
  ghost predicate Built(env: Collaborators, p: SetupParams, s: RoutingTables) {
    && s.db == env.sampleRecords(p.rd, p.w)
    && |s.ids| == LayerCount(p.nlayers)
    && |s.fingers| == LayerCount(p.nlayers)
    && |s.succ| == LayerCount(p.nlayers)
    && forall k: nat :: k < |s.ids| ==> LayerBuilt(env, p, s, k)
  }

  /** How a reply ends up after a walk: filled in with the walk's answer, or left as
      it was when the walk failed. */
  function Deliver(reply: RandomWalkReply, outcome: WalkOutcome): RandomWalkReply {
    match outcome
    case Reached(server) => reply.(server := server, err := OK)
    case Failed => reply
  }

  /** The transport `call(to, "WhanauServer.RandomWalk", args, &reply)`: when the
      call is delivered to a peer that can serve it, that peer runs the same walk
      handler on a fresh reply and the call returns true with that reply; otherwise
      it returns false and the fresh reply. */
  function CallRandomWalk(net: Network, to: Address, args: RandomWalkArgs, choices: seq<nat>,
                          delivered: bool, later: seq<bool>): (r: (bool, RandomWalkReply))
    requires 1 <= args.steps <= |choices| && args.steps - 1 <= |later|
    ensures r.0 <==> delivered && Live(net, to)
    ensures !r.0 ==> r.1 == EmptyWalkReply
    ensures r.0 ==> (r.1.err == OK <==> WalkFrom(net[to], net, args.steps, choices, later).Reached?)
    ensures r.1.err == OK ==> r.0 && r.1.server == WalkFrom(net[to], net, args.steps, choices, later).server
  {
    if delivered && Live(net, to) then
      (true, Deliver(EmptyWalkReply, WalkFrom(net[to], net, args.steps, choices, later)))
    else
      (false, EmptyWalkReply)
  }

  class WhanauServer {
    var myaddr: Address
    var neighbors: seq<Address>
    var db: seq<Record>
    var ids: seq<KeyType>
    var fingers: seq<seq<Finger>>
    var succ: seq<seq<Record>>

    /** A peer that has not run a setup pass yet. */
    constructor (addr: Address, nbrs: seq<Address>)
      ensures myaddr == addr && neighbors == nbrs
      ensures Tables() == RoutingTables([], [], [], [])
    {
      myaddr, neighbors := addr, nbrs;
      db, ids, fingers, succ := [], [], [], [];
    }

    function Tables(): RoutingTables
      reads this
    {
      RoutingTables(db, ids, fingers, succ)
    }

    /** Handles one hop of a random walk of `args.steps` hops: picks a neighbour,
        answers with it when this is the last hop, and otherwise forwards the walk
        to it, copying its answer into `reply` only when the forwarded call
        succeeded with `OK`. */
    method RandomWalk(args: RandomWalkArgs, reply: RandomWalkReply, net: Network,
                      choices: seq<nat>, delivered: seq<bool>) returns (out: RandomWalkReply)
      requires |neighbors| > 0
      requires myaddr in net ==> net[myaddr] == neighbors
      requires 1 <= args.steps <= |choices| && args.steps - 1 <= |delivered|
      ensures out == Deliver(reply, WalkFrom(neighbors, net, args.steps, choices, delivered))
      ensures args.steps == 1 ==> out.err == OK && out.server in neighbors
      ensures out.err != OK ==> out == reply
    {
      var steps := args.steps;
      var randIndex := choices[0] % |neighbors|;
      var neighbor := neighbors[randIndex];
      out := reply;
      if steps == 1 {
        out := out.(server := neighbor, err := OK);
      } else {
        var forward := RandomWalkArgs(steps - 1);
        var (ok, rpcReply) := CallRandomWalk(net, neighbor, forward, choices[1..], delivered[0], delivered[1..]);
        if ok && rpcReply.err == OK {
          out := out.(server := rpcReply.server, err := OK);
        }
      }
    }

    /** Answers with this peer's identifier at `args.layer` when that layer is
        populated, and leaves `reply` as it was otherwise. */
    method GetId(args: GetIdArgs, reply: GetIdReply) returns (out: GetIdReply)
      ensures 0 <= args.layer < |ids| ==> out == GetIdReply(ids[args.layer], OK)
      ensures !(0 <= args.layer < |ids|) ==> out == reply
    {
      var layer := args.layer;
      out := reply;
      if 0 <= layer && layer < |ids| {
        var id := ids[layer];
        out := out.(key := id, err := OK);
      }
    }

    /** Rebuilds the peer's tables from scratch: resamples the database, empties the
        identifier, finger and successor tables, and then fills them layer by layer,
        sorting each layer's finger table by id and successor table by key. */
    method Setup(nlayers: int, rf: int, w: int, rd: int, rs: int, t: int, env: Collaborators)
      modifies this
      ensures myaddr == old(myaddr) && neighbors == old(neighbors)
      ensures Built(env, SetupParams(nlayers, rf, w, rd, rs, t), Tables())
    {
      ghost var p := SetupParams(nlayers, rf, w, rd, rs, t);
      db := env.sampleRecords(rd, w);

      ids := [];
      fingers := [];
      succ := [];
      var i := 0;
      while i < nlayers
        invariant 0 <= i <= LayerCount(nlayers)
        invariant myaddr == old(myaddr) && neighbors == old(neighbors)
        invariant db == env.sampleRecords(rd, w)
        invariant |ids| == i && |fingers| == i && |succ| == i
        invariant forall k: nat :: k < i ==> LayerBuilt(env, p, Tables(), k)
      {
        ghost var before := Tables();
        ids := ids + [env.chooseId(Tables(), i)];

        ghost var withId := Tables();
        var curFingerTable := env.constructFingers(Tables(), i, rf, w);
        var fingerArray := new Finger[|curFingerTable|](k requires 0 <= k < |curFingerTable| => curFingerTable[k]);
        assert fingerArray[..] == curFingerTable;
        SortBy(fingerArray, FingerId);
        fingers := fingers + [fingerArray[..]];

        ghost var withFingers := Tables();
        var curSuccessorTable := env.successors(Tables(), i, w, rs, t);
        var succArray := new Record[|curSuccessorTable|](k requires 0 <= k < |curSuccessorTable| => curSuccessorTable[k]);
        assert succArray[..] == curSuccessorTable;
        SortBy(succArray, RecordKey);
        succ := succ + [succArray[..]];

        LayersKept(env, p, before, Tables());
        assert Stage(Tables(), i, 0) == before;
        assert Stage(Tables(), i, 1) == withId;
        assert Stage(Tables(), i, 2) == withFingers;
        i := i + 1;
      }
    }
  }

  /** Appending a layer leaves the layers built before it as they were. */
  lemma LayersKept(env: Collaborators, p: SetupParams, s: RoutingTables, s': RoutingTables)
    requires |s.ids| == |s.fingers| == |s.succ|
    requires |s'.ids| == |s'.fingers| == |s'.succ| == |s.ids| + 1
    requires s'.db == s.db
    requires s'.ids[..|s.ids|] == s.ids && s'.fingers[..|s.ids|] == s.fingers && s'.succ[..|s.ids|] == s.succ
    requires forall k: nat :: k < |s.ids| ==> LayerBuilt(env, p, s, k)
    ensures forall k: nat :: k < |s.ids| ==> LayerBuilt(env, p, s', k)
  {
    forall k: nat | k < |s.ids|
      ensures LayerBuilt(env, p, s', k)
    {
      assert LayerBuilt(env, p, s, k);
      assert Stage(s', k, 0) == Stage(s, k, 0);
      assert Stage(s', k, 1) == Stage(s, k, 1);
      assert Stage(s', k, 2) == Stage(s, k, 2);
      assert s'.ids[k] == s.ids[k] && s'.fingers[k] == s.fingers[k] && s'.succ[k] == s.succ[k];
    }
  }
}
