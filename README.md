# Whanau routing tables, modelled in Dafny

This project models the per-peer routing engine of the Whanau distributed hash table (`src/whanau/routing.go`). Whanau is a Sybil-resistant DHT: each peer builds its routing tables from random walks over the peer graph. The model covers the three handlers of one peer (`WhanauServer`):

- **RandomWalk** runs a walk of fixed length over the neighbour graph. Each hop picks a neighbour. With one step left, that neighbour is the answer. Otherwise the walk is forwarded to the neighbour with one step fewer, and the neighbour's answer is copied into the reply only when the forwarded call succeeded with `OK`.
- **GetId** is a bounds-checked read of the peer's identifier at one layer.
- **Setup** is one rebuild pass. It replaces the sampled record database `db` and empties the per-layer tables. Then, for each layer in order, it appends the layer's identifier, a finger table sorted by `Id` and a successor table sorted by `Key`.

Modules:

- `WhanauTypes` (`types.dfy`): addresses, keys, records, fingers, and the argument and reply structures.
- `KeyOrder` (`keyorder.dfy`): Go's `<` on strings (`KeyLess`). Lemmas prove it is a strict total order.
- `Sorting` (`sorting.dfy`): the in-place table sort `SortBy(a, key)`. It stands for both `ByFinger(FingerId).Sort` and `By(RecordKey).Sort`.
- `Walk` (`walk.dfy`): the walk as a function `WalkFrom` of three inputs:
  - the peer graph (`Network`, a map from each address to its neighbour list);
  - a choice oracle: a sequence of indices, one per hop, standing for `rand.Intn`;
  - a delivery oracle: a sequence of booleans, one per forwarded call, standing for the success flag of the transport `call`.

  `Hops` is the sequence of peers the walk visits.
- `Routing` (`routing.dfy`): the class `WhanauServer`. Its fields are `myaddr`, `neighbors`, `db`, `ids`, `fingers` and `succ`. `RandomWalk` and `GetId` take the caller's reply and return it as the handler leaves it. `Setup` reassigns the fields.

The helpers `SampleRecords`, `ChooseID`, `ConstructFingers` and `Successors` are called by `Setup`, but their bodies are not part of this model. They are passed to `Setup` as the function fields of a `Collaborators` value:

- `sampleRecords` receives `(rd, w)`.
- The three per-layer helpers also receive the peer's tables as far as the pass has built them, because they run in the middle of the pass.

The transport `call(neighbor, "WhanauServer.RandomWalk", …)` is `CallRandomWalk`. When the call is delivered, the remote peer serves it on a fresh, zero-valued reply, and that peer's answer is given by the walk function `WalkFrom`.

Details of the code that the model keeps:

- `Setup` takes the six parameters `nlayers, rf, w, rd, rs, t` of routing.go:53. The test harness calls it with none (test_test.go:183), and that harness is left out.
- `GetId` on an unpopulated layer leaves the reply untouched and sets no error code (routing.go:35-39).
- The reply status is the string type `Err`, and the handlers only ever write `OK`.

## Model

| member | source | states |
|---|---|---|
| `KeyOrder.KeyLessIrreflexive` | src/whanau/routing.go:69-74 | no key sorts strictly before itself |
| `KeyOrder.KeyLessAsymmetric` | src/whanau/routing.go:69-74 | if `a < b` then not `b < a` |
| `KeyOrder.KeyLessTransitive` | src/whanau/routing.go:69-74 | `a < b` and `b < c` give `a < c` |
| `KeyOrder.KeyLessTotal` | src/whanau/routing.go:69-74 | two distinct keys are ordered one way or the other, so the table sorts have a total order to sort by |
| `KeyOrder.KeyLeTransitive` | src/whanau/routing.go:69-74 | `<=` on keys is transitive |
| `KeyOrder.KeyLeAntisymmetric` | src/whanau/routing.go:69-74 | `a <= b` and `b <= a` only for equal keys |
| `KeyOrder.KeyLess` | src/whanau/routing.go:69-74 | Go's `<` on the key strings the two sorts compare by: nothing is below the empty string, and a proper prefix sorts before the longer string |
| `Sorting.SortBy` | src/whanau/routing.go:69-74 | after the in-place sort the table's keys never decrease, and the table is a permutation of what it held before |
| `Sorting.InsertLast` | src/whanau/routing.go:69-74 | one insertion step: a sorted prefix grows by one element, only rearranging the array and leaving the rest as it was |
| `Sorting.SortedPermutationsShareKeys` | src/whanau/routing.go:69-74 | any two sorted permutations of one table list the same keys in the same order, so the choice of sort algorithm can only change the order of entries with equal keys |
| `Walk.Pick` | src/whanau/routing.go:11-12 | the neighbour a hop picks is a member of the picking peer's neighbour list |
| `Walk.WalkFrom` | src/whanau/routing.go:8-28 | with one step left, the walk always succeeds and answers with a neighbour of the peer that handles it |
| `Walk.HopsIsWalk` | src/whanau/routing.go:11-24 | the peers a walk visits form a walk in the graph, each a neighbour of the one before, and there are at most `steps` of them |
| `Walk.WalkFollowsHops` | src/whanau/routing.go:16-25 | a walk succeeds exactly when it visits all `steps` peers and every forwarded call is delivered; on success its answer is the last peer visited |
| `Walk.WalkEndsAtPathOfLength` | src/whanau/routing.go:16-24 | a successful walk of `k` steps answers with the end of a path of exactly `k` hops from its origin through the neighbour graph |
| `Routing.CallRandomWalk` | src/whanau/routing.go:17-21 | the forwarded call returns true exactly when it is delivered to a peer that can serve it; when it fails, the reply is the fresh zero reply; when it succeeds, the reply is `OK` exactly when that peer's walk of `steps - 1` hops succeeds, and it then names that walk's answer |
| `Routing.WhanauServer.RandomWalk` | src/whanau/routing.go:8-28 | the reply gets the walk's answer and `OK` exactly when the walk succeeds, and is otherwise unchanged; with one step it is `OK` with a neighbour of this peer |
| `Routing.WhanauServer.GetId` | src/whanau/routing.go:31-41 | the reply becomes `(ids[layer], OK)` when `0 <= layer < len(ids)`, and is left as it was otherwise; the peer is not modified |
| `Routing.WhanauServer.Setup` | src/whanau/routing.go:53-79 | `db` is the freshly sampled `SampleRecords(rd, w)`; `ids`, `fingers` and `succ` each have one entry per layer (none when `nlayers <= 0`); layer `i` holds `ChooseID(i)`, a finger table sorted by `Id` and a successor table sorted by `Key`, each a permutation of what its builder returned once the earlier layers were in place; nothing depends on the tables held before the pass |
| `Routing.LayersKept` | src/whanau/routing.go:64-75 | appending the next layer leaves every earlier layer as it was built |

## Left out

- `src/whanau/test_test.go` is not part of this model. It contains:
  - socket paths and server start and stop;
  - concurrent `Setup` runs on goroutines;
  - RSA signing;
  - the Paxos cluster;
  - the float-valued parameter derivations;
  - the statistical coverage checks.
- Randomness and the network are replaced by explicit oracles: a choice sequence for `rand.Intn` and a delivery sequence for the transport's success flag. The uniform distribution of the walk, and therefore its mixing and sampling guarantees, are not modelled.
- A forwarded hop to a peer that is not in the network map, or that has no neighbours, is treated by the model as a failed call (`call` returning false). For a peer with no neighbours the handler would panic in `rand.Intn(0)`. Go's RPC server does not recover that panic, so it ends the process hosting the peer. Treating it as a failed call matches a peer that runs in its own process. When several peers share one process, the panic would end every peer in it, and the model does not capture that.
- Every peer in the network map is assumed to run this same `RandomWalk` handler. `CallRandomWalk` gives a remote peer's answer as `WalkFrom` of that peer, but the handler copies whatever `Server` the neighbour returns. A dishonest (Sybil) peer could answer with any address. `Walk.WalkEndsAtPathOfLength` therefore holds only when every peer on the path is honest.
- `Walk.WalkFrom` and `Routing.WhanauServer.RandomWalk` require `steps >= 1`. The source never reaches its `steps == 1` base case for `steps <= 0`, and would keep forwarding until a call failed. They also require a non-empty neighbour list, because `rand.Intn(0)` panics.
- The bodies of `SampleRecords`, `ChooseID`, `ConstructFingers` and `Successors` are not part of this model. They are arbitrary functions. `sampleRecords` is taken not to read the peer's previous tables, and the others see only the tables the current pass has built so far.
- `Lookup`, `ChooseFinger`, the Paxos replication layer, and signing and verification are not part of this model.
- Concurrency is not modelled: neither a `Setup` racing a `Lookup` on the same peer, nor the interleaving of several peers' passes. The model treats each handler as one atomic step.
- The sort is modelled as an insertion sort, while Go's `sort.Sort` uses a different, unstable algorithm. `Routing.WhanauServer.Setup` promises only "sorted and a permutation", which both sorts satisfy. `Sorting.SortedPermutationsShareKeys` shows that the two can differ only in the order of entries with equal keys.
- The comparators `FingerId` and `RecordKey` passed to `ByFinger(...)` and `By(...)` are not part of this model. The model assumes both are the ascending `<` on the finger's `Id` and on the record's `Key`, and sorts by those fields as keys.
- `Routing.WhanauServer.RandomWalk` requires that, when the network map lists this peer, it lists the peer's own `neighbors`. The peer's neighbour list is stored both in the object and in the map, and a walk that returns to this peer reads the map.
- `KeyType` is a sequence of characters compared by code point. Go compares strings byte by byte. The two orders agree on well-formed UTF-8, but ill-formed byte strings are not modelled.
- Go's 64-bit `int` is modelled as an unbounded integer. No computation here (`steps - 1`, `i++` up to `nlayers`) comes near the bounds.
- Debug logging (`DPrintf`) is left out, because it does not affect state.
