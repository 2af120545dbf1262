/** The values that cross the routing core's boundary: keys, records, fingers and
    the argument and reply structures of the two remote-callable handlers. */
module WhanauTypes {

  /** A peer's network endpoint; opaque to the routing core. */
  type Address = string

  /** A record key and a per-layer node identifier share one totally ordered type,
      so fingers and successor-table keys are directly comparable (Go: a string). */
  type KeyType = string

  /** Reply status (Go: `type Err string`); the handlers only ever write `OK`. */
  type Err = string

  const OK: Err := "OK"

  /** The payload a record carries: the addresses of the key's replica cluster.
      The routing core copies it and never interprets it. */
  datatype ValueType = ValueType(servers: seq<Address>)

  datatype Record = Record(key: KeyType, value: ValueType)

  /** A routing pointer discovered at one layer. */
  datatype Finger = Finger(id: KeyType, server: Address)

  datatype RandomWalkArgs = RandomWalkArgs(steps: int)
  datatype RandomWalkReply = RandomWalkReply(server: Address, err: Err)

  datatype GetIdArgs = GetIdArgs(layer: int)
  datatype GetIdReply = GetIdReply(key: KeyType, err: Err)

  /** The zero value Go gives a freshly declared `RandomWalkReply`. */
  const EmptyWalkReply := RandomWalkReply("", "")

  /** The key a finger table is sorted by: `ByFinger(FingerId)` is taken to order
      fingers by ascending `Id` under `<`. */
  function FingerId(f: Finger): KeyType { f.id }

  /** The key a successor table is sorted by: `By(RecordKey)` is taken to order
      records by ascending `Key` under `<`. */
  function RecordKey(r: Record): KeyType { r.key }
}
