/** Names shared by the whole model. */
module Types {

  datatype Option<+T> = None | Some(value: T)

  /** UUIDs of requests and results, and the node ids of worker processes. */
  type Id = nat

  /** Tags of messages. */
  type Tag = nat

  /** The part of a request that the worker looks at: its id and the ids of its ancestors, root first. */
  datatype Request = Request(id: Id, stack: seq<Id>)

  datatype Config = Config(minimum: nat, maximum: Option<nat>, maxRetries: nat, maxRecursion: nat) {
    /** The prefetch starts at one at least, and no maximum forbids that. */
    predicate HasRoom() {
      minimum >= 1 && (maximum.Some? ==> maximum.value >= 1)
    }
  }
}
