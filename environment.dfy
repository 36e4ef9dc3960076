/**
 * The environment object that the discovery client hands to every provider.
 *
 * A provider writes one JSON node under its own tag; a node is a map from
 * field name to a value. Only the three kinds of value the providers write
 * are modelled: whole numbers (timestamps, rounded accuracy), reals
 * (coordinates) and arrays of strings (BSSIDs).
 */
module Environment {
  import opened Wrappers

  datatype Field = IntField(n: int) | RealField(x: real) | StringList(items: seq<string>)

  /** One provider's node: field name to value. */
  type Record = map<string, Field>

  /** The whole environment: provider tag to node. */
  type Snapshot = map<string, Record>

  /**
   * The effect of a provider's `updateEnvironment` on the environment, given
   * the node it has to write (None when it has nothing to say): the tag is
   * added or overwritten, and every other tag keeps its node.
   */
  function Contribute(env: Snapshot, tag: string, node: Option<Record>): (r: Snapshot)
    ensures node.None? ==> r == env
    ensures node.Some? ==> r.Keys == env.Keys + {tag} && r[tag] == node.value
    ensures forall k :: k in env && k != tag ==> k in r && r[k] == env[k]
  {
    match node
    case None => env
    case Some(n) => env[tag := n]
  }

  /**
   * Providers with distinct tags do not interfere: the order in which the
   * client asks them to contribute does not change the environment.
   */
  lemma ContributionsCommute(env: Snapshot, tag1: string, node1: Option<Record>,
                             tag2: string, node2: Option<Record>)
    requires tag1 != tag2
    ensures Contribute(Contribute(env, tag1, node1), tag2, node2)
         == Contribute(Contribute(env, tag2, node2), tag1, node1)
  {
    if node1.Some? && node2.Some? {
      assert env[tag1 := node1.value][tag2 := node2.value]
          == env[tag2 := node2.value][tag1 := node1.value];
    }
  }

  /** The mutable JSON object a provider writes into in place. */
  class JsonObject {
    var entries: Snapshot

    constructor ()
      ensures entries == map[]
    {
      entries := map[];
    }

    /** `put(key, value)`: adds the key or replaces its value. */
    method Put(key: string, value: Record)
      modifies this
      ensures entries == old(entries)[key := value]
    {
      entries := entries[key := value];
    }
  }
}
