/**
 * The shape of what the document store holds: keys, property values and
 * property maps. The store client itself is replaced by a map in Repository.
 */
module Datastore {
  import opened Wrappers

  /** A point in time; only its order matters to the core. */
  newtype Timestamp = int

  /** A key's `id_or_name`: a numeric id or a string name. */
  datatype KeyId = IntId(n: int) | NameId(s: string)

  /** A store key: optional parent key, kind tag and identifier. */
  datatype StoreKey = StoreKey(parent: Option<StoreKey>, kind: string, id: KeyId)

  /** The property values the Task documents use. */
  datatype Value =
    | Null
    | Text(s: string)
    | Stamp(t: Timestamp)
    | KeyRef(k: StoreKey)

  /** An entity's properties, by property name. */
  type Properties = map<string, Value>

  /** `datastore_client.key(kind, id)`: a root key. */
  function RootKey(kind: string, id: KeyId): StoreKey
  {
    StoreKey(None, kind, id)
  }
}
