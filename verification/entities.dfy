/** The stored entity and its encoding, shared by the log, the batcher and the file store. */
module Entities {
  import opened Wrappers
  import opened WalCodec

  datatype Entity = Entity(key: Bytes, sk: Bytes, body: Bytes)

  /** The CBOR codec of the log: encoding may fail, and decoding is tried as an entity and then as any value. */
  datatype Codec = Codec(
    encode: Entity -> Option<Bytes>,
    decode: Bytes -> Option<Entity>,
    decodeAny: Bytes -> Option<Bytes>)

  /** Decoding is the inverse of encoding. */
  ghost predicate Faithful(c: Codec) {
    forall e :: c.encode(e).Some? ==> c.decode(c.encode(e).value) == Some(e)
  }

  /** A row is addressed by its table and its primary key. */
  datatype RowKey = RowKey(table: Bytes, key: Bytes)

  datatype Change = Put(entity: Entity) | Remove

  type Rows = map<RowKey, Entity>

  function Apply(rows: Rows, k: RowKey, c: Change): Rows {
    match c
    case Put(e) => rows[k := e]
    case Remove => rows - {k}
  }

  function Outcome(c: Change): Option<Entity> {
    match c
    case Put(e) => Some(e)
    case Remove => None
  }
}
