/** The vocabulary every engine module shares: keys, stored rows, cached entries and publications. */
module Types {

  datatype Option<+T> = None | Some(value: T)

  datatype NSKey = NSKey(namespace: string, key: string)

  /** A decoded document. The engine only ever copies one or compares two for equality. */
  type Value(==,!new)

  newtype byte = b: int | 0 <= b < 256

  type Bytes = seq<byte>

  /** One row of the store. Revision 0 means the store could not report one. */
  datatype Row = Row(raw: Bytes, revision: int, updatedAt: int, updatedBy: string)

  /** The published state of one key. Revision 0 means no row: the registered default is in force. */
  datatype Entry = Entry(value: Value, raw: Bytes, revision: int, updatedAt: int, updatedBy: string)

  /** One candidate value arriving at the ingress. */
  datatype Publication = Publication(
    key: NSKey,
    revision: int,
    value: Value,
    raw: Bytes,
    deleted: bool,
    updatedAt: int,
    updatedBy: string)

  /** The publication of a row the ingress decoded to `value`. */
  function RowPublication(nk: NSKey, row: Row, value: Value): Publication {
    Publication(nk, row.revision, value, row.raw, false, row.updatedAt, row.updatedBy)
  }

  /** The publication of a registered default: no row backs it, so it carries revision 0 and no provenance. */
  function DefaultPublication(nk: NSKey, def: Value, deleted: bool): Publication {
    Publication(nk, 0, def, [], deleted, 0, "")
  }

  function EntryOf(pub: Publication): Entry {
    Entry(pub.value, pub.raw, pub.revision, pub.updatedAt, pub.updatedBy)
  }
}
