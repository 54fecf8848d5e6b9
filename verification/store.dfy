/** The slice of the hierarchical remote database the screens touch: records
    of named values at slash-separated paths, and the three kinds of write the
    app issues. The database itself is not modelled; writes are data, and
    `Apply` says what a completed write leaves behind. */
module Store {

  datatype Value = VStr(str: string) | VNum(num: real) | VInt(whole: int) | VList(items: seq<string>) | VNull

  /** A record: the children of one database node. */
  type Record = map<string, Value>

  /** A database path, one segment per element: "orders/user_123/k" is ["orders", "user_123", "k"]. */
  type Path = seq<string>

  /** A write request:
      - `SetRecord`: `setValue` of a whole object, replacing the node;
      - `SetChild`: `setValue` on the child `key` of the node at `path`;
      - `UpdateChildren`: `updateChildren`, a partial update of named children. */
  datatype Write =
    | SetRecord(path: Path, record: Record)
    | SetChild(path: Path, key: string, value: Value)
    | UpdateChildren(path: Path, fields: Record)

  /** The nodes of the database, each holding a record. */
  type Db = map<Path, Record>

  /** A partial update: each named child is overwritten, a null value deletes
      that child, and every other child is left as it was. */
  function ApplyUpdate(rec: Record, fields: Record): (r: Record)
    ensures forall k :: k in fields && fields[k] != VNull ==> k in r && r[k] == fields[k]
    ensures forall k :: k in fields && fields[k] == VNull ==> k !in r
    ensures forall k :: k !in fields ==> (k in r <==> k in rec)
    ensures forall k :: k !in fields && k in rec ==> r[k] == rec[k]
  {
    map k | k in rec.Keys + fields.Keys && !(k in fields && fields[k] == VNull) ::
      if k in fields then fields[k] else rec[k]
  }

  /** Applying the same partial update twice is the same as applying it once. */
  lemma ApplyUpdateIdempotent(rec: Record, fields: Record)
    ensures ApplyUpdate(ApplyUpdate(rec, fields), fields) == ApplyUpdate(rec, fields)
  {
    var once := ApplyUpdate(rec, fields);
    var twice := ApplyUpdate(once, fields);
    assert twice.Keys == once.Keys;
  }

  /** The record at `path`, or the empty record when the node is absent. */
  function At(db: Db, path: Path): Record {
    if path in db then db[path] else map[]
  }

  /** The database after a write completes successfully. */
  function Apply(db: Db, w: Write): (r: Db)
    ensures r.Keys == db.Keys + {w.path}
    ensures forall p :: p in db && p != w.path ==> r[p] == db[p]
    ensures w.SetRecord? ==> r[w.path] == w.record
    ensures w.SetChild? ==> r[w.path] == At(db, w.path)[w.key := w.value]
    ensures w.UpdateChildren? ==> r[w.path] == ApplyUpdate(At(db, w.path), w.fields)
  {
    match w
    case SetRecord(p, rec) => db[p := rec]
    case SetChild(p, k, v) => db[p := At(db, p)[k := v]]
    case UpdateChildren(p, fields) => db[p := ApplyUpdate(At(db, p), fields)]
  }
}
