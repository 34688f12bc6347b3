/**
 * The part of Firestore the webhook relies on: documents are maps from field
 * names to values, a collection maps document ids to documents, and the three
 * write operations (`set`, `set` with `{merge: true}`, `update`) and the
 * two-condition query are functions on collections.
 */
module Firestore {
  import opened Optional

  /** A field value as it is stored in a document. */
  datatype Value =
    | Null
    | Bool(b: bool)
    | Int(i: int)
    | Str(s: string)
    | Timestamp(millis: int)
    /** `FieldValue.serverTimestamp()`: the server fills in the time of the write;
        the model keeps the marker and abstracts the time itself. */
    | ServerTimestamp

  type Doc = map<string, Value>
  type Collection = map<string, Doc>

  /** `doc.data().field`: the stored value, or `undefined` when the field is absent. */
  function Get(d: Doc, field: string): (r: Option<Value>)
    ensures r.Some? <==> field in d
    ensures field in d ==> r.value == d[field]
  {
    if field in d then Some(d[field]) else None
  }

  /** JavaScript truthiness of a field read from a document. */
  predicate Truthy(v: Option<Value>)
  {
    match v
    case None => false
    case Some(Null) => false
    case Some(Bool(b)) => b
    case Some(Int(i)) => i != 0
    case Some(Str(s)) => s != ""
    case Some(Timestamp(_)) => true
    case Some(ServerTimestamp) => true
  }

  /** The document at `id`, or the empty document when there is none. */
  function Existing(c: Collection, id: string): Doc
  {
    if id in c then c[id] else map[]
  }

  /** `doc(id).set(d)`: the document is replaced wholesale (created when absent). */
  function Set(c: Collection, id: string, d: Doc): (r: Collection)
    ensures r.Keys == c.Keys + {id}
    ensures r[id] == d
    ensures forall k :: k in c && k != id ==> r[k] == c[k]
  {
    c[id := d]
  }

  /** `doc(id).set(fields, {merge: true})`: the named fields are written, every
      other field of an existing document is kept, a missing document is created. */
  function SetMerge(c: Collection, id: string, fields: Doc): (r: Collection)
    ensures r.Keys == c.Keys + {id}
    ensures r[id].Keys == Existing(c, id).Keys + fields.Keys
    ensures forall f :: f in fields ==> r[id][f] == fields[f]
    ensures forall f :: f in Existing(c, id) && f !in fields ==> f in r[id] && r[id][f] == Existing(c, id)[f]
    ensures forall k :: k in c && k != id ==> r[k] == c[k]
  {
    c[id := Existing(c, id) + fields]
  }

  /** `doc(id).update(fields)` on an existing document: only the named fields
      change. (Firestore rejects `update` on a missing document; every caller
      here has just read the document and found it.) */
  function Update(c: Collection, id: string, fields: Doc): (r: Collection)
    requires id in c
    ensures r.Keys == c.Keys
    ensures r[id].Keys == c[id].Keys + fields.Keys
    ensures forall f :: f in fields ==> r[id][f] == fields[f]
    ensures forall f :: f in c[id] && f !in fields ==> r[id][f] == c[id][f]
    ensures forall k :: k in c && k != id ==> r[k] == c[k]
  {
    c[id := c[id] + fields]
  }

  /** A document matches `where(field, "==", v)`: the field is present and equal to `v`. */
  predicate WhereEquals(d: Doc, field: string, v: Value)
  {
    field in d && d[field] == v
  }

  /** A document matches `where(field, "in", vs)`: the field is present and one of `vs`. */
  predicate WhereIn(d: Doc, field: string, vs: set<Value>)
  {
    field in d && d[field] in vs
  }

  /** Writing the same merge twice leaves the same document as writing it once. */
  lemma SetMergeIdempotent(c: Collection, id: string, fields: Doc)
    ensures SetMerge(SetMerge(c, id, fields), id, fields) == SetMerge(c, id, fields)
  {
    var once := SetMerge(c, id, fields);
    assert once[id] + fields == once[id];
  }

  /** Writing the same update twice leaves the same document as writing it once. */
  lemma UpdateIdempotent(c: Collection, id: string, fields: Doc)
    requires id in c
    ensures Update(Update(c, id, fields), id, fields) == Update(c, id, fields)
  {
    var once := Update(c, id, fields);
    assert once[id] + fields == once[id];
  }
}
