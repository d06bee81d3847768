/** `convert_objectid` (backend utils.py): the values a MongoDB document
    decodes to, and the transform that replaces every ObjectId by its string
    form before a document is returned as JSON. */
module ObjectIds {

  /** A decoded BSON value. `ObjectId(hex)` carries its 24-character
      hexadecimal string form, which is what `str(oid)` returns; `Other`
      stands for every other leaf the driver produces (datetime, bytes,
      Decimal128, ...). */
  datatype PyValue =
    | ObjectId(hex: string)
    | PyStr(s: string)
    | PyInt(i: int)
    | PyFloat(x: real)
    | PyBool(b: bool)
    | PyNone
    | PyList(items: seq<PyValue>)
    | PyDict(entries: map<string, PyValue>)
    | Other(tag: string)

  /** No ObjectId occurs anywhere in the tree. */
  predicate NoObjectId(v: PyValue)
  {
    match v
    case ObjectId(_) => false
    case PyList(items) => forall i :: 0 <= i < |items| ==> NoObjectId(items[i])
    case PyDict(m) => forall k :: k in m ==> NoObjectId(m[k])
    case _ => true
  }

  function ConvertObjectId(v: PyValue): (r: PyValue)
    ensures NoObjectId(r)
    ensures v.PyList? ==> r.PyList? && |r.items| == |v.items|
    ensures v.PyDict? ==> r.PyDict? && r.entries.Keys == v.entries.Keys
    ensures v.ObjectId? ==> r == PyStr(v.hex)
    ensures !v.PyList? && !v.PyDict? && !v.ObjectId? ==> r == v
  {
    match v
    case PyList(items) => PyList(seq(|items|, i requires 0 <= i < |items| => ConvertObjectId(items[i])))
    case PyDict(m) => PyDict(map k | k in m :: ConvertObjectId(m[k]))
    case ObjectId(hex) => PyStr(hex)
    case _ => v
  }

  /** Lists are mapped element by element, in order. */
  lemma ListsConvertElementwise(items: seq<PyValue>, i: int)
    requires 0 <= i < |items|
    ensures ConvertObjectId(PyList(items)).items[i] == ConvertObjectId(items[i])
  {
  }

  /** Dictionaries keep every key and convert only the value under it. */
  lemma DictsConvertValues(m: map<string, PyValue>, k: string)
    requires k in m
    ensures k in ConvertObjectId(PyDict(m)).entries
    ensures ConvertObjectId(PyDict(m)).entries[k] == ConvertObjectId(m[k])
  {
  }

  /** A tree without ObjectIds is left exactly as it is. */
  lemma {:induction false} ConvertFixesClean(v: PyValue)
    requires NoObjectId(v)
    ensures ConvertObjectId(v) == v
  {
    match v
    case PyList(items) =>
      forall i | 0 <= i < |items| ensures ConvertObjectId(items[i]) == items[i] {
        ConvertFixesClean(items[i]);
      }
      assert ConvertObjectId(v).items == items;
    case PyDict(m) =>
      forall k | k in m ensures ConvertObjectId(m[k]) == m[k] {
        ConvertFixesClean(m[k]);
      }
      assert ConvertObjectId(v).entries == m;
    case _ =>
  }

  /** Converting twice is converting once. */
  lemma ConvertIdempotent(v: PyValue)
    ensures ConvertObjectId(ConvertObjectId(v)) == ConvertObjectId(v)
  {
    ConvertFixesClean(ConvertObjectId(v));
  }
}
