/** Rewriting of the document key that carries a record's identity: the
    store's `_id` becomes the API's `id` on the way out, and `id` is
    dropped on the way in. Both rewrites change the document they are
    given and hand the same document back. */
module ObjectIds {

  /** A field value. `ObjectIdValue` is a store-generated identifier shown
      as its hexadecimal text; `Text` is a string; `Other` stands for any
      other value, carrying what `str` prints for it. */
  datatype Value = ObjectIdValue(hex: string) | Text(text: string) | Other(shown: string)

  /** Python's `str` of a field value. */
  function Str(v: Value): string {
    match v
    case ObjectIdValue(hex) => hex
    case Text(text) => text
    case Other(shown) => shown
  }

  /** A mutable document (a Python `dict`). */
  class Document {
    var fields: map<string, Value>

    constructor(fields: map<string, Value>)
      ensures this.fields == fields
    {
      this.fields := fields;
    }
  }

  /** The fields after `convert_object_id`: with an `_id`, its text is
      stored under `id` and `_id` is removed; without one, nothing changes. */
  function Converted(fields: map<string, Value>): (r: map<string, Value>)
    ensures "_id" !in r
    ensures "_id" in fields ==> "id" in r && r["id"] == Text(Str(fields["_id"]))
    ensures "_id" !in fields ==> r == fields
    ensures forall k :: k in fields && k != "_id" && k != "id" ==> k in r && r[k] == fields[k]
    ensures forall k :: k in r ==> k == "id" || k in fields
  {
    if "_id" in fields then fields["id" := Text(Str(fields["_id"]))] - {"_id"} else fields
  }

  /** Converting twice is converting once. */
  lemma ConvertedIdempotent(fields: map<string, Value>)
    ensures Converted(Converted(fields)) == Converted(fields)
  {
  }

  /** `convert_object_id`: a missing document is handed back as it is;
      otherwise its fields are converted in place and the same document
      is returned. */
  method ConvertObjectId(doc: Document?) returns (r: Document?)
    modifies doc
    ensures r == doc
    ensures doc != null ==> doc.fields == Converted(old(doc.fields))
  {
    if doc != null && |doc.fields| > 0 && "_id" in doc.fields {
      doc.fields := doc.fields["id" := Text(Str(doc.fields["_id"]))];
      doc.fields := doc.fields - {"_id"};
    }
    r := doc;
  }

  /** The fields after `prepare_mongo_doc`: `id` removed, everything else kept. */
  function Prepared(fields: map<string, Value>): (r: map<string, Value>)
    ensures "id" !in r
    ensures forall k :: k != "id" ==> (k in r <==> k in fields)
    ensures forall k :: k in r ==> r[k] == fields[k]
  {
    fields - {"id"}
  }

  /** Preparing twice is preparing once. */
  lemma PreparedIdempotent(fields: map<string, Value>)
    ensures Prepared(Prepared(fields)) == Prepared(fields)
  {
  }

  /** A document read back from the store and converted, then prepared for
      writing, has lost its identity key altogether. */
  lemma ConvertedThenPrepared(fields: map<string, Value>)
    ensures "_id" !in Prepared(Converted(fields)) && "id" !in Prepared(Converted(fields))
    ensures forall k :: k != "_id" && k != "id" ==>
              (k in Prepared(Converted(fields)) <==> k in fields)
  {
  }

  /** `prepare_mongo_doc`: removes `id` in place and returns the same document. */
  method PrepareMongoDoc(doc: Document) returns (r: Document)
    modifies doc
    ensures r == doc && doc.fields == Prepared(old(doc.fields))
  {
    if "id" in doc.fields {
      doc.fields := doc.fields - {"id"};
    }
    r := doc;
  }
}
