/** The base class of stored entities, and the records the codec maps them
    to and from. */
module Documents {
  import opened Common
  import opened Locations

  /** A JSON value as the codec produces it (integral numbers only). */
  datatype Json =
    | JsonNull
    | JsonBool(b: bool)
    | JsonNumber(n: int)
    | JsonString(s: string)
    | JsonArray(elements: seq<Json>)
    | JsonObject(members: map<string, Json>)

  /** A stored document: the members of one JSON object. */
  type Record = map<string, Json>

  class Document {
    /** The entity's runtime class (a subclass of Document). */
    const runtimeClass: string
    /** The address; transient, so it is never part of `fields`. */
    var location: Option<Location>
    /** The entity's serialised (non-transient) fields. */
    var fields: Record

    constructor (runtimeClass: string, fields: Record)
      ensures this.runtimeClass == runtimeClass && this.fields == fields
      ensures location == None
    {
      this.runtimeClass := runtimeClass;
      this.fields := fields;
      location := None;
    }

    /** setLocation changes the location and nothing else. */
    method SetLocation(location: Option<Location>)
      modifies this
      ensures this.location == location && fields == old(fields)
    {
      this.location := location;
    }

    /** Document.equals: true for itself; false for null and for another
        runtime class; otherwise the locations are compared (null equals
        null) and the content is ignored. */
    function Equals(that: Document?): (r: bool)
      reads this, that
      ensures r <==> that != null && that.runtimeClass == runtimeClass && that.location == location
    {
      if this == that then true
      else if that == null then false
      else if that.runtimeClass != runtimeClass then false
      else location == that.location
    }

    /** Document.hashCode: Objects.hashCode of the location, 0 for null. */
    function HashCode(): (h: int32)
      reads this
      ensures location.None? ==> h == 0
      ensures location.Some? ==> h == Hash(location.value)
    {
      match location
      case None => 0
      case Some(l) => Hash(l)
    }
  }

  /** Equal documents have equal hash codes, whatever their content. */
  lemma EqualDocumentsHashAlike(a: Document, b: Document)
    requires a.Equals(b)
    ensures a.HashCode() == b.HashCode()
    ensures b.Equals(a)
  {
  }

  /** Two documents of one class at one address are equal even when their
      fields differ. */
  lemma EqualityIgnoresContent(a: Document, b: Document)
    requires a.runtimeClass == b.runtimeClass && a.location == b.location
    ensures a.Equals(b) && b.Equals(a)
  {
  }

  /** The codec's decoding of a point read: a missing record (JSON null)
      decodes to null; a record decodes to a new entity of the given class
      with those fields and a null location, the location being transient. */
  method Decode(record: Option<Record>, runtimeClass: string) returns (d: Option<Document>)
    ensures record.None? ==> d.None?
    ensures record.Some? ==>
              && d.Some? && fresh(d.value)
              && d.value.fields == record.value && d.value.location == None
              && d.value.runtimeClass == runtimeClass
  {
    match record
    case None =>
      d := None;
    case Some(r) =>
      var doc := new Document(runtimeClass, r);
      d := Some(doc);
  }
}
