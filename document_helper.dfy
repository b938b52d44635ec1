/** The unique id of a document, read from its location's key. */
module DocumentHelper {
  import opened Common
  import opened Locations
  import opened Documents

  /** The document exists, has a location, and that location a non-empty key. */
  predicate HasKey(document: Document?)
    reads document
  {
    && document != null
    && document.location.Some?
    && document.location.value.key.Some?
    && |document.location.value.key.value| > 0
  }

  /** getUniqueId: null for a null document, a null location, or a null or
      empty key; otherwise whatever the UUID parser (a foreign function,
      passed in as `parse`) makes of the key. */
  function GetUniqueId(document: Document?, parse: string -> Option<Uuid>): (r: Option<Uuid>)
    reads document
    ensures r.Some? ==> HasKey(document) && r == parse(document.location.value.key.value)
    ensures HasKey(document) ==> r == parse(document.location.value.key.value)
  {
    if document == null then None
    else if document.location.None? then None
    else
      match document.location.value.key
      case None => None
      case Some(key) => if |key| == 0 then None else parse(key)
  }

  /** Up to the key check the parser is never consulted: on those guards
      every parser gives the same (null) answer. */
  lemma GuardsDoNotParse(document: Document?, p: string -> Option<Uuid>, q: string -> Option<Uuid>)
    requires document == null || document.location.None?
      || document.location.value.key.None? || document.location.value.key.value == ""
    ensures GetUniqueId(document, p) == GetUniqueId(document, q) == None
  {
  }
}
