/** The outcome of a write as the driver reports it: a mutable record of
    optional (nullable) int counters and the generated keys. */
module Responses {
  import opened Common

  /** The nine counters, one per getter/setter pair of the Java class. */
  datatype Counter =
    | Deleted | Inserted | Unchanged | Replaced | Errors | Skipped | Synced
    | DatabasesCreated | TablesCreated

  class Response {
    var deleted: Option<int32>
    var inserted: Option<int32>
    var unchangedCount: Option<int32>  // `unchanged` is a Dafny keyword
    var replaced: Option<int32>
    var errors: Option<int32>
    var skipped: Option<int32>
    var synced: Option<int32>
    var databasesCreated: Option<int32>
    var tablesCreated: Option<int32>
    var generatedKeys: Option<seq<Uuid>>

    /** A new Response has every field null. */
    constructor ()
      ensures forall c :: Get(c) == None
      ensures generatedKeys == None
    {
      deleted, inserted, unchangedCount, replaced, errors := None, None, None, None, None;
      skipped, synced, databasesCreated, tablesCreated := None, None, None, None;
      generatedKeys := None;
    }

    /** The getter of one counter: each returns its own field. */
    function Get(c: Counter): (r: Option<int32>)
      reads this
      ensures c == Deleted ==> r == deleted
      ensures c == Inserted ==> r == inserted
      ensures c == Unchanged ==> r == unchangedCount
      ensures c == Replaced ==> r == replaced
      ensures c == Errors ==> r == errors
      ensures c == Skipped ==> r == skipped
      ensures c == Synced ==> r == synced
      ensures c == DatabasesCreated ==> r == databasesCreated
      ensures c == TablesCreated ==> r == tablesCreated
    {
      match c
      case Deleted => deleted
      case Inserted => inserted
      case Unchanged => unchangedCount
      case Replaced => replaced
      case Errors => errors
      case Skipped => skipped
      case Synced => synced
      case DatabasesCreated => databasesCreated
      case TablesCreated => tablesCreated
    }

    /** The setter of one counter: it changes that counter and nothing else. */
    method Set(c: Counter, v: Option<int32>)
      modifies this
      ensures Get(c) == v
      ensures forall d :: d != c ==> Get(d) == old(Get(d))
      ensures generatedKeys == old(generatedKeys)
    {
      match c
      case Deleted => deleted := v;
      case Inserted => inserted := v;
      case Unchanged => unchangedCount := v;
      case Replaced => replaced := v;
      case Errors => errors := v;
      case Skipped => skipped := v;
      case Synced => synced := v;
      case DatabasesCreated => databasesCreated := v;
      case TablesCreated => tablesCreated := v;
    }

    method SetGeneratedKeys(keys: Option<seq<Uuid>>)
      modifies this
      ensures generatedKeys == keys
      ensures forall c :: Get(c) == old(Get(c))
    {
      generatedKeys := keys;
    }
  }
}
