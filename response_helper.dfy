/** Whether a write Response reports that data changed. */
module ResponseHelper {
  import opened Common
  import opened Responses

  /** isPositive: null, zero and negative counters are not positive. */
  function IsPositive(v: Option<int32>): (b: bool)
    ensures v.None? ==> !b
    ensures v.Some? ==> (b <==> v.value > 0)
  {
    v.Some? && v.value > 0
  }

  /** The counters that take part in changedData. */
  predicate IsChangeCounter(c: Counter)
  {
    c == Inserted || c == Replaced || c == Deleted || c == DatabasesCreated || c == TablesCreated
  }

  /** changedData: some change counter is present and positive. */
  function ChangedData(response: Response): (b: bool)
    reads response
    ensures b <==> exists c :: IsChangeCounter(c) && IsPositive(response.Get(c))
  {
    assert IsChangeCounter(Inserted) && IsChangeCounter(Replaced) && IsChangeCounter(Deleted);
    assert IsChangeCounter(DatabasesCreated) && IsChangeCounter(TablesCreated);
    IsPositive(response.inserted)
      || IsPositive(response.replaced)
      || IsPositive(response.deleted)
      || IsPositive(response.databasesCreated)
      || IsPositive(response.tablesCreated)
  }

  /** unchanged, errors, skipped, synced and generatedKeys never affect
      changedData: two responses that agree on the five change counters agree
      on it. */
  lemma OnlyChangeCountersMatter(a: Response, b: Response)
    requires forall c :: IsChangeCounter(c) ==> a.Get(c) == b.Get(c)
    ensures ChangedData(a) == ChangedData(b)
  {
  }

  /** A response with every change counter null or non-positive is not a
      change, whatever its other counters report. */
  lemma NoPositiveChangeCounterIsUnchanged(r: Response)
    requires forall c :: IsChangeCounter(c) ==> !IsPositive(r.Get(c))
    ensures !ChangedData(r)
  {
  }

  /** A positive inserted counter alone makes a change. */
  lemma InsertedIsAChange(r: Response)
    requires IsPositive(r.inserted)
    ensures ChangedData(r)
  {
  }

  /** A freshly constructed Response (all null) reports no change. */
  method FreshResponseIsUnchanged() returns (r: Response)
    ensures fresh(r) && !ChangedData(r)
  {
    r := new Response();
  }
}
