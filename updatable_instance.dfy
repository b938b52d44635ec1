/** The one-slot cell behind every cached Instance. */
module Instances {
  import opened Common

  class UpdatableInstance<T> {
    /** The current snapshot; None is Java's null. */
    var value: Option<T>

    /** A new cell holds null. */
    constructor ()
      ensures value == None
    {
      value := None;
    }

    /** Instance.get: reads the snapshot and changes nothing. */
    method Get() returns (v: Option<T>)
      ensures v == value
    {
      v := value;
    }

    /** update: overwrites the snapshot; update(null) empties the cell. */
    method Update(newValue: Option<T>)
      modifies this
      ensures value == newValue
    {
      value := newValue;
    }
  }

  /** update is last-write-wins: a fresh cell reads null, and after
      update(a) and update(b) it reads b. */
  method LastWriteWins<T>(a: Option<T>, b: Option<T>) returns (initial: Option<T>, v: Option<T>)
    ensures initial == None
    ensures v == b
  {
    var cell := new UpdatableInstance<T>();
    initial := cell.Get();
    cell.Update(a);
    cell.Update(b);
    v := cell.Get();
  }
}
