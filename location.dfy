/** The (database, table, key) address of one document, its builder, and the
    Java object that caches its hash code. */
module Locations {
  import opened Common

  /** The address triple. Any field may be null. The key is an Object in the
      Java class; this model restricts it to strings. Java's equals compares
      the runtime class and then the three fields; every Location the source
      builds comes from `Builder.build()` and so has the one class
      `LocationClass`, and for those a datatype's equality is exactly the
      equality the Store's maps use. */
  datatype Location = Location(database: Option<string>, table: Option<string>, key: Option<string>)

  /** The runtime class name that `Builder.build()` instantiates. */
  const LocationClass: string := "com.ulfric.dragoon.rethink.Location"

  const Modulus: int := 0x1_0000_0000

  /** The overflow-free recurrence: s[0]*31^(n-1) + ... + s[n-1]. */
  function Polynomial(s: string): int
    decreases |s|
  {
    if |s| == 0 then 0 else 31 * Polynomial(s[..|s| - 1]) + s[|s| - 1] as int
  }

  lemma TimesPreservesCongruence(d: int, k: int)
    requires d % Modulus == 0
    ensures (k * d) % Modulus == 0
  {
    var q := d / Modulus;
    assert d == q * Modulus;
    assert k * d == (k * q) * Modulus;
  }

  lemma CongruenceTransitive(a: int, b: int, c: int)
    requires (a - b) % Modulus == 0 && (b - c) % Modulus == 0
    ensures (a - c) % Modulus == 0
  {
  }

  /** java.lang.String.hashCode: h = 31 * h + c over the characters, in int
      arithmetic. Wrapping after every step, as Java does, leaves the hash
      congruent modulo 2^32 to the overflow-free polynomial. */
  function StringHash(s: string): (r: int32)
    ensures (r as int - Polynomial(s)) % Modulus == 0
    decreases |s|
  {
    if |s| == 0 then 0
    else
      var p, c := s[..|s| - 1], s[|s| - 1] as int;
      var h := StringHash(p);
      TimesPreservesCongruence(h as int - Polynomial(p), 31);
      assert (31 * h as int + c) - (31 * Polynomial(p) + c) == 31 * (h as int - Polynomial(p));
      var r := WrapInt32(31 * h as int + c);
      CongruenceTransitive(r as int, 31 * h as int + c, Polynomial(s));
      r
  }

  /** Objects.hashCode of a field: 0 for null, the string's hash otherwise. */
  function FieldHash(f: Option<string>): (r: int32)
    ensures f.None? ==> r == 0
    ensures f.Some? ==> (r as int - Polynomial(f.value)) % Modulus == 0
  {
    match f
    case None => 0
    case Some(s) => StringHash(s)
  }

  /** Objects.hash(database, table, key), that is Arrays.hashCode of the
      three fields: start from 1 and fold h = 31 * h + hash(field). Modulo
      2^32 it is 31^3 + 31^2*hash(database) + 31*hash(table) + hash(key). */
  function Hash(l: Location): (r: int32)
    ensures (r as int - (29791 + 961 * FieldHash(l.database) as int
               + 31 * FieldHash(l.table) as int + FieldHash(l.key) as int)) % Modulus == 0
  {
    var d, t, k := FieldHash(l.database) as int, FieldHash(l.table) as int, FieldHash(l.key) as int;
    var h1 := WrapInt32(31 * 1 + d);
    var h2 := WrapInt32(31 * h1 as int + t);
    var r := WrapInt32(31 * h2 as int + k);
    TimesPreservesCongruence(h1 as int - (31 + d), 31);
    assert (31 * h1 as int + t) - (961 + 31 * d + t) == 31 * (h1 as int - (31 + d));
    CongruenceTransitive(h2 as int, 31 * h1 as int + t, 961 + 31 * d + t);
    TimesPreservesCongruence(h2 as int - (961 + 31 * d + t), 31);
    assert (31 * h2 as int + k) - (29791 + 961 * d + 31 * t + k) == 31 * (h2 as int - (961 + 31 * d + t));
    CongruenceTransitive(r as int, 31 * h2 as int + k, 29791 + 961 * d + 31 * t + k);
    r
  }

  /** A Location object: the immutable triple, its runtime class, and the
      hash code computed on first request. */
  class LocationObject {
    const runtimeClass: string
    const database: Option<string>
    const table: Option<string>
    const key: Option<string>
    var hashCode: int32
    var hashed: bool

    /** The cached hash, once computed, is the hash of the triple. */
    ghost predicate Valid()
      reads this
    {
      hashed ==> hashCode == Hash(Value())
    }

    function Value(): Location
    {
      Location(database, table, key)
    }

    constructor (runtimeClass: string, database: Option<string>, table: Option<string>, key: Option<string>)
      ensures this.runtimeClass == runtimeClass
      ensures Value() == Location(database, table, key)
      ensures Valid() && !hashed
    {
      this.runtimeClass := runtimeClass;
      this.database := database;
      this.table := table;
      this.key := key;
      hashCode := 0;
      hashed := false;
    }

    function GetDatabase(): (r: Option<string>)
      ensures r == Value().database
    {
      database
    }

    function GetTable(): (r: Option<string>)
      ensures r == Value().table
    {
      table
    }

    function GetKey(): (r: Option<string>)
      ensures r == Value().key
    {
      key
    }

    /** Location.equals: true for itself; false for null and for another
        runtime class; otherwise a null-safe comparison of the three fields. */
    function Equals(that: LocationObject?): (r: bool)
      ensures r <==> that != null && that.runtimeClass == runtimeClass && that.Value() == Value()
      ensures that == this ==> r
    {
      if that == this then true
      else if that == null then false
      else if that.runtimeClass != runtimeClass then false
      else database == that.database && table == that.table && key == that.key
    }

    /** Location.hashCode: computed on the first call and cached; every call
        returns the hash of the triple. */
    method HashCode() returns (h: int32)
      requires Valid()
      modifies this
      ensures Valid() && hashed
      ensures h == hashCode == Hash(Value())
      ensures old(hashed) ==> hashCode == old(hashCode)
    {
      if hashed {
        return hashCode;
      }
      hashCode := Hash(Value());
      hashed := true;
      return hashCode;
    }
  }

  /** Equal Location objects have equal hash codes. */
  lemma EqualObjectsHashAlike(a: LocationObject, b: LocationObject)
    requires a.Equals(b)
    ensures Hash(a.Value()) == Hash(b.Value())
    ensures b.Equals(a)
  {
  }

  /** Two calls of hashCode() on one Location return the same value. */
  method HashCodeTwice(l: LocationObject) returns (first: int32, second: int32)
    requires l.Valid()
    modifies l
    ensures l.Valid() && first == second == Hash(l.Value())
  {
    first := l.HashCode();
    second := l.HashCode();
  }

  /** Location.Builder: each setter records its argument and returns the
      builder itself; build() makes a Location of the current fields. */
  class Builder {
    var database: Option<string>
    var table: Option<string>
    var key: Option<string>

    constructor ()
      ensures database == None && table == None && key == None
    {
      database, table, key := None, None, None;
    }

    method Database(database: Option<string>) returns (self: Builder)
      modifies this
      ensures self == this
      ensures this.database == database && table == old(table) && key == old(key)
    {
      this.database := database;
      self := this;
    }

    method Table(table: Option<string>) returns (self: Builder)
      modifies this
      ensures self == this
      ensures this.table == table && database == old(database) && key == old(key)
    {
      this.table := table;
      self := this;
    }

    method Key(key: Option<string>) returns (self: Builder)
      modifies this
      ensures self == this
      ensures this.key == key && database == old(database) && table == old(table)
    {
      this.key := key;
      self := this;
    }

    method Build() returns (l: LocationObject)
      ensures fresh(l) && l.Valid() && !l.hashed
      ensures l.runtimeClass == LocationClass
      ensures l.Value() == Location(database, table, key)
    {
      l := new LocationObject(LocationClass, database, table, key);
    }
  }

  /** Setting the database twice and the key once: the getters give the last
      database, the key, and null for the table that was never set. */
  method BuildLastValueWins(first: string, second: string, key: string) returns (l: Location)
    ensures l == Location(Some(second), None, Some(key))
  {
    var b := new Builder();
    b := b.Database(Some(first));
    b := b.Database(Some(second));
    b := b.Key(Some(key));
    var built := b.Build();
    l := Location(built.GetDatabase(), built.GetTable(), built.GetKey());
  }
}
