/** How a Store's default Location is made from its @Database annotation and
    the configured default names. */
module StoreFactory {
  import opened Common
  import opened Locations

  /** The placeholder that stands for the configured name. */
  const DefaultKey: string := "<default>"

  /** The @Database annotation: value() names the database, table() the
      table; both default to the placeholder. */
  datatype DatabaseAnnotation = DatabaseAnnotation(value: string, table: string)

  const DefaultAnnotation: DatabaseAnnotation := DatabaseAnnotation(DefaultKey, DefaultKey)

  /** The two settings the factory reads. */
  datatype RethinkConfig = RethinkConfig(defaultDatabase: string, defaultTable: string)

  /** target occurs in s at position i. */
  predicate OccursAt(s: string, target: string, i: nat)
  {
    i + |target| <= |s| && s[i..i + |target|] == target
  }

  predicate Occurs(s: string, target: string)
  {
    exists i: nat | i <= |s| :: OccursAt(s, target, i)
  }

  /** String.replace(CharSequence, CharSequence): every occurrence of target,
      scanned left to right without overlap, becomes replacement; an empty
      target puts replacement before every character and at the end. */
  function Replace(s: string, target: string, replacement: string): (r: string)
    ensures |target| == 0 ==> |r| == |s| + (|s| + 1) * |replacement|
    ensures |target| > 0 && |replacement| == |target| ==> |r| == |s|
    decreases |s|
  {
    if |target| == 0 then
      if |s| == 0 then replacement else replacement + [s[0]] + Replace(s[1..], target, replacement)
    else if |s| < |target| then s
    else if s[..|target|] == target then replacement + Replace(s[|target|..], target, replacement)
    else [s[0]] + Replace(s[1..], target, replacement)
  }

  /** A string without the target is left as it is. */
  lemma {:induction false} ReplaceWithoutOccurrence(s: string, target: string, replacement: string)
    requires |target| > 0 && !Occurs(s, target)
    ensures Replace(s, target, replacement) == s
    decreases |s|
  {
    if |s| >= |target| {
      assert !OccursAt(s, target, 0);
      assert s[..|target|] != target;
      forall i: nat | OccursAt(s[1..], target, i)
        ensures false
      {
        assert s[1..][i..i + |target|] == s[i + 1..i + 1 + |target|];
        assert OccursAt(s, target, i + 1);
      }
      ReplaceWithoutOccurrence(s[1..], target, replacement);
      assert s == [s[0]] + s[1..];
    }
  }

  /** The target itself becomes exactly the replacement. */
  lemma ReplaceWhole(target: string, replacement: string)
    requires |target| > 0
    ensures Replace(target, target, replacement) == replacement
  {
  }

  /** request(type, parameters): the default Location. The placeholder is
      replaced by the configured default database in value() and by the
      configured default table in table(); the key is left null. */
  function DefaultLocation(annotation: DatabaseAnnotation, settings: RethinkConfig): (l: Location)
    ensures l.key == None
    ensures l.database.Some? && l.table.Some?
  {
    Location(Some(Replace(annotation.value, DefaultKey, settings.defaultDatabase)),
             Some(Replace(annotation.table, DefaultKey, settings.defaultTable)),
             None)
  }

  /** With the annotation's defaults the Store addresses exactly the
      configured database and table. */
  lemma DefaultAnnotationGivesConfiguredNames(settings: RethinkConfig)
    ensures DefaultLocation(DefaultAnnotation, settings)
         == Location(Some(settings.defaultDatabase), Some(settings.defaultTable), None)
  {
    ReplaceWhole(DefaultKey, settings.defaultDatabase);
    ReplaceWhole(DefaultKey, settings.defaultTable);
  }

  /** Names without the placeholder are used verbatim. */
  lemma ExplicitNamesAreVerbatim(annotation: DatabaseAnnotation, settings: RethinkConfig)
    requires !Occurs(annotation.value, DefaultKey) && !Occurs(annotation.table, DefaultKey)
    ensures DefaultLocation(annotation, settings)
         == Location(Some(annotation.value), Some(annotation.table), None)
  {
    ReplaceWithoutOccurrence(annotation.value, DefaultKey, settings.defaultDatabase);
    ReplaceWithoutOccurrence(annotation.table, DefaultKey, settings.defaultTable);
  }
}
