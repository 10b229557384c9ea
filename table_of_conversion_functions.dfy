/**
 * The generic (from unit, to unit) lookup table of conversion functions, a map of
 * maps filled in place
 * (src/main/java/com/ciderref/sdk/property/units/TableOfConversionFunctions.java).
 */
module TableOfConversionFunctions {
  import opened Wrappers
  import opened Function

  /** The function a map of rows holds for (fromUnits, toUnits), None when none was put. */
  function Lookup<T>(m: map<T, map<T, Option<Function>>>, fromUnits: T, toUnits: T): Option<Function>
    requires fromUnits in m
  {
    if toUnits in m[fromUnits] then m[fromUnits][toUnits] else None
  }

  /**
   * Replacing one entry of one row, as `put` does, keeps the rows, makes that entry `f`
   * and leaves every other entry as it was.
   */
  lemma UpdateChangesOneEntry<T>(m: map<T, map<T, Option<Function>>>, fromUnits: T, toUnits: T, f: Option<Function>)
    requires fromUnits in m
    ensures var updated := m[fromUnits := m[fromUnits][toUnits := f]];
      && updated.Keys == m.Keys
      && Lookup(updated, fromUnits, toUnits) == f
      && forall a, b :: a in m && (a, b) != (fromUnits, toUnits) ==> Lookup(updated, a, b) == Lookup(m, a, b)
  {
  }

  class TableOfConversionFunctions<T(==,!new)> {
    /** One row per unit; an entry may hold a null function, modelled as None. */
    var functionMap: map<T, map<T, Option<Function>>>

    /** The function stored for (fromUnits, toUnits), None when none was put. */
    function Entry(fromUnits: T, toUnits: T): Option<Function>
      reads this
      requires fromUnits in functionMap
    {
      Lookup(functionMap, fromUnits, toUnits)
    }

    /** Creates an empty row for every unit in `values`. */
    constructor (values: seq<T>)
      ensures functionMap.Keys == set u | u in values
      ensures forall u :: u in functionMap ==> functionMap[u] == map[]
    {
      functionMap := map[];
      new;
      var i := 0;
      while i < |values|
        invariant 0 <= i <= |values|
        invariant functionMap.Keys == set u | u in values[..i]
        invariant forall u :: u in functionMap ==> functionMap[u] == map[]
      {
        functionMap := functionMap[values[i] := map[]];
        i := i + 1;
      }
      assert values[..i] == values;
    }

    /**
     * Stores `f` under (fromUnits, toUnits). A null unit throws IllegalArgumentException
     * and changes nothing; otherwise exactly that one entry changes (`UpdateChangesOneEntry`).
     */
    method Put(fromUnits: Option<T>, toUnits: Option<T>, f: Option<Function>) returns (r: Outcome)
      requires fromUnits.Some? ==> fromUnits.value in functionMap
      modifies this
      ensures fromUnits.None? || toUnits.None? ==> r == Fail(IllegalArgument) && functionMap == old(functionMap)
      ensures fromUnits.Some? && toUnits.Some? ==>
        && r == Pass
        && functionMap == old(functionMap)[fromUnits.value := old(functionMap)[fromUnits.value][toUnits.value := f]]
      ensures fromUnits.Some? && toUnits.Some? ==> GetFunction(fromUnits, toUnits) == Ok(f)
    {
      if fromUnits.None? || toUnits.None? {
        return Fail(IllegalArgument);
      }
      var row := functionMap[fromUnits.value];
      functionMap := functionMap[fromUnits.value := row[toUnits.value := f]];
      r := Pass;
    }

    /** `getFunction`: a null unit throws IllegalArgumentException; a pair never put gives null. */
    function GetFunction(fromUnits: Option<T>, toUnits: Option<T>): (r: Result<Option<Function>>)
      reads this
      requires fromUnits.Some? ==> fromUnits.value in functionMap
      ensures fromUnits.None? || toUnits.None? <==> r == Err(IllegalArgument)
      ensures fromUnits.Some? && toUnits.Some? ==> r.Ok?
      ensures fromUnits.Some? && toUnits.Some? && toUnits.value !in functionMap[fromUnits.value] ==>
        r == Ok(None)
    {
      if fromUnits.None? || toUnits.None? then Err(IllegalArgument)
      else Ok(Entry(fromUnits.value, toUnits.value))
    }
  }
}
