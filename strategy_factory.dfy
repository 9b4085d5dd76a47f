/**
 * `UpdateStrategyFactory`: a fixed table from upper-case event type names to
 * the eight strategies, looked up after upper-casing the requested name.
 */
module StrategyFactory {
  import opened Optional
  import opened Text
  import opened Rules

  /** The table's key for each strategy. */
  function Name(k: Strategy): string {
    match k
    case CreatedStrategy => "CREATED"
    case ShippedStrategy => "SHIPPED"
    case LocationStrategy => "LOCATION"
    case DeliveredStrategy => "DELIVERED"
    case DelayedStrategy => "DELAYED"
    case CanceledStrategy => "CANCELED"
    case LostStrategy => "LOST"
    case NoteAddedStrategy => "NOTEADDED"
  }

  /** The table itself. */
  const Strategies: map<string, Strategy> := map[
    "CREATED" := CreatedStrategy,
    "SHIPPED" := ShippedStrategy,
    "LOCATION" := LocationStrategy,
    "DELIVERED" := DeliveredStrategy,
    "DELAYED" := DelayedStrategy,
    "CANCELED" := CanceledStrategy,
    "LOST" := LostStrategy,
    "NOTEADDED" := NoteAddedStrategy]

  /** `create`: the strategy registered under the upper-cased name, if any. */
  function Create(updateType: string): (r: Option<Strategy>)
    ensures r.Some? ==> EqualIgnoringCase(updateType, Name(r.value))
  {
    var key := Uppercase(updateType);
    if key in Strategies then
      var k := Strategies[key];
      assert Name(k) == key;
      UppercaseOfUpper(key);
      UppercaseIdentifiesCaseVariants(updateType, Name(k));
      Some(k)
    else None
  }

  /** Each strategy is found under its own name, in any letter case. */
  lemma CreateFindsEveryStrategy(k: Strategy, updateType: string)
    requires EqualIgnoringCase(updateType, Name(k))
    ensures Create(updateType) == Some(k)
  {
    UppercaseIdentifiesCaseVariants(updateType, Name(k));
    UppercaseOfUpper(Name(k));
  }

  /** A name finds a strategy exactly when it equals one of the eight names up
      to letter case; so misspellings, separators and padding find none. */
  lemma CreateDefinedIffKnownName(updateType: string)
    ensures Create(updateType).Some? <==> exists k: Strategy :: EqualIgnoringCase(updateType, Name(k))
  {
    if exists k: Strategy :: EqualIgnoringCase(updateType, Name(k)) {
      var k: Strategy :| EqualIgnoringCase(updateType, Name(k));
      CreateFindsEveryStrategy(k, updateType);
    }
  }

  /** Names that differ only in letter case find the same strategy. */
  lemma CreateIgnoresCase(a: string, b: string)
    requires EqualIgnoringCase(a, b)
    ensures Create(a) == Create(b)
  {
    UppercaseIdentifiesCaseVariants(a, b);
  }

  /** A few names the table does not hold. */
  lemma UnknownNames()
    ensures Create("NOTE_ADDED") == None
    ensures Create("CREATED ") == None
    ensures Create("") == None
    ensures Create("EXCEPTION") == None
  {
    assert Uppercase("NOTE_ADDED") == "NOTE_ADDED";
    assert Uppercase("CREATED ") == "CREATED ";
    assert Uppercase("EXCEPTION") == "EXCEPTION";
  }

  /** The strategy found for an event's type is the one whose name equals
      `getUpdateType()`; in particular NoteAddedStrategy is chosen exactly when
      the record written by `execute` carries a note. */
  lemma CreateOfUpperName(t: string, k: Strategy)
    requires Uppercase(t) == t
    ensures Create(t) == Some(k) <==> t == Name(k)
  {
    if t == Name(k) {
      CreateFindsEveryStrategy(k, t);
    }
  }
}
