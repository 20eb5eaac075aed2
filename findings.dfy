/**
 * The custom-value test of `filteredOptions` as written: `!values.find(v => v
 * === entryValue)` negates the element `find` returns rather than asking
 * whether one was found. The element found is the entry text itself, so when
 * the entry text is the empty string (the one falsy string) an existing ""
 * result does not stop a second "" from being put in front.
 */
module UseSearchFindings {
  import opened Wrappers
  import opened Primitives
  import opened UseSearch

  /** `values.find(v => v === x)`: the first element equal to `x`, if any. */
  function Find<T(==)>(values: seq<T>, x: T): (r: Option<T>)
    ensures r.Some? <==> x in values
    ensures r.Some? ==> r.value == x
  {
    if values == [] then None
    else if values[0] == x then Some(values[0])
    else Find(values[1..], x)
  }

  /**
   * `!values.find(v => v === entryValue)`: true when nothing is found, and
   * also when the found element, the string `entry`, is falsy, that is empty.
   */
  function NotFoundAsWritten<T(==)>(values: seq<T>, entry: string, env: Env<T>): bool
  {
    match Find(values, env.entryAsOption(entry))
    case None => true
    case Some(_) => entry == ""
  }

  /** `filteredOptions` exactly as lines 63-74 have it. */
  function FilteredOptionsAsWritten<T(==)>(props: Props<T>, env: Env<T>): (r: seq<T>)
    ensures !props.allowCustomValues ==> r == Base(props, env)
    ensures props.allowCustomValues ==> env.entryAsOption(props.entryValue) in r
  {
    var values := Base(props, env);
    if props.allowCustomValues && NotFoundAsWritten(values, props.entryValue, env)
    then [env.entryAsOption(props.entryValue)] + values
    else values
  }

  /** For any non-empty entry text the code as written and the corrected list agree. */
  lemma AsWrittenAgreesOnNonEmptyEntry<T>(props: Props<T>, env: Env<T>)
    requires props.entryValue != ""
    ensures FilteredOptionsAsWritten(props, env) == FilteredOptions(props, env)
  {
  }

  /**
   * Whenever the empty entry is already among the results and custom values
   * are on, the code as written puts it in front a second time.
   */
  lemma AsWrittenRepeatsPresentEmptyEntry<T>(props: Props<T>, env: Env<T>)
    requires props.entryValue == "" && props.allowCustomValues
    requires env.entryAsOption("") in Base(props, env)
    ensures FilteredOptionsAsWritten(props, env) == [env.entryAsOption("")] + Base(props, env)
    ensures FilteredOptions(props, env) == Base(props, env)
  {
  }

  /**
   * Options `[""]`, an accepting filterOption, search not skipped, custom
   * values on and an empty entry: the code as written shows "" twice, the
   * corrected list once.
   */
  lemma AsWrittenDuplicatesEmptyEntry()
    ensures var props := Props("", Predicate((v: string, o: string) => true), None,
                               (s: string) => false, [""], (o: string) => Str(o), true);
      var env := Env((name: string) => (o: string) => o,
                     (value: string, keys: seq<string>) => [],
                     (s: string) => s);
      FilteredOptionsAsWritten(props, env) == ["", ""] &&
      FilteredOptions(props, env) == [""]
  {
    var props := Props("", Predicate((v: string, o: string) => true), None,
                       (s: string) => false, [""], (o: string) => Str(o), true);
    var env: Env<string> := Env((name: string) => (o: string) => o,
                                (value: string, keys: seq<string>) => [],
                                (s: string) => s);
    AcceptAllKeepsAll(props.filterOption.p, "", [""]);
    assert Base(props, env) == [""];
  }
}
