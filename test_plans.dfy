/**
 * The option filter on the Beatles fixtures of the component's tests
 * (test/typeahead.test-todo.tsx), with string options used as their own
 * primitive and custom values resolved to a boolean beforehand.
 */
module TestPlans {
  import opened Wrappers
  import opened Primitives
  import opened UseSearch

  function Beatles(): seq<string>
  {
    ["John", "Paul", "George", "Ringo"]
  }

  /** Props for string options searched with `filterOption` and entry text `entry`. */
  function BeatlesProps(entry: string, fo: FilterOption<string>, skip: string -> bool, custom: bool): Props<string>
  {
    Props(entry, fo, None, skip, Beatles(), (o: string) => Str(o), custom)
  }

  /** A string option is its own fuzzy key. */
  lemma StringOptionsAreTheirKeys(props: Props<string>, env: Env<string>)
    requires props.filterOption.Unset? && forall o :: props.option2primitive(o) == Str(o)
    ensures Keys(Extractor(props, env), props.options) == props.options
  {
  }

  /** filterOption accepting everything, entry "xxx": all four options are shown. */
  lemma AcceptingFilterShowsAll(skip: string -> bool, env: Env<string>)
    requires !skip("xxx")
    ensures var props := BeatlesProps("xxx", Predicate((v: string, o: string) => true), skip, false);
      FilteredOptions(props, env) == Beatles() && |FilteredOptions(props, env)| == 4
  {
    var props := BeatlesProps("xxx", Predicate((v: string, o: string) => true), skip, false);
    AcceptAllKeepsAll(props.filterOption.p, "xxx", Beatles());
    assert Resolve(props, env).strategy == Filter(props.filterOption.p);
    assert Base(props, env) == KeepMatching(props.filterOption.p, "xxx", Beatles());
  }

  /** filterOption rejecting everything, entry "o": nothing is shown. */
  lemma RejectingFilterShowsNone(skip: string -> bool, env: Env<string>)
    requires !skip("o")
    ensures FilteredOptions(BeatlesProps("o", Predicate((v: string, o: string) => false), skip, false), env) == []
  {
    var props := BeatlesProps("o", Predicate((v: string, o: string) => false), skip, false);
    RejectAllKeepsNone(props.filterOption.p, "o", Beatles());
    assert Resolve(props, env).strategy == Filter(props.filterOption.p);
    assert Base(props, env) == KeepMatching(props.filterOption.p, "o", Beatles());
  }

  /** searchOptions overrides filtering: what it returns for "john" is shown as it is. */
  lemma SearchOptionsShownVerbatim(f: SearchOptionsFunction<string>, fo: FilterOption<string>,
                                   skip: string -> bool, env: Env<string>)
    requires !skip("john")
    ensures FilteredOptions(Props("john", fo, Some(f), skip, Beatles(), (o: string) => Str(o), false), env) ==
      f("john", Beatles())
  {
  }

  /**
   * allowCustomValues with an unmatched entry: "ZZZ" (long enough) is offered
   * alone, "zz" (too short, so custom values are off) gives nothing.
   */
  lemma CustomValueForUnmatchedEntry(skip: string -> bool, env: Env<string>)
    requires !skip("ZZZ") && !skip("zz")
    requires env.fuzzy("ZZZ", Beatles()) == [] && env.fuzzy("zz", Beatles()) == []
    requires forall s :: env.entryAsOption(s) == s
    ensures FilteredOptions(BeatlesProps("ZZZ", Unset, skip, true), env) == ["ZZZ"]
    ensures FilteredOptions(BeatlesProps("zz", Unset, skip, false), env) == []
  {
    StringOptionsAreTheirKeys(BeatlesProps("ZZZ", Unset, skip, true), env);
    StringOptionsAreTheirKeys(BeatlesProps("zz", Unset, skip, false), env);
  }
}
