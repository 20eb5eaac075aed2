/**
 * The option filter of the typeahead (`useSearch`): which search strategy is
 * chosen from the props, what each strategy returns, and how the displayed
 * list is assembled from the entry text, including the custom-value entry.
 * `useMemo` caching is not modelled: both memoised values are plain functions
 * of the props.
 */
module UseSearch {
  import opened Wrappers
  import opened Primitives

  /** `(value: string, options: Opt[]) => Opt[]`, the searchOptions prop. */
  type SearchOptionsFunction<!T> = (string, seq<T>) -> seq<T>

  /** `(value: string, option: Opt) => boolean`, filterOption given as a function. */
  type OptionPredicate<!T> = (string, T) -> bool

  /** Results of the `fuzzy` library: the list indices that matched, best first. */
  type Matches = seq<nat>

  /** Every index the fuzzy library reports points into the list it was given. */
  ghost predicate InRange(m: (string, seq<string>) -> Matches)
  {
    forall value, keys, k :: 0 <= k < |m(value, keys)| ==> m(value, keys)[k] < |keys|
  }

  /**
   * `fuzzy.filter(value, list, { extract })`, seen through the keys `extract`
   * produces for the list. Its scoring stays abstract.
   */
  type Matcher = m: (string, seq<string>) -> Matches | InRange(m)
    witness (value: string, keys: seq<string>) => []

  /** The filterOption prop: `undefined`, a field name, or a predicate. */
  datatype FilterOption<!T> = Unset | FieldName(name: string) | Predicate(p: OptionPredicate<T>)

  /** The props of `useSearch`. */
  datatype Props<!T> = Props(
    entryValue: string,
    filterOption: FilterOption<T>,
    searchOptionsFunction: Option<SearchOptionsFunction<T>>,
    shouldSkipSearch: string -> bool,
    options: seq<T>,
    option2primitive: T -> Primitive,
    allowCustomValues: bool)

  /**
   * What the hook uses but does not define: `Accessor.generateAccessor`, the
   * `fuzzy` library, and the view of the raw entry text as an option (the code
   * puts `entryValue` into an `Opt[]` and compares options with it by `===`).
   */
  datatype Env<!T> = Env(
    generateAccessor: string -> T -> string,
    fuzzy: Matcher,
    entryAsOption: string -> T)

  /** The three mutually exclusive strategies behind `searchFunction`. */
  datatype Strategy<!T> =
    | Search(f: SearchOptionsFunction<T>)
    | Filter(p: OptionPredicate<T>)
    | Fuzzy(key: T -> string)

  /** The chosen strategy, and whether the "filterOption prop will be ignored" warning is due. */
  datatype Resolution<!T> = Resolution(strategy: Strategy<T>, warned: bool)

  /** The `mapper` handed to the fuzzy library as `extract`. */
  function Extractor<T>(props: Props<T>, env: Env<T>): T -> string
  {
    if props.filterOption.FieldName? then env.generateAccessor(props.filterOption.name)
    else (o: T) => Interpolate(props.option2primitive(o))
  }

  /**
   * Strategy selection: a search function wins over everything, then a
   * predicate, and otherwise fuzzy matching on a derived key. Setting both a
   * search function and any filterOption raises the warning.
   */
  function Resolve<T>(props: Props<T>, env: Env<T>): (r: Resolution<T>)
    ensures r.strategy.Search? <==> props.searchOptionsFunction.Some?
    ensures r.strategy.Filter? <==> props.searchOptionsFunction.None? && props.filterOption.Predicate?
    ensures r.strategy.Fuzzy? <==> props.searchOptionsFunction.None? && !props.filterOption.Predicate?
    ensures r.warned <==> props.searchOptionsFunction.Some? && !props.filterOption.Unset?
  {
    match props.searchOptionsFunction
    case Some(f) => Resolution(Search(f), !props.filterOption.Unset?)
    case None =>
      match props.filterOption
      case Predicate(p) => Resolution(Filter(p), false)
      case _ => Resolution(Fuzzy(Extractor(props, env)), false)
  }

  /** The chosen strategy carries the configured function, or the key extractor the props call for. */
  lemma ResolvedStrategy<T>(props: Props<T>, env: Env<T>)
    ensures var s := Resolve(props, env).strategy;
      && (s.Search? ==>
            forall value, list :: s.f(value, list) == props.searchOptionsFunction.value(value, list))
      && (s.Filter? ==> forall value, o :: s.p(value, o) == props.filterOption.p(value, o))
      && (s.Fuzzy? && props.filterOption.FieldName? ==>
            forall o :: s.key(o) == env.generateAccessor(props.filterOption.name)(o))
      && (s.Fuzzy? && props.filterOption.Unset? ==>
            forall o :: s.key(o) == Interpolate(props.option2primitive(o)))
  {
  }

  /** `opt || options`: an explicit array, even an empty one, is truthy and wins. */
  function ListOf<T>(options: seq<T>, opt: Option<seq<T>>): seq<T>
  {
    if opt.Some? then opt.value else options
  }

  /** `list.filter(o => p(value, o))`. */
  function KeepMatching<T>(p: OptionPredicate<T>, value: string, list: seq<T>): (r: seq<T>)
    ensures |r| <= |list|
    ensures forall k :: 0 <= k < |r| ==> r[k] in list && p(value, r[k])
  {
    if list == [] then []
    else if p(value, list[0]) then [list[0]] + KeepMatching(p, value, list[1..])
    else KeepMatching(p, value, list[1..])
  }

  /** The search key of every option of the list, in order. */
  function Keys<T>(key: T -> string, list: seq<T>): (keys: seq<string>)
    ensures |keys| == |list|
    ensures forall i :: 0 <= i < |list| ==> keys[i] == key(list[i])
  {
    seq(|list|, i requires 0 <= i < |list| => key(list[i]))
  }

  /** `fuzzy.filter(value, list, { extract: key }).map(res => list[res.index])`. */
  function FuzzyFilter<T>(fuzzy: Matcher, key: T -> string, value: string, list: seq<T>): (r: seq<T>)
    ensures |r| == |fuzzy(value, Keys(key, list))|
    ensures forall k :: 0 <= k < |r| ==> r[k] in list
  {
    var matches := fuzzy(value, Keys(key, list));
    seq(|matches|, k requires 0 <= k < |matches| => list[matches[k]])
  }

  /** Runs a strategy on `opt || options`. */
  function Run<T>(s: Strategy<T>, fuzzy: Matcher, options: seq<T>, value: string, opt: Option<seq<T>>): seq<T>
  {
    var list := ListOf(options, opt);
    match s
    case Search(f) => f(value, list)
    case Filter(p) => KeepMatching(p, value, list)
    case Fuzzy(key) => FuzzyFilter(fuzzy, key, value, list)
  }

  /** The `searchFunction` the hook returns, applied to `(value, opt)`. */
  function SearchFunction<T>(props: Props<T>, env: Env<T>, value: string, opt: Option<seq<T>>): seq<T>
  {
    Run(Resolve(props, env).strategy, env.fuzzy, props.options, value, opt)
  }

  /** `values` after lines 64-67: the strategy's result, or nothing when search is skipped. */
  function Base<T>(props: Props<T>, env: Env<T>): (r: seq<T>)
    ensures props.shouldSkipSearch(props.entryValue) ==> r == []
    ensures !props.shouldSkipSearch(props.entryValue) ==>
      r == Run(Resolve(props, env).strategy, env.fuzzy, props.options, props.entryValue, None)
  {
    if !props.shouldSkipSearch(props.entryValue)
    then SearchFunction(props, env, props.entryValue, Some(props.options))
    else []
  }

  /**
   * `filteredOptions`: the base list, with the raw entry text put first when
   * custom values are allowed and the text is not already among the results.
   */
  function FilteredOptions<T(==)>(props: Props<T>, env: Env<T>): (r: seq<T>)
    ensures !props.allowCustomValues ==> r == Base(props, env)
    ensures props.allowCustomValues ==> env.entryAsOption(props.entryValue) in r
    ensures props.allowCustomValues ==>
      multiset(r)[env.entryAsOption(props.entryValue)] ==
        if env.entryAsOption(props.entryValue) in Base(props, env)
        then multiset(Base(props, env))[env.entryAsOption(props.entryValue)]
        else 1
    ensures forall x :: x in r ==> x in Base(props, env) || x == env.entryAsOption(props.entryValue)
  {
    var values := Base(props, env);
    var custom := env.entryAsOption(props.entryValue);
    if props.allowCustomValues && custom !in values then [custom] + values else values
  }

  // ---------------------------------------------------------------------
  // Strategy selection and dispatch
  // ---------------------------------------------------------------------

  /** A configured search function decides the result alone, whatever filterOption holds. */
  lemma SearchFunctionWins<T>(props: Props<T>, env: Env<T>, value: string, opt: Option<seq<T>>)
    requires props.searchOptionsFunction.Some?
    ensures SearchFunction(props, env, value, opt) ==
      props.searchOptionsFunction.value(value, ListOf(props.options, opt))
    ensures forall fo: FilterOption<T> ::
      SearchFunction(props.(filterOption := fo), env, value, opt) == SearchFunction(props, env, value, opt)
  {
  }

  /**
   * The predicate strategy keeps exactly the options the predicate accepts,
   * in their original order.
   */
  lemma PredicateStrategy<T>(props: Props<T>, env: Env<T>, value: string, opt: Option<seq<T>>)
    requires props.searchOptionsFunction.None? && props.filterOption.Predicate?
    ensures IsFiltering(props.filterOption.p, value, ListOf(props.options, opt),
                        SearchFunction(props, env, value, opt))
  {
    KeepMatchingIsFiltering(props.filterOption.p, value, ListOf(props.options, opt));
  }

  /**
   * The fuzzy strategy returns, for each match reported on the options' keys,
   * the option at that index; so every result is one of the options.
   */
  lemma FuzzyStrategy<T>(props: Props<T>, env: Env<T>, value: string, opt: Option<seq<T>>)
    requires props.searchOptionsFunction.None? && !props.filterOption.Predicate?
    ensures var list := ListOf(props.options, opt);
      var matches := env.fuzzy(value, Keys(Extractor(props, env), list));
      var r := SearchFunction(props, env, value, opt);
      |r| == |matches| &&
      (forall k :: 0 <= k < |r| ==> matches[k] < |list| && r[k] == list[matches[k]]) &&
      (forall k :: 0 <= k < |r| ==> r[k] in list)
  {
  }

  /**
   * The base list per strategy: nothing when search is skipped, otherwise the
   * search function's output on `options`, the predicate's in-order selection
   * of `options`, or the options at the indices the matcher reports.
   */
  lemma BaseByStrategy<T>(props: Props<T>, env: Env<T>)
    ensures props.shouldSkipSearch(props.entryValue) ==> Base(props, env) == []
    ensures !props.shouldSkipSearch(props.entryValue) && props.searchOptionsFunction.Some? ==>
      Base(props, env) == props.searchOptionsFunction.value(props.entryValue, props.options)
    ensures !props.shouldSkipSearch(props.entryValue) && props.searchOptionsFunction.None? &&
            props.filterOption.Predicate? ==>
      IsFiltering(props.filterOption.p, props.entryValue, props.options, Base(props, env))
    ensures !props.shouldSkipSearch(props.entryValue) && props.searchOptionsFunction.None? &&
            !props.filterOption.Predicate? ==>
      var matches := env.fuzzy(props.entryValue, Keys(Extractor(props, env), props.options));
      var base := Base(props, env);
      |base| == |matches| &&
      forall k :: 0 <= k < |base| ==> matches[k] < |props.options| && base[k] == props.options[matches[k]]
  {
    if !props.shouldSkipSearch(props.entryValue) {
      if props.searchOptionsFunction.Some? {
        SearchFunctionWins(props, env, props.entryValue, Some(props.options));
      } else if props.filterOption.Predicate? {
        PredicateStrategy(props, env, props.entryValue, Some(props.options));
      } else {
        FuzzyStrategy(props, env, props.entryValue, Some(props.options));
      }
    }
  }

  /** An explicit list replaces `options` in every strategy; without one, `options` is searched. */
  lemma ExplicitListReplacesOptions<T>(props: Props<T>, env: Env<T>, value: string, list: seq<T>, other: seq<T>)
    ensures SearchFunction(props, env, value, Some(list)) == SearchFunction(props.(options := list), env, value, None)
    ensures SearchFunction(props, env, value, Some(list)) == SearchFunction(props.(options := other), env, value, Some(list))
  {
  }

  // ---------------------------------------------------------------------
  // The predicate strategy against an independent definition
  // ---------------------------------------------------------------------

  /** `idx` is a strictly increasing list of positions of `list` that spells out `r`. */
  ghost predicate Picks<T>(idx: seq<nat>, list: seq<T>, r: seq<T>)
  {
    && |idx| == |r|
    && (forall k :: 0 <= k < |idx| ==> idx[k] < |list| && r[k] == list[idx[k]])
    && Increasing(idx)
  }

  /** `r` is the order-preserving subsequence of `list` of exactly the elements `p` accepts. */
  ghost predicate IsFiltering<T>(p: OptionPredicate<T>, value: string, list: seq<T>, r: seq<T>)
  {
    exists idx :: Picks(idx, list, r) && forall i :: 0 <= i < |list| ==> (i in idx <==> p(value, list[i]))
  }

  /** The positions of a tail's picks seen from the whole list, with position 0 first if it is kept. */
  function Extend(idx: seq<nat>, keep: bool): (r: seq<nat>)
    ensures |r| == |idx| + (if keep then 1 else 0)
  {
    (if keep then [0] else []) + seq(|idx|, k requires 0 <= k < |idx| => idx[k] + 1)
  }

  lemma ExtendMembers(idx: seq<nat>, keep: bool, i: nat)
    ensures i in Extend(idx, keep) <==> if i == 0 then keep else i - 1 in idx
  {
    var e := Extend(idx, keep);
    var off := if keep then 1 else 0;
    if i in e {
      var k :| 0 <= k < |e| && e[k] == i;
      if k >= off {
        assert idx[k - off] == i - 1;
      }
    }
    if i > 0 && i - 1 in idx {
      var k :| 0 <= k < |idx| && idx[k] == i - 1;
      assert e[k + off] == i;
    }
  }

  lemma ExtendPicks<T>(idx: seq<nat>, list: seq<T>, r: seq<T>, keep: bool)
    requires |list| > 0 && Picks(idx, list[1..], r)
    ensures Picks(Extend(idx, keep), list, (if keep then [list[0]] else []) + r)
  {
  }

  /** Which positions of the whole list are kept, given which positions of its tail are. */
  lemma ExtendSelects<T>(p: OptionPredicate<T>, value: string, list: seq<T>, idx: seq<nat>)
    requires |list| > 0
    requires forall i :: 0 <= i < |list| - 1 ==> (i in idx <==> p(value, list[1..][i]))
    ensures forall i :: 0 <= i < |list| ==> (i in Extend(idx, p(value, list[0])) <==> p(value, list[i]))
  {
    forall i | 0 <= i < |list|
      ensures i in Extend(idx, p(value, list[0])) <==> p(value, list[i])
    {
      ExtendMembers(idx, p(value, list[0]), i);
      if i > 0 {
        assert list[i] == list[1..][i - 1];
      }
    }
  }

  /** The positions the predicate filter keeps, constructed alongside it. */
  lemma {:induction false} KeptPositions<T>(p: OptionPredicate<T>, value: string, list: seq<T>)
    returns (idx: seq<nat>)
    ensures Picks(idx, list, KeepMatching(p, value, list))
    ensures forall i :: 0 <= i < |list| ==> (i in idx <==> p(value, list[i]))
  {
    if list == [] {
      idx := [];
    } else {
      var tail := list[1..];
      var idx' := KeptPositions(p, value, tail);
      var keep := p(value, list[0]);
      assert KeepMatching(p, value, list) == (if keep then [list[0]] else []) + KeepMatching(p, value, tail);
      ExtendPicks(idx', list, KeepMatching(p, value, tail), keep);
      ExtendSelects(p, value, list, idx');
      idx := Extend(idx', keep);
    }
  }

  lemma KeepMatchingIsFiltering<T>(p: OptionPredicate<T>, value: string, list: seq<T>)
    ensures IsFiltering(p, value, list, KeepMatching(p, value, list))
  {
    var idx := KeptPositions(p, value, list);
  }

  ghost predicate Increasing(idx: seq<nat>)
  {
    forall j, k :: 0 <= j < k < |idx| ==> idx[j] < idx[k]
  }

  lemma HeadIsMember(s: seq<nat>)
    ensures s != [] ==> s[0] in s
  {
  }

  /** Two increasing position lists with the same members are the same list. */
  lemma {:induction false} IncreasingByMembers(a: seq<nat>, b: seq<nat>)
    requires Increasing(a) && Increasing(b)
    requires forall x :: x in a <==> x in b
    ensures a == b
    decreases |a|
  {
    HeadIsMember(a);
    HeadIsMember(b);
    if a != [] && b != [] {
      assert a[0] == b[0] by {
        assert a[0] in b && b[0] in a;
      }
      forall x
        ensures x in a[1..] <==> x in b[1..]
      {
        if x in a[1..] {
          var k :| 1 <= k < |a| && a[k] == x;
          assert x != b[0] && x in b;
        }
        if x in b[1..] {
          var k :| 1 <= k < |b| && b[k] == x;
          assert x != a[0] && x in a;
        }
      }
      IncreasingByMembers(a[1..], b[1..]);
      assert a == [a[0]] + a[1..] && b == [b[0]] + b[1..];
    }
  }

  /** The filtering relation determines the result, so it is a full specification of the predicate strategy. */
  lemma FilteringIsUnique<T>(p: OptionPredicate<T>, value: string, list: seq<T>, r1: seq<T>, r2: seq<T>)
    requires IsFiltering(p, value, list, r1) && IsFiltering(p, value, list, r2)
    ensures r1 == r2
  {
    var idx1 :| Picks(idx1, list, r1) && forall i :: 0 <= i < |list| ==> (i in idx1 <==> p(value, list[i]));
    var idx2 :| Picks(idx2, list, r2) && forall i :: 0 <= i < |list| ==> (i in idx2 <==> p(value, list[i]));
    SameSelection(p, value, list, idx1, r1, idx2, r2);
    IncreasingByMembers(idx1, idx2);
    assert |r1| == |r2|;
    forall k | 0 <= k < |r1|
      ensures r1[k] == r2[k]
    {
      assert r1[k] == list[idx1[k]] && r2[k] == list[idx2[k]];
    }
  }

  lemma SameSelection<T>(p: OptionPredicate<T>, value: string, list: seq<T>,
                         idx1: seq<nat>, r1: seq<T>, idx2: seq<nat>, r2: seq<T>)
    requires Picks(idx1, list, r1) && forall i :: 0 <= i < |list| ==> (i in idx1 <==> p(value, list[i]))
    requires Picks(idx2, list, r2) && forall i :: 0 <= i < |list| ==> (i in idx2 <==> p(value, list[i]))
    ensures forall x :: x in idx1 <==> x in idx2
  {
    forall x
      ensures x in idx1 <==> x in idx2
    {
      if x in idx1 {
        var k :| 0 <= k < |idx1| && idx1[k] == x;
      }
      if x in idx2 {
        var k :| 0 <= k < |idx2| && idx2[k] == x;
      }
    }
  }

  /** A predicate that accepts everything keeps the whole list. */
  lemma {:induction false} AcceptAllKeepsAll<T>(p: OptionPredicate<T>, value: string, list: seq<T>)
    requires forall o :: p(value, o)
    ensures KeepMatching(p, value, list) == list
  {
    if list != [] {
      AcceptAllKeepsAll(p, value, list[1..]);
    }
  }

  /** A predicate that rejects everything keeps nothing. */
  lemma {:induction false} RejectAllKeepsNone<T>(p: OptionPredicate<T>, value: string, list: seq<T>)
    requires forall o :: !p(value, o)
    ensures KeepMatching(p, value, list) == []
  {
    if list != [] {
      RejectAllKeepsNone(p, value, list[1..]);
    }
  }

  /** Each option survives the predicate filter as often as it occurs, or not at all. */
  lemma {:induction false} KeepMatchingCounts<T>(p: OptionPredicate<T>, value: string, list: seq<T>, x: T)
    ensures multiset(KeepMatching(p, value, list))[x] == if p(value, x) then multiset(list)[x] else 0
  {
    if list != [] {
      KeepMatchingCounts(p, value, list[1..], x);
      assert list == [list[0]] + list[1..];
    }
  }

  // ---------------------------------------------------------------------
  // List assembly
  // ---------------------------------------------------------------------

  /** When search is skipped no strategy matters: the list is empty, or just the entry text. */
  lemma SkipSearchIgnoresStrategy<T>(props: Props<T>, env: Env<T>)
    requires props.shouldSkipSearch(props.entryValue)
    ensures FilteredOptions(props, env) ==
      if props.allowCustomValues then [env.entryAsOption(props.entryValue)] else []
    ensures forall fo: FilterOption<T>, sf: Option<SearchOptionsFunction<T>> ::
      FilteredOptions(props.(filterOption := fo, searchOptionsFunction := sf), env) == FilteredOptions(props, env)
  {
  }

  /** With custom values allowed, the entry text is added in front exactly when the results lack it. */
  lemma CustomValueInsertion<T>(props: Props<T>, env: Env<T>)
    requires props.allowCustomValues
    ensures var custom := env.entryAsOption(props.entryValue);
      var base := Base(props, env);
      (custom !in base ==> FilteredOptions(props, env) == [custom] + base
                           && |FilteredOptions(props, env)| == |base| + 1) &&
      (custom in base ==> FilteredOptions(props, env) == base)
  {
  }
}
