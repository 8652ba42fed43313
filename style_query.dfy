/** `StyleQuery`: the query behind `assert_style`, checking computed CSS
    values of one node against expected values or patterns. */
module StyleQueries {
  import opened Outcomes
  import opened Values

  /** An expected style value: a plain string or a compiled regular expression. */
  datatype StyleValue = Literal(text: string) | Pattern(source: string)

  /** The driver's computed-style lookup for one node at one moment. */
  type StyleLookup = string -> string

  /** `toregex(value).search(actual)`: regular expressions are not modelled,
      so the test is an abstract predicate supplied by the caller. */
  type StyleMatcher = (StyleValue, string) -> bool

  /** `node.style(*names)`: the computed value of each requested property. */
  function Fetch(names: set<string>, lookup: StyleLookup): (m: map<string, string>)
    ensures m.Keys == names
    ensures forall k :: k in names ==> m[k] == lookup(k)
  {
    map k | k in names :: lookup(k)
  }

  /** Every expected (style, value) pair matches the actual value of that style. */
  predicate AllMatch(expected: map<string, StyleValue>, actual: map<string, string>, matches: StyleMatcher)
  {
    forall s :: s in expected ==> s in actual && matches(expected[s], actual[s])
  }

  /** Matching the freshly fetched styles is matching the node's own computed
      values, one property at a time. */
  lemma FetchedStylesMatchIff(expected: map<string, StyleValue>, lookup: StyleLookup, matches: StyleMatcher)
    ensures AllMatch(expected, Fetch(expected.Keys, lookup), matches) <==>
            forall s :: s in expected ==> matches(expected[s], lookup(s))
  {
  }

  /** With no expected styles every node resolves: `all` over nothing is true. */
  lemma EmptyExpectationAlwaysMatches(actual: map<string, string>, matches: StyleMatcher)
    ensures AllMatch(map[], actual, matches)
  {
  }

  /** How `StyleQuery.wait` reads its `wait` option: an explicit truthy value
      as given, an explicit falsy one (False, 0) as 0, and the configured default
      when the option is None. */
  function WaitOption(option: Value, cfg: Config): (w: Value)
    ensures w != Null
    ensures Truthy(option) ==> w == option
    ensures !option.Null? && !Truthy(option) ==> w == Int(0)
    ensures option.Null? ==> w == Int(cfg.defaultMaxWaitTime)
    ensures Truthy(w) <==> Truthy(option) || (option.Null? && cfg.defaultMaxWaitTime > 0)
  {
    if option != Null then (if Truthy(option) then option else Int(0))
    else Int(cfg.defaultMaxWaitTime)
  }

  class StyleQuery {
    const expectedStyles: map<string, StyleValue>
    const options: map<string, Value>
    var actualStyles: map<string, string>
    var node: Option<NodeId>

    constructor (expectedStyles: map<string, StyleValue>, wait: Value)
      ensures this.expectedStyles == expectedStyles
      ensures options == map["wait" := wait]
      ensures actualStyles == map[] && node == None
    {
      this.expectedStyles := expectedStyles;
      actualStyles := map[];
      options := map["wait" := wait];
      node := None;
    }

    /** The `wait` property. */
    function Wait(cfg: Config): Value
      requires "wait" in options
    {
      WaitOption(options["wait"], cfg)
    }

    /** `resolves_for(node)`: records the node, fetches its styles for exactly the
        expected names and reports whether every expected value matches.  A
        driver error while fetching propagates and leaves `actualStyles` as it was. */
    method ResolvesFor(n: NodeId, fetched: Outcome<StyleLookup>, matches: StyleMatcher) returns (r: Outcome<bool>)
      modifies this
      ensures node == Some(n)
      ensures fetched.Raise? ==> r == Raise(fetched.error) && actualStyles == old(actualStyles)
      ensures fetched.Return? ==> actualStyles == Fetch(expectedStyles.Keys, fetched.value)
      ensures fetched.Return? ==>
                r == Return(forall s :: s in expectedStyles ==> matches(expectedStyles[s], fetched.value(s)))
      ensures fetched.Return? ==> r == Return(AllMatch(expectedStyles, actualStyles, matches))
    {
      node := Some(n);
      if fetched.Raise? {
        return Raise(fetched.error);
      }
      actualStyles := Fetch(expectedStyles.Keys, fetched.value);
      FetchedStylesMatchIff(expectedStyles, fetched.value, matches);
      r := Return(AllMatch(expectedStyles, actualStyles, matches));
    }
  }
}
