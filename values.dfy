/** Python values that flow through keyword options, and the process-wide
    configuration read by the matchers. */
module Values {

  /** An element handle; two handles are the same element iff their ids are equal. */
  type NodeId = nat

  /** A point of the (discrete) clock that paces synchronize's retries. */
  type Tick = nat

  /** The option values the matchers inspect: `Null` is Python's None, `Other`
      any further object (a list, a compiled XPath expression, ...), with its
      truth value. */
  datatype Value =
    | Null
    | Bool(b: bool)
    | Int(i: int)
    | Str(s: string)
    | Other(id: nat, truthy: bool)

  /** Keyword arguments (`**kwargs`). */
  type Kwargs = map<string, Value>

  /** Python truthiness. */
  predicate Truthy(v: Value)
  {
    match v
    case Null => false
    case Bool(b) => b
    case Int(i) => i != 0
    case Str(s) => s != ""
    case Other(_, t) => t
  }

  /** `capybara.default_max_wait_time`, `capybara.default_selector` and the
      names registered in `capybara.selector.selectors`. */
  datatype Config = Config(defaultMaxWaitTime: nat, defaultSelector: string, selectors: set<string>)

  /** The guard of matchers.py:294 and :332: a first argument that is hashable
      and registered.  Registry keys are strings, so only a registered string passes. */
  predicate IsRegisteredSelector(v: Value, cfg: Config)
  {
    v.Str? && v.s in cfg.selectors
  }
}
