/** `MatchersMixin`: the assertion layer of capybara's nodes.

    Every public matcher builds a query, wraps a single-shot check of it in
    `synchronize` and raises `ExpectationNotMet` when the check fails; the
    `has_*`, `matches_*` and `not_match_*` forms turn that failure into False.

    The query engine, the driver and the helpers `matches_count` and
    `expects_none` are outside this model: they are the fields of `Engine`.
    A document that changes over time is modelled by letting the answers that
    read it (`resolve`, `resolveText`, `parent` and `style`) depend on the
    tick at which they are asked; the other fields see only their arguments. */
module Matchers {
  import opened Outcomes
  import opened Values
  import opened Synchronization
  import opened StyleQueries

  /** The positional and keyword arguments a `SelectorQuery` or `TextQuery` is built from. */
  datatype Query = Query(args: seq<Value>, kwargs: Kwargs)

  /** What `SelectorQuery.resolve_for` yields: the matched elements, whether
      their number satisfies the query's count options (`result.matches_count`)
      and the two messages the result can build. */
  datatype SelectorResult = SelectorResult(
    elements: seq<NodeId>,
    matchesCount: bool,
    failureMessage: string,
    negativeFailureMessage: string)

  /** What `TextQuery.resolve_for` leaves behind: the number of occurrences it
      returns and the two messages the query then builds from what it saw. */
  datatype TextResult = TextResult(
    count: nat,
    failureMessage: string,
    negativeFailureMessage: string)

  /** The collaborators the matchers call into, as seen at each tick. */
  datatype Engine = Engine(
    queryWait: Query -> Value,                                 // `query.wait` of a selector or text query
    expectsNone: Query -> bool,                                // `expects_none(query.options)`
    resolve: (Query, NodeId, Tick) -> Outcome<SelectorResult>, // `SelectorQuery.resolve_for(scope)`
    resolveText: (Query, NodeId, Tick) -> Outcome<TextResult>, // `TextQuery.resolve_for(node)` and the resolved query
    textMatchesCount: (Query, nat) -> bool,                    // `matches_count(count, query.options)`
    parent: (NodeId, Tick) -> Outcome<Option<NodeId>>,         // `find_first("xpath", "./parent::*", minimum=0)`
    queryScope: NodeId -> NodeId,                              // `node.query_scope`
    style: (NodeId, Tick) -> Outcome<StyleLookup>,             // `node.style(...)`
    styleMatches: StyleMatcher,                                // `toregex(value).search(actual)`
    styleFailureMessage: (map<string, StyleValue>, map<string, string>) -> string)

  /** The condition both polarities of a count check test: the count options
      are met, and either something was found or the options ask for nothing. */
  predicate Found(matchesCount: bool, count: nat, expectsNone: bool)
  {
    matchesCount && (count > 0 || expectsNone)
  }

  // ---------------------------------------------------------------------
  // Single-shot checks: the bodies that synchronize retries.

  /** The body of `assert_selector`. */
  function CheckSelector(scope: NodeId, q: Query, t: Tick, env: Engine): Outcome<bool>
  {
    match env.resolve(q, scope, t)
    case Raise(e) => Raise(e)
    case Return(res) =>
      if Found(res.matchesCount, |res.elements|, env.expectsNone(q)) then Return(true)
      else Raise(ExpectationNotMet(res.failureMessage))
  }

  /** The body of `assert_no_selector`. */
  function CheckNoSelector(scope: NodeId, q: Query, t: Tick, env: Engine): Outcome<bool>
  {
    match env.resolve(q, scope, t)
    case Raise(e) => Raise(e)
    case Return(res) =>
      if Found(res.matchesCount, |res.elements|, env.expectsNone(q)) then Raise(ExpectationNotMet(res.negativeFailureMessage))
      else Return(true)
  }

  /** The body of `assert_text`. */
  function CheckText(scope: NodeId, q: Query, t: Tick, env: Engine): Outcome<bool>
  {
    match env.resolveText(q, scope, t)
    case Raise(e) => Raise(e)
    case Return(res) =>
      if Found(env.textMatchesCount(q, res.count), res.count, env.expectsNone(q)) then Return(true)
      else Raise(ExpectationNotMet(res.failureMessage))
  }

  /** The body of `assert_no_text`. */
  function CheckNoText(scope: NodeId, q: Query, t: Tick, env: Engine): Outcome<bool>
  {
    match env.resolveText(q, scope, t)
    case Raise(e) => Raise(e)
    case Return(res) =>
      if Found(env.textMatchesCount(q, res.count), res.count, env.expectsNone(q)) then Raise(ExpectationNotMet(res.negativeFailureMessage))
      else Return(true)
  }

  const DoesNotMatch := "Item does not match the provided selector"
  const DidMatch := "Item matched the provided selector"

  /** The scope a node is matched in: its parent element, or its query scope
      when it has none. */
  function MatchScope(node: NodeId, t: Tick, env: Engine): Outcome<NodeId>
  {
    match env.parent(node, t)
    case Raise(e) => Raise(e)
    case Return(p) => Return(if p.Some? then p.value else env.queryScope(node))
  }

  /** The body of `assert_matches_selector`: the node itself, by identity, is
      among the matches resolved in its match scope. */
  function CheckMatches(node: NodeId, q: Query, t: Tick, env: Engine): Outcome<bool>
  {
    match MatchScope(node, t, env)
    case Raise(e) => Raise(e)
    case Return(scope) =>
      match env.resolve(q, scope, t)
      case Raise(e) => Raise(e)
      case Return(res) => if node in res.elements then Return(true) else Raise(ExpectationNotMet(DoesNotMatch))
  }

  /** The body of `assert_not_match_selector`. */
  function CheckNotMatch(node: NodeId, q: Query, t: Tick, env: Engine): Outcome<bool>
  {
    match MatchScope(node, t, env)
    case Raise(e) => Raise(e)
    case Return(scope) =>
      match env.resolve(q, scope, t)
      case Raise(e) => Raise(e)
      case Return(res) => if node in res.elements then Raise(ExpectationNotMet(DidMatch)) else Return(true)
  }

  /** The body of `assert_style`: `query.resolves_for(node)` and its failure message. */
  function CheckStyle(node: NodeId, styles: map<string, StyleValue>, t: Tick, env: Engine): Outcome<bool>
  {
    match env.style(node, t)
    case Raise(e) => Raise(e)
    case Return(lookup) =>
      var actual := Fetch(styles.Keys, lookup);
      if AllMatch(styles, actual, env.styleMatches) then Return(true)
      else Raise(ExpectationNotMet(env.styleFailureMessage(styles, actual)))
  }

  /** One member of a group: `assert_selector` for all-of, `assert_no_selector` for none-of. */
  function CheckMember(positive: bool, scope: NodeId, q: Query, t: Tick, env: Engine): Outcome<bool>
  {
    if positive then CheckSelector(scope, q, t, env) else CheckNoSelector(scope, q, t, env)
  }

  /** The query a group builds for one of its locators. */
  function MemberQuery(selector: Value, locator: Value, kwargs: Kwargs): Query
  {
    Query([selector, locator], kwargs)
  }

  /** The body of `assert_all_of_selectors` (positive) or
      `assert_none_of_selectors`: every member in order, the first failure propagating. */
  function CheckGroup(positive: bool, scope: NodeId, selector: Value, locators: seq<Value>, kwargs: Kwargs, t: Tick, env: Engine): Outcome<bool>
    decreases |locators|
  {
    if locators == [] then Return(true)
    else
      var o := CheckMember(positive, scope, MemberQuery(selector, locators[0], kwargs), t, env);
      if o.Raise? then o else CheckGroup(positive, scope, selector, locators[1..], kwargs, t, env)
  }

  /** One evaluation of `assert_selector` returns exactly when the count options
      hold and something was found (or nothing was asked for); otherwise it raises
      `ExpectationNotMet` with the result's failure message.  `assert_no_selector`
      on the same result is its exact complement, failing with the negative
      message.  A query error reaches both unchanged. */
  lemma SelectorPolarity(scope: NodeId, q: Query, t: Tick, env: Engine)
    ensures env.resolve(q, scope, t).Raise? ==>
              CheckSelector(scope, q, t, env) == Raise(env.resolve(q, scope, t).error) &&
              CheckNoSelector(scope, q, t, env) == Raise(env.resolve(q, scope, t).error)
    ensures env.resolve(q, scope, t).Return? ==>
              var res := env.resolve(q, scope, t).value;
              var found := Found(res.matchesCount, |res.elements|, env.expectsNone(q));
              (CheckSelector(scope, q, t, env) == Return(true) <==> found) &&
              (!found ==> CheckSelector(scope, q, t, env) == Raise(ExpectationNotMet(res.failureMessage))) &&
              (CheckNoSelector(scope, q, t, env).Raise? <==> CheckSelector(scope, q, t, env).Return?) &&
              (found ==> CheckNoSelector(scope, q, t, env) == Raise(ExpectationNotMet(res.negativeFailureMessage)))
  {
  }

  /** The same two polarities for text, on the number of occurrences. */
  lemma TextPolarity(scope: NodeId, q: Query, t: Tick, env: Engine)
    ensures env.resolveText(q, scope, t).Raise? ==>
              CheckText(scope, q, t, env) == Raise(env.resolveText(q, scope, t).error) &&
              CheckNoText(scope, q, t, env) == Raise(env.resolveText(q, scope, t).error)
    ensures env.resolveText(q, scope, t).Return? ==>
              var res := env.resolveText(q, scope, t).value;
              var found := Found(env.textMatchesCount(q, res.count), res.count, env.expectsNone(q));
              (CheckText(scope, q, t, env) == Return(true) <==> found) &&
              (!found ==> CheckText(scope, q, t, env) == Raise(ExpectationNotMet(res.failureMessage))) &&
              (CheckNoText(scope, q, t, env).Raise? <==> CheckText(scope, q, t, env).Return?) &&
              (found ==> CheckNoText(scope, q, t, env) == Raise(ExpectationNotMet(res.negativeFailureMessage)))
  {
  }

  /** `assert_matches_selector` returns exactly when the node itself is among the
      elements the query finds in the node's match scope (its parent, or its
      query scope at the top); `assert_not_match_selector` is its complement. */
  lemma MatchPolarity(node: NodeId, q: Query, t: Tick, env: Engine)
    ensures CheckMatches(node, q, t, env) == Return(true) <==>
              MatchScope(node, t, env).Return? &&
              env.resolve(q, MatchScope(node, t, env).value, t).Return? &&
              node in env.resolve(q, MatchScope(node, t, env).value, t).value.elements
    ensures CheckNotMatch(node, q, t, env) == Return(true) <==>
              MatchScope(node, t, env).Return? &&
              env.resolve(q, MatchScope(node, t, env).value, t).Return? &&
              node !in env.resolve(q, MatchScope(node, t, env).value, t).value.elements
    ensures CheckMatches(node, q, t, env).Raise? && CheckNotMatch(node, q, t, env).Raise? ==>
              CheckMatches(node, q, t, env) == CheckNotMatch(node, q, t, env)
    ensures MatchScope(node, t, env).Return? && env.resolve(q, MatchScope(node, t, env).value, t).Return? ==>
              var elements := env.resolve(q, MatchScope(node, t, env).value, t).value.elements;
              (node !in elements ==> CheckMatches(node, q, t, env) == Raise(ExpectationNotMet(DoesNotMatch))) &&
              (node in elements ==> CheckNotMatch(node, q, t, env) == Raise(ExpectationNotMet(DidMatch)))
    ensures MatchScope(node, t, env).Return? && env.parent(node, t).value.None? ==>
              MatchScope(node, t, env).value == env.queryScope(node)
  {
  }

  /** One evaluation of `assert_style` returns exactly when the node's computed
      value of every expected property matches; otherwise it raises
      `ExpectationNotMet` with the message built from the fetched styles. */
  lemma StyleOutcome(node: NodeId, styles: map<string, StyleValue>, t: Tick, env: Engine)
    ensures env.style(node, t).Raise? ==> CheckStyle(node, styles, t, env) == Raise(env.style(node, t).error)
    ensures env.style(node, t).Return? ==>
              var lookup := env.style(node, t).value;
              (CheckStyle(node, styles, t, env) == Return(true) <==>
                 forall s :: s in styles ==> env.styleMatches(styles[s], lookup(s))) &&
              (CheckStyle(node, styles, t, env).Raise? ==>
                 CheckStyle(node, styles, t, env) == Raise(ExpectationNotMet(env.styleFailureMessage(styles, Fetch(styles.Keys, lookup)))))
  {
    if env.style(node, t).Return? {
      FetchedStylesMatchIff(styles, env.style(node, t).value, env.styleMatches);
    }
  }

  /** A group returns exactly when every member, one query per locator,
      returns when checked at the same tick. */
  lemma {:induction false} GroupSucceedsIffEach(positive: bool, scope: NodeId, selector: Value, locators: seq<Value>, kwargs: Kwargs, t: Tick, env: Engine)
    ensures CheckGroup(positive, scope, selector, locators, kwargs, t, env).Return? <==>
            forall i :: 0 <= i < |locators| ==> CheckMember(positive, scope, MemberQuery(selector, locators[i], kwargs), t, env).Return?
    decreases |locators|
  {
    if locators != [] {
      GroupSucceedsIffEach(positive, scope, selector, locators[1..], kwargs, t, env);
      assert forall i :: 1 <= i < |locators| ==> locators[1..][i - 1] == locators[i];
    }
  }

  /** Members are checked in order and the first failure is the group's failure:
      the members after it are never checked. */
  lemma {:induction false} GroupFirstFailure(positive: bool, scope: NodeId, selector: Value, locators: seq<Value>, kwargs: Kwargs, t: Tick, env: Engine, k: nat)
    requires k < |locators|
    requires forall i :: 0 <= i < k ==> CheckMember(positive, scope, MemberQuery(selector, locators[i], kwargs), t, env).Return?
    requires CheckMember(positive, scope, MemberQuery(selector, locators[k], kwargs), t, env).Raise?
    ensures CheckGroup(positive, scope, selector, locators, kwargs, t, env) ==
            CheckMember(positive, scope, MemberQuery(selector, locators[k], kwargs), t, env)
    decreases k
  {
    if k > 0 {
      assert forall i :: 0 <= i < k - 1 ==> locators[1..][i] == locators[i + 1];
      GroupFirstFailure(positive, scope, selector, locators[1..], kwargs, t, env, k - 1);
    }
  }

  // ---------------------------------------------------------------------
  // The synchronized closures of matchers.py, one constructor each.

  datatype Check =
    | Selector(scope: NodeId, query: Query)
    | NoSelector(scope: NodeId, query: Query)
    | Style(node: NodeId, styles: map<string, StyleValue>)
    | AllOf(scope: NodeId, selector: Value, locators: seq<Value>, kwargs: Kwargs)
    | NoneOf(scope: NodeId, selector: Value, locators: seq<Value>, kwargs: Kwargs)
    | Matches(node: NodeId, query: Query)
    | NotMatch(node: NodeId, query: Query)
    | Text(scope: NodeId, query: Query)
    | NoText(scope: NodeId, query: Query)
  {
    /** Groups run other synchronized assertions inside them. */
    function Rank(): nat
    {
      if AllOf? || NoneOf? then 1 else 0
    }
  }

  /** What one run of a closure yields at tick `t`. */
  function Attempt(c: Check, t: Tick, env: Engine): Outcome<bool>
  {
    match c
    case Selector(scope, q) => CheckSelector(scope, q, t, env)
    case NoSelector(scope, q) => CheckNoSelector(scope, q, t, env)
    case Style(node, styles) => CheckStyle(node, styles, t, env)
    case AllOf(scope, selector, locators, kwargs) => CheckGroup(true, scope, selector, locators, kwargs, t, env)
    case NoneOf(scope, selector, locators, kwargs) => CheckGroup(false, scope, selector, locators, kwargs, t, env)
    case Matches(node, q) => CheckMatches(node, q, t, env)
    case NotMatch(node, q) => CheckNotMatch(node, q, t, env)
    case Text(scope, q) => CheckText(scope, q, t, env)
    case NoText(scope, q) => CheckNoText(scope, q, t, env)
  }

  function AttemptsOf(c: Check, env: Engine): Tick -> Outcome<bool>
  {
    (t: Tick) => Attempt(c, t, env)
  }

  // ---------------------------------------------------------------------
  // Running closures.

  /** What a run of closure `c` at tick `t` leaves in the style query: the node
      it resolved, and the styles fetched from it when the fetch returned. */
  ghost predicate StyleQueryAfter(c: Check, t: Tick, env: Engine, sq: StyleQuery?)
    reads sq
  {
    c.Style? ==>
      sq != null && sq.node == Some(c.node) &&
      (env.style(c.node, t).Return? ==> sq.actualStyles == Fetch(c.styles.Keys, env.style(c.node, t).value))
  }

  /** `synchronize(wait=wait)` around closure `c`, called at tick `now` on a
      session whose "already synchronizing" flag is `nested`.  `sq` is the
      style query whose `resolves_for` the style closure calls (null for the
      other closures). */
  method Synchronize(wait: Value, c: Check, now: Tick, nested: bool, env: Engine, cfg: Config, sq: StyleQuery?)
    returns (r: Outcome<bool>, tries: nat)
    requires c.Style? ==> sq != null && sq.expectedStyles == c.styles
    modifies sq
    ensures r == Synchronized(wait, AttemptsOf(c, env), now, nested, cfg)
    ensures nested ==> tries == 1 && r == Attempt(c, now, env)
    ensures !nested && Budget(wait, cfg).Raise? ==> tries == 1
    ensures !nested && Budget(wait, cfg).Return? ==>
              tries >= 1 && StoppedAt(AttemptsOf(c, env), now, now + Budget(wait, cfg).value, now + tries - 1, r)
    ensures tries >= 1 && StyleQueryAfter(c, now + tries - 1, env, sq)
    decreases c.Rank(), 2
  {
    if nested {
      r := RunAttempt(c, now, env, cfg, sq);
      tries := 1;
      return;
    }
    var budget := Budget(wait, cfg);
    if budget.Raise? {
      r := RunAttempt(c, now, env, cfg, sq);
      tries := 1;
      if !Settled(r) {
        r := Raise(budget.error);
      }
      return;
    }
    var last;
    r, last := RetryLoop(c, now, now + budget.value, env, cfg, sq);
    tries := last - now + 1;
    SynchronizedStopsAt(wait, AttemptsOf(c, env), now, cfg, last, r);
  }

  /** The loop of a synchronize that is not nested: attempts at `now`,
      `now + 1`, ... until one settles or the one at `deadline` has run.
      `last` is the tick of the final attempt. */
  method RetryLoop(c: Check, now: Tick, deadline: Tick, env: Engine, cfg: Config, sq: StyleQuery?)
    returns (r: Outcome<bool>, last: Tick)
    requires now <= deadline
    requires c.Style? ==> sq != null && sq.expectedStyles == c.styles
    modifies sq
    ensures StoppedAt(AttemptsOf(c, env), now, deadline, last, r)
    ensures StyleQueryAfter(c, last, env, sq)
    decreases c.Rank(), 1
  {
    ghost var attempts := AttemptsOf(c, env);
    last := now;
    r := RunAttempt(c, last, env, cfg, sq);
    while !Settled(r) && last < deadline
      invariant now <= last <= deadline
      invariant r == attempts(last)
      invariant UnsettledBetween(attempts, now, last)
      invariant StyleQueryAfter(c, last, env, sq)
      decreases deadline - last
    {
      last := last + 1;
      r := RunAttempt(c, last, env, cfg, sq);
    }
  }

  /** One run of closure `c` at tick `t`. */
  method RunAttempt(c: Check, t: Tick, env: Engine, cfg: Config, sq: StyleQuery?) returns (o: Outcome<bool>)
    requires c.Style? ==> sq != null && sq.expectedStyles == c.styles
    modifies sq
    ensures o == Attempt(c, t, env)
    ensures StyleQueryAfter(c, t, env, sq)
    decreases c.Rank(), 0
  {
    match c
    case Selector(scope, q) => o := CheckSelector(scope, q, t, env);
    case NoSelector(scope, q) => o := CheckNoSelector(scope, q, t, env);
    case Style(node, styles) =>
      var fetched := env.style(node, t);
      var matched := sq.ResolvesFor(node, fetched, env.styleMatches);
      if matched == Return(false) {
        o := Raise(ExpectationNotMet(env.styleFailureMessage(styles, sq.actualStyles)));
      } else {
        o := matched;
      }
    case AllOf(scope, selector, locators, kwargs) =>
      var i := 0;
      while i < |locators|
        invariant 0 <= i <= |locators|
        invariant Attempt(c, t, env) == CheckGroup(true, scope, selector, locators[i..], kwargs, t, env)
      {
        var sub, _ := AssertSelector(scope, MemberQuery(selector, locators[i], kwargs), t, true, env, cfg);
        assert sub == CheckMember(true, scope, MemberQuery(selector, locators[i], kwargs), t, env);
        assert locators[i..][0] == locators[i];
        if sub.Raise? {
          return sub;
        }
        assert locators[i..][1..] == locators[i + 1..];
        i := i + 1;
      }
      o := Return(true);
    case NoneOf(scope, selector, locators, kwargs) =>
      var i := 0;
      while i < |locators|
        invariant 0 <= i <= |locators|
        invariant Attempt(c, t, env) == CheckGroup(false, scope, selector, locators[i..], kwargs, t, env)
      {
        var sub, _ := AssertNoSelector(scope, MemberQuery(selector, locators[i], kwargs), t, true, env, cfg);
        assert sub == CheckMember(false, scope, MemberQuery(selector, locators[i], kwargs), t, env);
        assert locators[i..][0] == locators[i];
        if sub.Raise? {
          return sub;
        }
        assert locators[i..][1..] == locators[i + 1..];
        i := i + 1;
      }
      o := Return(true);
    case Matches(node, q) => o := CheckMatches(node, q, t, env);
    case NotMatch(node, q) => o := CheckNotMatch(node, q, t, env);
    case Text(scope, q) => o := CheckText(scope, q, t, env);
    case NoText(scope, q) => o := CheckNoText(scope, q, t, env);
  }

  // ---------------------------------------------------------------------
  // The assertions.  `now` is the tick of the call and `nested` the session's
  // "already synchronizing" flag; a call from user code has `nested` false.

  /** `assert_selector(*args, **kwargs)`. */
  method AssertSelector(node: NodeId, q: Query, now: Tick, nested: bool, env: Engine, cfg: Config)
    returns (r: Outcome<bool>, tries: nat)
    ensures r == Synchronized(env.queryWait(q), AttemptsOf(Selector(node, q), env), now, nested, cfg)
    ensures r.Return? ==> r.value
    ensures TriesAllowed(env.queryWait(q), nested, cfg, tries)
    decreases 0, 3
  {
    r, tries := Synchronize(env.queryWait(q), Selector(node, q), now, nested, env, cfg, null);
    SynchronizedTries(env.queryWait(q), AttemptsOf(Selector(node, q), env), now, nested, cfg, tries, r);
    SynchronizedReturnsTrue(env.queryWait(q), Selector(node, q), now, nested, env, cfg);
  }

  /** `assert_no_selector(*args, **kwargs)`, also `refute_selector`. */
  method AssertNoSelector(node: NodeId, q: Query, now: Tick, nested: bool, env: Engine, cfg: Config)
    returns (r: Outcome<bool>, tries: nat)
    ensures r == Synchronized(env.queryWait(q), AttemptsOf(NoSelector(node, q), env), now, nested, cfg)
    ensures r.Return? ==> r.value
    ensures TriesAllowed(env.queryWait(q), nested, cfg, tries)
    decreases 0, 3
  {
    r, tries := Synchronize(env.queryWait(q), NoSelector(node, q), now, nested, env, cfg, null);
    SynchronizedTries(env.queryWait(q), AttemptsOf(NoSelector(node, q), env), now, nested, cfg, tries, r);
    SynchronizedReturnsTrue(env.queryWait(q), NoSelector(node, q), now, nested, env, cfg);
  }

  /** `assert_text(*args, **kwargs)`. */
  method AssertText(node: NodeId, q: Query, now: Tick, nested: bool, env: Engine, cfg: Config)
    returns (r: Outcome<bool>, tries: nat)
    ensures r == Synchronized(env.queryWait(q), AttemptsOf(Text(node, q), env), now, nested, cfg)
    ensures r.Return? ==> r.value
    ensures TriesAllowed(env.queryWait(q), nested, cfg, tries)
  {
    r, tries := Synchronize(env.queryWait(q), Text(node, q), now, nested, env, cfg, null);
    SynchronizedTries(env.queryWait(q), AttemptsOf(Text(node, q), env), now, nested, cfg, tries, r);
    SynchronizedReturnsTrue(env.queryWait(q), Text(node, q), now, nested, env, cfg);
  }

  /** `assert_no_text(*args, **kwargs)`. */
  method AssertNoText(node: NodeId, q: Query, now: Tick, nested: bool, env: Engine, cfg: Config)
    returns (r: Outcome<bool>, tries: nat)
    ensures r == Synchronized(env.queryWait(q), AttemptsOf(NoText(node, q), env), now, nested, cfg)
    ensures r.Return? ==> r.value
    ensures TriesAllowed(env.queryWait(q), nested, cfg, tries)
  {
    r, tries := Synchronize(env.queryWait(q), NoText(node, q), now, nested, env, cfg, null);
    SynchronizedTries(env.queryWait(q), AttemptsOf(NoText(node, q), env), now, nested, cfg, tries, r);
    SynchronizedReturnsTrue(env.queryWait(q), NoText(node, q), now, nested, env, cfg);
  }

  /** `assert_matches_selector(*args, **kwargs)`. */
  method AssertMatchesSelector(node: NodeId, q: Query, now: Tick, nested: bool, env: Engine, cfg: Config)
    returns (r: Outcome<bool>, tries: nat)
    ensures r == Synchronized(env.queryWait(q), AttemptsOf(Matches(node, q), env), now, nested, cfg)
    ensures r.Return? ==> r.value
    ensures TriesAllowed(env.queryWait(q), nested, cfg, tries)
  {
    r, tries := Synchronize(env.queryWait(q), Matches(node, q), now, nested, env, cfg, null);
    SynchronizedTries(env.queryWait(q), AttemptsOf(Matches(node, q), env), now, nested, cfg, tries, r);
    SynchronizedReturnsTrue(env.queryWait(q), Matches(node, q), now, nested, env, cfg);
  }

  /** `assert_not_match_selector(*args, **kwargs)`, also `refute_matches_selector`. */
  method AssertNotMatchSelector(node: NodeId, q: Query, now: Tick, nested: bool, env: Engine, cfg: Config)
    returns (r: Outcome<bool>, tries: nat)
    ensures r == Synchronized(env.queryWait(q), AttemptsOf(NotMatch(node, q), env), now, nested, cfg)
    ensures r.Return? ==> r.value
    ensures TriesAllowed(env.queryWait(q), nested, cfg, tries)
  {
    r, tries := Synchronize(env.queryWait(q), NotMatch(node, q), now, nested, env, cfg, null);
    SynchronizedTries(env.queryWait(q), AttemptsOf(NotMatch(node, q), env), now, nested, cfg, tries, r);
    SynchronizedReturnsTrue(env.queryWait(q), NotMatch(node, q), now, nested, env, cfg);
  }

  /** `assert_style(styles, **kwargs)`: a fresh `StyleQuery`, whose constructor
      accepts no keyword but `wait`, resolved under its own wait. */
  method AssertStyle(node: NodeId, styles: map<string, StyleValue>, kwargs: Kwargs, now: Tick, nested: bool, env: Engine, cfg: Config)
    returns (r: Outcome<bool>, tries: nat)
    ensures !(kwargs.Keys <= {"wait"}) ==> r.Raise? && r.error.Failure? && tries == 0
    ensures kwargs.Keys <= {"wait"} ==> TriesAllowed(WaitOption(StyleWaitArgument(kwargs), cfg), nested, cfg, tries)
    ensures kwargs.Keys <= {"wait"} ==>
              r == Synchronized(WaitOption(StyleWaitArgument(kwargs), cfg), AttemptsOf(Style(node, styles), env), now, nested, cfg)
    ensures r.Return? ==> r.value
  {
    if !(kwargs.Keys <= {"wait"}) {
      return Raise(Failure("TypeError: unexpected keyword argument")), 0;
    }
    var wait := if "wait" in kwargs then kwargs["wait"] else Null;
    var query := new StyleQuery(styles, wait);
    r, tries := Synchronize(query.Wait(cfg), Style(node, styles), now, nested, env, cfg, query);
    SynchronizedTries(query.Wait(cfg), AttemptsOf(Style(node, styles), env), now, nested, cfg, tries, r);
    SynchronizedReturnsTrue(query.Wait(cfg), Style(node, styles), now, nested, env, cfg);
  }

  /** The `wait` keyword handed to `StyleQuery`, None when absent. */
  function StyleWaitArgument(kwargs: Kwargs): Value
  {
    if "wait" in kwargs then kwargs["wait"] else Null
  }

  /** The wait of a group: the `wait` keyword when given (even None), else the default. */
  function GroupWait(kwargs: Kwargs, cfg: Config): (w: Value)
    ensures "wait" in kwargs ==> w == kwargs["wait"]
    ensures "wait" !in kwargs ==> Budget(w, cfg) == Return(cfg.defaultMaxWaitTime)
  {
    if "wait" in kwargs then kwargs["wait"] else Int(cfg.defaultMaxWaitTime)
  }

  /** The selector and locators a group actually uses: a first argument that is
      no registered selector is one more locator, ahead of the others, and the
      default selector is used. */
  datatype GroupArguments = GroupArguments(selector: Value, locators: seq<Value>)

  function NormalizeGroup(selector: Value, locators: seq<Value>, cfg: Config): (g: GroupArguments)
    ensures IsRegisteredSelector(selector, cfg) ==> g == GroupArguments(selector, locators)
    ensures !IsRegisteredSelector(selector, cfg) ==>
              g.selector == Str(cfg.defaultSelector) && g.locators == [selector] + locators
    ensures IsRegisteredSelector(g.selector, cfg) || g.selector == Str(cfg.defaultSelector)
    ensures g.locators[|g.locators| - |locators|..] == locators
  {
    if IsRegisteredSelector(selector, cfg) then GroupArguments(selector, locators)
    else GroupArguments(Str(cfg.defaultSelector), [selector] + locators)
  }

  /** The closure of a group after its arguments are normalised. */
  function GroupCheck(positive: bool, node: NodeId, selector: Value, locators: seq<Value>, kwargs: Kwargs, cfg: Config): Check
  {
    var g := NormalizeGroup(selector, locators, cfg);
    if positive then AllOf(node, g.selector, g.locators, kwargs) else NoneOf(node, g.selector, g.locators, kwargs)
  }

  /** `assert_all_of_selectors(selector, *locators, **kwargs)`. */
  method AssertAllOfSelectors(node: NodeId, selector: Value, locators: seq<Value>, kwargs: Kwargs, now: Tick, nested: bool, env: Engine, cfg: Config)
    returns (r: Outcome<bool>, tries: nat)
    ensures r == Synchronized(GroupWait(kwargs, cfg), AttemptsOf(GroupCheck(true, node, selector, locators, kwargs, cfg), env), now, nested, cfg)
    ensures r.Return? ==> r.value
    ensures TriesAllowed(GroupWait(kwargs, cfg), nested, cfg, tries)
  {
    var wait := if "wait" in kwargs then kwargs["wait"] else Int(cfg.defaultMaxWaitTime);
    var sel, locs := selector, locators;
    if !IsRegisteredSelector(sel, cfg) {
      locs := [sel] + locs;
      sel := Str(cfg.defaultSelector);
    }
    r, tries := Synchronize(wait, AllOf(node, sel, locs, kwargs), now, nested, env, cfg, null);
    SynchronizedTries(wait, AttemptsOf(AllOf(node, sel, locs, kwargs), env), now, nested, cfg, tries, r);
    SynchronizedReturnsTrue(wait, AllOf(node, sel, locs, kwargs), now, nested, env, cfg);
  }

  /** `assert_none_of_selectors(selector, *locators, **kwargs)`. */
  method AssertNoneOfSelectors(node: NodeId, selector: Value, locators: seq<Value>, kwargs: Kwargs, now: Tick, nested: bool, env: Engine, cfg: Config)
    returns (r: Outcome<bool>, tries: nat)
    ensures r == Synchronized(GroupWait(kwargs, cfg), AttemptsOf(GroupCheck(false, node, selector, locators, kwargs, cfg), env), now, nested, cfg)
    ensures r.Return? ==> r.value
    ensures TriesAllowed(GroupWait(kwargs, cfg), nested, cfg, tries)
  {
    var wait := if "wait" in kwargs then kwargs["wait"] else Int(cfg.defaultMaxWaitTime);
    var sel, locs := selector, locators;
    if !IsRegisteredSelector(sel, cfg) {
      locs := [sel] + locs;
      sel := Str(cfg.defaultSelector);
    }
    r, tries := Synchronize(wait, NoneOf(node, sel, locs, kwargs), now, nested, env, cfg, null);
    SynchronizedTries(wait, AttemptsOf(NoneOf(node, sel, locs, kwargs), env), now, nested, cfg, tries, r);
    SynchronizedReturnsTrue(wait, NoneOf(node, sel, locs, kwargs), now, nested, env, cfg);
  }

  /** Every closure returns True when it returns at all. */
  lemma AttemptReturnsTrue(c: Check, t: Tick, env: Engine)
    ensures Attempt(c, t, env).Return? ==> Attempt(c, t, env).value
  {
    match c
    case AllOf(scope, selector, locators, kwargs) => GroupReturnsTrue(true, scope, selector, locators, kwargs, t, env);
    case NoneOf(scope, selector, locators, kwargs) => GroupReturnsTrue(false, scope, selector, locators, kwargs, t, env);
    case _ =>
  }

  lemma {:induction false} GroupReturnsTrue(positive: bool, scope: NodeId, selector: Value, locators: seq<Value>, kwargs: Kwargs, t: Tick, env: Engine)
    ensures CheckGroup(positive, scope, selector, locators, kwargs, t, env).Return? ==>
              CheckGroup(positive, scope, selector, locators, kwargs, t, env).value
    decreases |locators|
  {
    if locators != [] {
      GroupReturnsTrue(positive, scope, selector, locators[1..], kwargs, t, env);
    }
  }

  lemma SynchronizedReturnsTrue(wait: Value, c: Check, now: Tick, nested: bool, env: Engine, cfg: Config)
    ensures var r := Synchronized(wait, AttemptsOf(c, env), now, nested, cfg); r.Return? ==> r.value
  {
    var r := Synchronized(wait, AttemptsOf(c, env), now, nested, cfg);
    if nested || Budget(wait, cfg).Raise? {
      AttemptReturnsTrue(c, now, env);
    } else {
      var j: Tick :| now <= j <= Max(now, now + Budget(wait, cfg).value) &&
                     r == AttemptsOf(c, env)(j);
      AttemptReturnsTrue(c, j, env);
    }
  }

  /** The style wait as synchronize reads it: the default when no wait is
      given, no retry at all for a falsy wait (False, 0, or even ""), and for a
      truthy wait the same budget as that wait would give anywhere else. */
  lemma StyleWaitBudget(option: Value, cfg: Config)
    ensures option.Null? ==> Budget(WaitOption(option, cfg), cfg) == Return(cfg.defaultMaxWaitTime)
    ensures !option.Null? && !Truthy(option) ==> Budget(WaitOption(option, cfg), cfg) == Return(0)
    ensures Truthy(option) ==> Budget(WaitOption(option, cfg), cfg) == Budget(option, cfg)
  {
  }

  /** So `assert_style(styles, wait=w)` with a falsy `w` checks the node exactly once. */
  lemma FalsyStyleWaitChecksOnce(node: NodeId, styles: map<string, StyleValue>, w: Value, now: Tick, env: Engine, cfg: Config)
    requires w != Null && !Truthy(w)
    ensures Synchronized(WaitOption(StyleWaitArgument(map["wait" := w]), cfg), AttemptsOf(Style(node, styles), env), now, false, cfg) ==
            CheckStyle(node, styles, now, env)
  {
    assert StyleWaitArgument(map["wait" := w]) == w;
    ZeroWaitRunsOnce(WaitOption(w, cfg), AttemptsOf(Style(node, styles), env), now, cfg);
  }

  /** Every locator of a group is found at tick `t`, each by its own `assert_selector`. */
  predicate AllFound(scope: NodeId, selector: Value, locators: seq<Value>, kwargs: Kwargs, t: Tick, env: Engine)
  {
    forall i :: 0 <= i < |locators| ==> CheckSelector(scope, MemberQuery(selector, locators[i], kwargs), t, env).Return?
  }

  /** One run of an all-of group returns exactly when every locator is found at that tick. */
  lemma AllOfAttemptIff(scope: NodeId, selector: Value, locators: seq<Value>, kwargs: Kwargs, t: Tick, env: Engine)
    ensures AttemptsOf(AllOf(scope, selector, locators, kwargs), env)(t).Return? <==>
            AllFound(scope, selector, locators, kwargs, t, env)
  {
    GroupSucceedsIffEach(true, scope, selector, locators, kwargs, t, env);
  }

  /** `assert_all_of_selectors` (its selector and locators already normalised)
      returns True as soon as every locator is found at one and the same tick
      within its single budget, provided every earlier run failed retriably. */
  lemma AllOfSucceedsWhenAllFound(scope: NodeId, selector: Value, locators: seq<Value>, kwargs: Kwargs, wait: Value, now: Tick, env: Engine, cfg: Config, j: Tick)
    requires Budget(wait, cfg).Return? && now <= j <= now + Budget(wait, cfg).value
    requires UnsettledBetween(AttemptsOf(AllOf(scope, selector, locators, kwargs), env), now, j)
    requires AllFound(scope, selector, locators, kwargs, j, env)
    ensures Synchronized(wait, AttemptsOf(AllOf(scope, selector, locators, kwargs), env), now, false, cfg) == Return(true)
  {
    var attempts := AttemptsOf(AllOf(scope, selector, locators, kwargs), env);
    AllOfAttemptIff(scope, selector, locators, kwargs, j, env);
    AttemptReturnsTrue(AllOf(scope, selector, locators, kwargs), j, env);
    SynchronizedStopsAt(wait, attempts, now, cfg, j, attempts(j));
  }

  /** Conversely, it returns only if such a tick exists: members found at
      different ticks never add up to a success. */
  lemma AllOfSucceedsOnlyWhenAllFound(scope: NodeId, selector: Value, locators: seq<Value>, kwargs: Kwargs, wait: Value, now: Tick, env: Engine, cfg: Config)
    requires Budget(wait, cfg).Return?
    requires Synchronized(wait, AttemptsOf(AllOf(scope, selector, locators, kwargs), env), now, false, cfg).Return?
    ensures exists j: Tick :: now <= j <= now + Budget(wait, cfg).value &&
                              UnsettledBetween(AttemptsOf(AllOf(scope, selector, locators, kwargs), env), now, j) &&
                              AllFound(scope, selector, locators, kwargs, j, env)
  {
    var attempts := AttemptsOf(AllOf(scope, selector, locators, kwargs), env);
    var deadline := now + Budget(wait, cfg).value;
    RetryStopsSomewhere(attempts, now, deadline);
    var last: Tick :| StoppedAt(attempts, now, deadline, last, Retry(attempts, now, deadline));
    AllOfAttemptIff(scope, selector, locators, kwargs, last, env);
    assert AllFound(scope, selector, locators, kwargs, last, env);
  }

  /** No locator of a group is found at tick `t`: each one's `assert_no_selector` returns. */
  predicate NoneFound(scope: NodeId, selector: Value, locators: seq<Value>, kwargs: Kwargs, t: Tick, env: Engine)
  {
    forall i :: 0 <= i < |locators| ==> CheckNoSelector(scope, MemberQuery(selector, locators[i], kwargs), t, env).Return?
  }

  /** One run of a none-of group returns exactly when no locator is found at that tick. */
  lemma NoneOfAttemptIff(scope: NodeId, selector: Value, locators: seq<Value>, kwargs: Kwargs, t: Tick, env: Engine)
    ensures AttemptsOf(NoneOf(scope, selector, locators, kwargs), env)(t).Return? <==>
            NoneFound(scope, selector, locators, kwargs, t, env)
  {
    GroupSucceedsIffEach(false, scope, selector, locators, kwargs, t, env);
  }

  /** `assert_none_of_selectors` (its selector and locators already normalised)
      returns True as soon as no locator is found at one tick within its single
      budget, provided every earlier run failed retriably. */
  lemma NoneOfSucceedsWhenNoneFound(scope: NodeId, selector: Value, locators: seq<Value>, kwargs: Kwargs, wait: Value, now: Tick, env: Engine, cfg: Config, j: Tick)
    requires Budget(wait, cfg).Return? && now <= j <= now + Budget(wait, cfg).value
    requires UnsettledBetween(AttemptsOf(NoneOf(scope, selector, locators, kwargs), env), now, j)
    requires NoneFound(scope, selector, locators, kwargs, j, env)
    ensures Synchronized(wait, AttemptsOf(NoneOf(scope, selector, locators, kwargs), env), now, false, cfg) == Return(true)
  {
    var attempts := AttemptsOf(NoneOf(scope, selector, locators, kwargs), env);
    NoneOfAttemptIff(scope, selector, locators, kwargs, j, env);
    AttemptReturnsTrue(NoneOf(scope, selector, locators, kwargs), j, env);
    SynchronizedStopsAt(wait, attempts, now, cfg, j, attempts(j));
  }

  /** Conversely, it returns only if such a tick exists: locators absent at
      different ticks never add up to a success. */
  lemma NoneOfSucceedsOnlyWhenNoneFound(scope: NodeId, selector: Value, locators: seq<Value>, kwargs: Kwargs, wait: Value, now: Tick, env: Engine, cfg: Config)
    requires Budget(wait, cfg).Return?
    requires Synchronized(wait, AttemptsOf(NoneOf(scope, selector, locators, kwargs), env), now, false, cfg).Return?
    ensures exists j: Tick :: now <= j <= now + Budget(wait, cfg).value &&
                              UnsettledBetween(AttemptsOf(NoneOf(scope, selector, locators, kwargs), env), now, j) &&
                              NoneFound(scope, selector, locators, kwargs, j, env)
  {
    var attempts := AttemptsOf(NoneOf(scope, selector, locators, kwargs), env);
    var deadline := now + Budget(wait, cfg).value;
    RetryStopsSomewhere(attempts, now, deadline);
    var last: Tick :| StoppedAt(attempts, now, deadline, last, Retry(attempts, now, deadline));
    NoneOfAttemptIff(scope, selector, locators, kwargs, last, env);
    assert NoneFound(scope, selector, locators, kwargs, last, env);
  }

  // ---------------------------------------------------------------------
  // Boolean forms.

  /** `try: assert...; return True  except ExpectationNotMet: return False`. */
  function AsBoolean(o: Outcome<bool>): (r: Outcome<bool>)
    ensures r == Return(true) <==> o.Return?
    ensures r == Return(false) <==> o.Raise? && o.error.ExpectationNotMet?
    ensures r.Raise? <==> o.Raise? && !o.error.ExpectationNotMet?
    ensures r.Raise? ==> r.error == o.error
  {
    match o
    case Return(_) => Return(true)
    case Raise(e) => if e.ExpectationNotMet? then Return(false) else Raise(e)
  }

  /** `has_selector(*args, **kwargs)`. */
  method HasSelector(node: NodeId, q: Query, now: Tick, nested: bool, env: Engine, cfg: Config) returns (r: Outcome<bool>)
    ensures r == AsBoolean(Synchronized(env.queryWait(q), AttemptsOf(Selector(node, q), env), now, nested, cfg))
  {
    var o, _ := AssertSelector(node, q, now, nested, env, cfg);
    r := AsBoolean(o);
  }

  /** `has_no_selector(*args, **kwargs)`. */
  method HasNoSelector(node: NodeId, q: Query, now: Tick, nested: bool, env: Engine, cfg: Config) returns (r: Outcome<bool>)
    ensures r == AsBoolean(Synchronized(env.queryWait(q), AttemptsOf(NoSelector(node, q), env), now, nested, cfg))
  {
    var o, _ := AssertNoSelector(node, q, now, nested, env, cfg);
    r := AsBoolean(o);
  }

  /** `has_style(styles, **kwargs)`. */
  method HasStyle(node: NodeId, styles: map<string, StyleValue>, kwargs: Kwargs, now: Tick, nested: bool, env: Engine, cfg: Config)
    returns (r: Outcome<bool>)
    ensures !(kwargs.Keys <= {"wait"}) ==> r.Raise? && r.error.Failure?
    ensures kwargs.Keys <= {"wait"} ==>
              r == AsBoolean(Synchronized(WaitOption(StyleWaitArgument(kwargs), cfg), AttemptsOf(Style(node, styles), env), now, nested, cfg))
  {
    var o, _ := AssertStyle(node, styles, kwargs, now, nested, env, cfg);
    r := AsBoolean(o);
  }

  /** `has_all_of_selectors(selector, *locators, **kwargs)`. */
  method HasAllOfSelectors(node: NodeId, selector: Value, locators: seq<Value>, kwargs: Kwargs, now: Tick, nested: bool, env: Engine, cfg: Config)
    returns (r: Outcome<bool>)
    ensures r == AsBoolean(Synchronized(GroupWait(kwargs, cfg), AttemptsOf(GroupCheck(true, node, selector, locators, kwargs, cfg), env), now, nested, cfg))
  {
    var o, _ := AssertAllOfSelectors(node, selector, locators, kwargs, now, nested, env, cfg);
    r := AsBoolean(o);
  }

  /** `has_none_of_selectors(selector, *locators, **kwargs)`. */
  method HasNoneOfSelectors(node: NodeId, selector: Value, locators: seq<Value>, kwargs: Kwargs, now: Tick, nested: bool, env: Engine, cfg: Config)
    returns (r: Outcome<bool>)
    ensures r == AsBoolean(Synchronized(GroupWait(kwargs, cfg), AttemptsOf(GroupCheck(false, node, selector, locators, kwargs, cfg), env), now, nested, cfg))
  {
    var o, _ := AssertNoneOfSelectors(node, selector, locators, kwargs, now, nested, env, cfg);
    r := AsBoolean(o);
  }

  /** `matches_selector(*args, **kwargs)`. */
  method MatchesSelector(node: NodeId, q: Query, now: Tick, nested: bool, env: Engine, cfg: Config) returns (r: Outcome<bool>)
    ensures r == AsBoolean(Synchronized(env.queryWait(q), AttemptsOf(Matches(node, q), env), now, nested, cfg))
  {
    var o, _ := AssertMatchesSelector(node, q, now, nested, env, cfg);
    r := AsBoolean(o);
  }

  /** `not_match_selector(*args, **kwargs)`. */
  method NotMatchSelector(node: NodeId, q: Query, now: Tick, nested: bool, env: Engine, cfg: Config) returns (r: Outcome<bool>)
    ensures r == AsBoolean(Synchronized(env.queryWait(q), AttemptsOf(NotMatch(node, q), env), now, nested, cfg))
  {
    var o, _ := AssertNotMatchSelector(node, q, now, nested, env, cfg);
    r := AsBoolean(o);
  }

  /** `has_text(*args, **kwargs)`, also `has_content`. */
  method HasText(node: NodeId, q: Query, now: Tick, nested: bool, env: Engine, cfg: Config) returns (r: Outcome<bool>)
    ensures r == AsBoolean(Synchronized(env.queryWait(q), AttemptsOf(Text(node, q), env), now, nested, cfg))
  {
    var o, _ := AssertText(node, q, now, nested, env, cfg);
    r := AsBoolean(o);
  }

  /** `has_no_text(*args, **kwargs)`, also `has_no_content`. */
  method HasNoText(node: NodeId, q: Query, now: Tick, nested: bool, env: Engine, cfg: Config) returns (r: Outcome<bool>)
    ensures r == AsBoolean(Synchronized(env.queryWait(q), AttemptsOf(NoText(node, q), env), now, nested, cfg))
  {
    var o, _ := AssertNoText(node, q, now, nested, env, cfg);
    r := AsBoolean(o);
  }

  /** On one snapshot (a nested call, which runs its body once) `has_selector`
      and `has_no_selector` give opposite answers, unless the query itself raises. */
  lemma NestedSelectorAnswersOpposite(node: NodeId, q: Query, now: Tick, env: Engine, cfg: Config)
    requires env.resolve(q, node, now).Return?
    ensures var yes := AsBoolean(Synchronized(env.queryWait(q), AttemptsOf(Selector(node, q), env), now, true, cfg));
            var no := AsBoolean(Synchronized(env.queryWait(q), AttemptsOf(NoSelector(node, q), env), now, true, cfg));
            yes.Return? && no.Return? && yes.value == !no.value
  {
    SelectorPolarity(node, q, now, env);
  }

  /** The same for `has_text` and `has_no_text`. */
  lemma NestedTextAnswersOpposite(node: NodeId, q: Query, now: Tick, env: Engine, cfg: Config)
    requires env.resolveText(q, node, now).Return?
    ensures var yes := AsBoolean(Synchronized(env.queryWait(q), AttemptsOf(Text(node, q), env), now, true, cfg));
            var no := AsBoolean(Synchronized(env.queryWait(q), AttemptsOf(NoText(node, q), env), now, true, cfg));
            yes.Return? && no.Return? && yes.value == !no.value
  {
    TextPolarity(node, q, now, env);
  }

  // ---------------------------------------------------------------------
  // Checked-field helpers and one-line forwarders.

  /** The `"field"` query a checked-field helper builds: `checked` forced to the
      given flag, the locator and every other option passed through. */
  function FieldQuery(locator: Value, kwargs: Kwargs, checked: bool): (q: Query)
    ensures q.args == [Str("field"), locator]
    ensures q.kwargs.Keys == kwargs.Keys + {"checked"}
    ensures q.kwargs["checked"] == Bool(checked)
    ensures forall k :: k in kwargs && k != "checked" ==> q.kwargs[k] == kwargs[k]
  {
    Query([Str("field"), locator], kwargs["checked" := Bool(checked)])
  }

  /** `has_checked_field` (checked, positive), `has_no_checked_field` (checked,
      negative), `has_unchecked_field` and `has_no_unchecked_field`. */
  method HasFieldChecked(node: NodeId, locator: Value, kwargs: Kwargs, checked: bool, positive: bool, now: Tick, nested: bool, env: Engine, cfg: Config)
    returns (r: Outcome<bool>)
    ensures var q := FieldQuery(locator, kwargs, checked);
            r == AsBoolean(Synchronized(env.queryWait(q), AttemptsOf(if positive then Selector(node, q) else NoSelector(node, q), env), now, nested, cfg))
  {
    var options := kwargs;
    options := options["checked" := Bool(checked)];
    if positive {
      r := HasSelector(node, Query([Str("field"), locator], options), now, nested, env, cfg);
    } else {
      r := HasNoSelector(node, Query([Str("field"), locator], options), now, nested, env, cfg);
    }
  }

  /** The forwarders that fix the selector kind of `has_selector`,
      `has_no_selector`, `matches_selector` or `not_match_selector`. */
  datatype Shortcut =
    | HasXpath | HasNoXpath | HasCss | HasNoCss
    | HasButton | HasNoButton | HasField | HasNoField | HasLink | HasNoLink
    | HasSelect | HasNoSelect | HasTable | HasNoTable
    | MatchesXpath | NotMatchXpath | MatchesCss | NotMatchCss
  {
    function Kind(): string
    {
      match this
      case HasXpath | HasNoXpath | MatchesXpath | NotMatchXpath => "xpath"
      case HasCss | HasNoCss | MatchesCss | NotMatchCss => "css"
      case HasButton | HasNoButton => "button"
      case HasField | HasNoField => "field"
      case HasLink | HasNoLink => "link"
      case HasSelect | HasNoSelect => "select"
      case HasTable | HasNoTable => "table"
    }

    predicate Negated()
    {
      HasNoXpath? || HasNoCss? || HasNoButton? || HasNoField? || HasNoLink? ||
      HasNoSelect? || HasNoTable? || NotMatchXpath? || NotMatchCss?
    }

    predicate MatchesNode()
    {
      MatchesXpath? || NotMatchXpath? || MatchesCss? || NotMatchCss?
    }

    /** The closure the target matcher synchronizes. */
    function Target(node: NodeId, q: Query): Check
    {
      if MatchesNode() then (if Negated() then NotMatch(node, q) else Matches(node, q))
      else (if Negated() then NoSelector(node, q) else Selector(node, q))
    }
  }

  /** A forwarder `s` called with one locator: its target matcher on the query
      `(kind, locator)` with the options unchanged. */
  method Forward(s: Shortcut, node: NodeId, locator: Value, kwargs: Kwargs, now: Tick, nested: bool, env: Engine, cfg: Config)
    returns (r: Outcome<bool>)
    ensures var q := Query([Str(s.Kind()), locator], kwargs);
            r == AsBoolean(Synchronized(env.queryWait(q), AttemptsOf(s.Target(node, q), env), now, nested, cfg))
  {
    var q := Query([Str(s.Kind()), locator], kwargs);
    if s.MatchesNode() {
      if s.Negated() {
        r := NotMatchSelector(node, q, now, nested, env, cfg);
      } else {
        r := MatchesSelector(node, q, now, nested, env, cfg);
      }
    } else {
      if s.Negated() {
        r := HasNoSelector(node, q, now, nested, env, cfg);
      } else {
        r := HasSelector(node, q, now, nested, env, cfg);
      }
    }
  }
}
