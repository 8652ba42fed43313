# capybara-py matchers: a verified model

This project models the assertion layer of capybara-py's nodes, the class
`MatchersMixin`, and the `StyleQuery` that backs `assert_style`. Every public
matcher builds a query. It then wraps a single-shot check of that query in
`synchronize`, which retries the check while it fails retriably and the wait
budget lasts. A failed check raises `ExpectationNotMet`. The boolean forms
(`has_*`, `matches_selector`, `not_match_selector`) turn that one exception
into `False`.

The files and their modules:

- `outcomes.dfy` (`Outcomes`): the exceptions a matcher sees and the
  return-or-raise outcome of one call.
- `values.dfy` (`Values`): Python option values with their truthiness, plus
  the configuration (`default_max_wait_time`, `default_selector`, the
  registered selector names).
- `synchronization.dfy` (`Synchronization`): the retry protocol over a discrete
  clock. `Retry` is the loop. `Synchronized` is a whole call of
  `synchronize(wait)(body)()`, where a nested call runs its body once.
  Lemmas cover early exit, expiry, when a call succeeds, and monotonicity in
  the budget.
- `style_query.dfy` (`StyleQueries`): `StyleQuery` is a class. Its constructor
  and the `wait` property are modelled, and `resolves_for` updates `node` and
  `actual_styles` in place.
- `matchers.dfy` (`Matchers`) covers the rest of the layer:
  - the single-shot bodies of every assertion, as functions;
  - the closures, defunctionalised as the datatype `Check`;
  - the methods that run them. `Synchronize`, `RetryLoop` and `RunAttempt`
    are mutually recursive with `AssertSelector`/`AssertNoSelector`, because
    the group bodies loop over their locators calling nested assertions;
  - every public assertion and boolean wrapper;
  - the checked-field helpers and the one-line forwarders.

The query engine, the driver and the helpers `matches_count` and
`expects_none` are collaborators outside this model. They are the fields of
`Matchers.Engine`. The answers that read the document (`resolve`,
`resolveText`, `parent` and `style`) take the tick at which they are asked, so
a changing document is modelled too. The other fields see only their
arguments. A text query's failure messages are part of what `resolveText`
returns, because the source reads them from the query it has just resolved.

How `synchronize` behaves is taken as follows:

- A call made while the session is already synchronizing runs its body exactly
  once. This is how an all-of/none-of group shares one budget.
- Otherwise the body runs at ticks `now`, `now + 1`, and so on.
- A return, or an error that is not retriable, ends the loop at once.
- A retriable error (`ExpectationNotMet`, or the driver's stale-element error)
  is re-raised once the attempt at `now + budget` has failed. Before that, the
  body runs again.
- `wait` becomes a budget as follows:
  - None means the default;
  - a boolean or integer counts as a number of seconds, and a negative one as 0;
  - any other value cannot be compared with elapsed time. The body still runs
    once. If that attempt settles, its outcome stands; otherwise the timer's
    expiry check raises a `TypeError`-like `Failure`.

## Model

| member | source | states |
|---|---|---|
| Synchronization.Budget | capybara/node/matchers.py:229 | None gives the default budget; False and non-positive integers give no retry; a non-negative integer is its own budget; exactly the non-numeric waits make the timer raise |
| Synchronization.Retry | capybara/node/matchers.py:229-239 | the outcome of the retry loop is the outcome of one real attempt between the first tick and the deadline, never a synthetic timeout |
| Synchronization.RetryStopsAt | capybara/node/matchers.py:229-239 | when every attempt before `last` failed retriably, and the attempt at `last` settled or was at the deadline, the loop yields exactly that attempt's outcome |
| Synchronization.RetryStopsSomewhere | capybara/node/matchers.py:229-239 | every loop stops at some attempt of that kind, so the two lemmas together characterise the loop completely |
| Synchronization.RetryExpires | capybara/node/matchers.py:229-239 | if every attempt up to the deadline fails retriably, the last attempt's retriable error is re-raised |
| Synchronization.RetrySucceedsIff | capybara/node/matchers.py:229-239 | the loop returns if and only if some attempt within the budget returns and every attempt before it failed retriably |
| Synchronization.Synchronized | capybara/node/matchers.py:229-239 | one call of `synchronize(wait)(body)()`: a nested call is one attempt; otherwise the retry loop runs up to `now` + budget, and an unreadable wait keeps a settled first attempt and otherwise raises the timer's error; its behaviour is pinned down by `RetryStopsAt`, `RetryStopsSomewhere`, `RetrySucceedsIff` and `UnreadableWaitRunsOnce` |
| Synchronization.UnreadableWaitRunsOnce | capybara/node/matchers.py:229-239 | with a wait the timer cannot read, the first attempt still runs: a settled outcome stands, a retriable failure becomes the timer's error, and the result is never a retriable error |
| Synchronization.RetryLaterDeadline | capybara/node/matchers.py:229-239 | a larger wait never turns a success into a failure, and the returned value is unchanged |
| Synchronization.SynchronizedTries | capybara/node/matchers.py:229-239 | a run that stops as `Synchronize` reports ran its body at least once, exactly once when nested or the wait is unreadable, and at most budget + 1 times, once per tick up to the deadline |
| Synchronization.SynchronizedStopsAt | capybara/node/matchers.py:229-239 | a call that is not nested yields the outcome of the attempt at which its loop stopped, with the deadline `now` + budget |
| Synchronization.ZeroWaitRunsOnce | capybara/node/matchers.py:229-239 | with any wait whose budget is 0 (0, False or a negative number) the body still runs, exactly once, at the current tick |
| StyleQueries.Fetch | capybara/queries/style_query.py:42 | the fetched styles have exactly the expected names as keys, each mapped to the node's computed value |
| StyleQueries.FetchedStylesMatchIff | capybara/queries/style_query.py:42-46 | matching the fetched map is the same as matching the node's computed value for each expected property |
| StyleQueries.EmptyExpectationAlwaysMatches | capybara/queries/style_query.py:44-46 | with no expected styles every node matches, because `all` over nothing is true |
| StyleQueries.WaitOption | capybara/queries/style_query.py:22-28 | a non-None wait is itself when truthy and 0 when falsy; None is the default wait; the result is never None; it is truthy exactly when the option is, or when it is None and the default is positive |
| StyleQueries.StyleQuery.Wait | capybara/queries/style_query.py:22-28 | the `wait` property: `WaitOption` of the stored option, whose contract states its meaning |
| StyleQueries.StyleQuery.constructor | capybara/queries/style_query.py:15-20 | a fresh query keeps the expected styles, has empty `actual_styles`, no node, and options holding only `wait` |
| StyleQueries.StyleQuery.ResolvesFor | capybara/queries/style_query.py:41-46 | records the node; on a fetch error, propagates it and leaves `actual_styles` alone; otherwise sets `actual_styles` to the styles fetched for exactly the expected names and returns whether every expected value matches |
| Outcomes.Retriable | capybara/node/matchers.py:229 | the errors synchronize catches and retries: `ExpectationNotMet` and the driver's stale-element error; its use is stated by the `Retry` lemmas |
| Matchers.CheckSelector | capybara/node/matchers.py:230-237 | the body of `assert_selector` at one tick; its meaning is stated by `SelectorPolarity` |
| Matchers.CheckNoSelector | capybara/node/matchers.py:372-379 | the body of `assert_no_selector` at one tick; `SelectorPolarity` states it is the complement of `CheckSelector` |
| Matchers.CheckText | capybara/node/matchers.py:840-847 | the body of `assert_text` at one tick; its meaning is stated by `TextPolarity` |
| Matchers.CheckNoText | capybara/node/matchers.py:870-877 | the body of `assert_no_text` at one tick; `TextPolarity` states it is the complement of `CheckText` |
| Matchers.MatchScope | capybara/node/matchers.py:413 | the node's parent, or its query scope when it has none; stated by `MatchPolarity` |
| Matchers.CheckMatches | capybara/node/matchers.py:412-418 | the body of `assert_matches_selector` at one tick; its meaning is stated by `MatchPolarity` |
| Matchers.CheckNotMatch | capybara/node/matchers.py:441-447 | the body of `assert_not_match_selector` at one tick; `MatchPolarity` states it is the complement of `CheckMatches` |
| Matchers.CheckStyle | capybara/node/matchers.py:259-264 | the body of `assert_style` at one tick; its meaning is stated by `StyleOutcome` |
| Matchers.CheckGroup | capybara/node/matchers.py:299-303 | one pass over a group's locators; its meaning is stated by `GroupSucceedsIffEach` and `GroupFirstFailure` |
| Matchers.SelectorPolarity | capybara/node/matchers.py:231-237 | one evaluation of `assert_selector` returns True iff the count holds and something was found or none was expected, and otherwise raises `ExpectationNotMet` with the failure message; `assert_no_selector` on the same result raises iff that one returns, with the negative message; query errors reach both unchanged |
| Matchers.TextPolarity | capybara/node/matchers.py:841-847 | the same two complementary polarities for `assert_text` and `assert_no_text` over the occurrence count |
| Matchers.MatchPolarity | capybara/node/matchers.py:413-445 | `assert_matches_selector` returns iff the node is among the results in its parent, or in its query scope when there is no parent; `assert_not_match_selector` returns iff it is not; each fails with its own fixed message, and both raise the same error otherwise |
| Matchers.StyleOutcome | capybara/node/matchers.py:259-264 | one evaluation of `assert_style` returns True iff every expected property's computed value matches, and otherwise raises `ExpectationNotMet` built from the fetched styles; a driver error propagates |
| Matchers.GroupSucceedsIffEach | capybara/node/matchers.py:298-303 | a group body returns iff every member check, one per locator, returns at the same tick |
| Matchers.GroupFirstFailure | capybara/node/matchers.py:300-301 | members run in order; the first member that raises gives the group's outcome |
| Matchers.GroupReturnsTrue | capybara/node/matchers.py:298-305 | a group body that returns, returns True |
| Matchers.AttemptReturnsTrue | capybara/node/matchers.py:229-447 | every closure that returns, returns True |
| Matchers.SynchronizedReturnsTrue | capybara/node/matchers.py:229-447 | every synchronized assertion that returns, returns True |
| Matchers.Synchronize | capybara/node/matchers.py:229-239 | running a closure under `synchronize` yields the specified outcome; a nested call, or one with a wait the timer cannot read, runs the body once; otherwise it stops at the first settled attempt or at the deadline, all earlier attempts having failed retriably; the style query then holds the node and, when that fetch returned, the styles fetched by the last attempt |
| Matchers.RetryLoop | capybara/node/matchers.py:229-239 | the loop stops at an attempt whose predecessors all failed retriably and which settled or was at the deadline |
| Matchers.RunAttempt | capybara/node/matchers.py:230-447 | one run of a closure yields the function `Attempt`; a group runs its members as nested assertions in a loop; a style closure leaves the fetched styles in the query |
| Matchers.AssertSelector | capybara/node/matchers.py:227-239 | `assert_selector` is its body synchronized under `query.wait`, and returns only True; the body ran at least once, exactly once when nested or the wait is unreadable, and at most budget + 1 times (`TriesAllowed`) |
| Matchers.AssertNoSelector | capybara/node/matchers.py:369-381 | `assert_no_selector` is its body synchronized under `query.wait`, and returns only True; the body ran at least once, exactly once when nested or the wait is unreadable, and at most budget + 1 times (`TriesAllowed`) |
| Matchers.AssertText | capybara/node/matchers.py:837-849 | `assert_text` is its body synchronized under `query.wait`, and returns only True; the body ran at least once, exactly once when nested or the wait is unreadable, and at most budget + 1 times (`TriesAllowed`) |
| Matchers.AssertNoText | capybara/node/matchers.py:867-879 | `assert_no_text` is its body synchronized under `query.wait`, and returns only True; the body ran at least once, exactly once when nested or the wait is unreadable, and at most budget + 1 times (`TriesAllowed`) |
| Matchers.AssertMatchesSelector | capybara/node/matchers.py:409-420 | `assert_matches_selector` is its body synchronized under `query.wait`, and returns only True; the body ran at least once, exactly once when nested or the wait is unreadable, and at most budget + 1 times (`TriesAllowed`) |
| Matchers.AssertNotMatchSelector | capybara/node/matchers.py:438-449 | `assert_not_match_selector` is its body synchronized under `query.wait`, and returns only True; the body ran at least once, exactly once when nested or the wait is unreadable, and at most budget + 1 times (`TriesAllowed`) |
| Matchers.AssertStyle | capybara/node/matchers.py:257-266 | any keyword but `wait` raises at construction with no attempt; otherwise the style body is synchronized under the style query's wait, and it returns only True; when the keywords are accepted the body ran as often as `TriesAllowed` permits |
| Matchers.StyleWaitBudget | capybara/queries/style_query.py:25-28 | the style wait gives the default budget when absent, no retry when falsy (even for ""), and a truthy wait's own budget |
| Matchers.FalsyStyleWaitChecksOnce | capybara/queries/style_query.py:25-26 | `assert_style` with a falsy wait checks the node exactly once |
| Matchers.GroupWait | capybara/node/matchers.py:292 | the group wait is `kwargs["wait"]` when that key is present (even None), and otherwise the default |
| Matchers.NormalizeGroup | capybara/node/matchers.py:294-296 | a registered selector leaves the locators untouched; any other first argument becomes the first locator and the default selector is used; the original locators always end the list |
| Matchers.AssertAllOfSelectors | capybara/node/matchers.py:292-305 | `assert_all_of_selectors` synchronizes the normalised all-of group under the group wait, and returns only True; the body ran at least once, exactly once when nested or the wait is unreadable, and at most budget + 1 times (`TriesAllowed`) |
| Matchers.AssertNoneOfSelectors | capybara/node/matchers.py:330-343 | `assert_none_of_selectors` synchronizes the normalised none-of group under the group wait, and returns only True; the body ran at least once, exactly once when nested or the wait is unreadable, and at most budget + 1 times (`TriesAllowed`) |
| Matchers.AllOfAttemptIff | capybara/node/matchers.py:299-303 | one run of an all-of group returns iff every locator is found at that tick |
| Matchers.AllOfSucceedsWhenAllFound | capybara/node/matchers.py:298-305 | the group returns True when every locator is found at one and the same tick within a single shared budget, and every earlier run failed retriably |
| Matchers.AllOfSucceedsOnlyWhenAllFound | capybara/node/matchers.py:298-305 | the group returns only if such a tick exists; members found at different ticks never add up to a success |
| Matchers.NoneOfAttemptIff | capybara/node/matchers.py:337-341 | one run of a none-of group returns iff no locator is found at that tick |
| Matchers.NoneOfSucceedsWhenNoneFound | capybara/node/matchers.py:336-343 | the group returns True when no locator is found at one tick within a single shared budget, and every earlier run failed retriably |
| Matchers.NoneOfSucceedsOnlyWhenNoneFound | capybara/node/matchers.py:336-343 | the group returns only if such a tick exists; locators absent at different ticks never add up to a success |
| Matchers.AsBoolean | capybara/node/matchers.py:46-50 | a return becomes True; `ExpectationNotMet`, and only that error, becomes False; every other error propagates unchanged |
| Matchers.HasSelector | capybara/node/matchers.py:46-50 | `has_selector` is `assert_selector` read as a boolean |
| Matchers.HasNoSelector | capybara/node/matchers.py:65-69 | `has_no_selector` is `assert_no_selector` read as a boolean |
| Matchers.HasStyle | capybara/node/matchers.py:84-88 | `has_style` is `assert_style` read as a boolean; an unexpected keyword still raises |
| Matchers.HasAllOfSelectors | capybara/node/matchers.py:114-118 | `has_all_of_selectors` is `assert_all_of_selectors` read as a boolean |
| Matchers.HasNoneOfSelectors | capybara/node/matchers.py:144-148 | `has_none_of_selectors` is `assert_none_of_selectors` read as a boolean |
| Matchers.MatchesSelector | capybara/node/matchers.py:162-166 | `matches_selector` is `assert_matches_selector` read as a boolean |
| Matchers.NotMatchSelector | capybara/node/matchers.py:181-185 | `not_match_selector` is `assert_not_match_selector` read as a boolean |
| Matchers.HasText | capybara/node/matchers.py:902-905 | `has_text` is `assert_text` read as a boolean |
| Matchers.HasNoText | capybara/node/matchers.py:923-926 | `has_no_text` is `assert_no_text` read as a boolean |
| Matchers.NestedSelectorAnswersOpposite | capybara/node/matchers.py:231-237 | on one snapshot, `has_selector` and `has_no_selector` give opposite answers unless the query raises |
| Matchers.NestedTextAnswersOpposite | capybara/node/matchers.py:841-847 | on one snapshot, `has_text` and `has_no_text` give opposite answers unless the query raises |
| Matchers.FieldQuery | capybara/node/matchers.py:633-634 | the checked-field query uses the `"field"` selector and the locator; it forces `checked` to the requested flag and passes every other option through unchanged |
| Matchers.HasFieldChecked | capybara/node/matchers.py:620-820 | `has_checked_field`, `has_no_checked_field`, `has_unchecked_field` and `has_no_unchecked_field` are `has_selector`/`has_no_selector` on that query |
| Matchers.Forward | capybara/node/matchers.py:454-788 | each `has_xpath` … `not_match_css` forwarder is its target matcher on `(kind, locator)` with the options unchanged |

## Left out

- `synchronize` itself is in `capybara/node/base.py`, which is not part of this model. The model assumes the behaviour described above. The stale-element errors it catches are represented by the single `Error.StaleElement`.
- Wall-clock time and sleeping become integer ticks, one attempt per tick. Fractional waits, and the timer's handling of fractions, are not modelled.
- `Budget`: a float wait is not modelled, and a negative wait is modelled only as "no retry". Any other non-numeric wait is modelled as the timer's `TypeError`, raised at its first expiry check, after one attempt that failed retriably.
- `Retriable`: a plain `ElementNotFound`, or any subclass of it other than `ExpectationNotMet`, is modelled as `Failure`. It is therefore not retried. None of the modelled bodies raises one itself; only an engine answer could.
- `CheckGroup`: one tick is one whole pass over a group's locators. The document is frozen for that pass, so within one pass repeated locators always get the same answer. In the source the members are checked one after another in real time.
- The frozen-time check and the automatic element reload that `synchronize` performs are left out.
- `SelectorQuery`, `TextQuery`, `matches_count`, `expects_none`, `find_first` and the driver's `style` are not part of this model. They are the abstract fields of `Engine`.
- The query constructors' own errors (invalid options, unknown selector) are likewise not modelled. The one exception is the keyword check of `StyleQuery`.
- Regular-expression matching in `resolves_for` is the abstract predicate `StyleMatcher`.
- Failure messages are abstract: engine functions or fields of the resolved results. The only literal messages modelled are those of the matches and not-match bodies.
- `MatchScope`: a parent found by `find_first` is taken to be truthy, so `or self.query_scope` applies only when there is no parent.
- `refute_selector`, `refute_matches_selector`, `has_content` and `has_no_content` are aliases of the modelled methods, so they are the same members.
- `StyleQuery.failure_message` is represented by `Engine.styleFailureMessage` applied to the expected and fetched styles.
- Element identity (`self in result`) is identity of `NodeId`s.
