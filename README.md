# Smart locators and self-healing element lookup, in Dafny

This project models the two Python libraries at the heart of a Robot Framework test suite for
web pages. It then proves what they promise.

**The smart locator library** (`libraries/AILocatorLibrary.py`, module `AILocator`) has two keywords.
- `generate_smart_locator` turns an element descriptor (attribute name to value) into candidate
  locator strings. It walks a fixed six-rung ladder: id, `data-testid`, name, a class-and-type
  CSS composite, text, `aria-label`.
- `validate_locator_strength` scores a locator string:
  - it starts from 50;
  - it adds at most one bonus (+30, +25 or +15);
  - it subtracts up to three penalties, each with an issue and a recommendation;
  - it clamps the score and labels it Strong, Medium or Weak.

Both keywords build their results step by step. Each is a method (`GenerateSmartLocator`,
`ValidateLocatorStrength`) proved equal to a declarative specification:
- for the generator, the ladder filtered by which rungs fire (`Candidates`);
- for the scorer, the penalty rules filtered by which apply (`LocatorStrength`).

The properties are proved about those specifications.

**The self-healing library** (`libraries/SelfHealingLibrary.py`, modules `SelfHealing` and
`SelfHealingProperties`) looks up an element in four stages:
1. a cache of previously healed locators;
2. the original locator;
3. a fallback chain of five healing strategies;
4. on success of the chain, recording the healed locator in the cache and an event in the history.

The browser is an oracle, `Driver`. It is a pair of functions: one from a strategy and value to
found / no such element / other driver error, and one from a strategy and value to a list of
matches or an error. The library object is the class `SelfHealingLibrary`. Its fields
`healingCache` and `healingHistory` are updated in place, and its methods are proved against
`Resolve`, the declarative statement of which stage answers a lookup. The persisted cache file is
the class `CacheStore`: a mapping that may be unreadable, plus how a write goes (it succeeds,
fails before the file is opened, or fails after opening for writing has emptied the file).

Shared pieces:
- `Seqs`: `Filter`, `Map` and `FirstSome`, the "first truthy result" of an early-exit loop.
- `Strings`: substring, prefix, the `\[\d+\]` test, ASCII lower-casing, first index of a character.
- `Wrappers`: `Option` and `Result`.

Beyond the source's own promises, the model also proves these:
- The absolute-XPath and class-based penalties exclude each other. So at most two penalties fire
  and the unclamped score lies in [15, 80].
- Every locator the generator produces is dispatched by the finder to the strategy its prefix names.

Notes on what the code does, which the model reproduces:
- **A cache hit writes nothing.** When the cached locator finds the element, the lookup returns
  at once and leaves cache and history unchanged (`libraries/SelfHealingLibrary.py:77-84`).
- **Saving overwrites.** `save_cache` writes the in-memory map over the store; entries another
  process saved in the meantime are lost (`libraries/SelfHealingLibrary.py:47-54`). A failed
  write is swallowed. If it fails after `open(..., 'w')` has emptied the file, the store is left
  unreadable, and the next load keeps the map it has (`libraries/SelfHealingLibrary.py:51-52`).
- **Only "no such element" leads to healing.** Any other driver error raised by the original
  locator propagates to the caller (`libraries/SelfHealingLibrary.py:89-95`).
- **A failed load keeps the current map**, which is empty at construction
  (`libraries/SelfHealingLibrary.py:37-45`).
- **The timeout is never used** (`libraries/SelfHealingLibrary.py:57`).
- **An unprefixed XPath containing `=` is split at it.** `//input[@name='q']` has the unknown
  prefix `//input[@name`, so the finder is asked for the XPath `'q']`
  (`libraries/SelfHealingLibrary.py:193-206`; lemma `UnprefixedXPathWithEqualsIsSplit`).
- **`//div/span[2]` gets one penalty.** The string contains no `//*`, so only the index penalty
  fires: 35, Weak (`libraries/AILocatorLibrary.py:82-96`).

## Model

| member | source | states |
|---|---|---|
| AILocator.GenerateSmartLocator | libraries/AILocatorLibrary.py:33-59 | the appended list is exactly the ladder specification `Candidates(info)` |
| AILocator.CandidatesAreRenderedRungs | libraries/AILocatorLibrary.py:33-59 | candidate k is the rendering of the k-th firing rung, one candidate per firing rung |
| AILocator.CandidatesFollowLadder | libraries/AILocatorLibrary.py:33-59 | at most six candidates; a rung contributes iff it fires; each rung at most once; strictly in ladder order; no candidate is dropped as a duplicate |
| AILocator.CandidatesByRung | libraries/AILocatorLibrary.py:35-56 | the candidate list is the six rung outputs concatenated in order id, data-testid, name, composite, text, aria-label |
| AILocator.OnlyIdYieldsIdLocator | libraries/AILocatorLibrary.py:36-37 | a descriptor with only a non-empty `id` yields exactly `["id=<id>"]` |
| AILocator.EmptyIdOrNameContributesNothing | libraries/AILocatorLibrary.py:36-44 | an empty `id` or `name` changes nothing: the list equals the one for the descriptor without that key |
| AILocator.PresenceGatedRungs | libraries/AILocatorLibrary.py:39-56 | `data-testid`, `text` and `aria-label` produce their locator on presence alone, empty values included, quoted verbatim |
| AILocator.CompositeRungNeedsClassAndType | libraries/AILocatorLibrary.py:47-48 | the composite fires iff both `class` and `type` are present, as `css=<tag>.<class>[type='<type>']` with `tag` defaulting to `button` |
| AILocator.ValidateLocatorStrength | libraries/AILocatorLibrary.py:69-105 | the step-by-step score, issues and recommendations equal the rule-based specification `LocatorStrength` |
| AILocator.ReportIsWellFormed | libraries/AILocatorLibrary.py:82-105 | score in [0,100]; Strong iff score ≥ 75, Medium iff 50 ≤ score < 75, Weak iff score < 50; one issue and its recommendation per tripped rule, paired by position, in rule order |
| AILocator.FiredPenaltiesByRule | libraries/AILocatorLibrary.py:82-96 | the tripped rules are the absolute-XPath, class and index rules checked one by one, in that order |
| AILocator.DataTestSubsumesDataTestId | libraries/AILocatorLibrary.py:74 | the +30 test holds iff the locator contains `data-test` |
| AILocator.AbsoluteXPathExcludesClassBased | libraries/AILocatorLibrary.py:82-87 | the absolute-XPath and class-based penalties never both fire |
| AILocator.ScoreBounds | libraries/AILocatorLibrary.py:69-98 | the unclamped score lies in [15,80], so the clamp never changes it; at most two issues, as many recommendations |
| AILocator.StrongIffNoIssuesAndPreferredPrefix | libraries/AILocatorLibrary.py:69-102 | Strong iff no rule fires and the locator contains `data-test` or starts with `id=` |
| AILocator.IdSubmitIsStrong | libraries/AILocatorLibrary.py:69-102 | `id=submit` scores 75, Strong, with no issues or recommendations |
| AILocator.IndexedXPathIsWeak | libraries/AILocatorLibrary.py:82-102 | `//div/span[2]` trips only the index rule: 35, Weak, one matching issue and recommendation |
| Strings.IndexOf | libraries/SelfHealingLibrary.py:194 | the split point is the first `=`: it is at the returned index and nowhere before it |
| SelfHealing.ParseLocator | libraries/SelfHealingLibrary.py:191-208 | the parse that `FindElement` hands to the driver: without `=` the whole locator is an XPath; with `=` the locator is an `=`-free prefix, `=` and the value, and the strategy is the lower-cased prefix looked up in the table, XPath when unknown |
| SelfHealing.ParsePrefixedLocator | libraries/SelfHealingLibrary.py:193-206 | a prefixed locator dispatches on its lower-cased prefix through the table, XPath when unknown, with everything after the first `=` as the value |
| SelfHealing.ParseUnprefixedLocator | libraries/SelfHealingLibrary.py:207-208 | a locator without `=` is an XPath expression as a whole |
| SelfHealing.UnprefixedXPathWithEqualsIsSplit | libraries/SelfHealingLibrary.py:193-206 | `//input[@name='q']` is split at its `=`: the unknown prefix falls back to XPath and the finder gets `'q']` |
| SelfHealing.SerializedLocatorRoundTrip | libraries/SelfHealingLibrary.py:195-205 | `<name>=<value>` parses back to that strategy and value; the table maps exactly one prefix to each strategy |
| SelfHealingProperties.StrategyPrefixIsCaseInsensitive | libraries/SelfHealingLibrary.py:205 | a prefix and its lower-cased form dispatch identically |
| SelfHealing.GetElementLocator | libraries/SelfHealingLibrary.py:210-218 | the derived locator dispatches by the non-empty id, else by the non-empty name, else by XPath `(<tag>)[1]` |
| SelfHealingProperties.GeneratedLocatorsDispatch | libraries/AILocatorLibrary.py:36-56 | every generated candidate is its rung's strategy name, `=`, and the value the finder is given |
| SelfHealing.HealByTextContent | libraries/SelfHealingLibrary.py:143-157 | the loop returns the first text probe's element, in hint order, or nothing; probe errors count as misses |
| SelfHealing.HealByAttributes | libraries/SelfHealingLibrary.py:164-179 | the loop returns the first element of the first non-empty attribute match, in attribute order, or nothing |
| Seqs.FirstSomeIsFirst | libraries/SelfHealingLibrary.py:131-141 | the chosen result is preceded only by misses |
| SelfHealing.RunStrategy | libraries/SelfHealingLibrary.py:159-189 | each strategy's outcome; nearby, position and visual return nothing |
| SelfHealing.TryHealingStrategies | libraries/SelfHealingLibrary.py:121-141 | the loop returns the first strategy result that is an element, a raise counting as a miss |
| SelfHealingProperties.ChainIsTextThenAttributes | libraries/SelfHealingLibrary.py:121-141 | the chain's answer is the text strategy's if it has one, else the attribute strategy's; the original locator plays no part |
| SelfHealingProperties.TextHealingMissesIff | libraries/SelfHealingLibrary.py:147-157 | the text strategy misses iff every one of the five probes misses |
| SelfHealingProperties.AttributeHealingMissesIff | libraries/SelfHealingLibrary.py:168-179 | the attribute strategy misses iff every one of the six probes misses |
| SelfHealing.Outcome | libraries/SelfHealingLibrary.py:76-119 | the caller gets the element on a cache, original or healed hit; the driver's error when it propagates; "not found" naming the original locator on exhaustion |
| SelfHealingProperties.HealingOnlyAfterNotFound | libraries/SelfHealingLibrary.py:77-99 | healing or exhaustion iff the cache missed and the original raised "no such element"; propagation iff the cache missed and the original raised another error |
| SelfHealingProperties.ExhaustedIff | libraries/SelfHealingLibrary.py:77-119 | exhaustion iff cache miss, original not found, and all eleven probes miss |
| SelfHealingProperties.LookupStateChange | libraries/SelfHealingLibrary.py:101-117 | history grows by exactly one event iff the lookup heals, earlier entries untouched; a heal overwrites only the original's cache entry with the derived locator; every other path leaves the cache as it was |
| SelfHealingProperties.HealedThenCacheHit | libraries/SelfHealingLibrary.py:77-84 | after a heal, the next lookup of the same locator on the same page is a cache hit whenever the derived locator finds an element |
| SelfHealingProperties.HealedByIdIsFoundAgain | libraries/SelfHealingLibrary.py:101-104 | a healed element with an id that the page finds again by id is the cache hit of the next lookup |
| SelfHealingProperties.HealThenLookUpAgain | libraries/SelfHealingLibrary.py:76-117 | two lookups on the library object: the first heals, the second answers from the cache and appends nothing |
| SelfHealing.RecentHealings | libraries/SelfHealingLibrary.py:226 | the recent list is the suffix of the history of length min(10, total), in insertion order |
| SelfHealingProperties.RecentHealingsAfterAppend | libraries/SelfHealingLibrary.py:226 | after one more event, the recent list ends with it and keeps the newest earlier ones, at most ten |
| SelfHealingProperties.StatisticsAfterLookup | libraries/SelfHealingLibrary.py:220-229 | a healing lookup raises the total by one and shows its event last; any other lookup leaves the statistics unchanged |
| SelfHealing.CacheStore.constructor | libraries/SelfHealingLibrary.py:34 | the store holds the given contents and write behaviour |
| SelfHealing.SelfHealingLibrary.constructor | libraries/SelfHealingLibrary.py:31-35 | history starts empty; the cache is the stored map when readable, else empty |
| SelfHealing.SelfHealingLibrary.LoadCache | libraries/SelfHealingLibrary.py:37-45 | the map is replaced by the stored one when readable and kept otherwise; the history is untouched |
| SelfHealing.SelfHealingLibrary.SaveCache | libraries/SelfHealingLibrary.py:47-54 | a successful write leaves the in-memory map in the store; a write failing before the file is opened leaves the store unchanged; one failing after the file was emptied leaves it unreadable |
| SelfHealingProperties.SavedCacheIsReloaded | libraries/SelfHealingLibrary.py:31-54 | a library created over a store another instance just saved to starts with that instance's cache if the write succeeded, with the earlier stored map (or empty) if it failed before opening, and empty if it failed after emptying the file |
| SelfHealing.SelfHealingLibrary.FindElementWithHealing | libraries/SelfHealingLibrary.py:57-119 | result, cache, history and store are those of `Resolve` on the old cache: only a heal writes the cache entry, saves (with the three write outcomes of `save_cache`) and appends one event |
| SelfHealing.SelfHealingLibrary.GetHealingStatistics | libraries/SelfHealingLibrary.py:220-229 | total = history length, cached = cache size, recent = the last min(10, total) events; reads only |

## Left out

- Browser lookups are the `Driver` oracle. Waiting, stale elements, and errors raised while
  reading an element's `id`, `name` or tag name are not modelled. The oracle is a function, so
  the page does not change between the driver calls of one lookup, or between the two lookups
  of `HealThenLookUpAgain`: the same strategy and value always get the same answer.
- `if element:` on a found element is always true in the source. The model treats every found
  element as a success.
- The cache file and JSON format are left out. The store is `CacheStore`: a mapping, or `None`
  when the file is missing or unreadable, plus how a write goes. A file that holds valid
  JSON other than an object of strings, which the source would adopt as its cache, is treated
  as unreadable. Directory creation is not modelled.
- Clock readings (`time.time`, `strftime`, and the rounding of the healing time) are left out. The
  event's timestamp and healing time are parameters of `FindElementWithHealing`.
- Logging and the cv2, numpy and PIL imports are left out.
- The nearby-element, position and visual strategies are modelled as the stubs they are.
- The `try`/`except` around each probing strategy's whole loop is left out, because nothing in
  those loops can raise. `StrategyOutcome.Raised` keeps the chain's handling of a raise, and no
  strategy produces it.
- Python's `str.lower()` and `\d` are Unicode-aware. The model's `Lower` and `IsDigit` cover ASCII
  only, so locators whose prefix or bracketed index uses non-ASCII letters or digits are outside
  the model.
- Element-descriptor values are strings in the model. The source formats any value with an f-string.
- The `timeout` parameter is accepted and unused, as in the source.
- Robot Framework registration (keyword decorators, library scope and version) is left out.
- Data generation, keyword re-running and the test runner's command line lie outside these two
  libraries and are not part of this model.
