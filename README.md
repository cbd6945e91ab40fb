# Stanley's Career Search, modelled in Dafny

A model of the console program in `Glassdoor_final/Sources/Glassdoor_final/main.swift`.

The program asks for a company name. It replaces every space with a hyphen and
sends one employer search to the Glassdoor web API. It announces each employer
returned and keeps the last one in two globals, `companyOverview` and
`companyReview`. It then walks through a chain of yes/no prompts:

1. pros and cons;
2. the overall rating as truncated stars;
3. the four category ratings sorted from highest to lowest;
4. the weighted "Stanley Rating".

After the last prompt the program goes back to the search or exits.

| file | module | what it holds |
|---|---|---|
| `wrappers.dfy` | `Wrappers` | `Option`, for Swift optionals |
| `company.dfy` | `Company` | the decoded employer record; the custom `==`, `<` and `description`; the location line |
| `query.dfy` | `Query` | name normalisation and the request URL, with the round trip that reads the name back |
| `ratings.dfy` | `Ratings` | star count and the star loop; the rating-detail sort; the custom score |
| `flow.dfy` | `Flow` | the flow as a pure step function `Next` over a `Session`, with an invariant `Ready`, and the properties of the flow |
| `console.dfy` | `Cli` | class `Console`, holding the globals and the waiting point as fields |

In `console.dfy` the methods of `Console` mirror the program's functions one by one. Each method is proved to change the fields exactly as the matching `Flow` function says.

The program's recursion between `askUser`, the fetch completion and `promptUserWithQuestion` becomes a sequence of events: a console line, or the employers delivered by a fetch. `Next` takes one event; `Run` and `Console.Serve` take many.

## Model

| member | source | states |
|---|---|---|
| Company.Same | Glassdoor_final/Sources/Glassdoor_final/main.swift:32-34 | the custom `==`; no contract of its own, see `SameIsEquivalence`, `SameIgnoresOtherFields` and `SameAndBeforeDisagree` |
| Company.SameIsEquivalence | Glassdoor_final/Sources/Glassdoor_final/main.swift:32-34 | the custom `==` (same name and website) is reflexive, symmetric and transitive |
| Company.SameIgnoresOtherFields | Glassdoor_final/Test_Glassdoor/Test_Glassdoor.swift:16-32 | `==` depends on name and website only: changing any other field of a record never changes the verdict, so the test's equality checks nothing else |
| Company.Before | Glassdoor_final/Sources/Glassdoor_final/main.swift:36-38 | the custom `<`; no contract of its own, see `BeforeIsStrictOrder` and `SameAndBeforeDisagree` |
| Company.BeforeIsStrictOrder | Glassdoor_final/Sources/Glassdoor_final/main.swift:36-38 | the custom `<` (fewer ratings) is irreflexive, asymmetric and transitive |
| Company.SameAndBeforeDisagree | Glassdoor_final/Sources/Glassdoor_final/main.swift:32-38 | `==` and `<` disagree: a record can be both `==` and `<` another, and two different companies with equal rating counts are neither |
| Company.Describe | Glassdoor_final/Sources/Glassdoor_final/main.swift:40-46 | the description carries the record's own name and website; it names an industry exactly when the global selection has one, and then it is the selection's industry |
| Company.DescribeSelected | Glassdoor_final/Sources/Glassdoor_final/main.swift:40-46 | when the selection is the record itself, the description names the record's own industry, or says "not identifiable" when it has none |
| Company.WhereaboutsOf | Glassdoor_final/Sources/Glassdoor_final/main.swift:149-153 | an empty location reads "various places", and only an empty one; any other location is shown unchanged |
| Query.Hyphenate | Glassdoor_final/Sources/Glassdoor_final/main.swift:128 | keeps the length; each space becomes a hyphen and every other character stays in place |
| Query.HyphenateNoSpaces | Glassdoor_final/Sources/Glassdoor_final/main.swift:128 | no space is left after normalisation; non-spaces are kept and spaces become hyphens |
| Query.HyphenateFixesSpaceless | Glassdoor_final/Sources/Glassdoor_final/main.swift:128 | a name without spaces is not changed |
| Query.HyphenateIdempotent | Glassdoor_final/Sources/Glassdoor_final/main.swift:128 | normalising twice is the same as normalising once |
| Query.RequestUrl | Glassdoor_final/Sources/Glassdoor_final/main.swift:130 | the request URL starts with the fixed API prefix, ends with `&ps=1`, and is as long as the two plus the input |
| Query.QueryOf | Glassdoor_final/Sources/Glassdoor_final/main.swift:130 | the name part of a URL is as long as the URL minus the fixed prefix and suffix; its content, the normalised input, is pinned by `RequestUrlRoundTrip` |
| Query.RequestUrlRoundTrip | Glassdoor_final/Sources/Glassdoor_final/main.swift:128-130 | reading the name back out of the URL gives the normalised input, which has no spaces |
| Query.RequestUrlCollides | Glassdoor_final/Sources/Glassdoor_final/main.swift:128-130 | two inputs send the same request if and only if they normalise to the same name |
| Query.SpaceAndHyphenCollide | Glassdoor_final/Sources/Glassdoor_final/main.swift:102-130 | "Trunk Club" (the prompt's own example) and "Trunk-Club" send the same request |
| Ratings.StarCount | Glassdoor_final/Sources/Glassdoor_final/main.swift:179 | `Int(rating)` truncates toward zero: for a non-negative rating n ≤ rating < n+1; for a negative one n−1 < rating ≤ n |
| Ratings.StarCountOnScale | Glassdoor_final/Sources/Glassdoor_final/main.swift:178-181 | a rating on the 0–5 scale gives between 0 and 5 stars |
| Ratings.StarCountTruncates | Glassdoor_final/Test_Glassdoor/Test_Glassdoor.swift:26 | 3.4 (the test record's overall rating) and 3.9 both give 3 stars; 5.0 gives 5 |
| Ratings.StarLine | Glassdoor_final/Sources/Glassdoor_final/main.swift:181-183 | the star row for a count has exactly that many characters, all stars |
| Ratings.DrawStars | Glassdoor_final/Sources/Glassdoor_final/main.swift:181-183 | the loop that prints one star per iteration produces exactly the star row for the count |
| Ratings.Categories | Glassdoor_final/Sources/Glassdoor_final/main.swift:190-195 | the dictionary holds four entries with distinct keys |
| Ratings.InsertKeepsOrder | Glassdoor_final/Sources/Glassdoor_final/main.swift:198 | inserting into a descending list keeps it descending and adds exactly the new row |
| Ratings.SortDescending | Glassdoor_final/Sources/Glassdoor_final/main.swift:198 | `sorted(by: { $0.value > $1.value })`; no contract of its own, see `SortDescendingRanks` and `DescendingArrangementsAgree` |
| Ratings.SortDescendingRanks | Glassdoor_final/Sources/Glassdoor_final/main.swift:198 | sorting by `$0.value > $1.value` yields a non-increasing arrangement that is a permutation of its input |
| Ratings.RankedCategories | Glassdoor_final/Sources/Glassdoor_final/main.swift:189-198 | the rows of the detail screen; no contract of its own, see `RankedCategoriesRanks` and `RankedCategoriesExample` |
| Ratings.RankedCategoriesRanks | Glassdoor_final/Sources/Glassdoor_final/main.swift:189-198 | the detail screen shows the four categories, each exactly once, highest rating first |
| Ratings.DescendingArrangementsAgree | Glassdoor_final/Sources/Glassdoor_final/main.swift:198 | any two descending permutations of the same rows list the same ratings position by position, so the shown order can differ only between tied categories |
| Ratings.RankedCategoriesExample | Glassdoor_final/Test_Glassdoor/Test_Glassdoor.swift:22-25 | the test record's ratings show as Senior Leadership 3.3, Career Opportunities 3.2, Compensation Benefit 2.1, Work-Life Balance 1.9 |
| Ratings.Weighted | Glassdoor_final/Sources/Glassdoor_final/main.swift:210-214 | the weighted array has exactly four entries; their weights 1.05, 1.2, 1.25 and 1.1 are pinned by the closed form of `StanleyRating` |
| Ratings.Reduce | Glassdoor_final/Sources/Glassdoor_final/main.swift:217-219 | `reduce(acc, { x, y in x + (y * 5) })`; no contract of its own, see `ReduceIsScaledSum` |
| Ratings.ReduceIsScaledSum | Glassdoor_final/Sources/Glassdoor_final/main.swift:217-219 | `reduce(acc) { x + y * 5 }` adds five times the sum of the array to the start value |
| Ratings.StanleyRating | Glassdoor_final/Sources/Glassdoor_final/main.swift:208-219 | the score is 5 × (1.05·leadership + 1.2·compensation + 1.25·career + 1.1·work-life) |
| Ratings.StanleyRatingRange | Glassdoor_final/Sources/Glassdoor_final/main.swift:208-221 | for ratings on the scale the score lies between 0 and 115; it is not clamped to the "/ 100" it is printed against |
| Ratings.StanleyRatingExceedsHundred | Glassdoor_final/Sources/Glassdoor_final/main.swift:217-221 | four perfect category ratings give 115 |
| Ratings.StanleyRatingExample | Glassdoor_final/Test_Glassdoor/Test_Glassdoor.swift:22-25 | the test record scores 60.375 |
| Flow.Next | Glassdoor_final/Sources/Glassdoor_final/main.swift:65-237 | every step keeps the invariant: both globals are set together, the review is the selected company's featured review, and every screen after the search has a selection, so no unwrap of `companyOverview` or `companyReview` can fail |
| Flow.Run | Glassdoor_final/Sources/Glassdoor_final/main.swift:65-237 | any run of events keeps the same invariant |
| Flow.Start | Glassdoor_final/Sources/Glassdoor_final/main.swift:65-66 | the launch state: both globals nil, waiting at the first search prompt; no contract of its own, see `RunFromStartIsReady` and `Cli.Console.constructor` |
| Flow.RunFromStartIsReady | Glassdoor_final/Sources/Glassdoor_final/main.swift:65-66 | from launch, with both globals nil, every reachable state satisfies the invariant |
| Flow.OnSearchLine | Glassdoor_final/Sources/Glassdoor_final/main.swift:105-131 | `askUser` after its `readLine()`; no contract of its own, see `SearchLine` and `OnlySearchLinesFetch` |
| Flow.SearchLine | Glassdoor_final/Sources/Glassdoor_final/main.swift:105-131 | an empty line shows exactly the nothing-entered error and the prompt again, and "help" exactly the usage text and the prompt again, with no fetch and nothing changed; any other line issues exactly one request, for the normalised name, and waits for its result |
| Flow.OnlySearchLinesFetch | Glassdoor_final/Sources/Glassdoor_final/main.swift:105-133 | a step that issues a request was a non-empty, non-"help" line at the search prompt |
| Flow.NoRequestsAnnounced | Glassdoor_final/Sources/Glassdoor_final/main.swift:140-155 | announcing employers issues no request |
| Flow.OnFetched | Glassdoor_final/Sources/Glassdoor_final/main.swift:133-161 | the completion handler; no contract of its own, see `FetchedNothing`, `FetchedEmployers` and `AnnouncedEmployer` |
| Flow.Announce | Glassdoor_final/Sources/Glassdoor_final/main.swift:146-153 | what is printed for one employer; no contract of its own, see `AnnouncedEmployer` |
| Flow.FetchedNothing | Glassdoor_final/Sources/Glassdoor_final/main.swift:135-137 | an empty result reports the query as not found and goes back to the search prompt, keeping the old selection |
| Flow.FetchedEmployers | Glassdoor_final/Sources/Glassdoor_final/main.swift:138-158 | a non-empty result announces each employer in order, leaves the last one in both globals, and moves to the pros/cons prompt |
| Flow.AnnouncedEmployer | Glassdoor_final/Sources/Glassdoor_final/main.swift:140-153 | announcement i of a result is about employer i: its own name, website and industry ("not identifiable" when it has none), its featured headline, and "various places" exactly when its location is empty, otherwise that location |
| Flow.SelectionChangesOnlyOnResult | Glassdoor_final/Sources/Glassdoor_final/main.swift:140-145 | no step except a fetch completion with at least one employer changes the globals |
| Flow.OnGateLine | Glassdoor_final/Sources/Glassdoor_final/main.swift:69-94 | `promptUserWithQuestion` after its `readLine()`; no contract of its own, see `GateLine` |
| Flow.Target | Glassdoor_final/Sources/Glassdoor_final/main.swift:73-86 | the switch on the question type; no contract of its own, see `GateLine`, `ScreenOrder` and `YesToEverything` |
| Flow.Quit | Glassdoor_final/Sources/Glassdoor_final/main.swift:87-92 | farewell and `exit(0)`; no contract of its own, see `GateLine` and `ExitLine` |
| Flow.GateLine | Glassdoor_final/Sources/Glassdoor_final/main.swift:69-94 | at a question exactly "y" opens the screen the question names; "n", any other text and end of input say farewell and terminate |
| Flow.OnExitLine | Glassdoor_final/Sources/Glassdoor_final/main.swift:225-237 | `askUserExit` after its `readLine()`; no contract of its own, see `ExitLine` |
| Flow.ExitLine | Glassdoor_final/Sources/Glassdoor_final/main.swift:225-237 | at the last prompt "y" returns to the search with the selection kept; anything else terminates |
| Flow.Enter | Glassdoor_final/Sources/Glassdoor_final/main.swift:170-223 | each `askUser…` screen's output and next waiting point; no contract of its own, see `ScreenOrder` and the four `…OnYes` lemmas |
| Flow.ScreenOrder | Glassdoor_final/Sources/Glassdoor_final/main.swift:170-223 | pros/cons lead to the overall-rating question, stars to the detail question, details to the score question, and the score goes straight to the last prompt; the other two questions lead back to the search and to the last prompt |
| Flow.ProsConsOnYes | Glassdoor_final/Sources/Glassdoor_final/main.swift:170-174 | "y" at the first question shows the featured review's pros and cons |
| Flow.OverallRatingOnYes | Glassdoor_final/Sources/Glassdoor_final/main.swift:177-187 | "y" at the second question shows the name, the rating count and one star per whole point of the overall rating |
| Flow.RatingDetailOnYes | Glassdoor_final/Sources/Glassdoor_final/main.swift:189-206 | "y" at the third question shows the categories ranked |
| Flow.CustomScoreOnYes | Glassdoor_final/Sources/Glassdoor_final/main.swift:208-223 | "y" at the fourth question shows the score and moves to the last prompt |
| Flow.YesToEverything | Glassdoor_final/Sources/Glassdoor_final/main.swift:158-229 | answering "y" five times after a search shows pros/cons, stars, details and score in that order, then returns to the search prompt with the selection kept |
| Flow.RunCons | Glassdoor_final/Sources/Glassdoor_final/main.swift:65-237 | a run whose first event is awaited takes that step first |
| Cli.Console.constructor | Glassdoor_final/Sources/Glassdoor_final/main.swift:65-66 | at launch both globals are nil and the program waits at the search prompt |
| Cli.Console.Step | Glassdoor_final/Sources/Glassdoor_final/main.swift:69-237 | handling one event changes the fields exactly as `Next` says, shows what `Next` shows, and keeps the invariant |
| Cli.Console.Serve | Glassdoor_final/Sources/Glassdoor_final/main.swift:69-237 | handling a list of events one after the other does what `Run` says |
| Cli.Console.AskUser | Glassdoor_final/Sources/Glassdoor_final/main.swift:96-168 | the search prompt's handling of a line, as in `SearchLine` |
| Cli.Console.Complete | Glassdoor_final/Sources/Glassdoor_final/main.swift:133-161 | the completion loop overwrites both globals once per employer and sets `success` exactly when it ran at least once; the end state is the one in `FetchedNothing` and `FetchedEmployers` |
| Cli.Console.PromptUserWithQuestion | Glassdoor_final/Sources/Glassdoor_final/main.swift:69-94 | a question's handling of a line, as in `GateLine` |
| Cli.Console.AskUserExit | Glassdoor_final/Sources/Glassdoor_final/main.swift:225-237 | the last prompt's handling of a line, as in `ExitLine` |
| Cli.Console.Exit | Glassdoor_final/Sources/Glassdoor_final/main.swift:88-92 | farewell and `exit(0)`: the program terminates with the globals untouched |
| Cli.Console.Open | Glassdoor_final/Sources/Glassdoor_final/main.swift:73-86 | the switch on the question type calls the screen's function |
| Cli.Console.AskUserProCon | Glassdoor_final/Sources/Glassdoor_final/main.swift:170-174 | shows the selected review's pros and cons, then asks the overall-rating question |
| Cli.Console.AskUserOverallRating | Glassdoor_final/Sources/Glassdoor_final/main.swift:177-187 | draws `Int(overallRating)` stars with the loop, then asks the detail question |
| Cli.Console.AskUserRatingDetail | Glassdoor_final/Sources/Glassdoor_final/main.swift:189-206 | shows the ranked categories, then asks the score question |
| Cli.Console.AskUserStanleyRating | Glassdoor_final/Sources/Glassdoor_final/main.swift:208-223 | shows the custom score, then goes to the last prompt |

## Left out

- `networking.swift` is not part of this model. A fetch is an event that carries the decoded employers. Its failures are not modelled:
  - a URL string that `URL(string:)` rejects, and transport errors, end in `fatalError`;
  - a JSON decoding error never calls the completion handler, so the program waits for ever.
- Console I/O is abstracted:
  - `readLine()` becomes the `Line` event, and `None` stands for end of input.
  - What is printed becomes `Shown` values. Wording, emoji, the ASCII banner and the prompt texts are left out.
  - A star glyph is one `'*'` character.
- Ratings are `real` values, as if the rating strings had already been parsed. Malformed rating strings are not modelled:
  - `Double(...)!` crashes on one, for the overall rating and for the score;
  - the rating-detail screen parses without `!`, so a malformed category would be silently missing there, and the crash would come only at the score.
- Floating-point rounding is not modelled either: the score is computed exactly.
- Ratings off the 0–5 scale are left out. Every delivered employer has all five ratings on the scale (`Ratings.Rated`). The source would crash on an overall rating at or below −1, because `Int` truncates it to a negative `n` and `0..<n` then traps. `Ratings.StarCount` still covers negative input.
- Ratings.SortDescendingRanks: the order among categories with equal ratings is not modelled. Swift's dictionary iteration order and `sorted(by:)` leave it unspecified, so the model uses a fixed insertion order. It claims only what the program guarantees: a descending permutation, with only tied categories able to trade places (`DescendingArrangementsAgree`).
- Company.Same: names are compared code point by code point. Swift's `String ==` treats canonically equivalent strings as equal, for example a precomposed é and an e followed by a combining acute accent.
- `website` is a `URL` in the source but a string here. `==` on URLs is modelled as string equality.
- Query.Hyphenate: works on characters, not grapheme clusters. Whether `URL(string:)` accepts the resulting URL is not modelled.
- Asynchrony and `dispatchMain()` are left out: events arrive one at a time.
- Flow.Start: launch shows nothing. The banner and the search prompt printed by the first `askUser()` call are not part of any `Shown`, so the output of `Run(Start(), …)` lacks the program's first `Welcome`.
- End of input at the search prompt is modelled as a `Stuck` state. The source prints a message there and returns without asking again.
