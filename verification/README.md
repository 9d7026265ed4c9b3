# Job-listing board: filter state and rendering, in Dafny

This project models the core of a static job-listing page (`app.js`). The
page loads a list of job postings and shows one card per posting. Clicking a
language button on a card adds that language as a filter tag. The filter bar
shows one chip per active tag; each chip has a remove control, and a
"clear" button removes every tag. The job list shows only the postings that
have every active tag (conjunctive filtering), in their original order.

The model has four modules:

- `Sequences` (`sequences.dfy`): duplicate-freedom, the array `indexOf` (a
  method with a loop), `splice(i, 1)` as `RemoveAt`, and the subsequence
  order.
- `Cards` (`cards.dfy`): the job record and the structured content of the
  card built for it (`createCardElement`), without the HTML.
- `Filtering` (`filtering.dfy`): the match test of `renderJobs` and the list
  of shown jobs, with lemmas on order, containment and narrowing.
- `App` (`board.dfy`): the page's global state as a class `Board`. Its fields
  are the loaded jobs, the filter tags, the chips of the filter bar, the
  bar's hidden flag (the `opacity-0` class) and the cards in the job list.
  The methods are `addFilter`, `removeFilter`, `removeAllFilter`,
  `renderJobs` and the completion of `loadJobs`. The invariant `Valid()`
  says four things:
  - the tags are distinct;
  - the chips equal the tags, in order;
  - the bar is hidden exactly when no tag is active;
  - the job list holds the cards of the matching jobs.

  Every operation preserves it.

Two behaviours of the code shape the model:

- Removing a tag that is not active raises `TypeError` (app.js:129-130).
  `removeFilter` looks the chip up and reads `.parentElement` of the result
  before its `index !== -1` guard. With no chip the lookup gives `null`, so
  the call throws before anything has changed. `RemoveFilter` returns the
  outcome `TypeError` in that case and leaves the whole state unchanged. A
  second removal of the same tag therefore raises that error.
- The operations emit no change notifications. Each one updates the bar and
  re-renders directly, and the model states the state those steps produce.

## Model

| member | source | states |
|---|---|---|
| `Sequences.AppendFreshKeepsNoDuplicates` | app.js:117-121 | appending a tag that the `includes` test found absent keeps the tag list duplicate-free |
| `Sequences.IndexOf` | app.js:131 | `indexOf` gives -1 exactly when the value is absent; otherwise it gives the first position holding it |
| `Sequences.RemoveAt` | app.js:133 | `splice(index, 1)` shortens the list by one; entries before `index` stay in place and later ones move down by one, so relative order is kept |
| `Sequences.RemoveAtDistinct` | app.js:131-133 | splicing out a tag from a duplicate-free list removes that tag entirely, keeps every other tag and keeps the list duplicate-free |
| `Cards.CardOf` | app.js:64-84 | the card has a "New!" badge iff the job is new, and a "Featured" badge plus the featured treatment iff it is featured; "New!" comes before "Featured"; the three detail chips are fixed; there is one language button per language, in order; logo, company and position are copied |
| `Cards.CardShowsWholeJob` | app.js:38-84 | `CardOf` loses no field of the modelled record: equal cards come from equal jobs |
| `Cards.CardsOf` | app.js:24-28 | one card per shown job, in the same order |
| `Filtering.Matches` | app.js:26 | a job passes the filter exactly when it has every active tag; the `filter.length === 0` test is subsumed |
| `Filtering.MatchesIsContainment` | app.js:26 | a job passes exactly when the set of active tags is contained in the set of its languages; an empty filter passes every job |
| `Filtering.Visible` | app.js:22-30 | the scan shows at most as many jobs as were loaded |
| `Filtering.VisibleMembers` | app.js:24-29 | a job is shown exactly when it is one of the loaded jobs and passes the filter (both directions) |
| `Filtering.VisibleConcat` | app.js:24-29 | the jobs shown for a concatenation are those shown for each part, in the same order: the scan keeps the data order |
| `Filtering.VisibleIsSubsequence` | app.js:24-29 | the shown jobs form a subsequence of the loaded jobs |
| `Sequences.SubsequenceMembers` | app.js:24-29 | what being a subsequence means for the shown jobs: the list is no longer than the loaded list and holds only loaded jobs |
| `Filtering.VisibleAllMatch` | app.js:26 | when every job passes, the shown list is the loaded list |
| `Filtering.VisibleUnfiltered` | app.js:26 | with no active tag every loaded job is shown, in order |
| `Filtering.VisibleAntitone` | app.js:26 | a filter with more tags shows a subsequence of what a filter with fewer tags shows |
| `Filtering.VisibleIgnoresTagOrder` | app.js:26 | two filters with the same tags, in any order, show the same jobs |
| `Filtering.VisibleAfterAdd` | app.js:121-122 | after a tag is added, the shown jobs are exactly the previously shown jobs that have that tag; the list can only shrink |
| `Filtering.TwoJobScenario` | app.js:22-30 | for jobs with languages [Python, Django] and [Python, React]: no filter and [Python] show both; [Python, Django] shows only the first |
| `App.Board.constructor` | app.js:5-6 | the page starts with no jobs, no tags, no chips, an empty job list and a hidden bar, and the invariant holds |
| `App.Board.RenderJobs` | app.js:22-30 | the job list is rebuilt as the cards of the loaded jobs that pass the filter, in data order |
| `App.Board.Load` | app.js:15-17 | the parsed data replace the job list source and the page re-renders; the filter state is untouched and the invariant holds |
| `App.Board.AddFilter` | app.js:116-124 | an absent tag is appended to the tags and the chips and un-hides the bar; a present tag changes nothing; the new job list is the old one narrowed to jobs with the tag; the invariant holds |
| `App.Board.RemoveFilter` | app.js:127-139 | an absent tag raises `TypeError` and changes nothing; a present tag is spliced out at its position and removed from the chips; the bar is hidden iff no tag remains; the invariant holds |
| `App.Board.RemoveAllFilter` | app.js:142-148 | tags and chips become empty, the bar is hidden and every loaded job is shown; the resulting state does not depend on the previous tags, so clearing twice equals clearing once |

The methods `App.AddTwice`, `App.RemoveTwice`, `App.ClearTwice`,
`App.TwoJobSession` and its step `App.NarrowAndWiden` are clients of
`Board`. They show what the contracts let a caller conclude:
- a second click on the same language changes nothing;
- a second removal of a tag raises the error and changes nothing;
- a second clear gives the state the first one gave;
- for jobs with languages [Python, Django] and [Python, React], loading
  shows both; adding Python keeps both; adding Django shows only the first;
  removing Django shows both again; clearing shows both and hides the bar.

## Left out

- Loading: `fetch('./data.json')` and JSON parsing are asynchronous I/O. `Load` takes the parsed records as a parameter. A failed fetch has no handler in the code and is not modelled.
- HTML and CSS: the markup templates, `createElement`, `insertAdjacentHTML`, `querySelector` and class strings are not modelled. A card is the list of things it shows, and a chip is the tag it shows and carries in `data-lang`. Example: the "New!" label uses the `job__status--featured` CSS class and "Featured" uses `job__status--new`, which is pure styling.
- Attribute quoting: `data-lang=${tag}` is written without quotes, and the chip is looked up with `'[data-lang="' + tag + '"]'`. A tag containing spaces or quotes would not round-trip. The model assumes the attribute carries the tag exactly, which makes the `index !== -1` guard of `removeFilter` always true under the invariant.
- Button text: a language button's `textContent` is assumed to equal the language string. A language containing markup would be parsed as HTML.
- Events: listener wiring and click handling are not modelled. A click is a direct call to `AddFilter`, `RemoveFilter` or `RemoveAllFilter`.
- Initial bar state: the page markup is not part of this model. The constructor assumes the filter bar starts hidden, as the invariant requires for an empty filter.
- Unused code: the `filters` node list and the literal detail texts. The texts are kept only as the fixed constant `Details`.
- Field types: `cardData.new === true` and `cardData.featured === true` are strict comparisons. The model's fields are booleans, so a non-boolean value in the data is not modelled.
