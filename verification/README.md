# Would You Use This? — a verified model of the idea feed

"Would You Use This?" is a single front-end component. Signed-in visitors
post one-line product ideas and vote each idea up or down, once per idea
per sign-in.
The feed they see is the list of ideas inside a time window ("Today",
"This Week", "This Month", "All Time"), sorted by score (up votes minus
down votes), highest first.

This project models the component's logic in Dafny and proves what its
handlers and its derived feed promise:

- `text.dfy`, module `Text`: the ECMAScript whitespace set and
  `String.prototype.trim`. The submit handler uses `trim` to reject a
  blank draft and to clean the stored text.
- `feed.dfy`, module `Feed`: the values and the pure derivations. It covers
  the idea record, `getScore`, the effect of one vote on the list of ideas,
  `TIME_FILTERS` with the lookup of the active filter, the cutoff and the
  window filter, the stable sort by descending score, and the resulting
  `filteredIdeas`.
- `component.dfy`, module `Component`: the component's state as the class
  `IdeaBoard`. Its fields are `ideas`, `userVotes`, `signedIn`, `newIdea`
  and `timeFilter`, and it has one method per event handler. Each method
  states the whole new state in terms of the old one. The class invariant
  `Valid()` says that votes are recorded only while someone is signed in.

Modelling choices:

- Time is an integer count of milliseconds. The clock readings the handlers
  and the render make (`Date.now()`, `new Date()`) are parameters: `now`
  for the feed, and `clockId`/`clockCreated` for a new idea's `id` and
  `created_at`, which the code reads from the clock separately.
- `created_at` is an integer as well. The code compares ISO 8601 UTC strings
  of one fixed format, and those order exactly as the instants they denote.
- The 'All Time' window is the constructor `Unbounded` rather than
  `Infinity`. The filter already special-cases the 'all' key, and
  `ActiveFilter` proves that the unbounded window belongs to 'all' and to no
  other key.
- `Array.prototype.sort` is stable (ECMAScript 2019 onwards), and here it is
  given the comparator `getScore(b) - getScore(a)`. The model sorts by
  insertion (`SortByScore`). `StableSortUnique` proves that a list sorted by
  non-increasing score, with the ideas of each score in their original
  order, is unique. So any stable sort with this comparator returns what
  `SortByScore` returns, whatever algorithm the engine uses.
- Ids are not assumed unique. `id` is a millisecond timestamp, and two ideas
  can share one. A vote applies to every idea with the voted id, as the
  code's `map` does.

Where the design description and the code differ, the model follows the code:

- Ids are not unique.
- The 140-character bound on text holds only in the input element.
- The stored vote record maps ids to directions.
- The design says vote records are never removed. The code empties them on
  sign-out and keeps the counters. So after signing out and in again, the
  same user can vote on the same idea again, and the counter takes both
  votes (`RevoteAfterSignOut`).
- This component has no `comparables`, `isOwn`, trending score or
  "your ideas" view.

## Model

| member | source | states |
|---|---|---|
| `Feed.Cast` | src/WouldYouUseThis.jsx:56-61 | one vote raises exactly the counter matching its direction by one; the score moves by +1 for up and -1 for down; id, text and creation time are kept |
| `Feed.ApplyVote` | src/WouldYouUseThis.jsx:55-64 | the voted list has the same length and order; ideas with another id are untouched; every idea with the voted id gains exactly one vote, and its score moves by one in the vote's direction |
| `Feed.VoteOnAbsentId` | src/WouldYouUseThis.jsx:55-64 | a vote on an id no idea carries leaves the list equal to what it was |
| `Feed.VoteAddsOnePerMatch` | src/WouldYouUseThis.jsx:55-64 | a vote adds to the total vote count exactly the number of ideas carrying the voted id |
| `Feed.ScoreOfCasts` | src/WouldYouUseThis.jsx:67 | `getScore` stays up votes minus down votes after any run of votes: the starting score plus the up votes cast minus the down votes cast, with each counter raised by the votes in its direction |
| `Feed.Find` | src/WouldYouUseThis.jsx:69 | `find` returns nothing exactly when no entry has the key; otherwise it returns the first entry with the key |
| `Feed.ActiveFilter` | src/WouldYouUseThis.jsx:12-17 | every key has an entry in `TIME_FILTERS` (the constant `TimeFilters`), so the lookup never fails; the entry's window is one, seven or thirty days, or unbounded, and it is unbounded exactly for 'all' |
| `Feed.RetainedCounts` | src/WouldYouUseThis.jsx:72-73 | the filtered list (`Retained`) holds each idea the predicate keeps exactly as often as the input does, and no other idea |
| `Feed.RetainedConcat` | src/WouldYouUseThis.jsx:72-73 | the filter keeps input order: filtering a concatenation gives the filtered first part followed by the filtered second part |
| `Feed.RetainedSingle` | src/WouldYouUseThis.jsx:73 | a single idea is kept exactly when the filter predicate holds of it; with `RetainedConcat` this fixes the filtered list, order included |
| `Feed.KeepsIffInWindow` | src/WouldYouUseThis.jsx:70-73 | the filter predicate (`Keeps`) applied with the computed cutoff (`Cutoff`: none for an unbounded window, else now minus the window) keeps an idea exactly when it was created no earlier than 1, 7 or 30 days before now, or always for 'all' |
| `Feed.WindowsNest` | src/WouldYouUseThis.jsx:12-17 | whatever 'today' shows, 'this week' shows; whatever 'this week' shows, 'this month' shows; 'all time' shows everything |
| `Feed.CompareConsistent` | src/WouldYouUseThis.jsx:74 | the comparator `getScore(b) - getScore(a)` (`Compare`) is consistent: zero on equal arguments, sign flips when the arguments swap, "not after" is transitive, and `a` goes first exactly when it scores higher |
| `Feed.Insert` | src/WouldYouUseThis.jsx:74 | inserting adds exactly the one idea to the multiset and keeps a list sorted by descending score sorted |
| `Feed.SortByScore` | src/WouldYouUseThis.jsx:74 | the sorted list is a permutation of its input, in non-increasing score order |
| `Feed.InsertStable` | src/WouldYouUseThis.jsx:74 | an inserted idea lands in front of every idea of the same score and changes no other score's order |
| `Feed.SortByScoreStable` | src/WouldYouUseThis.jsx:74 | the sort keeps the ideas of every score in their original relative order |
| `Feed.SortByScoreIsStableSort` | src/WouldYouUseThis.jsx:74 | the sort meets the reference definition of a stable descending-score sort |
| `Feed.StableSortUnique` | src/WouldYouUseThis.jsx:74 | any two stable descending-score sorts of one list are equal, so the engine's sort and the model's agree |
| `Feed.FilteredIdeas` | src/WouldYouUseThis.jsx:69-74 | the feed holds exactly the ideas inside the selected window, with their multiplicities, in non-increasing score order, with equal scores in feed order |
| `Feed.AllKeepsEverything` | src/WouldYouUseThis.jsx:73 | under 'all' the feed is a permutation of all ideas |
| `Feed.TodayAndWeekAt25Hours` | src/WouldYouUseThis.jsx:12-14 | an idea created 25 hours ago is left out of 'today' and shown under 'this week' |
| `Text.TrimStart` | src/WouldYouUseThis.jsx:37 | the result is a suffix of the input; what was dropped is all whitespace; the result does not start with whitespace |
| `Text.TrimEnd` | src/WouldYouUseThis.jsx:37 | the result is a prefix of the input; what was dropped is all whitespace; the result does not end with whitespace |
| `Text.Trim` | src/WouldYouUseThis.jsx:41 | `trim` returns a middle slice of the input with only whitespace cut on either side, and the slice neither starts nor ends with whitespace |
| `Text.TrimEmptyIffBlank` | src/WouldYouUseThis.jsx:37 | a draft trims to the empty string exactly when every character of it is whitespace |
| `Text.TrimIdempotent` | src/WouldYouUseThis.jsx:41 | trimming the stored text again changes nothing |
| `Component.IdeaBoard.constructor` | src/WouldYouUseThis.jsx:20-24 | the initial state: the given ideas, no votes, no user, an empty draft, the 'all' filter |
| `Component.IdeaBoard.SignIn` | src/WouldYouUseThis.jsx:26-28 | afterwards a user is signed in; ideas, votes, draft and filter are unchanged; signing in from a signed-out state starts with no votes, by the invariant |
| `Component.IdeaBoard.SignOut` | src/WouldYouUseThis.jsx:30-33 | afterwards no user is signed in and the vote record is empty; ideas, with their counts, draft and filter are unchanged |
| `Component.IdeaBoard.EditDraft` | src/WouldYouUseThis.jsx:122 | the draft becomes the typed text; nothing else changes |
| `Component.IdeaBoard.SelectFilter` | src/WouldYouUseThis.jsx:144 | the selected filter becomes the clicked key; nothing else changes |
| `Component.IdeaBoard.Submit` | src/WouldYouUseThis.jsx:35-49 | a blank draft or a missing user changes nothing; otherwise the list grows by one, its head is the trimmed draft with zero votes, the given id and the given creation time, its tail is the old list, and the draft is cleared; votes, user and filter never change |
| `Component.IdeaBoard.Vote` | src/WouldYouUseThis.jsx:51-65 | with no user, or an id already voted on, nothing changes; otherwise the id maps to the direction with every other record kept, and the ideas are the voted list; the invariant "no votes without a user" is kept |
| `Component.IdeaBoard.Shown` | src/WouldYouUseThis.jsx:69-74 | the feed of the current state holds exactly the ideas in the selected window, in non-increasing score order, with the ideas of equal score in the order of the filtered list |
| `Component.VoteTwice` | src/WouldYouUseThis.jsx:51-52 | a second vote on the same id, in either direction, leaves votes and ideas exactly as the first vote left them |
| `Component.RevoteAfterSignOut` | src/WouldYouUseThis.jsx:26-65 | vote, sign out, sign in and vote again on the same id: the vote record holds only the second vote, and the ideas carry both votes |
| `Component.NewIdeaShown` | src/WouldYouUseThis.jsx:39-74 | an idea put in front of the list appears in the feed under every filter during its first day |

## Left out

- Rendering is not modelled. This covers the JSX, class strings, SVG
  icons, the disabled state of the buttons, score colouring and the
  character counter. None of it changes state.
- React's `useState` and the render cycle are not modelled. Each handler is
  one atomic method, and the derived feed is a function of the state and
  `now`.
- `e.preventDefault()` in the submit handler is not modelled. It is a DOM
  call with no effect on the state.
- Clock readings are not modelled. `Date.now()` and `new Date()` become
  parameters, and the formatting of `toISOString()` is not modelled.
- JavaScript numbers are doubles, and the model does not capture that.
  Counters, ids and times are unbounded integers, so precision loss above
  2^53 is not captured.
- The model does not capture that `created_at` is a string. Timestamps
  outside the years 0000 to 9999 use an extended ISO format. For those,
  comparing the strings no longer agrees with comparing the times.
- `userVotes` keys are strings in JavaScript. The model keys it by the
  integer id. The two agree because distinct integers print as distinct
  strings.
- Strings are sequences of Unicode scalar values, not the UTF-16 code units
  of JavaScript. A string with a lone surrogate cannot be represented.
  Trimming agrees on all other strings, because every character `trim`
  removes is a single code unit.
- The signed-in user's e-mail address is a fixture. The user is only
  present or absent (`signedIn`).
- The sample ideas are fixtures. The constructor takes the initial ideas as
  a parameter.
- The 140-character limit is not modelled. Only the input element enforces
  it (`maxLength`), not `handleSubmit`.
