# MLB odds scraper: a Dafny model

This project models the core of a small MLB betting-odds pipeline. The
scraper (`scrape_odds.py`) works through a list of dates, today and then
tomorrow. For each date it fetches the sportsbook-review listing page and
pulls out the JSON embedded in its `__NEXT_DATA__` script element. It then
reads `props.pageProps.oddsTables[0].oddsTableModel.gameRows`. For each game
row it takes the team, venue, status and score fields. It fetches the game's
line-history page and finds the `oddsViews` list in it, looking at the
top-level list first, then the nested one, then scanning the whole document
depth-first. From that list it picks the FanDuel entry, whose bookmaker name
is matched in any case. Each of its moneyline, run-line and total histories
is reduced to an opening (first) and a current (last) snapshot, and
`last_line_update` is the largest current `oddsDate`. The result is one flat
43-field record per game. The dashboard fragment (`streamlit.py`) classifies
a game's status text as final, in progress or not started, and from that
decides whether the score line is shown and whether the odds table is dimmed.

Python values are modelled by one `Json` datatype. `None` is `JNull`, and a
dict is an ordered list of key/value pairs. Python exceptions are the
`Raised` case of `Result`, and Python truthiness is `Truthy`. Page fetches
and `json.loads` are oracles the caller passes in:

- `Fetcher` maps a `Request` (a listing page for a date, or a line-history
  page for a game id) to a response, or to nothing when the request raises.
- `Parser` maps text to a JSON value, or to nothing when the text is not
  JSON.

The two dates are a parameter of `ScrapeOdds`.

Modules:

- `Outcomes`: the `Option` and `Result` datatypes.
- `Sequences`: per-element concatenation (`FlatMap`, `JoinMap`).
- `Text`: ASCII lower-casing, prefixes, substring search and Python string
  ordering.
- `JsonValues`: the JSON values and the Python operations on them (`get`,
  `[]`, iteration, truthiness, `max`).
- `NextData`: the `__NEXT_DATA__` extraction.
- `Locator`: finding `oddsViews`.
- `Bookmaker`: choosing FanDuel.
- `Normalize`: `extract_team_info`, `get_first_last`, the odds variables and
  the record.
- `Scrape`: the orchestrator. `FindFanDuelView`, `FetchFanDuelOdds`,
  `ScrapeGames` and `ScrapeOdds` are written with loops and proved equal to
  their specification functions `FanDuelView`, `LineOdds`, `GamesOf` and
  `ScrapeSpec`.
- `Status`: the dashboard's status rule.

Three behaviours of the code's error handling are easy to miss:

- Iterating `gameRows` (`scrape_odds.py:68`) is the one step outside every
  `try`. A truthy `gameRows` that cannot be iterated, such as a number or a
  boolean, therefore raises out of `scrape_odds` and ends the whole run.
  `ScrapeSpec` returns `None` in this case, as `ScrapeAbort` shows.
- A row is dropped, not emitted without odds, when its metadata cannot be
  read. This happens when the row, its `gameView` or a team entry is not a
  dict (`scrape_odds.py:69-78`). That failure raises inside the per-row
  `try` and is caught by the `except` at lines 200-202. Only failures inside
  the inner `try` (lines 95-148) leave a row with no odds.
- A row is also dropped when a snapshot kept by the inner `try` is not a
  dict. For example, a history that is a string gives one-character strings
  as snapshots. `.get` on such a snapshot raises while the record is built
  (lines 172-197), outside the inner `try`.

## Model

| member | source | states |
|---|---|---|
| JsonValues.LookupFindsFirst | scrape_odds.py:12-15 | a dict read finds a value exactly when some key matches, and then it is the value of the first matching entry |
| JsonValues.DictGet | scrape_odds.py:55 | `d.get(key, default)` raises exactly when `d` is not a dict; otherwise it gives the stored value, or the default when the key is absent |
| JsonValues.Subscript | scrape_odds.py:104 | `d[key]` succeeds exactly when `d` is a dict holding `key`, and gives the stored value |
| JsonValues.Truthy | scrape_odds.py:56 | Python truthiness: `None`, `False`, zero and empty strings, lists and dicts are false |
| JsonValues.Iterate | scrape_odds.py:68 | `for x in j` succeeds exactly on lists, dicts and strings; on a list it visits the items, on a dict the keys in order, on a string the one-character strings |
| JsonValues.TruthyOnly | scrape_odds.py:146 | the filtered list holds exactly the truthy elements of the input |
| JsonValues.TruthyOnlyAppend | scrape_odds.py:146 | the filter keeps order and duplicates: filtering a concatenation concatenates the filtered parts |
| JsonValues.Greater | scrape_odds.py:146 | `a > b` succeeds exactly when both are strings or both are numbers, and raises otherwise |
| JsonValues.GreaterIsStrict | scrape_odds.py:146 | no two values are each greater than the other |
| JsonValues.MaxFrom | scrape_odds.py:146 | the scan inside `max` returns the starting value or one of the rest |
| JsonValues.Max | scrape_odds.py:146 | `max` of an empty list is the default; otherwise a result is one of the list's elements |
| JsonValues.MaxFromNumbers | scrape_odds.py:146 | over numbers the scan never raises; its result is at least the start and every later element, and replaces the start only by an element strictly greater than it and than every element before it |
| JsonValues.MaxOfNumbers | scrape_odds.py:146 | `max` over numbers never raises; it returns the default for an empty list and otherwise the first of the largest elements |
| JsonValues.MaxFromMixedRaises | scrape_odds.py:146 | over strings and numbers, the scan raises once a later element is of the other kind than the start |
| JsonValues.MixedMaxRaises | scrape_odds.py:146 | `max` over a list holding both a string and a number, and nothing else, raises, whatever the order |
| JsonValues.MaxOfStrings | scrape_odds.py:146 | `max` over strings never raises; it returns the default for an empty list and otherwise an element that no other element exceeds |
| Normalize.ExtractTeamInfo | scrape_odds.py:10-16 | raises exactly when the team entry is not a dict; otherwise each of the four fields is the stored value or `""` |
| Normalize.GetFirstLast | scrape_odds.py:18-21 | a falsy history gives two empty dicts; a list gives its first and last items; a string gives its first and last characters; any other truthy value raises, and only then |
| Normalize.SingleEntryHistory | scrape_odds.py:18-21 | a one-entry history opens and closes on the same entry |
| NextData.ExtractNextData | scrape_odds.py:48-52 | a body found is exactly the text between the first opening marker and the first closing marker after it |
| NextData.ExtractSucceedsIff | scrape_odds.py:48-52 | a body is found exactly when some opening marker is followed later by a closing marker |
| NextData.NoOpenMarkerNoData | scrape_odds.py:48-52 | a page without the opening marker yields nothing |
| Scrape.FirstItem | scrape_odds.py:59 | `odds_tables[0]` succeeds exactly on a non-empty list or string, and on a list gives its first item |
| Scrape.OddsTables | scrape_odds.py:55 | reading `oddsTables` succeeds exactly when `props` and `pageProps` are present and `pageProps` is a dict; the value is `pageProps.get('oddsTables', [])` |
| Scrape.TableGameRows | scrape_odds.py:59-60 | reading `gameRows` succeeds exactly when the first table holds a dict `oddsTableModel`; the value is `oddsTableModel.get('gameRows', [])` |
| Scrape.GameRows | scrape_odds.py:40-66 | the date stage yields only truthy rows |
| Scrape.GameRowsSucceedsIff | scrape_odds.py:40-66 | the date stage yields rows exactly when the fetch succeeds with status 200, the marker is found, the body parses, and `oddsTables` and `gameRows` are read and truthy; the rows are then `oddsTables[0].oddsTableModel.gameRows`; any other outcome, including an exception, skips the date |
| Scrape.GoodDateYieldsItsGames | scrape_odds.py:40-202 | a date whose stage yields rows that can be iterated contributes exactly the records of those rows |
| Locator.FindOddsViewsRecursive | scrape_odds.py:116-129 | the scan returns an empty list only when the root dict itself holds an empty `oddsViews` list |
| Locator.FindInValues | scrape_odds.py:120-123 | the loop over dict values never returns an empty list |
| Locator.FindInItems | scrape_odds.py:124-128 | the loop over list items never returns an empty list |
| Locator.FirstNonEmpty | scrape_odds.py:122-123 | the result is empty exactly when every candidate is; otherwise it is the candidate at some position with only empty candidates before it |
| Locator.FindIsFirstHit | scrape_odds.py:116-132 | read through `if found:`, the scan yields the first non-empty `oddsViews` list in depth-first key and element order, and nothing when there is none |
| Locator.FindNoneIff | scrape_odds.py:116-129 | the scan returns `None` exactly when the root holds no `oddsViews` list and no non-empty one lies below |
| Locator.HistoryModel | scrape_odds.py:104-105 | reading `lineHistoryModel` succeeds exactly when `props` and `pageProps` are present and `pageProps` is a dict; the value is `pageProps.get('lineHistoryModel', {})` |
| Locator.TopOddsViews | scrape_odds.py:107 | the top-level list is read only from a dict model; it is the stored `oddsViews`, or `[]` when absent |
| Locator.NestedOddsViews | scrape_odds.py:108-109 | raises on a non-dict model; a missing or falsy `lineHistory` gives `[]`; a truthy non-dict `lineHistory` raises; a dict `lineHistory` gives its `oddsViews`, or `[]` when absent |
| Locator.LocateOddsViews | scrape_odds.py:104-132 | the lookup succeeds exactly when the model and both tiers can be read; the list it gives is truthy or `[]` |
| Locator.TopLevelTakesPrecedence | scrape_odds.py:104-111 | a non-empty top-level `oddsViews` is used even when the nested one is non-empty too |
| Locator.NestedUsedWhenTopEmpty | scrape_odds.py:107-113 | the nested `lineHistory.oddsViews` is used when the top-level list is empty |
| Locator.ScanWhenBothEmpty | scrape_odds.py:114-132 | when both fixed places are empty, the whole document is scanned and the first non-empty `oddsViews` list found is used |
| Locator.NonDictLineHistoryRaises | scrape_odds.py:108-109 | a truthy `lineHistory` that is not a dict makes the lookup raise, even when the top-level list is present |
| Locator.DeepScanExample | scrape_odds.py:104-132 | a document with both fixed places empty and the list three levels down under unrelated keys still yields that list |
| Bookmaker.IsFanDuel | scrape_odds.py:134 | a view matches exactly when it is a dict whose `sportsbook` is a string that lower-cases to `fanduel`; the check raises exactly when the view is not a dict or its `sportsbook` is not a string |
| Bookmaker.SelectFanDuel | scrape_odds.py:133-136 | the loop finds nothing exactly when every view is checked without a match; a view it returns is the first match; a raise comes from the first view whose check raises, with no match before it |
| Bookmaker.CaseInsensitiveMatch | scrape_odds.py:134 | any dict view whose bookmaker name lower-cases to `fanduel` matches, whatever else it holds |
| Bookmaker.FanDuelViewIsSelected | scrape_odds.py:133-136 | a FanDuel view preceded only by non-matching views is the one selected |
| Bookmaker.SpellingsOfFanDuelMatch | scrape_odds.py:134 | `FanDuel`, `FANDUEL` and `fanduel` all match |
| Bookmaker.MissingSportsbookNeverMatches | scrape_odds.py:134 | a view without `sportsbook` reads as `''` and never matches |
| Bookmaker.SelectedViewIsTruthy | scrape_odds.py:133-137 | a selected view is a non-empty dict, so `if fanduel_data:` always passes once one is selected |
| Normalize.HistoryEnds | scrape_odds.py:138-140 | reading a history raises on a non-dict view; otherwise it is `get_first_last` of the stored history or `[]`: a missing or empty history gives two empty snapshots, a non-empty list its first and last entries, and a truthy history that is neither a list nor a string raises |
| Normalize.CurrentDates | scrape_odds.py:141-145 | the three dates are read exactly when the three current snapshots are dicts, and each is its snapshot's `oddsDate` or `None` |
| Normalize.LastLineUpdate | scrape_odds.py:141-146 | a computed `last_line_update` is `""` or one of the truthy current dates |
| Normalize.ApplyFanDuel | scrape_odds.py:137-148 | the histories are reduced in order and a raise keeps what was assigned before it: a moneyline raise leaves the defaults; otherwise the moneyline pair is its ends; a spread raise leaves spread, total and the update at their defaults, otherwise the spread pair is its ends; likewise for total; once all three are reduced, `last_line_update` is the `max` of the current dates, or stays `None` when `max` raises |
| Normalize.MixedDateTypesLeaveNoUpdate | scrape_odds.py:141-148 | when the truthy current dates are strings or numbers and include at least one of each, in any position, `max` raises; all six snapshots are kept and `last_line_update` stays `None` |
| Normalize.LastLineUpdateIsMax | scrape_odds.py:137-146 | with string or empty current dates, `last_line_update` is a string; it is `""` when every date is empty; otherwise it is one of the non-empty dates and none is greater |
| Normalize.PartialOddsKept | scrape_odds.py:137-148 | a failure while reducing the spread history keeps the moneyline snapshots already assigned, and the others stay empty |
| Normalize.ReadMeta | scrape_odds.py:69-85 | reading a row succeeds exactly when the row, its `gameView` and both team entries are dicts (missing ones default to `{}`); each listing field is read from `gameView` under its key, with `""` for the start date, venue, city, state and status, `{}` for consensus and `None` for the game id and scores; the teams come from `awayTeam` and `homeTeam` |
| Normalize.BuildRecord | scrape_odds.py:150-198 | a record is built exactly when the six snapshots are dicts, and carries the date, the game id and `last_line_update` |
| Normalize.RecordFields | scrape_odds.py:150-198 | a record is built exactly when the six snapshots are dicts; it carries the row's listing fields (a falsy consensus becomes `None`) and `last_line_update`; each of the 24 odds fields is its snapshot's value under the field's key, or `None` |
| Normalize.NoOddsRecord | scrape_odds.py:87-91 | from the defaults a record is still built, with its listing fields and all odds, time and update fields `None` |
| Scrape.LineViews | scrape_odds.py:95-132 | the views are found exactly when the game id is truthy, the line-history fetch succeeds with status 200, the marker is found, the body parses, `oddsViews` is located and can be iterated; they are then the items of the located `oddsViews` |
| Scrape.FanDuelView | scrape_odds.py:133-136 | a view is found exactly when the line history's views are found and the `for view` loop reaches a FanDuel view before any `.get` raises; it is then that first FanDuel view, which is truthy |
| Scrape.FindFanDuelView | scrape_odds.py:94-136 | the step-by-step block with its `for view … break` loop leaves `fanduel_data` exactly as `FanDuelView` describes |
| Scrape.LineOdds | scrape_odds.py:87-148 | without a FanDuel view the odds variables keep their defaults; with one, they are what that view's histories give |
| Scrape.FetchFanDuelOdds | scrape_odds.py:87-148 | the step-by-step odds block leaves the odds variables exactly as the specification `LineOdds` describes |
| Scrape.FalsyGameIdSkipsFetch | scrape_odds.py:96 | a falsy game id leaves every odds variable at its default |
| Scrape.FailedLineHistoryMeansNoView | scrape_odds.py:99-100 | a line-history request that raises or returns a status other than 200 gives no FanDuel view |
| Scrape.NoFanDuelRowHasNoOdds | scrape_odds.py:87-198 | without a FanDuel view the row is still emitted, with its listing fields and no odds |
| Scrape.GameRecordOf | scrape_odds.py:69-202 | a row yields a record exactly when its metadata can be read and its snapshots are dicts; the record then carries the date and every listing field of the row, and its `last_line_update` and 24 odds fields are those of the row's line history (`LineOdds`) |
| Scrape.DateGames | scrape_odds.py:40-202 | a skipped date contributes no records; a date ends the run exactly when its `gameRows` were read but cannot be iterated |
| Scrape.ScrapeSpec | scrape_odds.py:38-202 | the run has no result exactly when some date's `gameRows` cannot be iterated |
| Scrape.ScrapeGames | scrape_odds.py:68-202 | the row loop of one date returns exactly the specification `GamesOf` of its rows |
| Scrape.ScrapeOdds | scrape_odds.py:38-204 | the nested loops over dates and game rows return exactly the specification `ScrapeSpec` |
| Scrape.GamesStep | scrape_odds.py:68-202 | one more game row appends exactly that row's records |
| Scrape.ScrapeStep | scrape_odds.py:40-202 | one more date appends exactly that date's records |
| Scrape.ScrapeAbort | scrape_odds.py:68 | a date whose `gameRows` cannot be iterated ends the whole run with no result |
| Scrape.GamesAppend | scrape_odds.py:68-202 | records follow row order: consecutive row lists give their records concatenated |
| Scrape.ScrapeAppend | scrape_odds.py:40-202 | records follow date order: consecutive date lists give their runs joined |
| Scrape.RowIsolation | scrape_odds.py:68-202 | a row contributes its own record or nothing, and the rows around it are unaffected |
| Scrape.SkippedDateContributesNothing | scrape_odds.py:42-66 | a date whose stage fails contributes nothing, and the rest of the run is as it would be without it |
| Scrape.RecordsCarryTheirDate | scrape_odds.py:150-151 | every record of a date carries that date |
| Scrape.DuplicateRowsKept | scrape_odds.py:199 | a row listed twice yields its record twice; there is no de-duplication |
| Scrape.FaultIsolationScenario | scrape_odds.py:95-202 | with three games where the second's line-history request fails, the first and third keep their records, and the second is emitted with its listing fields and no odds |
| Status.IsFinal | streamlit.py:10 | a game is final when its lower-cased status starts with `final` |
| Status.IsInProgress | streamlit.py:11 | a game is in progress when it is not final, its status is non-empty, and the lower-cased status starts with neither `scheduled` nor `not started` |
| Status.ScoreShown | streamlit.py:13-17 | the score line is non-empty when the game is final or in progress and both scores are present |
| Status.StatusStr | streamlit.py:19 | a non-empty status appears verbatim inside its styled line |
| Status.OddsTableOpacity | streamlit.py:22 | the odds table is dimmed for final games |
| Status.FinalExcludesInProgress | streamlit.py:10-11 | a game is never both final and in progress |
| Status.EmptyStatusIsNeither | streamlit.py:10-11 | an empty status is neither final nor in progress |
| Status.NotStartedIsNeverInProgress | streamlit.py:11 | a status starting with `scheduled` or `not started`, in any case, is never in progress |
| Status.ClassificationIgnoresCase | streamlit.py:10-11 | lower-casing the status changes neither classification |
| Status.ScoreShownNeedsStartedGame | streamlit.py:13-17 | the score line is shown only for a non-empty status that is not scheduled or not started, and only when both scores are present |
| Status.StatusStrEmptyIff | streamlit.py:19 | the status line is empty exactly when the status is |
| Status.OpacityHalfIffFinal | streamlit.py:22 | the odds table has opacity `0.5` exactly for final games and `1` otherwise |
| Status.StatusExamples | streamlit.py:10-11 | `Final` and `FINAL/10` are final; `Top 5th` is in progress; `Scheduled` and `Not Started` are not in progress |

## Left out

- HTTP is not modelled: sessions, headers, timeouts and the randomized sleep between requests (`scrape_odds.py:24-32`, `98`). Fetching is the `Fetcher` oracle. The URLs' string formatting is folded into its `Request` argument.
- The clock and the US/Eastern time zone (`scrape_odds.py:34-37`) are left out. The dates are a parameter of `ScrapeOdds`.
- `json.loads` is the `Parser` oracle. The regular-expression engine is replaced by a first-marker search, which is equivalent for this non-greedy, DOTALL pattern.
- The `print` logging on every failure path is left out.
- The conversion to a pandas DataFrame (`scrape_odds.py:204`) is left out. The result is the list of records. The DataFrame's replacement of a missing score by NaN, which the dashboard then reads, is not modelled.
- Floating point is modelled as exact reals.
- Status.ClassificationIgnoresCase: `str.lower()` is modelled for ASCII letters only. Other Unicode case mappings are not.
- JsonValues.Greater: only string-with-string and number-with-number comparisons are modelled. Python's `max` would also compare two lists or two tuples, but the model raises on every other pairing.
- The dashboard's HTML: the card template, `format_team_nickname`, `format_time_footer` and the score line's text are not modelled. Only whether the score line is non-empty is, as `ScoreShown`.
- Status.StatusStr: a status that is not a string (a missing value after the DataFrame conversion) is not modelled. The status is a string here.
- `Fetcher` is a function of the request, so two requests for the same page in one run get the same answer. The real site can answer them differently, since odds move between requests. DuplicateRowsKept's two equal records rely on this assumption.
- Dicts with a repeated key are not modelled. `json.loads` keeps the last value for such a key, while `Lookup` reads the first entry. The `Parser` is taken to yield dicts with distinct keys.
