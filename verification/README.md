# Worklog aggregation for `log_hours_to_jira.py`, in Dafny

`log_hours_to_jira.py` reads a Toggl time-entry export, pulls a Jira ticket
number out of each entry's description, groups the entries by
`(ticket, start date)`, sums each group's durations, rounds every sum up to a
billing increment (15 minutes by default), and posts one worklog per group to
Jira. Each response is reduced to its `timeSpent` field.

This project models that pipeline as pure functions over immutable data. The
one exception is the submission loop, a method that returns the trace of POSTs
it made.

- `options.dfy`: `Option` (a pandas cell that may be NaN) and `Result` (a call
  that answers or raises).
- `rounding.dfy`: `round_up_duration` on whole seconds, using exact integer
  ceiling division.
- `tickets.dfy`: the regular expression `\b[A-Z]+-\d+\b` as used by
  `str.extract`. `MatchAt` is a declarative description of a match.
  `ExtractTicket` is the left-to-right search, and it is proved to return the
  leftmost match or `None`.
- `string_order.dfy`: Python's `<` on `str`, which pandas uses to sort group
  keys. It is proved to be a strict total order.
- `grouping.dfy`: `groupby(['Ticket Number', 'Date'])['Duration'].sum()`. It is
  modelled as insertion into a key-sorted list of groups.
- `worklog.dfy`: the derived columns of `load_data`, the `Rounded Duration`
  column, the payload, the reduction of a response to `timeSpent`, the
  submission loop, and `process_data` end to end.

The model follows the code, including three behaviours that are easy to
misread:

- **A failed POST ends the run.** `process_data` has no `try`, so an exception
  from `post_worklog_to_jira` stops the loop. That includes a missing
  `SUBDOMAIN`, a network error, and a body that is not JSON. Later aggregates
  are never sent. `SubmitAll` models exactly this; it does not continue past a
  failure.
- **An HTTP error status is not a failure.** `requests.post` does not raise on
  a non-2xx status. An error body that decodes to JSON without `timeSpent` is
  therefore reported with the sentence `No timeSpent field in response`.
- **Entries without a ticket are dropped.** The grouping key is the raw
  `Start date` string, not a truncated date. Rows whose description holds no
  ticket are dropped, because `groupby` leaves out NaN keys by default. The
  groups come out sorted by `(ticket, date)` in Python string order.

## Model

| member | source | states |
|---|---|---|
| `Rounding.CeilDiv` | log_hours_to_jira.py:41 | `math.ceil(t / i)` on integers: the quotient times `i` covers `t`, and one quotient less does not |
| `Rounding.RoundUp` | log_hours_to_jira.py:37-43 | the rounded duration is a multiple of `increment_minutes * 60` seconds, is at least the raw total, and is less than one increment above it |
| `Rounding.RoundUpIsLeast` | log_hours_to_jira.py:39-43 | no multiple of the increment that covers the total lies below the rounded value: it is the least such multiple |
| `Rounding.RoundUpFixesMultiples` | log_hours_to_jira.py:41-43 | rounding leaves a total unchanged exactly when the total is already a whole number of increments (both directions) |
| `Rounding.RoundUpZero` | log_hours_to_jira.py:41-43 | a total of zero rounds to zero, not to one increment |
| `Rounding.RoundUpIdempotent` | log_hours_to_jira.py:37-43 | rounding an already rounded duration returns it unchanged |
| `Rounding.RoundUpMonotonic` | log_hours_to_jira.py:37-43 | a larger raw total never rounds to a smaller billed duration |
| `Tickets.UpperRunEnd` | log_hours_to_jira.py:54 | the greedy `[A-Z]*` run from a position: every character inside is a capital, and the run stops at the end or at a non-capital |
| `Tickets.DigitRunEnd` | log_hours_to_jira.py:54 | the greedy `\d*` run from a position: every character inside is a digit, and the run stops at the end or at a non-digit |
| `Tickets.MatchEndAt` | log_hours_to_jira.py:54 | the regex attempt at one start position returns an end `k` only if `\b[A-Z]+-\d+\b` matches there, and returns exactly that `k` whenever such a match exists |
| `Tickets.FindFrom` | log_hours_to_jira.py:54 | the search returns the first start position from `i` at which a match exists, or reports that no later start position has one |
| `Tickets.ExtractTicket` | log_hours_to_jira.py:54 | the ticket is absent exactly when no substring matches; otherwise it is the leftmost match, and it has the form capitals, `-`, digits |
| `Tickets.LeftmostMatchUnique` | log_hours_to_jira.py:54 | a description has at most one leftmost match (same start, same end), so the extracted ticket is determined |
| `Tickets.ExtractTicketFindsLeftmost` | log_hours_to_jira.py:54 | conversely, whenever a leftmost match exists, `ExtractTicket` returns exactly that substring |
| `Tickets.ExtractTicketAtStart` | log_hours_to_jira.py:54 | a match at the start of the description is the ticket, whatever follows it |
| `Tickets.ExtractTicketExample` | log_hours_to_jira.py:54 | `ABC-123 work` and `ABC-123 more` yield `ABC-123` |
| `Tickets.ExtractTicketShortExample` | log_hours_to_jira.py:54 | `XYZ-9 task` yields `XYZ-9` |
| `Tickets.ExtractTicketOpening` | log_hours_to_jira.py:54 | a description that opens with capitals, `-` and digits, followed by the end or a non-word character, yields exactly that opening |
| `Tickets.ExtractTicketTrailingWordExample` | log_hours_to_jira.py:54 | `ABC-12x` holds no ticket: `\b` fails where the digits run into a word character |
| `Tickets.ExtractTicketLeadingWordExample` | log_hours_to_jira.py:54 | `xABC-1` holds no ticket: `\b` fails where the capitals follow a word character |
| `Tickets.ExtractTicketSkipsExample` | log_hours_to_jira.py:54 | in `xABC-1 DEF-2` the first candidate lacks a leading boundary, so the ticket is `DEF-2` |
| `StringOrder.LexLess` | log_hours_to_jira.py:72 | Python's `<` on `str`, which `groupby` uses to sort keys: code-point lexicographic, with a proper prefix sorting first; no contract of its own, the three lemmas below state that it is a strict total order |
| `StringOrder.LexIrreflexive` | log_hours_to_jira.py:72 | no string sorts before itself |
| `StringOrder.LexTransitive` | log_hours_to_jira.py:72 | the string order is transitive |
| `StringOrder.LexTotal` | log_hours_to_jira.py:72 | any two distinct strings are ordered one way round, so the sorted group order is fully determined |
| `Grouping.KeyLess` | log_hours_to_jira.py:72 | tuple order on `(ticket, date)`: ticket first, then date on equal tickets; no contract of its own, the three lemmas below state that it is a strict total order |
| `Grouping.KeyIrreflexive` | log_hours_to_jira.py:72 | no key sorts before itself |
| `Grouping.KeyTransitive` | log_hours_to_jira.py:72 | the key order is transitive |
| `Grouping.KeyTotal` | log_hours_to_jira.py:72 | any two distinct keys are ordered one way round |
| `Grouping.Insert` | log_hours_to_jira.py:72 | adding one ticketed entry keeps the groups strictly sorted, adds its key to the key set, raises only that key's total by its duration, and raises the grand total by the same amount |
| `Grouping.GroupAndSum` | log_hours_to_jira.py:72 | the groups are strictly sorted by key; their keys are exactly the keys of the ticketed entries; each key's total is the sum of that key's durations; all totals add up to the ticketed time |
| `Grouping.LookupSorted` | log_hours_to_jira.py:72 | in a strictly sorted group list, looking up a group's key finds that same group |
| `Grouping.GroupAndSumCorrect` | log_hours_to_jira.py:72 | one group per distinct `(ticket, date)` pair with a ticket, with pairwise distinct keys in ascending order; each group's total is the sum of its entries; nothing is lost or added |
| `Grouping.GroupAndSumExample` | log_hours_to_jira.py:72 | two ABC-123 entries on one day merge to 1800 s, and XYZ-9 sorts after them with 300 s |
| `Worklog.SubmitAll` | log_hours_to_jira.py:76-90 | POSTs go out one per aggregate, in order, to the aggregate's ticket. Each body is `comment ""`, `started` = date + `T12:00:00.000+0000`, `timeSpentSeconds` = rounded seconds. Each report holds the response's `timeSpent` or the missing-field sentence (line 68). A POST that raises ends the run: no later aggregate is sent, and the outcome carries the error |
| `Worklog.ProcessData` | log_hours_to_jira.py:70-90 | the run POSTs to groups in ascending key order. Each call goes to a ticket-shaped string that some row's description yields. Each call carries the group's date and its rounded total, which is a whole number of increments. A completed run posts every group. Each report holds that response's `timeSpent` or the missing-field sentence (line 68), and the run aborts only when a POST raises, with that error |
| `Rounding.IncrementSeconds` | log_hours_to_jira.py:39 | `increment_minutes * 60`; no contract of its own, it appears in the contracts of `Rounding.RoundUp` and `Worklog.AggregatesCorrect` |
| `Worklog.LoadEntry` | log_hours_to_jira.py:54-55 | the derived `Ticket Number` and `Date` columns of one row; no contract of its own, `Worklog.ProcessData` pins its ticket to `ExtractTicket` of a description |
| `Worklog.LoadEntries` | log_hours_to_jira.py:54-55 | the derived columns of every row, in order; no contract of its own, `Worklog.AggregatesCorrect` states the groups built from it |
| `Worklog.RoundGroups` | log_hours_to_jira.py:73 | the `Rounded Duration` column; no contract of its own, `Worklog.SumRawOfRoundGroups` and `Worklog.AggregatesCorrect` state what it keeps and what it adds |
| `Worklog.Aggregates` | log_hours_to_jira.py:72-73 | the grouped and rounded frame; no contract of its own, `Worklog.AggregatesCorrect` states it |
| `Worklog.BuildPayload` | log_hours_to_jira.py:82-86 | the worklog body; no contract of its own, `Worklog.SubmitAll` states each posted body field by field and `Worklog.StartedRoundTrip` recovers the date from it |
| `Worklog.TimeSpentOf` | log_hours_to_jira.py:68 | `response_data.get("timeSpent", ...)`; no contract of its own, `Worklog.SubmitAll` and `Worklog.ProcessData` state each report as the field when present and the missing-field sentence otherwise |
| `Worklog.StartedRoundTrip` | log_hours_to_jira.py:84 | the date can be read back from a payload's `started` stamp |
| `Worklog.SumRawOfRoundGroups` | log_hours_to_jira.py:73 | adding the `Rounded Duration` column keeps one row per group and leaves each raw total, and therefore their sum, unchanged |
| `Worklog.SumRoundedBounds` | log_hours_to_jira.py:73 | the billed time is at least the raw time, and at most one increment less a second above it per aggregate |
| `Worklog.AggregatesCorrect` | log_hours_to_jira.py:72-73 | each aggregate is the sum of its rows, rounded to the least covering multiple; there is one aggregate per ticketed `(ticket, date)`, in ascending order; the raw totals add up to the ticketed time, and the billed total covers it |
| `Worklog.AggregatesExample` | log_hours_to_jira.py:72-73 | 10 + 20 minutes on ABC-123 and 5 minutes on XYZ-9, billed in quarter hours, give 30 and 15 minutes |

## Left out

- `get_credentials`, `set_headers` and the `dotenv` loading (lines 9-29) are
  left out. They read environment variables and Base64-encode them.
- Reading the CSV in `load_data` (lines 46-51) is file I/O and is left out. A
  row's `Duration` is taken as whole seconds, so the `pd.to_timedelta` parser
  (lines 33, 56) is not modelled.
- `duration_to_seconds` (lines 32-34) is the identity on whole seconds. The
  payload therefore carries the rounded seconds directly.
- The HTTP call is left abstract. This covers the `SUBDOMAIN` lookup, the URL,
  `requests.post` and `response.json()` (lines 61-67). A `Poster` function
  stands for all of it: it either answers with the decoded object or fails.
- A response is modelled as a map from field names to strings. `timeSpent`
  values of other JSON types are not modelled.
- `json.dumps` (line 82) is left out; the payload is a record.
- The `print` lines (88, 90) are left out. The reports stand in for what they
  would print.
- `main` and the argument parsing (lines 92-105) are left out.
- Float division in `round_up_duration` and `total_seconds()` is not modelled.
  The model uses exact integers, so the float rounding error on very large
  totals is not reproduced.
- An increment of zero or less is excluded by a precondition. The code does
  not check for it: zero raises `ZeroDivisionError`, and a negative increment
  gives meaningless results.
- Descriptions and dates are always strings in the model. An empty CSV cell,
  which pandas reads as NaN, is not modelled; such a row would be dropped from
  the grouping.
- `Tickets.ExtractTicket`: the regex classes are ASCII. `\w` is `[A-Za-z0-9_]`
  and `\d` is `[0-9]`. Python's Unicode word characters and digits are not
  modelled.
- `Worklog.AggregatesExample`: the worked example is stated from the extracted
  entries. Extraction from its three descriptions is stated separately, by
  `Tickets.ExtractTicketExample` and `Tickets.ExtractTicketShortExample`.
