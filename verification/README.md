# clearpass-csv2api import pipeline in Dafny

This project models the per-record import pipeline of `clearpass-csv2api`.
The tool is a command-line importer that reads a CSV file of devices or guest
users and writes each row to an Aruba ClearPass server through its REST API.

The model covers the whole decision logic of one `import` run:

- the entity contracts of the `IMPORTING` table and how `--importing` resolves
  to one of them;
- the option parsers: `-x key=value` extras (`collectPairs`), `--token`
  `Bearer ` stripping, the `--exclude` comma split and the byte-order mark on
  the first header;
- `normalizeData`, `validateHeaders` and `validateData`;
- the seven `--strategy` identifiers, their decomposition into a primary verb
  and an optional fallback verb, and the initial statistics with their -1
  sentinels;
- the per-record dispatch: skip, dry run, primary call, at most one fallback
  gated on one failure shape, the expected-status check;
- `handleAPIClientError`, the ordered decision table that sorts a failed call
  into one counter;
- the statistics fold, including the `min`/`max` latency bookkeeping;
- the deterministic part of `generate` for devices: the MAC addresses it
  prints.

The API is replaced by a script. For every row it gives the reply to the
primary call and the reply the fallback call would get. A reply is either a
resolved promise with a status, or a rejection carrying the optional error
response. Each reply also gives the milliseconds the call took. With that, a
run is a pure function from rows and scripts to the final statistics.

Modules, one file each: `Results`, `Text` (the JavaScript string built-ins
used), `Importing`, `Options`, `Records`, `Validation`, `Statistics`,
`Responses`, `Strategy`, `Engine` (dispatch, fold, configuration, the whole
run), `Mac`, and `Scenarios` (worked runs on concrete rows).

The model keeps these behaviours of the code as written:

- A failed call whose status matches no branch of `handleAPIClientError` is
  counted in `errors`, not in `unknowns` (clearpass-csv2api.js:316-318).
  `unknowns` only counts calls that resolved with an unexpected status.
- A dry run counts nothing beyond the rows that fail validation. There is no
  dry-run counter (clearpass-csv2api.js:760-762).
- A fallback's latency is measured from the start of the primary call, not with
  a timer of its own (clearpass-csv2api.js:661, 728). `Engine.Conclude` adds
  the primary call's time.
- `attempts` is the number of rows read, so skipped rows are included
  (clearpass-csv2api.js:611).
- The counter of a verb the strategy cannot reach stays at -1
  (clearpass-csv2api.js:533-535). Outside a dry run, `attempts` therefore
  equals the sum of the counters only once those -1 values are read as
  zero. `Engine.Tallied` does that, and `Engine.Run` states the equality.

## Model

| member | source | states |
|---|---|---|
| Text.Lower | clearpass-csv2api.js:245 | `toLowerCase` keeps the length and lowers every character on its own |
| Text.IndexOf | clearpass-csv2api.js:208 | -1 exactly when the character is absent; otherwise the position of its first occurrence |
| Text.Split | clearpass-csv2api.js:110 | `split(',')` yields at least one piece; no piece holds the separator; joining the pieces with it gives the input back |
| Text.SplitJoin | clearpass-csv2api.js:110 | For any non-empty list of pieces that do not contain the separator, splitting their join on the separator returns exactly that list. |
| Importing.Lookup | clearpass-csv2api.js:54-72 | the search returns a contract the name designates, and no earlier one does; nothing exactly when no contract in the table matches |
| Importing.ResolveImporting | clearpass-csv2api.js:50-76 | the lower-cased value selects a table entry by its name or an alias; the value is refused exactly when no entry names it |
| Importing.NamesDisjoint | clearpass-csv2api.js:8-27 | no name or alias designates both the device and the guest contract |
| Importing.ResolvesToDevice | clearpass-csv2api.js:50-76 | a value selects the device contract if and only if its lower-cased form is `device` or one of its aliases |
| Importing.ResolvesToGuest | clearpass-csv2api.js:50-76 | a value selects the guest contract if and only if its lower-cased form is `guest` or one of its aliases |
| Importing.ImportingExamples | clearpass-csv2api.js:50-76 | `Devices` and `GuestUsers` resolve regardless of case; the commented-out `endpoint` is refused |
| Importing.ResolveCanonical | clearpass-csv2api.js:64 | the canonical name the handler stores resolves back to the same contract |
| Options.CollectPairs | clearpass-csv2api.js:207-221 | accepted if and only if there is an `=` and the text before the first one is a non-empty word; the key is then set to everything after that `=`, and every other key is kept |
| Options.CollectPairsRoundTrip | clearpass-csv2api.js:207-221 | `key=value` with a word key stores exactly `value`, further `=` signs included |
| Options.CollectExtras | clearpass-csv2api.js:89 | repeated `-x` options succeed if and only if each is well formed; the keys are those of the arguments; the last argument for a key wins |
| Options.ExtrasStep | clearpass-csv2api.js:219-220 | one more accepted argument adds its key and overrides any earlier value for it |
| Options.StripBearer | clearpass-csv2api.js:103-108 | a token starting with `bearer ` in any case loses exactly those seven characters; any other token is unchanged |
| Options.BearerRoundTrip | clearpass-csv2api.js:103-108 | `Bearer <t>` and `BEARER <t>` both give back `<t>` |
| Options.ExcludeList | clearpass-csv2api.js:109-111 | with no option the list is empty; otherwise comma-free column names that join back to the option's text |
| Options.ExcludeRoundTrip | clearpass-csv2api.js:109-111 | a comma-joined list of comma-free names is read back as that list |
| Options.StripBom | clearpass-csv2api.js:550-556 | only the first header changes, and only by losing a leading U+FEFF; a header starting with it always loses it |
| Options.BomRoundTrip | clearpass-csv2api.js:550-556 | a marked first header comes back unmarked; an unmarked row is left alone |
| Records.Coerce | clearpass-csv2api.js:241-251 | a string becomes `true` if and only if its lower-cased form is `1`, `true`, `yes` or `on`, otherwise `false`; a boolean stays |
| Records.CoerceTable | clearpass-csv2api.js:241-251 | the usual spellings (`TRUE`, `On`, `no`, the empty string, …) coerce as expected |
| Records.Normalize | clearpass-csv2api.js:234-253 | the keys are the row's minus the excluded plus the extras; excluded fields are gone unless an extra supplies them; extras win; other fields are unchanged; `enabled`, if present, is a boolean |
| Records.NormalizeIdempotent | clearpass-csv2api.js:234-253 | normalising twice with the same options equals normalising once |
| Validation.ValidateHeaders | clearpass-csv2api.js:255-270 | passes if and only if the key column and every required column are present; otherwise the reported list is exactly the missing columns, each once, key first, in the contract's order |
| Validation.ValidateData | clearpass-csv2api.js:272-295 | fails if and only if the key or a required field is present with the value `""`; the report lists exactly those fields, each once, in order; absent fields are never reported; the key is shown as `?` when it is empty |
| Validation.EmptyKeyIsReported | clearpass-csv2api.js:275-280 | a row with an empty key is skipped, shown as `?`, with the key listed first |
| Validation.AbsentFieldsPass | clearpass-csv2api.js:273 | a row lacking every checked field passes: absence is never a reason to skip |
| Statistics.Bump | clearpass-csv2api.js:618 | an increment moves exactly one counter by one and nothing else |
| Statistics.BumpCommutes | clearpass-csv2api.js:613 | two increments give the same statistics in either order |
| Statistics.Observe | clearpass-csv2api.js:642-643 | after a success timed at `d`, the latency pair is ordered and brackets `d`; `max` never falls, `min` never rises; counters are untouched |
| Statistics.ObserveTracksExtremes | clearpass-csv2api.js:642-643 | the update rule keeps `(min, max)` equal to the least and greatest latency seen, or `(-1, -1)` before the first |
| Statistics.ObserveCommutes | clearpass-csv2api.js:671-672 | two latency observations commute |
| Responses.Classify | clearpass-csv2api.js:297-320 | each branch of the decision table is taken if and only if its condition holds and no earlier condition does |
| Responses.CounterFor | clearpass-csv2api.js:297-320 | only "not found" reaches `not_exists` and only "user exists" reaches `exists`; every other branch is an error |
| Responses.HandleAPIClientError | clearpass-csv2api.js:297-320 | exactly one of `errors`, `not_exists`, `exists` rises by one, chosen by the classification; nothing else changes |
| Responses.ErrorsBucket | clearpass-csv2api.js:297-320 | no response, `invalid_client`, an unexpected status and a title-less 404 all count as errors; the unknown-status branch leaves `unknowns` alone |
| Strategy.Decompose | clearpass-csv2api.js:568-609 | the prefix picks the primary verb, create first; a fallback is only ever the verb its suffix names |
| Strategy.Resolve | clearpass-csv2api.js:112-125 | an identifier is accepted if and only if it is one of the seven; an accepted one always yields a primary verb |
| Strategy.CreateStrategies | clearpass-csv2api.js:576-586 | `create-only`, `create-or-replace`, `create-or-update` decompose to create alone, then replace, then update |
| Strategy.UpdateStrategies | clearpass-csv2api.js:587-596 | `update-only` has no fallback; `update-or-create` falls back to create |
| Strategy.ReplaceStrategies | clearpass-csv2api.js:597-606 | `replace-only` has no fallback; `replace-or-create` falls back to create |
| Strategy.ReplaceOnly | clearpass-csv2api.js:597-600 | `replace-only` is replace alone |
| Strategy.ReplaceOrCreate | clearpass-csv2api.js:603-606 | `replace-or-create` is replace with a create fallback |
| Strategy.IdentifierRoundTrip | clearpass-csv2api.js:113-121 | every accepted identifier is spelled by its own decomposition: primary verb, then `-only` or `-or-` and the fallback |
| Strategy.ResolvedPlans | clearpass-csv2api.js:568-609 | only the seven plans are ever selected: no fallback to the same verb, none between update and replace |
| Strategy.InitialStats | clearpass-csv2api.js:531-544 | a verb's counter starts at 0 if the plan can reach it and at -1 otherwise; the other counters start at 0; `min`, `max` and `duration` start at -1 |
| Engine.FallbackGate | clearpass-csv2api.js:721 | the test written at the call site fires if and only if the classifier sorts the failure into the primary verb's trigger |
| Engine.Conclude | clearpass-csv2api.js:633-648 | success if and only if the call resolved with 201 for create or 200 otherwise, timed from the primary's start; another status is unexpected; a rejection is handed on with its error |
| Engine.Dispatch | clearpass-csv2api.js:628-762 | no call in a dry run; otherwise the primary call, and a second call, to the fallback verb, if and only if the primary failed with the trigger; never more than two; a success is the last call's verb |
| Engine.DispatchOutcome | clearpass-csv2api.js:693-750 | the primary reply decides the row unless the fallback runs; then the fallback reply decides, with the primary's time added |
| Engine.ProcessRow | clearpass-csv2api.js:613-627 | a row is skipped with no call if and only if its normalised form fails `validateData`, with that report; the calls carry the normalised row |
| Engine.Tally | clearpass-csv2api.js:613-762 | a row moves at most the one counter its outcome names, by one; only a success moves the latency pair; the latency invariant is kept |
| Engine.OneCounterPerRow | clearpass-csv2api.js:613-762 | a row moves a counter if and only if it is skipped or a call is made |
| Engine.TallyCommutes | clearpass-csv2api.js:613 | two rows' updates, applied one after the other, give the same statistics in either order |
| Engine.TallyAllSwap | clearpass-csv2api.js:613 | two neighbouring outcomes can trade places anywhere in the list without changing the statistics |
| Engine.MoveToFront | clearpass-csv2api.js:613 | moving one outcome to the front of the list does not change the statistics |
| Engine.TallyAllPermutation | clearpass-csv2api.js:613 | any reordering of the outcomes (same multiset) gives the same statistics, so the order in which concurrent rows complete does not matter |
| Engine.TallyAll | clearpass-csv2api.js:613-762 | each counter rises by the number of rows whose outcome names it; the latency pair moves only if some row succeeded |
| Engine.EveryRowCounts | clearpass-csv2api.js:613-762 | outside a dry run every row moves exactly one counter |
| Engine.DryRunRow | clearpass-csv2api.js:760-762 | in a dry run a row is either skipped or only reported |
| Engine.DryRunCountsOnlySkips | clearpass-csv2api.js:760-762 | a dry run makes no call and changes only `skipped`, which stays put if and only if every row is valid |
| Engine.UnreachedRow | clearpass-csv2api.js:533-535 | a row never moves the counter of a verb the plan cannot reach |
| Engine.UnreachedVerbUntouched | clearpass-csv2api.js:533-535 | over a whole run, that counter keeps its starting value |
| Engine.LatencyTracksSuccesses | clearpass-csv2api.js:712-713 | after the run, `(min, max)` is the least and greatest latency of the successful rows, or stays `(-1, -1)` if there were none |
| Engine.Run | clearpass-csv2api.js:611-613 | `attempts` is the row count; each reachable counter ends at least where it started, each unreachable one at -1; outside a dry run, `attempts` equals the counters with the sentinels read as zero |
| Engine.Import | clearpass-csv2api.js:548-566 | the run aborts, naming the missing columns, if and only if the header row with its byte-order mark removed fails `validateHeaders`; otherwise it is the run with `duration` set |
| Engine.TalliedDiscountsSentinels | clearpass-csv2api.js:531-544 | with the sentinels in place, the counters read as zero sum to what the run added |
| Engine.Configure | clearpass-csv2api.js:103-125 | the options are accepted if and only if the importing value, the strategy and every `-x` argument are; on success the settings hold the contract the importing value resolves to, the plan the strategy resolves to, the extras collected from the `-x` arguments, the `--exclude` list and the dry-run flag |
| Mac.ToHex | clearpass-csv2api.js:418 | `toString(16).toUpperCase()` spells the number in upper-case hex with no leading zero |
| Mac.HexLength | clearpass-csv2api.js:417-418 | a number below `16^k` takes at most `k` digits |
| Mac.Pad | clearpass-csv2api.js:419-421 | the padding loop puts exactly enough zeros in front to reach twelve characters |
| Mac.PadValue | clearpass-csv2api.js:419-421 | padding keeps the number the digits denote |
| Mac.Pairs | clearpass-csv2api.js:422 | `match(/.{2}/g)` cuts the string into consecutive two-character pieces |
| Mac.PairsConcat | clearpass-csv2api.js:422 | the pieces of an even-length string put together give it back |
| Mac.MacRoundTrip | clearpass-csv2api.js:417-422 | every 48-bit number is read back from its dashed spelling |
| Mac.GeneratedRoundTrip | clearpass-csv2api.js:403-417 | the address of row `i` reads back as the prefix shifted 24 bits plus `i` |
| Mac.GeneratedDistinct | clearpass-csv2api.js:416-422 | two rows of one run never get the same address |
| Mac.GenerateMacs | clearpass-csv2api.js:378-422 | a count of zero or less is refused with "Count must be an integer", one above 16777215 with "Count must be less than 16777215"; otherwise there is one address per row, each reading back as its number |
| Mac.GeneratedListDistinct | clearpass-csv2api.js:416-422 | a generated list has no repeated address |
| Scenarios.PlainRowUnchanged | clearpass-csv2api.js:234-253 | with no exclusions and no extras, a row without `enabled` is unchanged |
| Scenarios.FilledRowAdmitted | clearpass-csv2api.js:272-295 | a device row with a filled key and role passes validation |
| Scenarios.UpdateFound | clearpass-csv2api.js:698-713 | under `update-or-create`, a 200 update counts as updated with its own latency |
| Scenarios.CreatedAfterNotFound | clearpass-csv2api.js:719-735 | under `update-or-create`, a 404 "Not Found" leads to a create, timed from the update's start |
| Scenarios.TwoOutcomes | clearpass-csv2api.js:613-762 | the two rows end as an update in 5 ms and a create in 7 ms |
| Scenarios.TwoTallies | clearpass-csv2api.js:641-643 | folding those outcomes gives one update, one create, `replaced` at -1 and latencies 5 to 7 |
| Scenarios.UpdateOrCreateRun | clearpass-csv2api.js:548-766 | the two-row `update-or-create` run, on a file with a byte-order mark, ends with `attempts=2, updated=1, created=1` |
| Scenarios.HeadersPresent | clearpass-csv2api.js:553-557 | a header row with a byte-order mark before `mac` is accepted |
| Scenarios.MissingKeyColumn | clearpass-csv2api.js:557-561 | a header row without `mac` aborts the import naming only `mac` |
| Scenarios.CreateFallsBackToUpdate | clearpass-csv2api.js:651-657 | under `create-or-update`, a 422 "user exists" is followed by an update of the same row |
| Scenarios.EmptyRoleSkipped | clearpass-csv2api.js:614-620 | a device row with an empty role is skipped under its key, naming `role_id`, with no call |
| Scenarios.UnknownStrategyRefused | clearpass-csv2api.js:122-125 | a strategy outside the seven is refused |

## Left out

- Commander wiring, the help text, `process.exit` and console output are not modelled. A rejected option is a `None` or `Failure`. The printed messages are modelled only as the functions `Validation.HeadersMessage` and `Validation.SkipMessage`.
- `Configure` checks the options in a fixed order (importing, extras, strategy). The tool reacts to them in the order Commander emits them, so when several are wrong the reported error can differ. Only which invocations are rejected is stated.
- File reading and `csv-parser` are not modelled. They are an external I/O library. Rows arrive as maps, and the reader's own strict column checks are not modelled.
- The ClearPass client, HTTP, TLS and OAuth are replaced by the scripted replies. The response's `result.id`, which is only logged, is not modelled.
- Engine.Conclude: a success reply (201 for create, 200 for update or replace) whose body is null counts as a success. In the tool, reading `result.id` for the log line throws before the counter is incremented, the promise rejects, and `handleAPIClientError` counts the row in `errors` (clearpass-csv2api.js:637, 662, 703, 729). `Engine.Reply` carries no body, so this case is not modelled.
- Engine.Call: a call records only the verb and the row it sends. Two arguments are left out. One is the `--change-of-authorization` flag, which every call forwards unchanged (clearpass-csv2api.js:632, 657, 698, 724). The other is the key argument that update and replace calls take before the row (clearpass-csv2api.js:657, 698); it is the row's own key field (clearpass-csv2api.js:622).
- `async.forEachOfLimit` and `--sessions` are modelled as a sequential fold. Rows are independent. `Engine.TallyAllPermutation` shows that any order in which they complete gives the same statistics. `parseInt` of `--sessions` is not modelled.
- `Date.now()` is replaced by the durations given in the script and by the `elapsed` argument of `Engine.Import`.
- Text.Lower: only ASCII letters are lowered. `toLowerCase` also maps other Unicode letters.
- Options.StripBom: an empty header row is passed through. The source would throw on `headers[0]`.
- Options.CollectPairs: the `eq === value.length` test can never hold after `indexOf`, so it has no branch. A `__proto__` key, which a plain object would not store as a field, is stored like any other key.
- Engine.Dispatch: the `Impossible to be here` branch is modelled as `NoVerb`, with no call and no count. It is unreachable from `Engine.Configure`.
- The `generate` command for guests and the CSV lines it prints are not modelled. Its random prefix is an input to `Mac.GeneratedMac`. 
- Mac.GenerateMacs: the count is taken as an integer that `parseInt` has already produced. A count it cannot read, which the tool refuses as `NaN` (clearpass-csv2api.js:378-379), is not modelled.
- The `testcsv` command is not modelled. It runs the modelled `normalizeData`, `validateHeaders` and `validateData` over a file and counts the distinct messages for display.
- The `ping` command is not modelled. It makes network calls and a membership test on the privileges the server returns.
- `JSON.stringify` output of the final statistics is not modelled.
