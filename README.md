# costpuller, modelled in Dafny

costpuller gathers one month of cloud spending per account and turns it into
a spreadsheet tab (or a CSV file). This project models its core decisions and
proves properties of them:

- **The account directory.** The accounts file lists providers, then teams,
  then accounts. It is inverted into a map from canonical account ID to the
  account's metadata. Amazon and Azure IDs must have a fixed shape, and each
  hyphen between their groups is optional. Accounts can also be read from AWS
  organisation tags.
- **Screening of billing records.** A record for an unknown account is
  skipped, with one warning per account when it is charged to the configured
  cost centre. A record for a known account corrects the account's provider
  label and marks the account as found.
- **The ingest passes.** The Cloudability pass is the primary source. Each
  record adds one cell, and a duplicate cell or an unparsable cost is fatal.
  The IBM Cloud pass adds one row per account, sorting resources into
  Cloudability's usage-family buckets. Declared accounts without data are
  reported after each pass.
- **The sheet.** It has a header row and one row per account, under eight
  fixed columns and the sorted usage families. The rows are sorted stably by
  Account ID, then Cloud Provider, then Team. Each row then gets its own
  `=SUM(...)` TOTAL formula. A1 column letters are bijective base 26.
- **The CSV projection** of the cells.
- **AWS Cost Explorer.** The validation of the two reports. The
  normalisation of per-service costs into the 13-cell report row. The
  deviation check against an account's standard value.
- **Google Sheets.** Finding tabs by title. Choosing or adding the data tab.
  Locating the main sheet's cell that refers to the data tab. The two request
  batches that are sent.
- **Google OAuth.** Validating the authorization redirect. Turning the
  redirect URL into the listener address. Placing the token cache file.

Go's `log.Fatalf` becomes a `Failure` (or `Fail`) value carrying the error.
`log.Printf` warnings become structured `Warning` values appended to a log.
Go maps are iterated in no particular order. The model leaves that order open:
it picks each next key with `:|`. Where the order shows in the output, the
chosen order is returned as an out-parameter. Objects whose fields the source
updates in place form the class `GridBuilder.GridBuilder`. Its methods are
proved against fold functions in module `CostGrid`.

Where comments in the source and its code disagree, the model follows the
code:

- `colNumToRef(676)` is "ZA", not the "AAA" its comment gives. "AAA" is 702
  (`Cells.ColNumToRefExamples`).
- `RedirectUrlPattern` requires a port, although its comment calls the port
  optional (`OAuth.ListenAddressNeedsPort`).
- `getNewSheetReference` is called with the number of sheet rows, header
  included. The range it returns is one row taller than that, which is two
  rows more than the data rows (`SheetSync.PostToGSheetSpec`).

## Model

| member | source | states |
|---|---|---|
| Text.SortedKeys | costpuller.go:368-375 | the keys come out strictly ascending, and are exactly the map's keys, each once |
| Text.SortStringsSorted | costpuller.go:373 | sorting distinct strings yields a strictly ascending sequence of the same strings |
| Text.ContainsIff | gsheets.go:224 | substring search succeeds exactly when the text occurs at some index |
| Text.NatToStringRoundTrip | cloudability.go:450-455 | the `%d` rendering of a row number is all digits and reads back as that number |
| Config.GetMapKeyValue | costpuller.go:568-578 | a present key gives its value; a missing key fails exactly when a section is named, and otherwise gives the zero value |
| Config.GetMapKeyString | costpuller.go:584-600 | succeeds exactly for a string value, or for a missing key with no section; it yields the string or ""; a present non-string fails with that value |
| Config.GetStringFromAny | costpuller.go:604-610 | fails exactly on a non-nil non-string; otherwise yields the string or "" |
| AccountIds.CanonicalKeyIff | costpuller.go:510-539 | an Amazon or Azure ID is accepted exactly when it is the provider's groups with each hyphen present or absent |
| AccountIds.KeyOfRendering | costpuller.go:531-535 | any accepted rendering maps to its groups joined by hyphens |
| AccountIds.CanonicalKeyIdempotent | costpuller.go:531-542 | a canonical key is its own key |
| AccountIds.AmazonExample | costpuller.go:511 | "590183857305" becomes "5901-8385-7305" |
| AccountIds.UnpatternedKeepsId | costpuller.go:540-542 | for every provider without an ID pattern (anything but Amazon and Azure), every account ID is its own key, unchecked |
| Directory.PlaceAllFailsIff | costpuller.go:532-539 | loading fails exactly when some declared ID does not have its provider's shape |
| Directory.PlaceAllSound | costpuller.go:543-550 | every key after loading was there before or is a declaration's key holding that declaration's metadata |
| Directory.PlaceAllComplete | costpuller.go:543-550 | every declaration's key is present and holds the metadata of that declaration or of a later one with the same key |
| Directory.LoadedDirectory | costpuller.go:518-556 | after loading, every declaration is valid and keyed, and every key holds the fresh metadata of a declaration with that key |
| Directory.PlaceEntries | costpuller.go:525-550 | one team's accounts are placed in list order: on success the placing order is extended by exactly the team's declarations, in order; on failure it ends at the first bad ID of the list |
| Directory.PlaceTeam | costpuller.go:524-551 | a provider's teams are placed one after another, each once, each team's accounts in list order |
| Directory.LoadDirectory | costpuller.go:518-556 | the directory of every provider section ("aws" read as "Amazon"), or the first declaration whose ID has the wrong shape; declarations are placed section by section and team by team, each team's list in order, so a later entry with the same key overrides an earlier one |
| Directory.AccountSetsFromAws | costpuller.go:462-497 | each category holds exactly the active, category-tagged accounts carrying that tag, each once, with no standard value |
| Screening.ScreenUnknown | costpuller.go:626-637 | an unknown account is skipped and remembered; the directory is unchanged; at most one warning, on the first sighting and only for our cost centre; failure only on a bad `cost_center` |
| Screening.ScreenKnown | costpuller.go:638-654 | a known account is kept; only its entry changes (found flag set, provider corrected exactly when it differs, "AWS" accepted for "Amazon"), with one warning per correction |
| Screening.ScreenCorrectsOnce | costpuller.go:640-651 | checking the same account again from the same source warns no more and changes nothing |
| Screening.ScreenWarnsOnce | costpuller.go:627-636 | an ignored account is skipped silently, whatever the record says |
| Screening.ScreenMonotone | costpuller.go:616-655 | no account is added or removed, no found flag is cleared, and the identifying fields are kept |
| Screening.FormatFilters | cloudability.go:336-338 | one `%q %s %q` text per filter, in order |
| Screening.ReportMissing | costpuller.go:661-674 | one warning for each account not found and none for the others, each once, with the filters joined by " && " |
| CostGrid.ScreenInFacts | costpuller.go:616-655 | screening skips exactly unknown accounts and changes only the directory, the ignored set and the log |
| CostGrid.CldyFoldFailureSticks | cloudability.go:312-327 | the first fatal record ends the pass; later records change nothing |
| CostGrid.CldyFoldHeads | cloudability.go:283-299 | the headings gain exactly the usage families of kept records; rows and metadata are only extended |
| CostGrid.CldyFoldWellFormed | cloudability.go:279-329 | rows belong to directory accounts, and exactly the accounts with rows have metadata |
| CostGrid.CldyFoldCells | cloudability.go:312-328 | every kept record's cost parses and sits in its account's row under its usage family |
| CostGrid.CldyFoldCellsSound | cloudability.go:283-328 | every new cell comes from a kept record for that account and usage family |
| CostGrid.CldyFoldDuplicateFails | cloudability.go:317-327 | two kept records for the same account and usage family stop the pass |
| CostGrid.CldyFoldUnparsableFails | cloudability.go:312-316 | a kept record whose cost does not parse stops the pass |
| CostGrid.CldyFoldFirstMetadata | cloudability.go:300-307 | an account's metadata comes from its first record |
| CostGrid.CldyFoldMetadataSound | cloudability.go:283-307 | new metadata belongs only to directory accounts that have a record |
| CostGrid.CldyFoldFound | cloudability.go:283-294 | an account is found after the pass exactly when it was found before or has a record |
| CostGrid.BucketRange | ibmcloud.go:182-205 | every resource lands in one of the eight buckets, and an unlisted name lands in "Other" |
| CostGrid.AccumulateBuckets | ibmcloud.go:176-207 | each bucket of a new row holds the sum of the costs of its resources |
| CostGrid.AccumulateKeys | ibmcloud.go:176-207 | a new row has exactly the buckets its resources fall into |
| CostGrid.AccumulateConserves | ibmcloud.go:207 | a new row's total is the sum of its resources' billable costs |
| CostGrid.AccumulateWarnings | ibmcloud.go:201-204 | the log only grows by warnings for unlisted resource names, and every unlisted name is warned about |
| CostGrid.IbmFoldFailureSticks | ibmcloud.go:160-166 | the first fatal account ends the pass |
| CostGrid.IbmFoldFacts | ibmcloud.go:141-175 | the pass keeps the headings and the existing rows, and preserves well-formedness |
| CostGrid.IbmFoldRows | ibmcloud.go:159-207 | every kept account gets the bucket row of its resources and its own metadata |
| CostGrid.IbmFoldRowsSound | ibmcloud.go:145-161 | new rows belong only to directory accounts in the input |
| CostGrid.IbmFoldRowExistsFails | ibmcloud.go:160-166 | a kept account that already has a row, or appears twice, stops the pass |
| CostGrid.IbmFoldFound | ibmcloud.go:145-157 | an account is found after the pass exactly when it was found before or is in the input |
| CostGrid.CldyThenIbmConflict | ibmcloud.go:160-166 | an account kept by Cloudability that IBM Cloud also reports is fatal |
| GridBuilder.GridBuilder.constructor | costpuller.go:518-519 | a builder starts with the given directory and everything else empty |
| GridBuilder.GridBuilder.SkipAccountEntry | costpuller.go:616-655 | verdict, directory, ignored set and log become those of the screening function |
| GridBuilder.GridBuilder.IngestRecord | cloudability.go:283-328 | one loop iteration turns the state into the step function's result, or fails with its error |
| GridBuilder.GridBuilder.AcceptRecord | cloudability.go:296-328 | after the directory check kept a record, the state becomes the accepting step's result (heading, first-seen metadata, parsed cost in a new cell), or the parse or duplicate-cell error |
| GridBuilder.GridBuilder.IngestRecords | cloudability.go:278-329 | the loop over the records, with a fresh ignored set, reaches the fold's state or stops with the fold's error |
| GridBuilder.GridBuilder.IngestCloudability | cloudability.go:278-342 | the pass, with a fresh ignored set, reaches the fold's state; it then logs one not-found warning per unfound account, each once |
| GridBuilder.GridBuilder.AddResources | ibmcloud.go:176-207 | the account's row and the log become those of accumulating the resources with `+=`; nothing else changes |
| GridBuilder.GridBuilder.AcceptSummary | ibmcloud.go:159-207 | after the directory check kept a summary, the state becomes the accepting step's result (bucket row and metadata), or the row-exists error |
| GridBuilder.GridBuilder.IngestSummary | ibmcloud.go:145-207 | one loop iteration turns the state into the step function's result, or fails with its error |
| GridBuilder.GridBuilder.IngestIbmcloud | ibmcloud.go:140-207 | the pass, with a fresh ignored set, reaches the fold's state and preserves well-formedness |
| GridBuilder.GridBuilder.LogMissing | cloudability.go:332-342 | appends one warning of the given style per unfound directory account, each listed once in the returned order; nothing else changes |
| GridBuilder.GridBuilder.CheckMissing | costpuller.go:657-676 | one no-data warning per unfound account, each once, with no filters shown for IBM Cloud; nothing else changes |
| Cells.CsvRow | costpuller.go:407-421 | one field per cell (string, else formula, else the rendered number); fails exactly on a cell with no value |
| Cells.CsvTable | costpuller.go:404-429 | the rows' fields in order, or failure when any cell has no value |
| Cells.ColNumToRefRoundTrip | cloudability.go:461-467 | the letters of a column read back as that column |
| Cells.RefToColNumRoundTrip | cloudability.go:461-467 | every non-empty upper-case reference is the letters of exactly one column |
| Cells.ColNumToRefInjective | cloudability.go:461-467 | distinct columns get distinct letters |
| Cells.ColNumToRefExamples | cloudability.go:459-467 | 0, 25, 26, 676, 701 and 702 give "A", "Z", "AA", "ZA", "ZZ" and "AAA" |
| Cells.TotalsFormulaRange | cloudability.go:449-457 | the formula parses back as a sum from the start column to the end column, both on A1 row `row + 1` |
| Materialize.AccountRowCells | gsheets.go:308-341 | an account row takes team, provider and ID from the directory and date, payer, cost centre and name from the source; TOTAL is blank; a category holds its amount or 0 |
| Materialize.BuildHeader | gsheets.go:289-304 | the header row holds one string cell per column heading |
| Materialize.BuildRow | gsheets.go:309-339 | the row holds the cell chosen for each column heading |
| Materialize.CollectRows | gsheets.go:308-341 | one row per grid account, each account once, in the order returned |
| Materialize.SortOutputMultiset | gsheets.go:369-375 | sorting only permutes the rows |
| Materialize.SortOutputSorted | gsheets.go:366-375 | the sort is stable: rows already ordered by some columns end up ordered by the new column first, then by those columns |
| Materialize.SortCascade | gsheets.go:343-345 | the three passes order the rows by Team, then Cloud Provider, then Account ID, as a permutation |
| Materialize.FillTotals | gsheets.go:349-361 | each row gets the TOTAL formula of its own sheet row over the category columns; no other cell changes |
| Materialize.SortAndTotal | gsheets.go:343-361 | the rows are permuted and sorted by the three keys, and each row's TOTAL is its own sheet row's formula |
| Materialize.GetSheetFromCostCells | gsheets.go:271-364 | header, then fixed columns and sorted usage families; one row per account, sorted; a per-row TOTAL formula |
| Aws.BucketsOfAdd | aws.go:214-235 | adding a service moves exactly the bucket the `switch` names |
| Aws.NormalizeResponse | aws.go:181-247 | the 13-cell report row: group, date, account, "AWS", then the eight buckets and a zero rebate |
| Aws.NormalizeConserves | aws.go:204-245 | every number cell of the report row is set, and together they add up to the sum of all service costs |
| Aws.MapTotal | aws.go:251-255 | the total is the sum of all service costs |
| Aws.CheckResponseConsistency | aws.go:250-278 | returns the sum of the costs; fails exactly when a positive standard value deviates by more than the allowed percentage |
| Aws.DeviatesBand | aws.go:257-261 | the deviation check passes exactly when the total lies within the allowed band around the standard value, ends included |
| Aws.GroupFoldFailureSticks | aws.go:137-163 | the first bad group ends the group loop |
| Aws.AddGroups | aws.go:136-166 | the group loop's result is that of the group fold |
| Aws.GroupFoldSound | aws.go:136-166 | the loop succeeds exactly when every group has one key, the total's unit and a parsable cost; the costs are keyed by the group keys, each key holds the cost of the last group with that key, and the costs add up |
| Aws.GroupFoldCosts | aws.go:136-165 | after a successful group loop, a group that no later group shares a key with has its cost stored under its key |
| Aws.PullData | aws.go:112-177 | the validation's result is that of the report check |
| Aws.CheckReportsSound | aws.go:112-177 | the total must be USD; a non-single period gives no costs and no error; a bad group fails; a success is keyed by the group keys, each holding its last group's cost, and agrees with the total to the cent |
| SheetSync.GetDataGridRange | gsheets.go:199-207 | the range covers the whole tab from its origin |
| SheetSync.FirstTitledSpec | gsheets.go:245-252 | the result is the first tab with that title, or nothing exactly when no tab has it |
| SheetSync.GetSheetIdFromName | gsheets.go:245-252 | the loop returns the first tab with that title, or nothing |
| SheetSync.UpdateLocationSpec | gsheets.go:82-105 | the whole first tab of that title, or a new hidden tab at the end, sized to the data |
| SheetSync.NewSheetReferenceSpec | gsheets.go:215-240 | the first cell in row-major order naming the data tab; the range is one column wide, starts below that cell and spans the row count plus one |
| SheetSync.GetNewSheetReference | gsheets.go:215-240 | the nested scan returns that reference, or nothing |
| SheetSync.PostToGSheetSpec | gsheets.go:55-76 | posting fails exactly when the main tab or the reference is missing; otherwise it writes the data, re-pastes the reference onto itself, then resizes |
| OAuth.GetAuthCode | gcloud_oauth.go:196-212 | the code, exactly when the state matches, no error is reported and a code is present; each failure in the source's order |
| OAuth.MatchRedirectSpec | gcloud_oauth.go:289 | the match succeeds exactly on the pattern's language (optional "http://", host, ':' and one to five digits) and yields host and port |
| OAuth.ListenAddressSpec | gcloud_oauth.go:294-304 | the address is host and port without the scheme, exactly for URLs the pattern accepts |
| OAuth.ListenAddressNeedsPort | gcloud_oauth.go:289 | a URL without a port is rejected |
| OAuth.ListenAddressNotHttps | gcloud_oauth.go:289 | an "https://" URL is rejected |
| OAuth.ListenAddressNoPath | gcloud_oauth.go:289 | a URL with a path is rejected |
| OAuth.CacheFileNameSpec | gcloud_oauth.go:113-130 | an absolute path is kept; "" means "gcloud"; a relative path goes under the cache directory and fails only when that is unknown or cannot be created; the result names the token file |
| OAuth.JoinPathSuffix | gcloud_oauth.go:129 | the joined path ends in "/" and the token file name |

## Left out

- `main`, the command-line options, opening and writing the CSV and report files, and `writeReport`: process set-up and I/O.
- The HTTP clients and service calls: everything that talks to Cloudability, IBM Cloud, AWS Cost Explorer and Organizations, and Google Sheets. The service responses are inputs.
- The id the Sheets service gives an added tab is an input of `SheetSync.GetUpdateLocation`.
- `createNewSheet` is modelled only as the tab properties it requests.
- The Google OAuth flow that is not listed above: the redirect listener, the browser dialog, the state token's randomness, and reading and writing the token cache.
- These are parameters: `os.UserCacheDir`, `os.MkdirAll`, `strconv.ParseFloat` (a partial function from strings to reals), and `%f` formatting of numbers.
- The month is passed in already formatted.
- `time.Format` of the data-tab name is outside the model: the name is passed in already formatted.
- Costs are exact reals, not float64. Rounding in sums is not modelled.
- `Aws.PullData` takes the total report's first period as an amount. It does not model a nil dereference in the Go code when that period or a group's metric is absent.
- The `loadAccountsFile` loop that sets each entry's category assigns to a copy, so it has no effect. Entries keep the category the file gives them.
- Cell formats (colours, bold, alignment, currency) are not modelled. They do not affect values.
- Warnings are structured values. The text `log.Printf` renders is left out, and `%q` escaping is not modelled.
- `getSheetFromCloudability` builds the sheet itself (cloudability.go:344-430). The model builds the sheet once, with `Materialize.GetSheetFromCostCells`. The Cloudability date is stored in each account's metadata, so this is the same computation.
- `OAuth.CacheFileNameSpec`: its paths are built by `OAuth.JoinPath`, which does not apply `filepath.Clean`. The token cache path is user-configured (gcloud_oauth.go:69-70), so for a path holding ".", ".." or repeated '/' the model's result differs from Go's: "./gcloud" under "/c" gives "/c/./gcloud/costpuller_token.json" where Go gives "/c/gcloud/costpuller_token.json", and "/tmp/x//" gives "/tmp/x//costpuller_token.json" where Go gives "/tmp/x/costpuller_token.json".
- `Materialize.SortOutput`: a non-string cell in a sort column compares as "". Go would panic there, dereferencing the cell's absent string value. The model only ever sorts on the Team, Cloud Provider and Account ID columns, which always hold strings.
- `Text.Less`: compares code points, not UTF-8 bytes. The two orders agree, so nothing is lost.
