# watch-a-webpage-tool: the change detector, in Dafny

The tool watches one web page. Its dataset keeps three variables, each with a
default: `url` (`http://blog.scraperwiki.com`), `checksum` (`''`) and
`current_html` (`''`). It also keeps an append-only `changes` table of
`{url, datetime, text_diff}` rows. One run of `check_for_changes` downloads
the page and takes the MD5 digest of its `html2text` rendering. If that
digest differs from the stored checksum, the run overwrites the checksum and
the stored page. It appends a change row only when the old checksum was not
the "never checked" value `''`. `set_url` stores a new URL and resets the
checksum to `''`, so the next check seeds the state instead of reporting a
change. `main` handles `--set-url`, `--get-url` and `--run`.

The model has three modules:

- `Store` (store.dfy): the dataset. It is a variables map plus the change
  log, as a value `Db` and as a class `Database` that the program updates in
  place.
- `Watch` (watch.dfy): the logic of main.py. It has pure functions that
  specify each step: `Check`, `WithUrl` and `Dispatch`. Each imperative
  method is proved against its specifying function: `CheckForChanges`
  against `Check`, `SetUrl` against `WithUrl`, and `HandleCommand` against
  `Dispatch`. The methods perform the writes in the program's own order.
- `WatchProperties` (properties.dfy): lemmas that relate several calls or
  invocations.

The program's collaborators are parameters:

- The page download (`requests.get` plus `raise_for_status`) is a function
  that may fail.
- `html_to_text` is a function that may fail.
- MD5 is a function returning a 32-character lower-case hex digest, so it is
  never `''`.
- The day is a parameter (`Date`, a day ordinal). The `datetime` column holds
  ISO dates, whose text order is the chronological order, so SQL `MAX` over
  it is the largest ordinal.

Points of the program's behaviour that the model keeps as they are:

- `create_diff` is a stub that returns `''`, so a recorded change carries an
  empty diff.
- The checksum is written (main.py:75) before the change row is appended
  (main.py:80).
- `set_url` resets only the checksum and keeps the stored page.
- The checksum is taken over the `html2text` rendering of the page, while the
  raw HTML is what is stored.

## Model

| member | source | states |
|---|---|---|
| `Store.GetAfterSave` | main.py:151-168 | a variable reads back as what was last saved; saving one variable leaves the others unchanged |
| `Store.GetVar` | main.py:151-164 | `get_var(name, default)` gives the value last saved under `name`, or `default` when nothing was saved under it |
| `Store.Database.SaveVar` | main.py:159-160 | `save_var` overwrites exactly one variable and leaves the change log alone |
| `Store.Database.Save` | main.py:138-143 | saving with no unique keys appends the row to `changes` and leaves the variables alone |
| `Watch.GetUrl` | main.py:151-152 | the stored URL, or `http://blog.scraperwiki.com` when none was saved |
| `Watch.GetChecksum` | main.py:155-156 | the stored checksum, or `''` when none was saved |
| `Watch.GetCurrentHtml` | main.py:163-164 | the stored page, or `''` when none was saved |
| `Watch.MakeChecksum` | main.py:126-130 | fails exactly when the text conversion fails; otherwise it is the MD5 of the text and is never the "never checked" value `''` |
| `Watch.CreateDiff` | main.py:133-134 | the diff of any two pages is the empty string |
| `Watch.Poll` | main.py:71-73 | a fetch failure is reported as `FetchFailed` and a conversion failure as `ConversionFailed`; on success the page is the downloaded HTML and its checksum is the page's `make_checksum` |
| `Watch.MostRecentDate` | main.py:96-103 | NULL exactly when the log is empty; otherwise a date in the log that no record's date exceeds |
| `Watch.Check` | main.py:64-81 | an empty URL gives the error status; a download or conversion failure raises; neither writes anything; the URL is never written; the log only grows, by at most one row; after success the stored checksum is the page's; an unchanged page changes nothing; a changed page overwrites exactly checksum and page; seeding appends nothing; a change while watching appends exactly `{url, today, create_diff(old page, new page)}`; the ok status carries the log's most recent date; the checksum/page invariant is preserved |
| `Watch.WithUrl` | main.py:146-148 | after `set_url(u)` the URL is `u`, the watcher is unseeded, and the stored page and the log are unchanged |
| `Watch.ExitCode` | main.py:171-172 | the process exits with status 1 exactly when an exception escapes the check, and with 0 otherwise (`main` returned 0 or `None`) |
| `Watch.Dispatch` | main.py:44-55 | `--set-url` with the current URL does nothing; with a new URL it equals `set_url` followed by a check and records no change whatever the page; `--get-url` prints the URL and writes nothing; `--run` is one check; the exit code is non-zero exactly when the check raised; the log only grows, by at most one row; the invariant is preserved |
| `Watch.SetChecksum` | main.py:159-160 | writes only the `checksum` variable |
| `Watch.SetCurrentHtml` | main.py:167-168 | writes only the `current_html` variable |
| `Watch.SetUrl` | main.py:146-148 | the dataset afterwards is `WithUrl` of the dataset before |
| `Watch.ReportChange` | main.py:137-143 | appends exactly one row `{url, today, text_diff}` and changes no variable |
| `Watch.CheckForChanges` | main.py:64-81 | the step-by-step writes leave the dataset and the outcome that `Check` specifies |
| `Watch.HandleCommand` | main.py:44-55 | the dataset, exit code, printed line and check outcome are those `Dispatch` specifies |
| `WatchProperties.CheckAgainIsNoOp` | main.py:73-74 | after a successful check, checking the same page again, on any day, changes nothing and reports the same status |
| `WatchProperties.MostRecentAppend` | main.py:96-103 | appending a row makes the most recent date the larger of the previous one and the row's date |
| `WatchProperties.LastChangedIsToday` | main.py:78-81 | when no logged date is later than today, a check that records a change reports today as the last change |
| `WatchProperties.FreshIsConsistent` | main.py:24-25 | in a dataset where nothing was saved, the checksum defaults to `''`, so the checksum/page invariant holds |
| `WatchProperties.CheckKeepsConsistent` | main.py:64-81 | a check keeps the checksum/page invariant even when its `html2text` run fails where another run would succeed, provided it agrees with the usual conversion wherever it succeeds |
| `WatchProperties.RunAllKeepsInvariant` | main.py:28-55 | over any sequence of invocations, each with its own possibly failing `html2text` run, the log is only appended to, gains at most one row per invocation, and the checksum stays `''` or the checksum of the stored page |

## Left out

- Argument parsing (`argparse`): invalid option combinations and the usage message are not modelled. `Command` holds only the three valid parses.
- `create_table`: the table DDL is not modelled. The `changes` log always exists in the model.
- `scraperwiki.status`: this is not a stored side effect in the model. `Outcome` says which status a check would set. The text `Last changed: ...` is reduced to the date it shows.
- The internals of `html_to_text` are not modelled: temporary files, the `html2text` subprocess, file reads and unlinks. It is an opaque function that may fail.
- MD5 is an opaque function into 32-character hex digests. Its algorithm is not modelled.
- The network fetch is an opaque function that may fail. HTTP status codes are not distinguished.
- `datetime.now()` is the `today` parameter.
- Watch.MostRecentDate: covers only the one use of `get_most_recent_record`, the `datetime` column of `changes`. The source function takes any table and column.
- Write failures of the dataset itself and crashes between two writes are not modelled. Such a crash could leave the new checksum stored without its change row.
- `send_email.py` (SMTP notification) and `http/code.js` (the browser view of the dataset) are not part of this model.
