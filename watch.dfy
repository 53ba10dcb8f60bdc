/**
 * The web-page watcher of main.py: a two-state machine over the dataset.
 * While the stored checksum is the "never checked" value '' the watcher is
 * unseeded, and its first successful check only records the page. After
 * that it is watching, and a check whose page checksum differs from the
 * stored one overwrites the checksum and the page and appends one change
 * record. The network fetch, the html2text conversion and MD5 are opaque
 * parameters, and so is the day.
 */
module Watch {
  import opened Options
  import opened Store

  const DEFAULT_URL := "http://blog.scraperwiki.com"
  const DEFAULT_CHECKSUM := ""
  const DEFAULT_HTML := ""

  const URL_VAR := "url"
  const CHECKSUM_VAR := "checksum"
  const CURRENT_HTML_VAR := "current_html"

  predicate IsHexDigit(c: char)
  {
    '0' <= c <= '9' || 'a' <= c <= 'f'
  }

  /** An MD5 hex digest: always 32 lower-case hexadecimal characters, so never ''. */
  type Digest = s: string | |s| == 32 && forall i | 0 <= i < |s| :: IsHexDigit(s[i])
    witness "00000000000000000000000000000000"

  /** The ways a check can fail by an exception escaping it. */
  datatype Error =
    | FetchFailed       // `requests.get` failed or `raise_for_status` raised
    | ConversionFailed  // `html2text` exited non-zero, so `html_to_text` raised

  /** `make_checksum`'s collaborators: the html-to-text conversion, which may fail, and MD5. */
  datatype Hasher = Hasher(htmlToText: string -> Option<string>, md5: string -> Digest)

  /** Everything outside the dataset that a check depends on: the page download, which may fail, and the hasher. */
  datatype Env = Env(download: string -> Option<string>, hasher: Hasher)

  /** The result of downloading the page and computing its checksum. */
  datatype Polled = Failed(error: Error) | Page(html: string, checksum: Digest)

  /**
   * How a check ends. `Checked` is the status 'ok' with the most recent
   * change date; `NoUrl` is the status 'error'; `Raised` is an exception
   * leaving `check_for_changes`, with no status set.
   */
  datatype Outcome = Checked(lastChanged: Option<Date>) | NoUrl | Raised(error: Error)

  /** A check's effect: the dataset afterwards and how the check ended. */
  datatype Step = Step(db: Db, outcome: Outcome)

  /** The command-line options, one of which is required. */
  datatype Command = SetUrlOption(url: string) | GetUrlOption | RunOption

  /** What one invocation of the program leaves: the dataset, the exit code, the line printed, and the check's outcome if a check ran. */
  datatype Exit = Exit(db: Db, code: int, printed: Option<string>, check: Option<Outcome>)

  // ---------------------------------------------------------------------
  // The variables with their defaults
  // ---------------------------------------------------------------------

  function GetUrl(vars: Vars): (r: string)
    ensures URL_VAR !in vars ==> r == DEFAULT_URL
    ensures URL_VAR in vars ==> r == vars[URL_VAR]
  {
    GetVar(vars, URL_VAR, DEFAULT_URL)
  }

  function GetChecksum(vars: Vars): (r: string)
    ensures CHECKSUM_VAR !in vars ==> r == DEFAULT_CHECKSUM
    ensures CHECKSUM_VAR in vars ==> r == vars[CHECKSUM_VAR]
  {
    GetVar(vars, CHECKSUM_VAR, DEFAULT_CHECKSUM)
  }

  function GetCurrentHtml(vars: Vars): (r: string)
    ensures CURRENT_HTML_VAR !in vars ==> r == DEFAULT_HTML
    ensures CURRENT_HTML_VAR in vars ==> r == vars[CURRENT_HTML_VAR]
  {
    GetVar(vars, CURRENT_HTML_VAR, DEFAULT_HTML)
  }

  /** Unseeded: no checksum has been established for the watched URL. */
  predicate Unseeded(vars: Vars)
  {
    GetChecksum(vars) == DEFAULT_CHECKSUM
  }

  /**
   * The store's invariant: the stored checksum is either the "never checked"
   * value or the checksum of the stored page.
   */
  predicate Consistent(hasher: Hasher, vars: Vars)
  {
    Unseeded(vars) || MakeChecksum(hasher, GetCurrentHtml(vars)) == Some(GetChecksum(vars))
  }

  // ---------------------------------------------------------------------
  // Pure pieces of the pipeline
  // ---------------------------------------------------------------------

  /** `make_checksum`: the MD5 digest of the page's text rendering. */
  function MakeChecksum(hasher: Hasher, html: string): (r: Option<Digest>)
    ensures r.None? <==> hasher.htmlToText(html).None?
    ensures r.Some? ==> r.value == hasher.md5(hasher.htmlToText(html).value)
    ensures r.Some? ==> r.value != DEFAULT_CHECKSUM
  {
    match hasher.htmlToText(html)
    case None => None
    case Some(text) => Some(hasher.md5(text))
  }

  /** `create_diff`: a stub; the diff of any two pages is empty. */
  function CreateDiff(oldHtml: string, newHtml: string): (r: string)
    ensures r == ""
  {
    ""
  }

  /** Downloading the page and computing its checksum, the two steps of a check that may raise. */
  function Poll(env: Env, url: string): (r: Polled)
    ensures r.Failed? <==> env.download(url).None? || MakeChecksum(env.hasher, env.download(url).value).None?
    ensures r.Failed? ==> (r.error == FetchFailed <==> env.download(url).None?)
    ensures r.Page? ==> r.html == env.download(url).value
    ensures r.Page? ==> MakeChecksum(env.hasher, r.html) == Some(r.checksum)
  {
    match env.download(url)
    case None => Failed(FetchFailed)
    case Some(html) =>
      match MakeChecksum(env.hasher, html)
      case None => Failed(ConversionFailed)
      case Some(checksum) => Page(html, checksum)
  }

  function Max(a: Date, b: Date): Date
  {
    if a < b then b else a
  }

  /**
   * `get_most_recent_record('changes', 'datetime')`: the largest date in the
   * log, or NULL when the log is empty.
   */
  function MostRecentDate(log: seq<ChangeRecord>): (r: Option<Date>)
    ensures r.None? <==> log == []
    ensures r.Some? ==> forall i :: 0 <= i < |log| ==> log[i].date <= r.value
    ensures r.Some? ==> exists i :: 0 <= i < |log| && log[i].date == r.value
  {
    if log == [] then None
    else
      match MostRecentDate(log[1..])
      case None => Some(log[0].date)
      case Some(d) =>
        assert forall i :: 1 <= i < |log| ==> log[i] == log[1..][i - 1];
        Some(Max(log[0].date, d))
  }

  // ---------------------------------------------------------------------
  // The state machine as functions of the dataset
  // ---------------------------------------------------------------------

  /**
   * One run of `check_for_changes`. The checksum is written before the old
   * page is read back and before the change record is appended, as in the
   * program.
   */
  function Check(db: Db, env: Env, today: Date): (r: Step)
    // an empty URL only sets the error status
    ensures r.outcome == NoUrl <==> GetUrl(db.vars) == ""
    // a failed download or conversion escapes as that error
    ensures r.outcome.Raised? <==> GetUrl(db.vars) != "" && Poll(env, GetUrl(db.vars)).Failed?
    ensures r.outcome.Raised? ==> r.outcome.error == Poll(env, GetUrl(db.vars)).error
    // a check that does not succeed writes nothing
    ensures !r.outcome.Checked? ==> r.db == db
    // the URL is never written by a check, and the log only grows
    ensures GetUrl(r.db.vars) == GetUrl(db.vars)
    ensures db.changes <= r.db.changes && |r.db.changes| <= |db.changes| + 1
    ensures r.outcome.Checked? ==> r.outcome.lastChanged == MostRecentDate(r.db.changes)
    ensures r.outcome.Checked? ==>
      var page := Poll(env, GetUrl(db.vars));
      // after a successful check the watcher is watching this page's checksum
      && GetChecksum(r.db.vars) == page.checksum
      && !Unseeded(r.db.vars)
      // an unchanged page changes nothing
      && (page.checksum == GetChecksum(db.vars) ==> r.db == db)
      // a changed page overwrites exactly the checksum and the page
      && (page.checksum != GetChecksum(db.vars) ==>
            r.db.vars == db.vars[CHECKSUM_VAR := page.checksum][CURRENT_HTML_VAR := page.html])
      // seeding records no change
      && (Unseeded(db.vars) ==> r.db.changes == db.changes)
      // a change seen while watching appends exactly one record, diffed against the old page
      && (!Unseeded(db.vars) && page.checksum != GetChecksum(db.vars) ==>
            r.db.changes == db.changes +
              [ChangeRecord(GetUrl(db.vars), today, CreateDiff(GetCurrentHtml(db.vars), page.html))])
    ensures Consistent(env.hasher, db.vars) ==> Consistent(env.hasher, r.db.vars)
  {
    var url := GetUrl(db.vars);
    if url == "" then Step(db, NoUrl)
    else
      var oldChecksum := GetChecksum(db.vars);
      match Poll(env, url)
      case Failed(e) => Step(db, Raised(e))
      case Page(html, newChecksum) =>
        var after :=
          if oldChecksum == newChecksum then db
          else
            var vars := db.vars[CHECKSUM_VAR := newChecksum];
            var oldHtml := GetCurrentHtml(vars);
            var changes :=
              if oldChecksum == DEFAULT_CHECKSUM then db.changes
              else db.changes + [ChangeRecord(url, today, CreateDiff(oldHtml, html))];
            Db(vars[CURRENT_HTML_VAR := html], changes);
        Step(after, Checked(MostRecentDate(after.changes)))
  }

  /** `set_url`: the new URL, with the checksum reset so that the next check seeds. */
  function WithUrl(db: Db, url: string): (r: Db)
    ensures GetUrl(r.vars) == url && Unseeded(r.vars)
    ensures GetCurrentHtml(r.vars) == GetCurrentHtml(db.vars)
    ensures r.changes == db.changes
  {
    Db(db.vars[URL_VAR := url][CHECKSUM_VAR := DEFAULT_CHECKSUM], db.changes)
  }

  /** An exception escaping `main` ends the process with status 1; otherwise it exits with 0. */
  function ExitCode(outcome: Outcome): (r: int)
    ensures r == 1 <==> outcome.Raised?
    ensures r == 0 <==> !outcome.Raised?
  {
    if outcome.Raised? then 1 else 0
  }

  /** One invocation of `main` with one of its three options. */
  function Dispatch(db: Db, cmd: Command, env: Env, today: Date): (r: Exit)
    // setting the URL already watched does nothing at all
    ensures cmd.SetUrlOption? && cmd.url == GetUrl(db.vars) ==> r == Exit(db, 0, None, None)
    // setting a new URL stores it, checks it, and records no change whatever the page
    ensures cmd.SetUrlOption? && cmd.url != GetUrl(db.vars) ==>
      && GetUrl(r.db.vars) == cmd.url
      && r.db.changes == db.changes
      && r == (var s := Check(WithUrl(db, cmd.url), env, today);
               Exit(s.db, ExitCode(s.outcome), None, Some(s.outcome)))
    ensures cmd.GetUrlOption? ==> r == Exit(db, 0, Some(GetUrl(db.vars)), None)
    ensures cmd.RunOption? ==>
      var s := Check(db, env, today);
      r == Exit(s.db, ExitCode(s.outcome), None, Some(s.outcome))
    ensures r.code != 0 <==> r.check.Some? && r.check.value.Raised?
    ensures db.changes <= r.db.changes && |r.db.changes| <= |db.changes| + 1
    ensures Consistent(env.hasher, db.vars) ==> Consistent(env.hasher, r.db.vars)
  {
    match cmd
    case SetUrlOption(url) =>
      if url != GetUrl(db.vars) then
        var s := Check(WithUrl(db, url), env, today);
        Exit(s.db, ExitCode(s.outcome), None, Some(s.outcome))
      else
        Exit(db, 0, None, None)
    case GetUrlOption =>
      Exit(db, 0, Some(GetUrl(db.vars)), None)
    case RunOption =>
      var s := Check(db, env, today);
      Exit(s.db, ExitCode(s.outcome), None, Some(s.outcome))
  }

  // ---------------------------------------------------------------------
  // The program's operations, updating the dataset in place
  // ---------------------------------------------------------------------

  method SetChecksum(db: Database, checksum: string)
    modifies db
    ensures db.vars == old(db.vars)[CHECKSUM_VAR := checksum]
    ensures db.changes == old(db.changes)
  {
    db.SaveVar(CHECKSUM_VAR, checksum);
  }

  method SetCurrentHtml(db: Database, html: string)
    modifies db
    ensures db.vars == old(db.vars)[CURRENT_HTML_VAR := html]
    ensures db.changes == old(db.changes)
  {
    db.SaveVar(CURRENT_HTML_VAR, html);
  }

  method SetUrl(db: Database, url: string)
    modifies db
    ensures db.Snapshot() == WithUrl(old(db.Snapshot()), url)
  {
    db.SaveVar(URL_VAR, url);
    SetChecksum(db, DEFAULT_CHECKSUM);
  }

  /** `report_change`: appends one row to `changes`, dated today. */
  method ReportChange(db: Database, url: string, textDiff: string, today: Date)
    modifies db
    ensures db.changes == old(db.changes) + [ChangeRecord(url, today, textDiff)]
    ensures db.vars == old(db.vars)
  {
    db.Save(ChangeRecord(url, today, textDiff));
  }

  method CheckForChanges(db: Database, env: Env, today: Date) returns (outcome: Outcome)
    modifies db
    ensures Step(db.Snapshot(), outcome) == Check(old(db.Snapshot()), env, today)
  {
    var url := GetUrl(db.vars);
    if url == "" {
      return NoUrl;
    }
    var oldChecksum := GetChecksum(db.vars);
    var fetched := env.download(url);
    if fetched.None? {
      return Raised(FetchFailed);
    }
    var currentHtml := fetched.value;
    var newChecksum := MakeChecksum(env.hasher, currentHtml);
    if newChecksum.None? {
      return Raised(ConversionFailed);
    }
    if oldChecksum != newChecksum.value {
      SetChecksum(db, newChecksum.value);
      var oldHtml := GetCurrentHtml(db.vars);
      SetCurrentHtml(db, currentHtml);
      if oldChecksum != DEFAULT_CHECKSUM {
        var diff := CreateDiff(oldHtml, currentHtml);
        ReportChange(db, url, diff, today);
      }
    }
    outcome := Checked(MostRecentDate(db.changes));
  }

  /** `main` after argument parsing. */
  method HandleCommand(db: Database, cmd: Command, env: Env, today: Date)
    returns (code: int, printed: Option<string>, check: Option<Outcome>)
    modifies db
    ensures Exit(db.Snapshot(), code, printed, check) == Dispatch(old(db.Snapshot()), cmd, env, today)
  {
    code, printed, check := 0, None, None;
    match cmd
    case SetUrlOption(url) =>
      if url != GetUrl(db.vars) {
        SetUrl(db, url);
        var outcome := CheckForChanges(db, env, today);
        code, check := ExitCode(outcome), Some(outcome);
      }
    case GetUrlOption =>
      printed := Some(GetUrl(db.vars));
    case RunOption =>
      var outcome := CheckForChanges(db, env, today);
      code, check := ExitCode(outcome), Some(outcome);
  }
}
