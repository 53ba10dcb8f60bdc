/**
 * Properties of the watcher that relate several calls: repeating a check,
 * the date the status reports, and what a sequence of invocations of the
 * program (as a scheduler makes them, over one persistent dataset) keeps.
 */
module WatchProperties {
  import opened Options
  import opened Store
  import opened Watch

  /** Checking again while the page's checksum is the same is a no-op, whatever the day. */
  lemma CheckAgainIsNoOp(db: Db, env: Env, today: Date, later: Date)
    requires Check(db, env, today).outcome.Checked?
    ensures var s := Check(db, env, today); Check(s.db, env, later) == s
  {
  }

  /** Appending a record makes the most recent date the larger of the old one and the record's. */
  lemma {:induction false} MostRecentAppend(log: seq<ChangeRecord>, record: ChangeRecord)
    ensures MostRecentDate(log + [record]) ==
      match MostRecentDate(log)
      case None => Some(record.date)
      case Some(d) => Some(Max(d, record.date))
  {
    if log != [] {
      assert (log + [record])[1..] == log[1..] + [record];
      MostRecentAppend(log[1..], record);
    }
  }

  /** Every record of the log is dated no later than `today`. */
  predicate DatedBy(log: seq<ChangeRecord>, today: Date)
  {
    forall i :: 0 <= i < |log| ==> log[i].date <= today
  }

  /**
   * When days do not run backwards, a check that records a change reports
   * that change's day as the last change.
   */
  lemma LastChangedIsToday(db: Db, env: Env, today: Date)
    requires DatedBy(db.changes, today)
    requires |Check(db, env, today).db.changes| > |db.changes|
    ensures Check(db, env, today).outcome == Checked(Some(today))
    ensures DatedBy(Check(db, env, today).db.changes, today)
  {
    var s := Check(db, env, today);
    MostRecentAppend(db.changes, s.db.changes[|db.changes|]);
  }

  /** A dataset in which nothing has been saved is unseeded, so it meets the invariant. */
  lemma FreshIsConsistent(hasher: Hasher)
    ensures Consistent(hasher, map[])
  {
  }

  /**
   * The `html2text` run of one invocation: it may fail where another run
   * would succeed (the command is missing or crashes), but when it succeeds
   * it gives the text that the usual conversion gives.
   */
  ghost predicate AgreesWhenItSucceeds(conv: string -> Option<string>, hasher: Hasher)
  {
    forall html :: conv(html).Some? ==> conv(html) == hasher.htmlToText(html)
  }

  /** A check whose conversion may fail on this run only keeps the invariant stated with the usual conversion. */
  lemma CheckKeepsConsistent(db: Db, download: string -> Option<string>, conv: string -> Option<string>,
                             hasher: Hasher, today: Date)
    requires Consistent(hasher, db.vars)
    requires AgreesWhenItSucceeds(conv, hasher)
    ensures Consistent(hasher, Check(db, Env(download, Hasher(conv, hasher.md5)), today).db.vars)
  {
    var env := Env(download, Hasher(conv, hasher.md5));
    var s := Check(db, env, today);
    if s.db != db {
      var page := Poll(env, GetUrl(db.vars));
      assert MakeChecksum(env.hasher, page.html) == Some(page.checksum);
      assert conv(page.html).Some?;
      assert MakeChecksum(hasher, page.html) == Some(page.checksum);
    }
  }

  /** One invocation of the program: the option given, what the web serves that day, that run's `html2text`, and the day. */
  datatype Invocation =
    Invocation(cmd: Command, download: string -> Option<string>, conv: string -> Option<string>, today: Date)

  /** The environment of one invocation: its own download and conversion, and the one MD5. */
  function RunEnv(run: Invocation, hasher: Hasher): Env
  {
    Env(run.download, Hasher(run.conv, hasher.md5))
  }

  /** The dataset after a sequence of invocations. */
  function RunAll(db: Db, hasher: Hasher, runs: seq<Invocation>): Db
    decreases |runs|
  {
    if runs == [] then db
    else RunAll(Dispatch(db, runs[0].cmd, RunEnv(runs[0], hasher), runs[0].today).db, hasher, runs[1..])
  }

  /**
   * Over any sequence of invocations, each of whose conversions may fail but
   * agrees with the usual one when it succeeds, the change log is only
   * appended to, gains at most one record per invocation, and the store stays
   * consistent.
   */
  lemma {:induction false} RunAllKeepsInvariant(db: Db, hasher: Hasher, runs: seq<Invocation>)
    requires Consistent(hasher, db.vars)
    requires forall i :: 0 <= i < |runs| ==> AgreesWhenItSucceeds(runs[i].conv, hasher)
    ensures var after := RunAll(db, hasher, runs);
      && Consistent(hasher, after.vars)
      && db.changes <= after.changes
      && |after.changes| <= |db.changes| + |runs|
    decreases |runs|
  {
    if runs != [] {
      var run := runs[0];
      var env := RunEnv(run, hasher);
      var next := Dispatch(db, run.cmd, env, run.today).db;
      assert AgreesWhenItSucceeds(run.conv, hasher);
      match run.cmd {
        case SetUrlOption(url) =>
          if url != GetUrl(db.vars) {
            CheckKeepsConsistent(WithUrl(db, url), run.download, run.conv, hasher, run.today);
          }
        case GetUrlOption =>
        case RunOption =>
          CheckKeepsConsistent(db, run.download, run.conv, hasher, run.today);
      }
      assert forall i :: 0 <= i < |runs[1..]| ==> runs[1..][i] == runs[i + 1];
      RunAllKeepsInvariant(next, hasher, runs[1..]);
    }
  }
}
