/** dbmigrate/dbmigrate.go, Up: builds the Postgres DSN, then drives a golang-migrate migrator
    through force, version check and up, and merges the errors of closing it into the result
    in a deferred function. What the migrator reports for each call is an input. */
module DbMigrate {
  import opened Ferrors
  import opened GoStrings

  const ErrDirty := SentinelErr(ErrDirtyMigration)
  const NilVersion := SentinelErr(ErrNilVersion)
  const NoChange := SentinelErr(ErrNoChange)

  /** Config, without the logger (Up only logs through it). */
  datatype Config = Config(host: string, port: string, user: string, pass: string,
                           database: string, directory: string, forceVersion: int)

  /** What m.Version() returns. */
  datatype VersionReport = VersionReport(version: nat, dirty: bool, err: Error)

  /** What the migrator reports: migrate.New, m.Force, the first m.Version, m.Up, the second
      m.Version, and the two errors of m.Close (source, database). */
  datatype Migrator = Migrator(newErr: Error, forceErr: Error, before: VersionReport,
                               upErr: Error, after: VersionReport,
                               sourceCloseErr: Error, databaseCloseErr: Error)

  datatype MigrateCall =
    | NewCall(sourceUrl: string, databaseUrl: string)
    | ForceCall(version: int)
    | VersionCall
    | UpCall
    | CloseCall

  /** The value of the named result when the body returns, and the migrator calls it made. */
  datatype Outcome = Outcome(err: Error, calls: seq<MigrateCall>)

  /** The loop over opts: the first option, then "&" and each further option. */
  method JoinOptions(opts: seq<string>) returns (query: string)
    ensures query == Join(opts, "&")
    ensures opts == [] ==> query == ""
  {
    query := "";
    for i := 0 to |opts|
      invariant i == 0 ==> query == ""
      invariant i > 0 ==> query == Join(opts[..i], "&")
    {
      if i == 0 {
        query := opts[0];
        assert opts[..1] == [opts[0]];
        continue;
      }
      assert opts[..i + 1] == opts[..i] + [opts[i]];
      JoinAppend(opts[..i], opts[i], "&");
      query := query + "&" + opts[i];
    }
    assert opts[..|opts|] == opts;
  }

  /** The Postgres DSN: the scheme, credentials, host, port and database, then the query. */
  function Dsn(c: Config, query: string): (dsn: string)
    ensures |dsn| >= 11 && dsn[..11] == "postgres://"
    ensures |dsn| >= |query| && dsn[|dsn| - |query|..] == query
  {
    "postgres://" + c.user + ":" + c.pass + "@" + c.host + ":" + c.port + "/" + c.database + "?" + query
  }

  /** The migration source: the file scheme in front of the directory. */
  function SourceUrl(c: Config): (url: string)
    ensures |url| == 7 + |c.directory| && url[..7] == "file://" && url[7..] == c.directory
  {
    "file://" + c.directory
  }

  /** The migrator errors that Up's deferred function may format with %s. */
  predicate Reports(m: Migrator)
  {
    && Printable(m.forceErr) && Printable(m.before.err) && Printable(m.upErr)
    && Printable(m.after.err) && Printable(m.sourceCloseErr)
  }

  /** The decision sequence after migrate.New succeeded: force when ForceVersion > 0, read the
      version (ErrNilVersion is not an error), refuse a dirty state, run Up (ErrNoChange is
      success), read the version again. */
  function Decide(c: Config, m: Migrator): Outcome
  {
    var forced := if c.forceVersion > 0 then [ForceCall(c.forceVersion)] else [];
    if c.forceVersion > 0 && m.forceErr != Nil then Outcome(m.forceErr, forced)
    else
      var checked := forced + [VersionCall];
      if m.before.err != Nil && m.before.err != NilVersion then Outcome(m.before.err, checked)
      else if m.before.dirty then Outcome(ErrDirty, checked)
      else
        var upped := checked + [UpCall];
        if m.upErr != Nil then Outcome(if m.upErr != NoChange then m.upErr else Nil, upped)
        else Outcome(m.after.err, upped + [VersionCall])
  }

  /** What Decide promises: Force is called exactly when ForceVersion > 0 and its error is
      returned; a version error other than ErrNilVersion is returned; a dirty state returns
      ErrDirtyMigration without attempting Up; ErrNoChange from Up is success. */
  lemma DecisionSequence(c: Config, m: Migrator)
    ensures var d := Decide(c, m);
      && ((exists k :: 0 <= k < |d.calls| && d.calls[k].ForceCall?) <==> c.forceVersion > 0)
      && (c.forceVersion > 0 && m.forceErr != Nil ==> d == Outcome(m.forceErr, [ForceCall(c.forceVersion)]))
      && ((c.forceVersion <= 0 || m.forceErr == Nil) ==>
            && VersionCall in d.calls
            && (m.before.err != Nil && m.before.err != NilVersion ==> d.err == m.before.err && UpCall !in d.calls)
            && (m.before.err in {Nil, NilVersion} && m.before.dirty ==> d.err == ErrDirty && UpCall !in d.calls)
            && (m.before.err in {Nil, NilVersion} && !m.before.dirty ==>
                  && UpCall in d.calls
                  && (m.upErr == NoChange ==> d.err == Nil)
                  && (m.upErr != Nil && m.upErr != NoChange ==> d.err == m.upErr)
                  && (m.upErr == Nil ==> d.err == m.after.err)))
  {
    var d := Decide(c, m);
    if c.forceVersion > 0 {
      assert d.calls[0].ForceCall?;
    } else {
      forall k | 0 <= k < |d.calls|
        ensures !d.calls[k].ForceCall?
      {
      }
    }
  }

  /** The deferred function, as written: a source error is appended with "; " (or becomes the
      result); a database error becomes the result when there is none yet, but when there is
      one it is the source error `se` that is formatted after it, not `de`. */
  function CloseMerge(err: Error, se: Error, de: Error): (r: Error)
    requires Printable(err) && Printable(se)
    ensures se == Nil && de == Nil ==> r == err
    ensures se != Nil && de == Nil ==> r == (if err == Nil then se else Plain(Text(err) + "; " + Text(se)))
    ensures se == Nil && de != Nil ==> r == (if err == Nil then de else Plain(Text(err) + "; " + "%!s(<nil>)"))
    ensures se != Nil && de != Nil ==>
      (&& Renders(r)
       && Text(r) == (if err == Nil then Text(se) + "; " + Text(se) else Text(err) + "; " + Text(se) + "; " + Text(se)))
    ensures (err != Nil || se != Nil || de != Nil) <==> r != Nil
  {
    var afterSource :=
      if se != Nil then (if err != Nil then Plain(FormatS(err) + "; " + FormatS(se)) else se)
      else err;
    if de != Nil then (if afterSource != Nil then Plain(FormatS(afterSource) + "; " + FormatS(se)) else de)
    else afterSource
  }

  /** Up(c, opts...). The body runs up to a return; the deferred close then rewrites err. */
  method Up(c: Config, opts: seq<string>, m: Migrator) returns (err: Error, calls: seq<MigrateCall>)
    requires Reports(m)
    ensures m.newErr != Nil ==> err == m.newErr && calls == [NewCall(SourceUrl(c), Dsn(c, Join(opts, "&")))]
    ensures m.newErr == Nil ==>
      && err == CloseMerge(Decide(c, m).err, m.sourceCloseErr, m.databaseCloseErr)
      && calls == [NewCall(SourceUrl(c), Dsn(c, Join(opts, "&")))] + Decide(c, m).calls + [CloseCall]
  {
    var query := JoinOptions(opts);
    var pgdsn := Dsn(c, query);
    calls := [NewCall(SourceUrl(c), pgdsn)];
    if m.newErr != Nil {
      return m.newErr, calls;
    }
    var body;
    err, body := Migrate(c, m);
    calls := calls + body + [CloseCall];
    // the deferred function
    var se, de := m.sourceCloseErr, m.databaseCloseErr;
    if se != Nil {
      if err != Nil {
        err := Plain(FormatS(err) + "; " + FormatS(se));
      } else {
        err := se;
      }
    }
    if de != Nil {
      if err != Nil {
        err := Plain(FormatS(err) + "; " + FormatS(se));
      } else {
        err := de;
      }
    }
  }

  /** The body of Up from the force step to its return, reassigning the named result err. */
  method Migrate(c: Config, m: Migrator) returns (err: Error, calls: seq<MigrateCall>)
    requires Reports(m)
    ensures Outcome(err, calls) == Decide(c, m)
    ensures Printable(err)
  {
    calls := [];
    err := Nil;
    if c.forceVersion > 0 {
      calls := calls + [ForceCall(c.forceVersion)];
      err := m.forceErr;
      if err != Nil {
        return;
      }
    }
    calls := calls + [VersionCall];
    var dirty;
    err, dirty := m.before.err, m.before.dirty;
    if err != Nil {
      if err != NilVersion {
        return;
      }
    }
    if dirty {
      return ErrDirty, calls;
    }
    calls := calls + [UpCall];
    err := m.upErr;
    if err != Nil {
      if err != NoChange {
        return;
      }
      return Nil, calls;
    }
    calls := calls + [VersionCall];
    err := m.after.err;
    if err != Nil {
      return;
    }
    err := Nil;
  }

  /** A concrete input: the corrected merge reports the database error, the written one not. */
  lemma CloseMergeDiffersFromIntended()
    ensures CloseMerge(Plain("up failed"), Nil, Plain("connection reset"))
         != CloseMergeIntended(Plain("up failed"), Nil, Plain("connection reset"))
  {
  }

  /** The deferred function as evidently intended: the database error is formatted in its own
      branch. Every close error then survives: the texts of err, se and de appear in that order,
      separated by "; ", skipping the nil ones, and the result is nil only when all are. */
  function CloseMergeIntended(err: Error, se: Error, de: Error): (r: Error)
    requires Printable(err) && Printable(se) && Printable(de)
    ensures r == Nil <==> err == Nil && se == Nil && de == Nil
    ensures Printable(r)
    ensures err != Nil && se != Nil && de != Nil ==> Text(r) == Text(err) + "; " + Text(se) + "; " + Text(de)
    ensures err != Nil && se != Nil && de == Nil ==> Text(r) == Text(err) + "; " + Text(se)
    ensures err != Nil && se == Nil && de != Nil ==> Text(r) == Text(err) + "; " + Text(de)
    ensures err == Nil && se != Nil && de != Nil ==> Text(r) == Text(se) + "; " + Text(de)
    ensures err == Nil && se == Nil ==> r == de
    ensures se == Nil && de == Nil ==> r == err
    ensures err == Nil && de == Nil ==> r == se
  {
    var afterSource :=
      if se != Nil then (if err != Nil then Plain(FormatS(err) + "; " + FormatS(se)) else se)
      else err;
    if de != Nil then (if afterSource != Nil then Plain(FormatS(afterSource) + "; " + FormatS(de)) else de)
    else afterSource
  }

  /** Up with the deferred function as intended: a failure to close the database is reported. */
  method UpIntended(c: Config, opts: seq<string>, m: Migrator) returns (err: Error, calls: seq<MigrateCall>)
    requires Reports(m) && Printable(m.databaseCloseErr)
    ensures m.newErr != Nil ==> err == m.newErr && calls == [NewCall(SourceUrl(c), Dsn(c, Join(opts, "&")))]
    ensures m.newErr == Nil ==>
      && err == CloseMergeIntended(Decide(c, m).err, m.sourceCloseErr, m.databaseCloseErr)
      && calls == [NewCall(SourceUrl(c), Dsn(c, Join(opts, "&")))] + Decide(c, m).calls + [CloseCall]
    ensures m.newErr == Nil && m.databaseCloseErr != Nil ==> err != Nil
  {
    var query := JoinOptions(opts);
    calls := [NewCall(SourceUrl(c), Dsn(c, query))];
    if m.newErr != Nil {
      return m.newErr, calls;
    }
    var body;
    err, body := Migrate(c, m);
    calls := calls + body + [CloseCall];
    err := CloseMergeIntended(err, m.sourceCloseErr, m.databaseCloseErr);
  }
}
