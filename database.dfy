/**
 * The database module: the URL rewrite for the async driver, the lazily
 * created engine and session factory held in module globals, and the
 * commit/rollback/close discipline of a session. The engine, the factory
 * and the sessions stand for SQLAlchemy objects and are numbered here.
 */
module Database {
  import opened Strings

  const SqliteUrl := "sqlite+aiosqlite:///./sage.db"
  const PostgresScheme := "postgres://"
  const PostgresqlScheme := "postgresql://"
  const AsyncScheme := "postgresql+asyncpg://"

  /** `get_database_url`: the default for no URL, the async scheme for a Postgres URL, any other URL as it is. */
  function DatabaseUrl(url: string): (r: string)
    ensures url == "" ==> r == SqliteUrl
    ensures url != "" && StartsWith(url, PostgresScheme) ==> r == AsyncScheme + url[|PostgresScheme|..]
    ensures url != "" && StartsWith(url, PostgresqlScheme) ==> r == AsyncScheme + url[|PostgresqlScheme|..]
    ensures url != "" && !StartsWith(url, PostgresScheme) && !StartsWith(url, PostgresqlScheme) ==> r == url
  {
    if url == "" then SqliteUrl
    else if StartsWith(url, PostgresScheme) then
      SchemesDisjoint(url);
      ReplaceFirstPrefix(url, PostgresScheme, AsyncScheme);
      ReplaceFirst(url, PostgresScheme, AsyncScheme)
    else if StartsWith(url, PostgresqlScheme) then
      SchemesDisjoint(url);
      ReplaceFirstPrefix(url, PostgresqlScheme, AsyncScheme);
      ReplaceFirst(url, PostgresqlScheme, AsyncScheme)
    else url
  }

  /** The two Postgres schemes cannot both prefix a URL, and the async scheme starts with neither. */
  lemma SchemesDisjoint(url: string)
    ensures !(StartsWith(url, PostgresScheme) && StartsWith(url, PostgresqlScheme))
    ensures !StartsWith(AsyncScheme + url, PostgresScheme) && !StartsWith(AsyncScheme + url, PostgresqlScheme)
  {
    if StartsWith(url, PostgresScheme) {
      assert url[8] == ':';
    }
    assert (AsyncScheme + url)[8] == 'q' && (AsyncScheme + url)[10] == '+';
  }

  /** The rewritten URL is never empty and starts with neither Postgres scheme, so rewriting again changes nothing. */
  lemma DatabaseUrlIdempotent(url: string)
    ensures DatabaseUrl(url) != ""
    ensures !StartsWith(DatabaseUrl(url), PostgresScheme) && !StartsWith(DatabaseUrl(url), PostgresqlScheme)
    ensures DatabaseUrl(DatabaseUrl(url)) == DatabaseUrl(url)
  {
    SchemesDisjoint(url);
    if url == "" {
      assert SqliteUrl[0] == 's';
    } else if StartsWith(url, PostgresScheme) {
      SchemesDisjoint(url[|PostgresScheme|..]);
    } else if StartsWith(url, PostgresqlScheme) {
      SchemesDisjoint(url[|PostgresqlScheme|..]);
    }
  }

  /** The calls a session receives. */
  datatype SessionCall = Commit | Rollback | Close

  /** How the block using the session, or the commit, ends. */
  datatype Outcome = Completed | Raised(message: string)

  /**
   * The module globals: `_engine` and `_session_factory`, each holding the
   * number of the object it refers to, and the counts of objects created.
   */
  class DatabaseGlobals {
    var engine: int
    var sessionFactory: int
    var engineUrl: string
    var enginesCreated: nat
    var factoriesCreated: nat
    var sessionsOpened: nat
    const settingsUrl: string

    /** No engine without a URL rewrite behind it, no factory without an engine, and numbers below the counts. */
    predicate Valid()
      reads this
    {
      && -1 <= engine < enginesCreated && -1 <= sessionFactory < factoriesCreated
      && (sessionFactory >= 0 ==> engine >= 0)
      && (engine >= 0 ==> engineUrl == DatabaseUrl(settingsUrl))
    }

    /** A fresh import: both globals are `None`. */
    constructor (settingsUrl: string)
      ensures Valid() && engine == -1 && sessionFactory == -1 && this.settingsUrl == settingsUrl
      ensures enginesCreated == 0 && factoriesCreated == 0 && sessionsOpened == 0
    {
      this.settingsUrl := settingsUrl;
      engine, sessionFactory, engineUrl := -1, -1, "";
      enginesCreated, factoriesCreated, sessionsOpened := 0, 0, 0;
    }

    /** `get_engine`: creates the engine for the rewritten URL the first time, returns the same one after. */
    method GetEngine() returns (e: nat)
      requires Valid()
      modifies this
      ensures Valid() && e == engine
      ensures old(engine) >= 0 ==> e == old(engine) && enginesCreated == old(enginesCreated)
      ensures old(engine) < 0 ==> e == old(enginesCreated) && enginesCreated == old(enginesCreated) + 1
      ensures engineUrl == DatabaseUrl(settingsUrl)
      ensures sessionFactory == old(sessionFactory) && factoriesCreated == old(factoriesCreated) && sessionsOpened == old(sessionsOpened)
    {
      if engine < 0 {
        engineUrl := DatabaseUrl(settingsUrl);
        engine := enginesCreated;
        enginesCreated := enginesCreated + 1;
      }
      e := engine;
    }

    /** `get_session_factory`: creates the factory on the engine the first time, returns the same one after. */
    method GetSessionFactory() returns (f: nat)
      requires Valid()
      modifies this
      ensures Valid() && f == sessionFactory && engine >= 0
      ensures old(sessionFactory) >= 0 ==> f == old(sessionFactory) && unchanged(this)
      ensures old(sessionFactory) < 0 ==> f == old(factoriesCreated) && factoriesCreated == old(factoriesCreated) + 1
      ensures old(engine) >= 0 ==> engine == old(engine) && enginesCreated == old(enginesCreated)
      ensures old(engine) < 0 ==> enginesCreated == old(enginesCreated) + 1
      ensures sessionsOpened == old(sessionsOpened)
    {
      if sessionFactory < 0 {
        var e := GetEngine();
        sessionFactory := factoriesCreated;
        factoriesCreated := factoriesCreated + 1;
      }
      f := sessionFactory;
    }

    /** `close_db`: with an engine, disposes of it and forgets both globals; without one, does nothing. */
    method CloseDb()
      requires Valid()
      modifies this
      ensures Valid() && engine == -1 && sessionFactory == -1
      ensures enginesCreated == old(enginesCreated) && factoriesCreated == old(factoriesCreated) && sessionsOpened == old(sessionsOpened)
      ensures old(engine) < 0 ==> unchanged(this)
    {
      if engine >= 0 {
        engine := -1;
        sessionFactory := -1;
      }
    }

    /**
     * `get_session`: opens a session from the factory, hands it to the
     * block, commits when the block completes, rolls back and re-raises when
     * the block or the commit raises, and closes the session in every case.
     */
    method GetSession(body: Outcome, commit: Outcome) returns (calls: seq<SessionCall>, result: Outcome)
      requires Valid()
      modifies this
      ensures Valid() && sessionFactory >= 0 && sessionsOpened == old(sessionsOpened) + 1
      ensures (calls, result) == SessionRun(body, commit)
    {
      var f := GetSessionFactory();
      sessionsOpened := sessionsOpened + 1;
      if body.Completed? {
        calls, result := [Commit], commit;
        if commit.Raised? {
          calls := calls + [Rollback];
        }
      } else {
        calls, result := [Rollback], body;
      }
      calls := calls + [Close];
      assert calls == SessionRun(body, commit).0;
      assert result == SessionRun(body, commit).1;
    }
  }

  /** The calls the session receives and how the `async with` ends, for a block and a commit that complete or raise. */
  function SessionRun(body: Outcome, commit: Outcome): (seq<SessionCall>, Outcome) {
    match body
    case Raised(_) => ([Rollback, Close], body)
    case Completed =>
      match commit
      case Completed => ([Commit, Close], Completed)
      case Raised(_) => ([Commit, Rollback, Close], commit)
  }

  /**
   * The session is closed exactly once and last; it is committed exactly
   * when the block completed; it is rolled back exactly when the `async
   * with` raises, and then with the first error raised.
   */
  lemma SessionDiscipline(body: Outcome, commit: Outcome)
    ensures var (calls, result) := SessionRun(body, commit);
      && |calls| > 0 && calls[|calls| - 1] == Close && (forall i :: 0 <= i < |calls| - 1 ==> calls[i] != Close)
      && (Commit in calls <==> body.Completed?)
      && (Rollback in calls <==> result.Raised?)
      && (result.Raised? <==> body.Raised? || commit.Raised?)
      && (body.Raised? ==> result == body)
      && (body.Completed? && commit.Raised? ==> result == commit)
  {
  }
}
