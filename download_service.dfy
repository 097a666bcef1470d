/**
 * DownloadService: what the app does when a download intent arrives.
 *
 * The Android collaborators (connectivity, the background-sync setting, the
 * feed managers, the bundled locations.csv asset, the clock, the string
 * resources) are inputs gathered in an Environment. What the service does to
 * the outside world is an ordered log of Effects; what it persists (the
 * internal settings last_update and EVERYTHING_SETUP, and the locations table
 * of OpenHoursManager) is the ServiceState.
 *
 * Run is the reference definition of one download; DownloadService.Download
 * is the imperative service, proved to do exactly what Run says. The lemmas
 * state what Run promises.
 */
module DownloadOrchestration {
  import opened Wrappers
  import opened EffectLogs

  /** The five feeds, one per try/catch wrapper of the service. */
  datatype Feed = Cafeterias | Kino | News | StudyRooms | Faculties

  /** The order in which downloadAll calls the wrappers. */
  const AllFeeds: seq<Feed> := [Cafeterias, Kino, News, StudyRooms, Faculties]

  /**
   * The ACTION_EXTRA string of a present extra: DOWNLOAD_ALL_FROM_EXTERNAL,
   * one of the five single-feed labels, or any other string.
   */
  datatype Action = All | Single(feed: Feed) | Unrecognised

  /** A download intent; None as action is a missing ACTION_EXTRA. */
  datatype Intent = Intent(action: Option<Action>, force: bool, launch: bool)

  /** A row of the locations table: its id and its eight further columns. */
  datatype Location = Location(id: int, columns: seq<string>)

  /**
   * A row of locations.csv: its cells, and what Integer.parseInt makes of the
   * first cell (None when it throws).
   */
  datatype CsvRow = CsvRow(parsedId: Option<int>, cells: seq<string>)

  /** Everything the service learns from its collaborators during one download. */
  datatype Environment = Environment(
    connected: bool,                      // NetUtils.isConnected
    backgroundPermitted: bool,            // Utils.isBackgroundServicePermitted
    failingFeeds: set<Feed>,              // the wrappers whose manager call throws
    locationsCsv: Option<seq<CsvRow>>,    // the parsed asset; None when reading it throws
    now: int,                             // System.currentTimeMillis
    unknownErrorText: string)             // R.string.exception_unknown

  datatype Status = Completed | Error

  /** What the service does to the outside world, in order. */
  datatype Effect =
    | Fetch(feed: Feed, force: Option<bool>)   // a wrapper's manager calls; None: they take no force flag
    | SyncCalendar                             // CacheManager.syncCalendar
    | UpdateCards                              // CardManager.update
    | Broadcast(status: Status, message: Option<string>)
    | StartFillCache                           // startService(FillCacheService)

  /** The persisted state a download reads and writes. */
  datatype ServiceState = ServiceState(
    lastUpdate: Option<int>,            // LAST_UPDATE in INTERNAL_PREFS; None: never written
    everythingSetup: Option<bool>,      // EVERYTHING_SETUP internal setting; None: never written
    locations: map<int, Location>)      // OpenHoursManager's table, keyed by id

  // ---------------------------------------------------------------------------
  // The feed wrappers and downloadAll
  // ---------------------------------------------------------------------------

  /** The force flag a wrapper hands to its manager; study rooms and faculties take none. */
  function ForceArgument(feed: Feed, force: bool): Option<bool> {
    match feed
    case Cafeterias | Kino | News => Some(force)
    case StudyRooms | Faculties => None
  }

  /** The effects of calling the wrappers of the given feeds, in that order. */
  function FetchEffects(feeds: seq<Feed>, force: bool): (r: seq<Effect>)
    ensures |r| == |feeds|
  {
    if feeds == [] then [] else [Fetch(feeds[0], ForceArgument(feeds[0], force))] + FetchEffects(feeds[1..], force)
  }

  /** The five fetches of downloadAll, written out. */
  lemma FetchEffectsOfAll(force: bool)
    ensures FetchEffects(AllFeeds, force) == [
      Fetch(Cafeterias, Some(force)), Fetch(Kino, Some(force)), Fetch(News, Some(force)),
      Fetch(StudyRooms, None), Fetch(Faculties, None)]
  {
    var f := AllFeeds;
    assert f[4..][1..] == [];
    assert f[3..][1..] == f[4..];
    assert f[2..][1..] == f[3..];
    assert f[1..][1..] == f[2..];
    assert FetchEffects(f[4..], force) == [Fetch(Faculties, None)];
    assert FetchEffects(f[3..], force) == [Fetch(StudyRooms, None)] + FetchEffects(f[4..], force);
    assert FetchEffects(f[2..], force) == [Fetch(News, Some(force))] + FetchEffects(f[3..], force);
    assert FetchEffects(f[1..], force) == [Fetch(Kino, Some(force))] + FetchEffects(f[2..], force);
  }

  /** Whether no wrapper among the given feeds fails, i.e. the AND of their results. */
  predicate NoneFail(feeds: seq<Feed>, failing: set<Feed>) {
    forall f :: f in feeds ==> f !in failing
  }

  /** downloadAll reports success exactly when none of the five managers throws. */
  lemma DownloadAllOkIffNoFeedFails(failing: set<Feed>)
    ensures NoneFail(AllFeeds, failing) <==> failing == {}
  {
    if failing != {} {
      var f :| f in failing;
      assert f in AllFeeds by {
        match f
        case Cafeterias => assert AllFeeds[0] == f;
        case Kino => assert AllFeeds[1] == f;
        case News => assert AllFeeds[2] == f;
        case StudyRooms => assert AllFeeds[3] == f;
        case Faculties => assert AllFeeds[4] == f;
      }
    }
  }

  // ---------------------------------------------------------------------------
  // Views of an effect log
  // ---------------------------------------------------------------------------

  /** The feeds fetched in a log, in order. */
  function Fetched(log: seq<Effect>): seq<Feed> {
    if log == [] then []
    else (if log[0].Fetch? then [log[0].feed] else []) + Fetched(log[1..])
  }

  /** The broadcasts sent in a log, in order. */
  function Broadcasts(log: seq<Effect>): seq<Effect> {
    if log == [] then []
    else (if log[0].Broadcast? then [log[0]] else []) + Broadcasts(log[1..])
  }

  lemma {:induction false} FetchedAppend(a: seq<Effect>, b: seq<Effect>)
    ensures Fetched(a + b) == Fetched(a) + Fetched(b)
  {
    if a == [] {
      assert a + b == b;
    } else {
      assert (a + b)[1..] == a[1..] + b;
      FetchedAppend(a[1..], b);
    }
  }

  lemma {:induction false} BroadcastsAppend(a: seq<Effect>, b: seq<Effect>)
    ensures Broadcasts(a + b) == Broadcasts(a) + Broadcasts(b)
  {
    if a == [] {
      assert a + b == b;
    } else {
      assert (a + b)[1..] == a[1..] + b;
      BroadcastsAppend(a[1..], b);
    }
  }

  /** Calling the wrappers of some feeds fetches exactly those feeds, in order, and broadcasts nothing. */
  lemma {:induction false} FetchEffectsFetch(feeds: seq<Feed>, force: bool)
    ensures Fetched(FetchEffects(feeds, force)) == feeds
    ensures Broadcasts(FetchEffects(feeds, force)) == []
  {
    if feeds != [] {
      var log := FetchEffects(feeds, force);
      assert log[1..] == FetchEffects(feeds[1..], force);
      FetchEffectsFetch(feeds[1..], force);
    }
  }

  // ---------------------------------------------------------------------------
  // importLocationsDefaults
  // ---------------------------------------------------------------------------

  /**
   * The location a CSV row becomes, or None when building it throws: a first
   * cell parseInt rejects, or fewer than the nine cells the constructor reads.
   */
  function RowLocation(row: CsvRow): (r: Option<Location>)
    ensures r.Some? <==> row.parsedId.Some? && |row.cells| >= 9
    ensures r.Some? ==> r.value.id == row.parsedId.value && |r.value.columns| == 8
    ensures r.Some? ==> forall c :: 1 <= c < 9 ==> r.value.columns[c - 1] == row.cells[c]
  {
    if row.parsedId.None? || |row.cells| < 9 then None
    else Some(Location(row.parsedId.value, row.cells[1..9]))
  }

  /**
   * replaceIntoDb for each row in turn; the first row that throws ends the
   * import (false), keeping what the earlier rows inserted.
   */
  function InsertRows(store: map<int, Location>, rows: seq<CsvRow>): (r: (map<int, Location>, bool))
    ensures store.Keys <= r.0.Keys <= store.Keys + RowIds(rows)
    decreases |rows|
  {
    if rows == [] then (store, true)
    else match RowLocation(rows[0])
      case None => (store, false)
      case Some(loc) =>
        RowIdsOfTail(rows);
        InsertRows(store[loc.id := loc], rows[1..])
  }

  /** importLocationsDefaults: the new table and whether it returned without an exception. */
  function ImportDefaults(store: map<int, Location>, csv: Option<seq<CsvRow>>): (r: (map<int, Location>, bool))
    ensures |store| != 0 ==> r == (store, true)
    ensures csv.None? ==> r == (store, |store| != 0)
    ensures store.Keys <= r.0.Keys
    ensures csv.Some? ==> r.0.Keys <= store.Keys + RowIds(csv.value)
  {
    if |store| != 0 then (store, true)
    else match csv
      case None => (store, false)
      case Some(rows) => InsertRows(store, rows)
  }

  predicate AllRowsParse(rows: seq<CsvRow>) {
    forall i :: 0 <= i < |rows| ==> RowLocation(rows[i]).Some?
  }

  /** The ids of the rows that parse. */
  function RowIds(rows: seq<CsvRow>): set<int> {
    set i | 0 <= i < |rows| && RowLocation(rows[i]).Some? :: RowLocation(rows[i]).value.id
  }

  /** The first row's id, if it parses, and the ids of the rows after it are ids of the rows. */
  lemma RowIdsOfTail(rows: seq<CsvRow>)
    requires rows != []
    ensures RowIds(rows) == RowIds(rows[1..]) + (if RowLocation(rows[0]).Some? then {RowLocation(rows[0]).value.id} else {})
  {
  }

  predicate DistinctIds(rows: seq<CsvRow>) {
    forall i, j :: 0 <= i < j < |rows| && RowLocation(rows[i]).Some? && RowLocation(rows[j]).Some? ==>
      RowLocation(rows[i]).value.id != RowLocation(rows[j]).value.id
  }

  /** The import stops without an exception exactly when every row parses. */
  lemma {:induction false} InsertRowsOkIffAllParse(store: map<int, Location>, rows: seq<CsvRow>)
    ensures InsertRows(store, rows).1 <==> AllRowsParse(rows)
    decreases |rows|
  {
    if rows != [] {
      match RowLocation(rows[0])
      case None =>
      case Some(loc) =>
        InsertRowsOkIffAllParse(store[loc.id := loc], rows[1..]);
        assert AllRowsParse(rows) <==> AllRowsParse(rows[1..]) by {
          if AllRowsParse(rows[1..]) {
            forall i | 0 <= i < |rows| ensures RowLocation(rows[i]).Some? {
              if i > 0 { assert rows[i] == rows[1..][i - 1]; }
            }
          }
        }
    }
  }

  /**
   * When every row parses and no two share an id, each row is inserted under
   * its own id and nothing else is added.
   */
  lemma {:induction false} InsertRowsAddsEveryRow(store: map<int, Location>, rows: seq<CsvRow>)
    requires AllRowsParse(rows) && DistinctIds(rows)
    ensures InsertRows(store, rows).0.Keys == store.Keys + RowIds(rows)
    ensures forall i :: 0 <= i < |rows| ==>
      InsertRows(store, rows).0[RowLocation(rows[i]).value.id] == RowLocation(rows[i]).value
    ensures forall id :: id in store && id !in RowIds(rows) ==> InsertRows(store, rows).0[id] == store[id]
    decreases |rows|
  {
    if rows != [] {
      var loc := RowLocation(rows[0]).value;
      var tail := rows[1..];
      assert AllRowsParse(tail) by {
        forall i | 0 <= i < |tail| ensures RowLocation(tail[i]).Some? { assert tail[i] == rows[i + 1]; }
      }
      assert DistinctIds(tail) by {
        forall i, j | 0 <= i < j < |tail| ensures RowLocation(tail[i]).value.id != RowLocation(tail[j]).value.id {
          assert tail[i] == rows[i + 1] && tail[j] == rows[j + 1];
        }
      }
      InsertRowsAddsEveryRow(store[loc.id := loc], tail);
      RowIdsOfTail(rows);
      assert loc.id !in RowIds(tail) by {
        forall i | 0 <= i < |tail| ensures RowLocation(tail[i]).value.id != loc.id {
          assert tail[i] == rows[i + 1];
        }
      }
      forall i | 0 <= i < |rows|
        ensures InsertRows(store, rows).0[RowLocation(rows[i]).value.id] == RowLocation(rows[i]).value
      {
        if i > 0 { assert rows[i] == tail[i - 1]; }
      }
    }
  }

  /**
   * An import whose row k is the first that throws keeps exactly the rows
   * before k and reports the exception.
   */
  lemma {:induction false} InsertRowsStopsAtFirstBadRow(store: map<int, Location>, rows: seq<CsvRow>, k: nat)
    requires k < |rows| && RowLocation(rows[k]).None?
    requires AllRowsParse(rows[..k])
    ensures InsertRows(store, rows) == (InsertRows(store, rows[..k]).0, false)
    decreases k
  {
    if k > 0 {
      var loc := RowLocation(rows[0]).value;
      var prefix := rows[..k];
      var rest := rows[1..][..k - 1];
      assert prefix[0] == rows[0];
      assert rest == prefix[1..];
      assert AllRowsParse(rest) by {
        forall i | 0 <= i < |rest| ensures RowLocation(rest[i]).Some? {
          assert rest[i] == prefix[i + 1];
        }
      }
      assert InsertRows(store, prefix) == InsertRows(store[loc.id := loc], rest);
      InsertRowsStopsAtFirstBadRow(store[loc.id := loc], rows[1..], k - 1);
    }
  }

  /** Rows none of which carries the given id leave that id's entry as it was. */
  lemma {:induction false} InsertRowsKeepsOtherIds(store: map<int, Location>, rows: seq<CsvRow>, id: int)
    requires id in store
    requires forall k :: 0 <= k < |rows| && RowLocation(rows[k]).Some? ==> RowLocation(rows[k]).value.id != id
    ensures id in InsertRows(store, rows).0 && InsertRows(store, rows).0[id] == store[id]
    decreases |rows|
  {
    if rows != [] && RowLocation(rows[0]).Some? {
      var loc := RowLocation(rows[0]).value;
      var tail := rows[1..];
      forall k | 0 <= k < |tail| && RowLocation(tail[k]).Some? ensures RowLocation(tail[k]).value.id != id {
        assert tail[k] == rows[k + 1];
      }
      InsertRowsKeepsOtherIds(store[loc.id := loc], tail, id);
    }
  }

  /**
   * replaceIntoDb lets a later row replace an earlier one with the same id:
   * when every row parses, the location stored under an id is that of the
   * last row carrying it.
   */
  lemma {:induction false} InsertRowsLastRowWins(store: map<int, Location>, rows: seq<CsvRow>, j: nat)
    requires AllRowsParse(rows) && j < |rows|
    requires forall k :: j < k < |rows| ==> RowLocation(rows[k]).value.id != RowLocation(rows[j]).value.id
    ensures RowLocation(rows[j]).value.id in InsertRows(store, rows).0
    ensures InsertRows(store, rows).0[RowLocation(rows[j]).value.id] == RowLocation(rows[j]).value
    decreases |rows|
  {
    var loc := RowLocation(rows[0]).value;
    var tail := rows[1..];
    if j == 0 {
      forall k | 0 <= k < |tail| && RowLocation(tail[k]).Some? ensures RowLocation(tail[k]).value.id != loc.id {
        assert tail[k] == rows[k + 1];
      }
      InsertRowsKeepsOtherIds(store[loc.id := loc], tail, loc.id);
    } else {
      assert AllRowsParse(tail) by {
        forall i | 0 <= i < |tail| ensures RowLocation(tail[i]).Some? { assert tail[i] == rows[i + 1]; }
      }
      assert tail[j - 1] == rows[j];
      forall k | j - 1 < k < |tail| ensures RowLocation(tail[k]).value.id != RowLocation(tail[j - 1]).value.id {
        assert tail[k] == rows[k + 1];
      }
      InsertRowsLastRowWins(store[loc.id := loc], tail, j - 1);
    }
  }

  /**
   * importLocationsDefaults on an empty table and a readable asset whose rows
   * all parse with distinct ids inserts one location per row and nothing else.
   */
  lemma ImportInsertsOneLocationPerRow(rows: seq<CsvRow>)
    requires AllRowsParse(rows) && DistinctIds(rows)
    ensures ImportDefaults(map[], Some(rows)).1
    ensures ImportDefaults(map[], Some(rows)).0.Keys == RowIds(rows)
    ensures forall i :: 0 <= i < |rows| ==>
      ImportDefaults(map[], Some(rows)).0[RowLocation(rows[i]).value.id] == RowLocation(rows[i]).value
  {
    InsertRowsOkIffAllParse(map[], rows);
    InsertRowsAddsEveryRow(map[], rows);
  }

  /** importLocationsDefaults on a table that already holds rows changes nothing and does not throw. */
  lemma ImportKeepsNonEmptyTable(store: map<int, Location>, csv: Option<seq<CsvRow>>)
    requires |store| != 0
    ensures ImportDefaults(store, csv) == (store, true)
  {
  }

  // ---------------------------------------------------------------------------
  // download
  // ---------------------------------------------------------------------------

  /** Feeds are dispatched only when connected and (launching or background sync is permitted). */
  predicate Gate(intent: Intent, env: Environment) {
    env.connected && (intent.launch || env.backgroundPermitted)
  }

  /** The feeds the switch dispatches for an action. */
  function Dispatched(action: Action): seq<Feed> {
    match action
    case All => AllFeeds
    case Single(feed) => [feed]
    case Unrecognised => []
  }

  /** The feeds actually fetched for an action: none when the gate is closed. */
  function DispatchedFeeds(intent: Intent, env: Environment, action: Action): seq<Feed> {
    if Gate(intent, env) then Dispatched(action) else []
  }

  /** getInternalSettingBool(EVERYTHING_SETUP, false). */
  predicate IsSetup(s: ServiceState) {
    s.everythingSetup.GetOr(false)
  }

  /** The broadcast for the final value of the service's success flag. */
  function BroadcastFor(successful: bool, env: Environment): (b: Effect)
    ensures b.Broadcast?
    ensures b.status == Completed <==> successful
    ensures b.message.None? <==> successful
  {
    if successful then Broadcast(Completed, None) else Broadcast(Error, Some(env.unknownErrorText))
  }

  /**
   * What follows the fetches: the calendar sync of an ALL run while setup is unset, the card
   * update of ALL, the broadcast, and the fill-cache start of ALL.
   */
  function Epilogue(calendar: bool, all: bool, b: Effect): seq<Effect> {
    (if calendar then [SyncCalendar] else []) + (if all then [UpdateCards] else []) + [b]
      + (if all then [StartFillCache] else [])
  }

  /** The value of the success flag after the switch: the AND of the dispatched wrappers' results. */
  predicate DispatchOk(intent: Intent, env: Environment, action: Action) {
    NoneFail(DispatchedFeeds(intent, env, action), env.failingFeeds)
  }

  /** Whether this download syncs the calendar: ALL past the gate while EVERYTHING_SETUP is not true. */
  predicate CalendarRuns(intent: Intent, env: Environment, action: Action, s: ServiceState) {
    action.All? && Gate(intent, env) && !IsSetup(s)
  }

  /** The effects of one download, in order. */
  function RunLog(intent: Intent, env: Environment, s: ServiceState): (r: seq<Effect>)
    ensures r == [] <==> intent.action.None?
    ensures intent.action.Some? ==>
      |r| == |DispatchedFeeds(intent, env, intent.action.value)|
        + (if CalendarRuns(intent, env, intent.action.value, s) then 1 else 0)
        + (if intent.action.value.All? then 3 else 1)
  {
    match intent.action
    case None => []
    case Some(action) =>
      FetchEffects(DispatchedFeeds(intent, env, action), intent.force)
        + Epilogue(CalendarRuns(intent, env, action, s), action.All?,
                   BroadcastFor(action.All? || DispatchOk(intent, env, action), env))
  }

  /** The persisted state after one download. */
  function RunState(intent: Intent, env: Environment, s: ServiceState): (r: ServiceState)
    ensures IsSetup(s) ==> IsSetup(r)
    ensures s.locations.Keys <= r.locations.Keys
    ensures r.lastUpdate == s.lastUpdate || r.lastUpdate == Some(env.now)
  {
    match intent.action
    case None => s
    case Some(action) =>
      var setup := if CalendarRuns(intent, env, action, s) && DispatchOk(intent, env, action)
        then Some(true) else s.everythingSetup;
      var imported := if action.All? then ImportDefaults(s.locations, env.locationsCsv) else (s.locations, true);
      var stamp := if action.All? && DispatchOk(intent, env, action) && imported.1 then Some(env.now) else s.lastUpdate;
      ServiceState(stamp, setup, imported.0)
  }

  /** RunLog and RunState written out in the order the service takes its steps. */
  lemma RunInSteps(intent: Intent, env: Environment, s: ServiceState, action: Action, before: seq<Effect>)
    requires intent.action == Some(action)
    ensures before + RunLog(intent, env, s) ==
      before + FetchEffects(DispatchedFeeds(intent, env, action), intent.force)
      + (if CalendarRuns(intent, env, action, s) then [SyncCalendar] else [])
      + ((if action.All? then [UpdateCards] else []) + [BroadcastFor(action.All? || DispatchOk(intent, env, action), env)]
         + (if action.All? then [StartFillCache] else []))
    ensures RunState(intent, env, s).everythingSetup ==
      if CalendarRuns(intent, env, action, s) && DispatchOk(intent, env, action) then Some(true) else s.everythingSetup
    ensures RunState(intent, env, s).locations ==
      if action.All? then ImportDefaults(s.locations, env.locationsCsv).0 else s.locations
    ensures RunState(intent, env, s).lastUpdate ==
      if action.All? && DispatchOk(intent, env, action) && ImportDefaults(s.locations, env.locationsCsv).1 then Some(env.now)
      else s.lastUpdate
  {
  }

  /**
   * One download, as a reference definition: the persisted state afterwards
   * and the effects, in order.
   */
  function Run(intent: Intent, env: Environment, s: ServiceState): (ServiceState, seq<Effect>) {
    (RunState(intent, env, s), RunLog(intent, env, s))
  }

  lemma {:induction false} NoFetchesIn(log: seq<Effect>)
    requires forall i :: 0 <= i < |log| ==> !log[i].Fetch?
    ensures Fetched(log) == []
  {
    if log != [] {
      NoFetchesIn(log[1..]);
    }
  }

  lemma {:induction false} NoBroadcastsIn(log: seq<Effect>)
    requires forall i :: 0 <= i < |log| ==> !log[i].Broadcast?
    ensures Broadcasts(log) == []
  {
    if log != [] {
      NoBroadcastsIn(log[1..]);
    }
  }

  /** The epilogue fetches nothing and broadcasts once. */
  lemma EpilogueViews(calendar: bool, all: bool, b: Effect)
    requires b.Broadcast?
    ensures Fetched(Epilogue(calendar, all, b)) == []
    ensures Broadcasts(Epilogue(calendar, all, b)) == [b]
  {
    var pre := (if calendar then [SyncCalendar] else []) + (if all then [UpdateCards] else []);
    var post: seq<Effect> := if all then [StartFillCache] else [];
    assert Epilogue(calendar, all, b) == pre + ([b] + post);
    NoFetchesIn(Epilogue(calendar, all, b));
    NoBroadcastsIn(pre);
    NoBroadcastsIn(post);
    BroadcastsAppend(pre, [b] + post);
    BroadcastsAppend([b], post);
    assert Broadcasts([b]) == [b] + Broadcasts([]);
  }

  /** The epilogue holds the calendar sync once when it runs and each ALL-only effect once exactly for ALL. */
  lemma EpilogueCounts(calendar: bool, all: bool, b: Effect)
    requires b.Broadcast?
    ensures Occurrences(Epilogue(calendar, all, b), SyncCalendar) == (if calendar then 1 else 0)
    ensures Occurrences(Epilogue(calendar, all, b), UpdateCards) == (if all then 1 else 0)
    ensures Occurrences(Epilogue(calendar, all, b), StartFillCache) == (if all then 1 else 0)
  {
    forall e: Effect
      ensures Occurrences(Epilogue(calendar, all, b), e) ==
        (if calendar && e == SyncCalendar then 1 else 0) + (if all && e == UpdateCards then 1 else 0)
        + (if b == e then 1 else 0) + (if all && e == StartFillCache then 1 else 0)
    {
      var c: seq<Effect> := if calendar then [SyncCalendar] else [];
      var u: seq<Effect> := if all then [UpdateCards] else [];
      var f: seq<Effect> := if all then [StartFillCache] else [];
      assert Epilogue(calendar, all, b) == c + u + [b] + f;
      OccurrencesAppend(c, u, e);
      OccurrencesAppend(c + u, [b], e);
      OccurrencesAppend(c + u + [b], f, e);
      OccurrencesSingle(b, e);
      if calendar { OccurrencesSingle(SyncCalendar, e); }
      if all {
        OccurrencesSingle(UpdateCards, e);
        OccurrencesSingle(StartFillCache, e);
      }
    }
  }

  /** The fetch part of a log holds fetches only. */
  lemma {:induction false} FetchEffectsOnlyFetch(feeds: seq<Feed>, force: bool, e: Effect)
    requires !e.Fetch?
    ensures Occurrences(FetchEffects(feeds, force), e) == 0
  {
    if feeds != [] {
      FetchEffectsOnlyFetch(feeds[1..], force, e);
    }
  }

  /** A download with an action fetches its dispatched feeds, in order, and sends one broadcast. */
  lemma RunViews(intent: Intent, env: Environment, s: ServiceState)
    requires intent.action.Some?
    ensures Fetched(RunLog(intent, env, s)) == DispatchedFeeds(intent, env, intent.action.value)
    ensures Broadcasts(RunLog(intent, env, s)) ==
      [BroadcastFor(intent.action.value.All? || DispatchOk(intent, env, intent.action.value), env)]
  {
    var action := intent.action.value;
    var feeds := DispatchedFeeds(intent, env, action);
    var calendar := CalendarRuns(intent, env, action, s);
    var b := BroadcastFor(action.All? || DispatchOk(intent, env, action), env);
    var fetches := FetchEffects(feeds, intent.force);
    var epilogue := Epilogue(calendar, action.All?, b);
    assert RunLog(intent, env, s) == fetches + epilogue;
    FetchEffectsFetch(feeds, intent.force);
    EpilogueViews(calendar, action.All?, b);
    FetchedAppend(fetches, epilogue);
    BroadcastsAppend(fetches, epilogue);
  }

  /**
   * A download with an action syncs the calendar once exactly on an ALL run
   * past the gate while EVERYTHING_SETUP is not true, and updates the cards once and starts the fill-cache
   * service once exactly for ALL.
   */
  lemma RunCounts(intent: Intent, env: Environment, s: ServiceState)
    requires intent.action.Some?
    ensures Occurrences(RunLog(intent, env, s), SyncCalendar) ==
      (if CalendarRuns(intent, env, intent.action.value, s) then 1 else 0)
    ensures Occurrences(RunLog(intent, env, s), UpdateCards) == (if intent.action.value.All? then 1 else 0)
    ensures Occurrences(RunLog(intent, env, s), StartFillCache) == (if intent.action.value.All? then 1 else 0)
  {
    var action := intent.action.value;
    var feeds := DispatchedFeeds(intent, env, action);
    var calendar := CalendarRuns(intent, env, action, s);
    var b := BroadcastFor(action.All? || DispatchOk(intent, env, action), env);
    var fetches := FetchEffects(feeds, intent.force);
    var epilogue := Epilogue(calendar, action.All?, b);
    assert RunLog(intent, env, s) == fetches + epilogue;
    EpilogueCounts(calendar, action.All?, b);
    forall e: Effect | !e.Fetch?
      ensures Occurrences(RunLog(intent, env, s), e) == Occurrences(epilogue, e)
    {
      FetchEffectsOnlyFetch(feeds, intent.force, e);
      OccurrencesAppend(fetches, epilogue, e);
    }
  }

  /** ALL ends with the card update, the COMPLETED broadcast and the fill-cache start. */
  lemma RunEnd(intent: Intent, env: Environment, s: ServiceState)
    requires intent.action == Some(All)
    ensures |RunLog(intent, env, s)| >= 3
    ensures RunLog(intent, env, s)[|RunLog(intent, env, s)| - 3..] == [UpdateCards, Broadcast(Completed, None), StartFillCache]
  {
  }

  /** An intent without an action does nothing at all. */
  lemma NullActionDoesNothing(intent: Intent, env: Environment, s: ServiceState)
    requires intent.action.None?
    ensures Run(intent, env, s) == (s, [])
  {
  }

  /** Only ALL persists anything: other actions leave every setting and the table alone. */
  lemma OnlyAllPersists(intent: Intent, env: Environment, s: ServiceState)
    requires intent.action != Some(All)
    ensures RunState(intent, env, s) == s
  {
  }

  /**
   * With the gate closed nothing is fetched, the calendar is not synced, the
   * setup flag is untouched, and the one broadcast is COMPLETED: a skipped
   * download counts as a success.
   */
  lemma ClosedGateFetchesNothing(intent: Intent, env: Environment, s: ServiceState)
    requires intent.action.Some? && !Gate(intent, env)
    ensures Fetched(RunLog(intent, env, s)) == []
    ensures SyncCalendar !in RunLog(intent, env, s)
    ensures RunState(intent, env, s).everythingSetup == s.everythingSetup
    ensures Broadcasts(RunLog(intent, env, s)) == [Broadcast(Completed, None)]
  {
    RunViews(intent, env, s);
    RunCounts(intent, env, s);
  }

  /**
   * ALL past the gate fetches all five feeds in the order cafeterias, kino,
   * news, study rooms, faculties, whichever of them fail.
   */
  lemma AllFetchesEveryFeedInOrder(intent: Intent, env: Environment, s: ServiceState)
    requires intent.action == Some(All) && Gate(intent, env)
    ensures Fetched(RunLog(intent, env, s)) == AllFeeds
  {
    RunViews(intent, env, s);
  }

  /**
   * A single-feed action past the gate fetches that feed only, persists
   * nothing, and broadcasts COMPLETED exactly when its wrapper succeeded.
   */
  lemma SingleFetchesOnlyItsFeed(intent: Intent, env: Environment, s: ServiceState, feed: Feed)
    requires intent.action == Some(Single(feed)) && Gate(intent, env)
    ensures Fetched(RunLog(intent, env, s)) == [feed]
    ensures RunState(intent, env, s) == s
    ensures Broadcasts(RunLog(intent, env, s)) ==
      [if feed in env.failingFeeds then Broadcast(Error, Some(env.unknownErrorText)) else Broadcast(Completed, None)]
  {
    RunViews(intent, env, s);
  }

  /**
   * ALL past the gate: with setup already done the calendar is not synced and
   * the flag is left as it was; otherwise the calendar is synced once and the
   * flag becomes true exactly when downloadAll succeeded.
   */
  lemma FirstRunSetup(intent: Intent, env: Environment, s: ServiceState)
    requires intent.action == Some(All) && Gate(intent, env)
    ensures IsSetup(s) ==> Occurrences(RunLog(intent, env, s), SyncCalendar) == 0
    ensures IsSetup(s) ==> RunState(intent, env, s).everythingSetup == s.everythingSetup
    ensures !IsSetup(s) ==> Occurrences(RunLog(intent, env, s), SyncCalendar) == 1
    ensures !IsSetup(s) ==> (IsSetup(RunState(intent, env, s)) <==> env.failingFeeds == {})
  {
    RunCounts(intent, env, s);
    DownloadAllOkIffNoFeedFails(env.failingFeeds);
    assert DispatchOk(intent, env, All) <==> env.failingFeeds == {};
  }

  /**
   * ALL writes last_update (as the current time) exactly when no dispatched
   * wrapper failed and importLocationsDefaults did not throw; otherwise the
   * stored value is kept. This holds with the gate closed too, when nothing
   * was fetched.
   */
  lemma AllStampsLastUpdate(intent: Intent, env: Environment, s: ServiceState)
    requires intent.action == Some(All)
    ensures (Gate(intent, env) ==> env.failingFeeds == {}) && ImportDefaults(s.locations, env.locationsCsv).1 ==>
      RunState(intent, env, s).lastUpdate == Some(env.now)
    ensures !((Gate(intent, env) ==> env.failingFeeds == {}) && ImportDefaults(s.locations, env.locationsCsv).1) ==>
      RunState(intent, env, s).lastUpdate == s.lastUpdate
    ensures RunState(intent, env, s).locations == ImportDefaults(s.locations, env.locationsCsv).0
  {
    DownloadAllOkIffNoFeedFails(env.failingFeeds);
  }

  /**
   * ALL always ends with the card update, one COMPLETED broadcast and the
   * fill-cache start, in that order, whatever failed on the way.
   */
  lemma AllAlwaysCompletes(intent: Intent, env: Environment, s: ServiceState)
    requires intent.action == Some(All)
    ensures Broadcasts(RunLog(intent, env, s)) == [Broadcast(Completed, None)]
    ensures Occurrences(RunLog(intent, env, s), UpdateCards) == 1
    ensures |RunLog(intent, env, s)| >= 3
    ensures RunLog(intent, env, s)[|RunLog(intent, env, s)| - 3..] == [UpdateCards, Broadcast(Completed, None), StartFillCache]
  {
    RunViews(intent, env, s);
    RunCounts(intent, env, s);
    RunEnd(intent, env, s);
  }

  /**
   * Every intent with an action sends exactly one broadcast: COMPLETED without
   * a message when the final success flag holds (always for ALL, and whenever
   * the gate is closed), otherwise ERROR with the unknown-error text; the
   * fill-cache service is started exactly for ALL.
   */
  lemma ExactlyOneBroadcast(intent: Intent, env: Environment, s: ServiceState)
    requires intent.action.Some?
    ensures |Broadcasts(RunLog(intent, env, s))| == 1
    ensures var b := Broadcasts(RunLog(intent, env, s))[0];
      b.Broadcast?
      && (b.status == Completed <==>
        intent.action == Some(All) || !Gate(intent, env) || NoneFail(Dispatched(intent.action.value), env.failingFeeds))
      && (b.status == Completed ==> b.message == None)
      && (b.status == Error ==> b.message == Some(env.unknownErrorText))
    ensures Occurrences(RunLog(intent, env, s), StartFillCache) == if intent.action == Some(All) then 1 else 0
  {
    RunViews(intent, env, s);
    RunCounts(intent, env, s);
  }

  // ---------------------------------------------------------------------------
  // Successive downloads (download is static synchronized: runs never overlap)
  // ---------------------------------------------------------------------------

  /** The persisted state after the given downloads, one after the other. */
  function RunAll(runs: seq<(Intent, Environment)>, s: ServiceState): ServiceState {
    if runs == [] then s else RunAll(runs[1..], Run(runs[0].0, runs[0].1, s).0)
  }

  /** Once EVERYTHING_SETUP is true, no later download clears it. */
  lemma {:induction false} SetupIsSticky(runs: seq<(Intent, Environment)>, s: ServiceState)
    requires IsSetup(s)
    ensures IsSetup(RunAll(runs, s))
  {
    if runs != [] {
      SetupIsSticky(runs[1..], Run(runs[0].0, runs[0].1, s).0);
    }
  }

  /** Downloads none of which is ALL leave last_update, the setup flag and the table as they were. */
  lemma {:induction false} OnlyAllChangesPersistedState(runs: seq<(Intent, Environment)>, s: ServiceState)
    requires forall i :: 0 <= i < |runs| ==> runs[i].0.action != Some(All)
    ensures RunAll(runs, s) == s
  {
    if runs != [] {
      OnlyAllPersists(runs[0].0, runs[0].1, s);
      OnlyAllChangesPersistedState(runs[1..], s);
    }
  }

  // ---------------------------------------------------------------------------
  // The service
  // ---------------------------------------------------------------------------

  class DownloadService {
    var lastUpdate: Option<int>
    var everythingSetup: Option<bool>
    var locations: map<int, Location>
    /** Everything the service has done to the outside world, oldest first. */
    var effects: seq<Effect>

    /**
     * A service started on an installation with the given stored settings and
     * locations table (None for a setting never written); it has done nothing yet.
     */
    constructor (stored: ServiceState)
      ensures lastUpdate == stored.lastUpdate && everythingSetup == stored.everythingSetup
      ensures locations == stored.locations && effects == []
    {
      lastUpdate := stored.lastUpdate;
      everythingSetup := stored.everythingSetup;
      locations := stored.locations;
      effects := [];
    }

    function State(): ServiceState
      reads this
    {
      ServiceState(lastUpdate, everythingSetup, locations)
    }

    /** lastUpdate: the time of the last stamped download, 0 when never written. */
    function LastUpdate(): (t: int)
      reads this
      ensures lastUpdate == None ==> t == 0
      ensures lastUpdate.Some? ==> t == lastUpdate.value
    {
      lastUpdate.GetOr(0)
    }

    /** One of the five try/catch wrappers: false exactly when its manager throws. */
    method DownloadFeed(feed: Feed, force: bool, env: Environment) returns (ok: bool)
      modifies this`effects
      ensures ok <==> feed !in env.failingFeeds
      ensures effects == old(effects) + [Fetch(feed, ForceArgument(feed, force))]
    {
      effects := effects + [Fetch(feed, ForceArgument(feed, force))];
      ok := feed !in env.failingFeeds;
    }

    /** downloadAll: all five wrappers in order, no short-circuit, and the AND of their results. */
    method DownloadAll(force: bool, env: Environment) returns (ok: bool)
      modifies this`effects
      ensures ok <==> env.failingFeeds == {}
      ensures effects == old(effects) + FetchEffects(AllFeeds, force)
    {
      var cafe := DownloadFeed(Cafeterias, force, env);
      var kino := DownloadFeed(Kino, force, env);
      var news := DownloadFeed(News, force, env);
      var rooms := DownloadFeed(StudyRooms, force, env);
      var faculties := DownloadFeed(Faculties, force, env);
      ok := cafe && kino && news && rooms && faculties;
      DownloadAllOkIffNoFeedFails(env.failingFeeds);
      FetchEffectsOfAll(force);
    }

    /** importLocationsDefaults; ok is false when it throws. */
    method ImportLocationsDefaults(csv: Option<seq<CsvRow>>) returns (ok: bool)
      modifies this`locations
      ensures (locations, ok) == ImportDefaults(old(locations), csv)
    {
      ok := true;
      if |locations| == 0 {
        if csv.None? {
          ok := false;
          return;
        }
        var rows := csv.value;
        var i := 0;
        while i < |rows|
          invariant 0 <= i <= |rows|
          invariant InsertRows(locations, rows[i..]) == ImportDefaults(old(locations), csv)
        {
          var loc := RowLocation(rows[i]);
          if loc.None? {
            ok := false;
            return;
          }
          assert rows[i..][1..] == rows[i + 1..];
          locations := locations[loc.value.id := loc.value];
          i := i + 1;
        }
      }
    }

    /** sendServiceBroadcast: the status, and the message only when there is one. */
    method SendServiceBroadcast(status: Status, message: Option<string>)
      modifies this`effects
      ensures effects == old(effects) + [Broadcast(status, message)]
    {
      effects := effects + [Broadcast(status, message)];
    }

    /**
     * The connectivity gate and the switch on the action: the wrappers it
     * dispatches, and on an ALL past the gate while EVERYTHING_SETUP is not
     * true, the calendar sync and the setup flag.
     */
    method HandleAction(intent: Intent, env: Environment, action: Action) returns (successful: bool)
      modifies this`effects, this`everythingSetup
      ensures successful == DispatchOk(intent, env, action)
      ensures effects == old(effects) + FetchEffects(DispatchedFeeds(intent, env, action), intent.force)
        + (if CalendarRuns(intent, env, action, old(State())) then [SyncCalendar] else [])
      ensures everythingSetup ==
        if CalendarRuns(intent, env, action, old(State())) && successful then Some(true) else old(everythingSetup)
    {
      successful := true;
      if env.connected && (intent.launch || env.backgroundPermitted) {
        match action
        case All =>
          successful := DownloadAll(intent.force, env);
          DownloadAllOkIffNoFeedFails(env.failingFeeds);
          var isSetup := everythingSetup.GetOr(false);
          if !isSetup {
            effects := effects + [SyncCalendar];
            if successful {
              everythingSetup := Some(true);
            }
          }
        case Single(feed) =>
          successful := DownloadFeed(feed, intent.force, env);
          assert FetchEffects([feed], intent.force) == [Fetch(feed, ForceArgument(feed, intent.force))];
        case Unrecognised =>
      }
    }

    /**
     * The steps after the switch: for ALL the locations import, the
     * last_update stamp and the card update, then the one broadcast, then for
     * ALL the fill-cache start.
     */
    method Conclude(intent: Intent, env: Environment, action: Action, dispatchOk: bool)
      modifies this`effects, this`lastUpdate, this`locations
      ensures locations == if action.All? then ImportDefaults(old(locations), env.locationsCsv).0 else old(locations)
      ensures lastUpdate ==
        if action.All? && dispatchOk && ImportDefaults(old(locations), env.locationsCsv).1 then Some(env.now)
        else old(lastUpdate)
      ensures effects == old(effects) + ((if action.All? then [UpdateCards] else [])
        + [BroadcastFor(action.All? || dispatchOk, env)] + (if action.All? then [StartFillCache] else []))
    {
      var successful := dispatchOk;
      ghost var e0 := effects;
      if action.All? {
        var imported := ImportLocationsDefaults(env.locationsCsv);
        if !imported {
          successful := false;
        }
        if successful {
          lastUpdate := Some(env.now);
        }
        effects := effects + [UpdateCards];
        successful := true;
      }
      ghost var e1 := effects;
      if successful {
        SendServiceBroadcast(Completed, None);
      } else {
        SendServiceBroadcast(Error, Some(env.unknownErrorText));
      }
      assert effects == e1 + [BroadcastFor(action.All? || dispatchOk, env)];
      if action.All? {
        effects := effects + [StartFillCache];
      }
    }

    /** download: handles one intent, exactly as Run describes. */
    method Download(intent: Intent, env: Environment)
      modifies this
      ensures State() == RunState(intent, env, old(State()))
      ensures effects == old(effects) + RunLog(intent, env, old(State()))
    {
      if intent.action.None? {
        return;
      }
      var action := intent.action.value;
      RunInSteps(intent, env, State(), action, effects);
      var successful := HandleAction(intent, env, action);
      Conclude(intent, env, action, successful);
    }
  }
}
