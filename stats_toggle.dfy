/**
 * The `innodb_stats_on_metadata` toggle wrapped around every catalog query: the setting is
 * switched off before the query and the remembered value written back after it, whether
 * the query succeeds or fails. The driver and the legacy schema source each hold one.
 */
module StatsToggle {
  import opened Wrappers
  import opened Text
  import opened Catalog
  import opened SchemaErrors
  import opened Connection

  /** The setting remembered by the toggle after it has seen `observed`. */
  function SavedAfterDisable(observed: Option<string>, saved: Option<string>): Option<string> {
    if observed.Some? && ToUpper(observed.value) != "OFF" then Some(ToUpper(observed.value)) else saved
  }

  /** The server setting after the toggle has seen `observed`, run the query and restored. */
  function StatsAfterQuery(observed: Option<string>, saved: Option<string>): Option<string> {
    var remembered := SavedAfterDisable(observed, saved);
    if remembered.Some? then remembered else observed
  }

  /**
   * The setting and the remembered value after an operation that ran the catalog query
   * exactly when `queried` holds: one toggled query, or nothing touched.
   */
  predicate StatsTrack(queried: bool, observed: Option<string>, saved: Option<string>,
                       observed': Option<string>, saved': Option<string>) {
    if queried then observed' == StatsAfterQuery(observed, saved) && saved' == SavedAfterDisable(observed, saved)
    else observed' == observed && saved' == saved
  }

  /** A query's outcome as reported to callers: a failure becomes an `ErrorException` naming `origin`. */
  function QueryOutcome(origin: string, answer: Result<seq<Row>, string>): Result<seq<Row>, Error> {
    match answer
    case Success(rows) => Success(rows)
    case Failure(message) => Failure(ErrorException(origin + ": " + message))
  }

  /**
   * The toggle puts a readable setting back as it found it (upper-cased). A setting that is
   * `OFF` or unreadable is left alone by a toggle that has never switched it off, and is
   * overwritten with the remembered value by one that has.
   */
  lemma StatsRestored(observed: Option<string>, saved: Option<string>)
    ensures observed.Some? && ToUpper(observed.value) != "OFF" ==>
              StatsAfterQuery(observed, saved) == Some(ToUpper(observed.value))
    ensures saved.None? && (observed.None? || ToUpper(observed.value) == "OFF") ==>
              StatsAfterQuery(observed, saved) == observed
    ensures saved.Some? && (observed.None? || ToUpper(observed.value) == "OFF") ==>
              StatsAfterQuery(observed, saved) == saved
  {
  }

  /**
   * The remembered setting is never cleared: once a toggle has switched the setting off, every
   * later query that finds it `OFF` or cannot read it keeps the remembered value and writes it
   * back, replacing whatever the server held.
   */
  lemma StaleSettingWrittenBack(observed: Option<string>, saved: Option<string>)
    requires saved.Some?
    requires observed.None? || ToUpper(observed.value) == "OFF"
    ensures SavedAfterDisable(observed, saved) == saved
    ensures StatsAfterQuery(observed, saved) == saved
    ensures observed != saved ==> StatsAfterQuery(observed, saved) != observed
  {
  }

  class InnoDbStatsToggle {
    const adapter: Adapter
    /** The setting to write back after a query, once the toggle has switched it off. */
    var saved: Option<string>

    constructor (adapter: Adapter)
      ensures this.adapter == adapter && saved == None
    {
      this.adapter := adapter;
      saved := None;
    }

    /** Switches the statistics off, remembering a setting that was not already `OFF`; a failed read is ignored. */
    method Disable()
      modifies this`saved, adapter`statsOnMetadata
      ensures saved == SavedAfterDisable(old(adapter.statsOnMetadata), old(saved))
      ensures adapter.statsOnMetadata ==
        if old(adapter.statsOnMetadata).Some? && ToUpper(old(adapter.statsOnMetadata).value) != "OFF"
        then Some("OFF") else old(adapter.statsOnMetadata)
    {
      var value := adapter.ShowStatsOnMetadata();
      if value.Some? {
        var upper := ToUpper(value.value);
        if upper != "OFF" {
          saved := Some(upper);
          adapter.SetStatsOnMetadata("OFF");
        }
      }
    }

    /** Writes the remembered setting back, if there is one. */
    method Restore()
      modifies adapter`statsOnMetadata
      ensures adapter.statsOnMetadata == if saved.Some? then saved else old(adapter.statsOnMetadata)
    {
      var value := saved;
      if value.Some? {
        adapter.SetStatsOnMetadata(value.value);
      }
    }

    /** Runs `q` with the statistics switched off, restoring them on both paths. */
    method RunWithStatsOff(q: Query, origin: string) returns (r: Result<seq<Row>, Error>)
      modifies this`saved, adapter`statsOnMetadata
      ensures r == QueryOutcome(origin, adapter.catalog(q))
      ensures saved == SavedAfterDisable(old(adapter.statsOnMetadata), old(saved))
      ensures adapter.statsOnMetadata == StatsAfterQuery(old(adapter.statsOnMetadata), old(saved))
    {
      Disable();
      var answer := adapter.RunQuery(q);
      Restore();
      match answer
      case Success(rows) =>
        r := Success(rows);
      case Failure(message) =>
        r := Failure(ErrorException(origin + ": " + message));
    }
  }
}
