/**
 * The sync orchestrator: for each configured provider it fetches the feed with retries,
 * rejects a response without data, normalises the records and saves them; the providers are
 * synchronised one after the other and a failing provider does not stop the others.
 */
module JobSync {
  import opened Wrappers
  import opened Text
  import opened OrderedMaps
  import opened Payloads
  import opened Jobs
  import opened BaseTransformer
  import opened Transformers
  import opened HttpRetry
  import opened Logging
  import opened Repository
  import opened JobOffers
  import opened Steps

  /** The configuration values the service reads. */
  datatype Config = Config(provider1Url: string, provider2Url: string, schedulerEnabled: bool)

  /** The outcomes of successive GET requests to each URL; a response without a body is
      `Ok(None)`. */
  type Network = string -> (nat -> Attempt<Option<Payload>>)

  /** The database's verdicts on the upsert statements of each provider's save. */
  type Database = string -> (nat -> BatchOutcome)

  /** The fetch is attempted at most three times, pausing 1000 ms times the attempt number. */
  const Attempts: int := 3
  const RetryDelay: int := 1000

  function NoData(provider: string): string {
    "No data received from " + provider
  }

  /** The message of what the retry executor throws: the last error, or `undefined`. */
  function Thrown(e: Option<string>): string {
    if e.Some? then e.value else "undefined"
  }

  /** The retry executor's warnings, as logged. */
  function WarnEntries(ws: seq<Warning>): (log: seq<LogEntry>)
    ensures |log| == |ws|
    ensures forall i :: 0 <= i < |ws| ==> log[i] == Warn(WarningText(ws[i]))
  {
    seq(|ws|, i requires 0 <= i < |ws| => Warn(WarningText(ws[i])))
  }

  function CompletedLog(provider: string, c: SaveCounts): LogEntry {
    Info("Sync completed for " + provider + ": " + NatToString(c.saved) + " new, " + NatToString(c.updated)
         + " updated, " + NatToString(c.errors) + " errors")
  }

  /** One provider's sync: the table it leaves, its result and the lines it logs. */
  type SyncStep = Step<Table, Result<SaveCounts, string>, LogEntry>

  /** A sync that failed with `e` after logging `start`: the error is logged and rethrown. */
  function Failed(t: Table, provider: string, start: seq<LogEntry>, e: string): SyncStep {
    Step(t, Failure(e), start + [Error("Error syncing " + provider + ":", e)])
  }

  /** `syncProvider(provider, url)` from table `t`, with `fetches` the outcomes of the GET
      requests to its URL and `outcomes` the database's verdicts on its upsert. */
  function ProviderSync(t: Table, provider: string, fetches: nat -> Attempt<Option<Payload>>,
                        outcomes: nat -> BatchOutcome, now: Timestamp, parse: DateParser): SyncStep
  {
    var run := Retry(fetches, Attempts, RetryDelay);
    var start := [Info("Starting sync for " + provider)] + WarnEntries(run.warnings);
    match run.result
    case Failure(e) => Failed(t, provider, start, Thrown(e))
    case Success(response) =>
      if response.None? then Failed(t, provider, start, NoData(provider))
      else
      match Dispatched(provider, parse, response.value)
      case Failure(e) => Failed(t, provider, start, e)
      case Success(jobs) =>
        var (u, counts) := SaveJobsResult(t, jobs, now, outcomes);
        var save := SaveLog(BulkUpsertResult(t, Stamp(jobs, now), now, outcomes).1);
        Step(u, Success(counts), start + [save, CompletedLog(provider, counts)])
  }

  /** What one provider's sync does. The fetch is tried at most three times; when every
      attempt fails, the sync fails with the last attempt's error. A response without data
      fails with the no-data error. Either way nothing is transformed or saved, so the table
      is unchanged. Otherwise the dispatcher's records for the body are saved, and the sync
      succeeds with the save's counts. A failure is logged, under the provider's name, as the
      last line; the first line announces the sync. */
  lemma ProviderSyncOutcome(t: Table, provider: string, fetches: nat -> Attempt<Option<Payload>>,
                            outcomes: nat -> BatchOutcome, now: Timestamp, parse: DateParser)
    requires IsProviderSupported(provider)
    ensures var step := ProviderSync(t, provider, fetches, outcomes, now, parse);
            var run := Retry(fetches, Attempts, RetryDelay);
            && |step.log| >= 2 && step.log[0] == Info("Starting sync for " + provider)
            && (run.result.Failure? ==>
                  FailedUpTo(fetches, Attempts) && step.state == t
                  && step.result == Failure(MessageOf(fetches(Attempts))))
            && (run.result == Success(None) ==> step.state == t && step.result == Failure(NoData(provider)))
            && (step.result.Success? <==> run.result.Success? && run.result.value.Some?)
            && (step.result.Success? ==>
                  var jobs := Dispatched(provider, parse, run.result.value.value).value;
                  (step.state, step.result.value) == SaveJobsResult(t, jobs, now, outcomes))
            && (step.result.Failure? ==>
                  step.state == t && step.log[|step.log| - 1] == Error("Error syncing " + provider + ":", step.result.error))
  {
    RetryOutcome(fetches, Attempts, RetryDelay);
  }

  /** The `(provider, url)` entries of the provider map, in its order. */
  function Entries(m: OrderedMap<string, string>): (es: seq<(string, string)>)
    requires m.Valid()
    ensures |es| == |m.keys|
    ensures forall i :: 0 <= i < |es| ==> es[i].0 == m.keys[i] && m.Get(es[i].0) == Some(es[i].1)
  {
    seq(|m.keys|, i requires 0 <= i < |m.keys| => (m.keys[i], m.values[m.keys[i]]))
  }

  /** One provider's sync as a step over its `(provider, url)` entry. */
  function Syncer(network: Network, database: Database, now: Timestamp, parse: DateParser)
    : (Table, (string, string)) -> SyncStep
  {
    (t: Table, e: (string, string)) => ProviderSync(t, e.0, network(e.1), database(e.0), now, parse)
  }

  /** The syncs of the providers in `entries`, one after the other, from table `t`. */
  function AllSync(t: Table, entries: seq<(string, string)>, network: Network, database: Database,
                   now: Timestamp, parse: DateParser): Run<Table, Result<SaveCounts, string>, LogEntry>
  {
    RunAll(Syncer(network, database, now, parse), t, entries)
  }

  /** Every provider is synchronised, in order, from the table the earlier ones left, whether
      they failed or not; there is one result per provider. */
  lemma AllSyncEach(t: Table, entries: seq<(string, string)>, network: Network, database: Database,
                    now: Timestamp, parse: DateParser)
    ensures |AllSync(t, entries, network, database, now, parse).results| == |entries|
    ensures forall i :: 0 <= i < |entries| ==>
              AllSync(t, entries, network, database, now, parse).results[i]
              == ProviderSync(AllSync(t, entries[..i], network, database, now, parse).state,
                              entries[i].0, network(entries[i].1), database(entries[i].0), now, parse).result
  {
    RunAllEach(Syncer(network, database, now, parse), t, entries);
  }

  /** A provider that fails leaves the table as it found it, so the providers after it see
      what they would have seen without it. */
  lemma FailedProviderIsolated(t: Table, entries: seq<(string, string)>, network: Network, database: Database,
                               now: Timestamp, parse: DateParser, i: nat)
    requires i < |entries| && IsProviderSupported(entries[i].0)
    requires ProviderSync(AllSync(t, entries[..i], network, database, now, parse).state,
                          entries[i].0, network(entries[i].1), database(entries[i].0), now, parse).result.Failure?
    ensures AllSync(t, entries[..i + 1], network, database, now, parse).state
            == AllSync(t, entries[..i], network, database, now, parse).state
  {
    var before := AllSync(t, entries[..i], network, database, now, parse).state;
    RunAllSnoc(Syncer(network, database, now, parse), t, entries, i);
    ProviderSyncOutcome(before, entries[i].0, network(entries[i].1), database(entries[i].0), now, parse);
  }

  /** The errors logged after the join, one per failed provider, in provider order. */
  function FailureLogs(names: seq<string>, results: seq<Result<SaveCounts, string>>): seq<LogEntry>
    requires |names| == |results|
  {
    if results == [] then []
    else
      var n := |results| - 1;
      FailureLogs(names[..n], results[..n])
        + (if results[n].Failure? then [Error("Failed to sync " + names[n] + ":", results[n].error)] else [])
  }

  /** The join logs exactly the failed providers, each under its own name with its error. */
  lemma {:induction false} FailureLogsExact(names: seq<string>, results: seq<Result<SaveCounts, string>>, e: LogEntry)
    requires |names| == |results|
    ensures e in FailureLogs(names, results)
            <==> exists i :: 0 <= i < |results| && results[i].Failure?
                             && e == Error("Failed to sync " + names[i] + ":", results[i].error)
  {
    if results != [] {
      var n := |results| - 1;
      FailureLogsExact(names[..n], results[..n], e);
      if e in FailureLogs(names[..n], results[..n]) {
        var i :| 0 <= i < n && results[..n][i].Failure?
                 && e == Error("Failed to sync " + names[..n][i] + ":", results[..n][i].error);
        assert results[i].Failure? && e == Error("Failed to sync " + names[i] + ":", results[i].error);
      }
      if exists i :: 0 <= i < |results| && results[i].Failure?
                     && e == Error("Failed to sync " + names[i] + ":", results[i].error) {
        var i :| 0 <= i < |results| && results[i].Failure?
                 && e == Error("Failed to sync " + names[i] + ":", results[i].error);
        if i < n {
          assert results[..n][i] == results[i] && names[..n][i] == names[i];
        }
      }
    }
  }

  /** `results.forEach(...)` after the join: an error line for each rejected provider. */
  method LogFailures(names: seq<string>, results: seq<Result<SaveCounts, string>>) returns (failures: seq<LogEntry>)
    requires |names| == |results|
    ensures failures == FailureLogs(names, results)
  {
    failures := [];
    var k := 0;
    while k < |results|
      invariant k <= |results|
      invariant failures == FailureLogs(names[..k], results[..k])
    {
      assert names[..k + 1][..k] == names[..k] && results[..k + 1][..k] == results[..k];
      if results[k].Failure? {
        failures := failures + [Error("Failed to sync " + names[k] + ":", results[k].error)];
      }
      k := k + 1;
    }
    assert names[..k] == names && results[..k] == results;
  }

  class JobSyncService {
    /** The provider map: each provider's feed URL, in the order of `ProviderType`. */
    var providers: OrderedMap<string, string>
    const config: Config
    const offers: JobOffersService
    const transformer: TransformerService

    ghost predicate Valid()
      reads this, offers.repository, transformer
    {
      && providers.Valid()
      && providers.keys == ProviderTypes
      && providers.Get("provider1") == Some(config.provider1Url)
      && providers.Get("provider2") == Some(config.provider2Url)
      && offers.Valid()
      && transformer.Valid()
    }

    /** Builds the provider map from the configured URLs. */
    constructor(config: Config, offers: JobOffersService, transformer: TransformerService)
      requires offers.Valid() && transformer.Valid()
      ensures Valid()
      ensures this.config == config && this.offers == offers && this.transformer == transformer
    {
      this.config := config;
      this.offers := offers;
      this.transformer := transformer;
      var m := Empty<string, string>();
      m := m.Set("provider1", config.provider1Url);
      m := m.Set("provider2", config.provider2Url);
      providers := m;
    }

    /** `syncProvider(provider, url)`: the result stands for a resolved (`Success`) or
        rejected (`Failure`) promise. */
    method SyncProvider(provider: string, url: string, network: Network, database: Database,
                        now: Timestamp, parse: DateParser)
      returns (r: Result<SaveCounts, string>, log: seq<LogEntry>)
      requires Valid()
      modifies offers.repository
      ensures Valid()
      ensures var step := ProviderSync(old(offers.repository.table), provider, network(url), database(provider), now, parse);
              offers.repository.table == step.state && r == step.result && log == step.log
    {
      log := [Info("Starting sync for " + provider)];
      var response, sleeps, warnings := RequestWithRetry(network(url), Attempts, RetryDelay);
      log := log + WarnEntries(warnings);
      if response.Failure? {
        r := Failure(Thrown(response.error));
        log := log + [Error("Error syncing " + provider + ":", r.error)];
        return;
      }
      if response.value.None? {
        r := Failure(NoData(provider));
        log := log + [Error("Error syncing " + provider + ":", r.error)];
        return;
      }
      var jobs := transformer.Transform(provider, parse, response.value.value);
      if jobs.Failure? {
        r := Failure(jobs.error);
        log := log + [Error("Error syncing " + provider + ":", r.error)];
        return;
      }
      var counts, saveLog := offers.SaveJobs(jobs.value, now, database(provider));
      log := log + [saveLog, CompletedLog(provider, counts)];
      r := Success(counts);
    }

    /** `syncAllProviders()`: every provider in map order, then one error line per failed
        provider. It has no failure of its own. */
    method SyncAllProviders(network: Network, database: Database, now: Timestamp, parse: DateParser)
      returns (results: seq<Result<SaveCounts, string>>, log: seq<LogEntry>)
      requires Valid()
      modifies offers.repository
      ensures Valid()
      ensures |results| == |providers.keys| == 2
      ensures var run := AllSync(old(offers.repository.table), Entries(providers), network, database, now, parse);
              offers.repository.table == run.state && results == run.results
              && log == run.log + FailureLogs(providers.keys, results)
    {
      var entries := Entries(providers);
      results := [];
      var syncLog: seq<LogEntry> := [];
      var i := 0;
      while i < |entries|
        invariant i <= |entries| && Valid()
        invariant offers.repository.table == AllSync(old(offers.repository.table), entries[..i], network, database, now, parse).state
        invariant results == AllSync(old(offers.repository.table), entries[..i], network, database, now, parse).results
        invariant syncLog == AllSync(old(offers.repository.table), entries[..i], network, database, now, parse).log
      {
        RunAllSnoc(Syncer(network, database, now, parse), old(offers.repository.table), entries, i);
        var r, entryLog := SyncProvider(entries[i].0, entries[i].1, network, database, now, parse);
        results := results + [r];
        syncLog := syncLog + entryLog;
        i := i + 1;
      }
      assert entries[..i] == entries;
      AllSyncEach(old(offers.repository.table), entries, network, database, now, parse);
      var failures := LogFailures(providers.keys, results);
      log := syncLog + failures;
    }

    /** The scheduled run: one announcement, then one sync of all providers. */
    method HandleCron(network: Network, database: Database, now: Timestamp, parse: DateParser)
      returns (results: seq<Result<SaveCounts, string>>, log: seq<LogEntry>)
      requires Valid()
      modifies offers.repository
      ensures Valid()
      ensures |results| == |providers.keys|
      ensures var run := AllSync(old(offers.repository.table), Entries(providers), network, database, now, parse);
              offers.repository.table == run.state && results == run.results
              && log == [Info("Starting scheduled job sync")] + run.log + FailureLogs(providers.keys, results)
    {
      var syncLog;
      results, syncLog := SyncAllProviders(network, database, now, parse);
      log := [Info("Starting scheduled job sync")] + syncLog;
    }

    /** Start-up: one sync of all providers when the scheduler is enabled, nothing otherwise. */
    method OnModuleInit(network: Network, database: Database, now: Timestamp, parse: DateParser)
      returns (results: seq<Result<SaveCounts, string>>, log: seq<LogEntry>)
      requires Valid()
      modifies offers.repository
      ensures Valid()
      ensures |results| == if config.schedulerEnabled then |providers.keys| else 0
      ensures !config.schedulerEnabled ==> offers.repository.table == old(offers.repository.table) && results == [] && log == []
      ensures config.schedulerEnabled ==>
                var run := AllSync(old(offers.repository.table), Entries(providers), network, database, now, parse);
                offers.repository.table == run.state && results == run.results
                && log == [Info("Running initial job sync on startup")] + run.log + FailureLogs(providers.keys, results)
    {
      results, log := [], [];
      if config.schedulerEnabled {
        var syncLog;
        results, syncLog := SyncAllProviders(network, database, now, parse);
        log := [Info("Running initial job sync on startup")] + syncLog;
      }
    }
  }
}
