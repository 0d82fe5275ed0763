/** The function's entry point (`lambda_handler`) and its two helpers: the
    status report to the provisioning callback (`exit_status`) and the bucket
    purge on stack deletion (`empty_bucket`). External inputs (the resolved
    playlist, every fetch outcome, the purge outcome) come in an
    `Environment`; the callback is recorded, not sent. */
module Handler {
  import opened Wrappers
  import opened Numbers
  import opened Strings
  import opened VideoIds
  import opened Layout
  import opened Indexer
  import opened Retry

  /** The two status tokens of the callback protocol. */
  datatype Status = Success | Failed

  /** The invocation event: the fields this code reads, each possibly absent. */
  datatype Event = Event(requestType: Option<string>, resourceType: Option<string>, physicalResourceId: Option<string>)

  /** One callback to the provisioning system: the status, an empty data map
      (not represented) and the physical resource identifier when the event has one. */
  datatype Callback = Callback(status: Status, physicalResourceId: Option<string>)

  /** What the outside world does during one invocation: the video URLs the
      playlist resolves to (already parsed), the outcome of the external calls
      of try `k` of playlist entry `j` as `fetch(j, k)`, and whether purging
      the bucket succeeds. */
  datatype Environment = Environment(playlist: seq<ParsedUrl>, fetch: (nat, nat) -> Attempt, purgeOk: bool)

  /** The observable effect of one invocation: the handler's return (or the
      exception that escapes it), the callbacks sent, one retry trace per
      playlist entry that was attempted, and the store afterwards. */
  datatype Invocation = Invocation(ret: PyResult<Status>, callbacks: seq<Callback>, traces: seq<Trace<Store>>, store: Store)

  const CustomResourceMarker := "CustomResource"
  const DeleteRequest := "Delete"

  /** `exit_status`: send a callback when the event's resource type contains
      the custom-resource marker at a position greater than 0, and return the
      status unchanged. A resource type that starts with the marker (position 0)
      gets no callback. */
  function ExitStatus(ev: Event, status: Status): (r: (Status, seq<Callback>))
    ensures r.0 == status
    ensures |r.1| <= 1
    ensures |r.1| == 1 <==>
              && ev.resourceType.Some?
              && (exists j :: OccursAt(ev.resourceType.value, CustomResourceMarker, j))
              && !StartsWith(ev.resourceType.value, CustomResourceMarker)
    ensures forall c :: c in r.1 ==> c == Callback(status, ev.physicalResourceId)
  {
    if ev.resourceType.Some? && Find(ev.resourceType.value, CustomResourceMarker) > 0 then
      (status, [Callback(status, ev.physicalResourceId)])
    else
      (status, [])
  }

  /** `empty_bucket`: when a bucket is configured, delete every object in it;
      if that fails, report FAILED through `exit_status` (whose return value
      the caller drops). The index table is never touched. */
  function EmptyBucket(cfg: Config, ev: Event, purgeOk: bool, st: Store): (r: (seq<Callback>, Store))
    ensures r.1.table == st.table
    ensures cfg.mediaBucket != "" && purgeOk ==> r.1.objects == map[] && r.0 == []
    ensures cfg.mediaBucket == "" || !purgeOk ==> r.1 == st
    ensures r.0 == (if cfg.mediaBucket != "" && !purgeOk then ExitStatus(ev, Failed).1 else [])
  {
    if cfg.mediaBucket != "" then
      if purgeOk then ([], st.(objects := map[]))
      else (ExitStatus(ev, Failed).1, st)
    else ([], st)
  }

  /** The playlist entries the handler visits: `video_urls[:endoflist]` with
      `endoflist = min(len(video_urls), numberOfYTVideos)`. For a negative
      count Python's slice drops that many entries from the end. */
  function Truncate(urls: seq<ParsedUrl>, n: int): (r: seq<ParsedUrl>)
    ensures n >= 0 ==> r == urls[..Min(|urls|, n)]
    ensures n < 0 ==> r == urls[..Max(0, |urls| + n)]
  {
    var endOfList := if |urls| < n then |urls| else n;
    SlicePrefix(urls, endOfList)
  }

  /** The outcome of `ytvideoid` for every entry. The function is pure, so
      computing them up front is the same as computing each just before its
      entry is processed, as the loop does. */
  function EntryIds(urls: seq<ParsedUrl>): (r: seq<PyResult<Option<string>>>)
    ensures |r| == |urls|
    ensures forall i :: 0 <= i < |urls| ==> r[i] == VideoId(urls[i])
  {
    seq(|urls|, i requires 0 <= i < |urls| => VideoId(urls[i]))
  }

  /** One try of playlist entry `j` for the identifier `id`: `downloadYTAudio`
      with that try's external outcomes. */
  function Step(cfg: Config, id: Option<string>, fetch: (nat, nat) -> Attempt, j: nat): (Store, nat) -> (PyResult<int>, Store)
  {
    (st: Store, k: nat) => DownloadAudio(cfg, id, fetch(j, k), st)
  }

  /** The retry loop run for playlist entry `j`, counter starting at 1. */
  function EntryTrace(cfg: Config, id: Option<string>, fetch: (nat, nat) -> Attempt, j: nat, st: Store): Trace<Store>
  {
    Loop(cfg.retryCeiling, Step(cfg, id, fetch, j), st, 1)
  }

  predicate Succeeded(t: Trace<Store>)
  {
    t.WellFormed() && t.Final() == Returned(0)
  }

  /** No try of an entry replaces an existing record. */
  lemma {:induction false} EntryKeeps(cfg: Config, id: Option<string>, fetch: (nat, nat) -> Attempt, j: nat, st: Store)
    ensures Keeps(st, EntryTrace(cfg, id, fetch, j, st).FinalState())
  {
    var t := EntryTrace(cfg, id, fetch, j, st);
    var step := Step(cfg, id, fetch, j);
    LoopFollows(cfg.retryCeiling, step, st, 1);
    var i := 0;
    while i < |t.results|
      invariant 0 <= i <= |t.results|
      invariant Keeps(st, t.states[i])
    {
      assert step(t.states[i], 1 + i) == (t.results[i], t.states[i + 1]);
      assert Keeps(t.states[i], DownloadAudio(cfg, id, fetch(j, 1 + i), t.states[i]).1);
      KeepsTransitive(st, t.states[i], t.states[i + 1]);
      i := i + 1;
    }
  }

  /** Each trace is entered with the store its predecessor left (the first with `st`). */
  predicate Chained(ts: seq<Trace<Store>>, st: Store)
  {
    && (forall i :: 0 <= i < |ts| ==> ts[i].WellFormed())
    && (|ts| > 0 ==> ts[0].states[0] == st)
    && (forall i :: 0 < i < |ts| ==> ts[i].states[0] == ts[i - 1].FinalState())
  }

  /** What runs one playlist entry: given its identifier, its position and the
      store, the trace of its retry loop. */
  type Runner = (Option<string>, nat, Store) -> Trace<Store>

  /** A runner whose traces start from the store given and never replace a record. */
  ghost predicate SoundRunner(run: Runner)
  {
    forall id, j, st :: run(id, j, st).WellFormed() && run(id, j, st).states[0] == st && Keeps(st, run(id, j, st).FinalState())
  }

  lemma AllEntriesKeep(cfg: Config, fetch: (nat, nat) -> Attempt)
    ensures forall id, j, st :: Keeps(st, EntryTrace(cfg, id, fetch, j, st).FinalState())
  {
    forall id, j, st
      ensures Keeps(st, EntryTrace(cfg, id, fetch, j, st).FinalState())
    {
      EntryKeeps(cfg, id, fetch, j, st);
    }
  }

  /** The runner of `lambda_handler`: the retry loop around `downloadYTAudio`. */
  function EntryRunner(cfg: Config, fetch: (nat, nat) -> Attempt): (run: Runner)
    ensures SoundRunner(run)
  {
    AllEntriesKeep(cfg, fetch);
    (id: Option<string>, j: nat, st: Store) => EntryTrace(cfg, id, fetch, j, st)
  }

  /** `t` is the run of entry `k`, whose identifier was computed without raising. */
  ghost predicate IsEntryTrace(run: Runner, ids: seq<PyResult<Option<string>>>, k: nat, t: Trace<Store>)
  {
    && k < |ids|
    && |t.states| > 0
    && ids[k].Returned?
    && t == run(ids[k].value, k, t.states[0])
  }

  /** The i-th trace is the run of entry `j + i`. */
  ghost predicate Visits(run: Runner, ids: seq<PyResult<Option<string>>>, j: nat, ts: seq<Trace<Store>>)
  {
    forall i :: 0 <= i < |ts| ==> IsEntryTrace(run, ids, j + i, ts[i])
  }

  predicate AllSucceeded(ts: seq<Trace<Store>>)
  {
    forall i :: 0 <= i < |ts| ==> Succeeded(ts[i])
  }

  lemma PrependVisits(run: Runner, ids: seq<PyResult<Option<string>>>, j: nat, t: Trace<Store>, rest: seq<Trace<Store>>)
    requires IsEntryTrace(run, ids, j, t)
    requires Visits(run, ids, j + 1, rest)
    ensures Visits(run, ids, j, [t] + rest)
  {
    var ts := [t] + rest;
    forall i | 0 <= i < |ts|
      ensures IsEntryTrace(run, ids, j + i, ts[i])
    {
      if i == 0 {
        assert ts[i] == t;
      } else {
        var k := i - 1;
        assert ts[i] == rest[k];
        assert j + 1 + k == j + i;
        assert IsEntryTrace(run, ids, j + 1 + k, rest[k]);
      }
    }
  }

  lemma PrependSucceeded(t: Trace<Store>, rest: seq<Trace<Store>>)
    requires Succeeded(t)
    ensures AllSucceeded([t] + rest) <==> AllSucceeded(rest)
    ensures (forall i :: 0 <= i < |rest| - 1 ==> Succeeded(rest[i])) ==>
              forall i :: 0 <= i < |[t] + rest| - 1 ==> Succeeded(([t] + rest)[i])
  {
    var ts := [t] + rest;
    assert forall i :: 0 < i < |ts| ==> ts[i] == rest[i - 1];
    if AllSucceeded(rest) {
      assert forall i :: 0 <= i < |ts| ==> Succeeded(ts[i]);
    }
    if AllSucceeded(ts) {
      forall i | 0 <= i < |rest|
        ensures Succeeded(rest[i])
      {
        assert rest[i] == ts[i + 1];
      }
    }
  }

  lemma PrependChained(t: Trace<Store>, rest: seq<Trace<Store>>, st: Store)
    requires t.WellFormed() && t.states[0] == st
    requires Chained(rest, t.FinalState())
    ensures Chained([t] + rest, st)
  {
    var ts := [t] + rest;
    forall i | 0 < i < |ts|
      ensures ts[i].states[0] == ts[i - 1].FinalState()
    {
      assert ts[i] == rest[i - 1];
      if i > 1 {
        assert ts[i - 1] == rest[i - 2];
      }
    }
  }

  /** The result of the playlist loop from some entry on. */
  datatype Drive = Drive(traces: seq<Trace<Store>>, verdict: PyResult<Status>, store: Store)

  /** The `for` loop of `lambda_handler` from entry `j` on: take the entry's
      identifier outcome (an exception there escapes the handler, since it is
      computed outside the try block), run the entry, and stop with FAILED at
      the first entry that still fails; SUCCESS once every entry succeeded. */
  function DriveFrom(ids: seq<PyResult<Option<string>>>, run: Runner, st: Store, j: nat): (d: Drive)
    requires j <= |ids|
    requires SoundRunner(run)
    ensures |d.traces| <= |ids| - j
    ensures forall i :: 0 <= i < |d.traces| ==> d.traces[i].WellFormed()
    // fail-fast: every entry before the last attempted one succeeded
    ensures forall i :: 0 <= i < |d.traces| - 1 ==> Succeeded(d.traces[i])
    ensures d.verdict == Returned(Success) <==> |d.traces| == |ids| - j && AllSucceeded(d.traces)
    ensures d.verdict == Returned(Failed) ==> |d.traces| > 0 && !Succeeded(d.traces[|d.traces| - 1])
    ensures d.verdict.Raised? ==> j + |d.traces| < |ids| && ids[j + |d.traces|].Raised?
    // the next identifier is computed only after every earlier entry succeeded
    ensures d.verdict.Raised? ==> AllSucceeded(d.traces)
    ensures Keeps(st, d.store)
    decreases |ids| - j
  {
    if j == |ids| then Drive([], Returned(Success), st)
    else
      match ids[j]
      case Raised => Drive([], Raised, st)
      case Returned(id) =>
        var t := run(id, j, st);
        assert t.WellFormed() && t.states[0] == st && Keeps(st, t.FinalState());
        if Succeeded(t) then
          var rest := DriveFrom(ids, run, t.FinalState(), j + 1);
          KeepsTransitive(st, t.FinalState(), rest.store);
          PrependSucceeded(t, rest.traces);
          var ts := [t] + rest.traces;
          assert |rest.traces| > 0 ==> ts[|ts| - 1] == rest.traces[|rest.traces| - 1];
          Drive(ts, rest.verdict, rest.store)
        else
          assert !AllSucceeded([t]) by { assert [t][0] == t; }
          Drive([t], Returned(Failed), t.FinalState())
  }

  /** The traces of the playlist loop: the i-th is the run of entry `j + i`,
      entered with the store the previous entry left, and the loop ends with
      the store the last one left. */
  lemma {:induction false} DriveShape(ids: seq<PyResult<Option<string>>>, run: Runner, st: Store, j: nat)
    requires j <= |ids|
    requires SoundRunner(run)
    ensures var d := DriveFrom(ids, run, st, j);
            && Visits(run, ids, j, d.traces)
            && Chained(d.traces, st)
            && d.store == if |d.traces| == 0 then st else d.traces[|d.traces| - 1].FinalState()
    decreases |ids| - j
  {
    if j < |ids| && ids[j].Returned? {
      var t := run(ids[j].value, j, st);
      if Succeeded(t) {
        var rest := DriveFrom(ids, run, t.FinalState(), j + 1);
        DriveShape(ids, run, t.FinalState(), j + 1);
        PrependVisits(run, ids, j, t, rest.traces);
        PrependChained(t, rest.traces, st);
        assert DriveFrom(ids, run, st, j).traces == [t] + rest.traces;
      }
    }
  }

  predicate IsDelete(ev: Event)
  {
    ev.requestType == Some(DeleteRequest)
  }

  /** `lambda_handler`. */
  function LambdaHandler(cfg: Config, ev: Event, env: Environment, st: Store): (inv: Invocation)
    // deletion: purge the bucket, never index, always report SUCCESS last
    ensures IsDelete(ev) ==> inv.ret == Returned(Success) && inv.traces == [] && inv.store.table == st.table
    ensures IsDelete(ev) && |inv.callbacks| > 0 ==> inv.callbacks[|inv.callbacks| - 1].status == Success
    ensures IsDelete(ev) ==>
              && inv.store == EmptyBucket(cfg, ev, env.purgeOk, st).1
              && inv.callbacks == EmptyBucket(cfg, ev, env.purgeOk, st).0 + ExitStatus(ev, Success).1
    // an empty playlist URL is a successful no-op
    ensures !IsDelete(ev) && cfg.playListUrl == "" ==> inv.ret == Returned(Success) && inv.traces == [] && inv.store == st
    // a status is reported through the callback, an escaping exception is not
    ensures inv.ret.Raised? ==> inv.callbacks == []
    ensures !IsDelete(ev) && inv.ret.Returned? ==> inv.callbacks == ExitStatus(ev, inv.ret.value).1
    // records already indexed are never replaced
    ensures Keeps(st, inv.store)
  {
    if IsDelete(ev) then
      var (purgeCallbacks, purged) := EmptyBucket(cfg, ev, env.purgeOk, st);
      var (status, callbacks) := ExitStatus(ev, Success);
      Invocation(Returned(status), purgeCallbacks + callbacks, [], purged)
    else if cfg.playListUrl == "" then
      var (status, callbacks) := ExitStatus(ev, Success);
      Invocation(Returned(status), callbacks, [], st)
    else
      var d := DriveFrom(EntryIds(Truncate(env.playlist, cfg.numberOfVideos)), EntryRunner(cfg, env.fetch), st, 0);
      match d.verdict
      case Raised => Invocation(Raised, [], d.traces, d.store)
      case Returned(s) =>
        var (status, callbacks) := ExitStatus(ev, s);
        Invocation(Returned(status), callbacks, d.traces, d.store)
  }

  /** A playlist run visits a prefix of the truncated playlist in order, each
      entry with the store the previous one left; it is fail-fast (every entry
      before the last one attempted succeeded, and FAILED means the last one
      attempted still failed after its retries); SUCCESS means every entry of
      the truncated playlist succeeded; an entry that still fails makes the
      run report FAILED; an exception escapes only from computing the next
      entry's identifier, after every earlier entry succeeded. */
  lemma PlaylistRun(cfg: Config, ev: Event, env: Environment, st: Store)
    requires !IsDelete(ev) && cfg.playListUrl != ""
    ensures var inv := LambdaHandler(cfg, ev, env, st);
            var urls := Truncate(env.playlist, cfg.numberOfVideos);
            && |inv.traces| <= |urls|
            && Visits(EntryRunner(cfg, env.fetch), EntryIds(urls), 0, inv.traces)
            && Chained(inv.traces, st)
            && inv.store == (if |inv.traces| == 0 then st else inv.traces[|inv.traces| - 1].FinalState())
            && (forall i :: 0 <= i < |inv.traces| - 1 ==> Succeeded(inv.traces[i]))
            && (inv.ret == Returned(Success) <==> |inv.traces| == |urls| && AllSucceeded(inv.traces))
            && (inv.ret == Returned(Failed) ==> |inv.traces| > 0 && !Succeeded(inv.traces[|inv.traces| - 1]))
            && (inv.ret.Raised? ==> |inv.traces| < |urls| && VideoId(urls[|inv.traces|]).Raised?)
            && (inv.ret.Raised? ==> AllSucceeded(inv.traces))
            && (|inv.traces| > 0 && !Succeeded(inv.traces[|inv.traces| - 1]) ==> inv.ret == Returned(Failed))
  {
    var urls := Truncate(env.playlist, cfg.numberOfVideos);
    DriveShape(EntryIds(urls), EntryRunner(cfg, env.fetch), st, 0);
  }

  /** Retry bound, end to end: when the first entry has an identifier and its
      download fails on every try, the handler reports FAILED after exactly
      `max(1, RETRY + 1)` tries of that entry and never reaches the second. */
  lemma FailingFirstEntry(cfg: Config, ev: Event, env: Environment, st: Store)
    requires !IsDelete(ev) && cfg.playListUrl != ""
    requires cfg.numberOfVideos > 0 && |env.playlist| > 0
    requires VideoId(env.playlist[0]).Returned? && VideoId(env.playlist[0]).value.Some?
    requires forall k :: !env.fetch(0, k).constructorFails && !env.fetch(0, k).downloadOk
    ensures var inv := LambdaHandler(cfg, ev, env, st);
            && inv.ret == Returned(Failed)
            && |inv.traces| == 1
            && inv.traces[0].Attempts() == Max(1, cfg.retryCeiling + 1)
  {
    var urls := Truncate(env.playlist, cfg.numberOfVideos);
    var ids := EntryIds(urls);
    assert urls[0] == env.playlist[0];
    var id := ids[0].value;
    var step := Step(cfg, id, env.fetch, 0);
    forall x: Store, k: nat
      ensures Retried(step(x, k).0)
    {
      assert step(x, k) == DownloadAudio(cfg, id, env.fetch(0, k), x);
    }
    AlwaysFailingAttempts(cfg.retryCeiling, step, st, 1);
  }

  /** A first entry whose very first try raises (an unrecognised URL, whose
      missing identifier fails the watch-URL concatenation, or a video object
      that cannot be built) is caught by the `try` around the retry loop: it is
      tried once, without retry, the store is untouched, and the handler
      reports FAILED. */
  lemma {:induction false} FirstTryRaises(cfg: Config, ev: Event, env: Environment, st: Store)
    requires !IsDelete(ev) && cfg.playListUrl != ""
    requires cfg.numberOfVideos > 0 && |env.playlist| > 0
    requires VideoId(env.playlist[0]).Returned?
    requires VideoId(env.playlist[0]).value.None? || env.fetch(0, 1).constructorFails
    ensures var inv := LambdaHandler(cfg, ev, env, st);
            && inv.ret == Returned(Failed)
            && inv.callbacks == ExitStatus(ev, Failed).1
            && |inv.traces| == 1
            && inv.traces[0].Attempts() == 1
            && inv.traces[0].Final().Raised?
            && inv.store == st
  {
    var urls := Truncate(env.playlist, cfg.numberOfVideos);
    var ids := EntryIds(urls);
    assert urls[0] == env.playlist[0];
    var id := ids[0].value;
    var step := Step(cfg, id, env.fetch, 0);
    assert step(st, 1) == DownloadAudio(cfg, id, env.fetch(0, 1), st);
    FirstCallDecides(cfg.retryCeiling, step, st, 1);
    assert EntryRunner(cfg, env.fetch)(id, 0, st) == EntryTrace(cfg, id, env.fetch, 0, st);
  }

  /** An unrecognised first URL: `ytvideoid` returns None and the run fails at once. */
  lemma UnrecognisedFirstEntry(cfg: Config, ev: Event, env: Environment, st: Store)
    requires !IsDelete(ev) && cfg.playListUrl != ""
    requires cfg.numberOfVideos > 0 && |env.playlist| > 0
    requires VideoId(env.playlist[0]) == Returned(None)
    ensures var inv := LambdaHandler(cfg, ev, env, st);
            inv.ret == Returned(Failed) && |inv.traces| == 1 && inv.traces[0].Attempts() == 1 && inv.store == st
  {
    FirstTryRaises(cfg, ev, env, st);
  }

  /** A first video whose object cannot be built: the run fails at once. */
  lemma UnbuildableFirstEntry(cfg: Config, ev: Event, env: Environment, st: Store)
    requires !IsDelete(ev) && cfg.playListUrl != ""
    requires cfg.numberOfVideos > 0 && |env.playlist| > 0
    requires VideoId(env.playlist[0]).Returned? && VideoId(env.playlist[0]).value.Some?
    requires env.fetch(0, 1).constructorFails
    ensures var inv := LambdaHandler(cfg, ev, env, st);
            inv.ret == Returned(Failed) && |inv.traces| == 1 && inv.traces[0].Attempts() == 1 && inv.store == st
  {
    FirstTryRaises(cfg, ev, env, st);
  }

  /** The identifiers of the entries from `j` on. */
  function NamedFrom(ids: seq<PyResult<Option<string>>>, j: nat): set<string>
  {
    set i | j <= i < |ids| && ids[i].Returned? && ids[i].value.Some? :: ids[i].value.value
  }

  /** One entry whose external calls all succeed: a single try, which
      returns 0 and leaves the table with exactly one more key at most, its own. */
  lemma CleanEntry(cfg: Config, id: string, fetch: (nat, nat) -> Attempt, j: nat, st: Store)
    requires forall k :: Clean(fetch(j, k))
    ensures var t := EntryTrace(cfg, Some(id), fetch, j, st);
            && t.Attempts() == 1
            && Succeeded(t)
            && t.FinalState().table.Keys == st.table.Keys + {id}
  {
    var step := Step(cfg, Some(id), fetch, j);
    var (o, s1) := step(st, 1);
    assert (o, s1) == DownloadAudio(cfg, Some(id), fetch(j, 1), st);
    assert Clean(fetch(j, 1));
    FirstCallDecides(cfg.retryCeiling, step, st, 1);
  }

  /** A runner under which every entry with an identifier succeeds on its one
      try and adds exactly its own key. */
  ghost predicate CleanRunner(run: Runner)
  {
    forall id: string, j, st :: run(Some(id), j, st).Attempts() == 1 && Succeeded(run(Some(id), j, st)) &&
      run(Some(id), j, st).FinalState().table.Keys == st.table.Keys + {id}
  }

  lemma EntryRunnerClean(cfg: Config, fetch: (nat, nat) -> Attempt)
    requires forall i, k :: Clean(fetch(i, k))
    ensures CleanRunner(EntryRunner(cfg, fetch))
  {
    forall id: string, j, st
      ensures var t := EntryRunner(cfg, fetch)(Some(id), j, st);
              t.Attempts() == 1 && Succeeded(t) && t.FinalState().table.Keys == st.table.Keys + {id}
    {
      CleanEntry(cfg, id, fetch, j, st);
    }
  }

  /** When every entry has an identifier and every entry runs clean, each
      entry takes one try, the run succeeds, and the table ends up with exactly
      the old keys plus the entries' identifiers. */
  lemma {:induction false} CleanDrive(ids: seq<PyResult<Option<string>>>, run: Runner, st: Store, j: nat)
    requires j <= |ids|
    requires forall i :: j <= i < |ids| ==> ids[i].Returned? && ids[i].value.Some?
    requires SoundRunner(run) && CleanRunner(run)
    ensures var d := DriveFrom(ids, run, st, j);
            && d.verdict == Returned(Success)
            && (forall i :: 0 <= i < |d.traces| ==> d.traces[i].Attempts() == 1)
            && d.store.table.Keys == st.table.Keys + NamedFrom(ids, j)
    decreases |ids| - j
  {
    if j < |ids| {
      var id := ids[j].value.value;
      var t := run(Some(id), j, st);
      var s1 := t.FinalState();
      CleanDrive(ids, run, s1, j + 1);
      var rest := DriveFrom(ids, run, s1, j + 1);
      var d := DriveFrom(ids, run, st, j);
      assert d.traces == [t] + rest.traces;
      assert forall i :: 0 < i < |d.traces| ==> d.traces[i] == rest.traces[i - 1];
      assert NamedFrom(ids, j) == {id} + NamedFrom(ids, j + 1) by {
        forall x | x in NamedFrom(ids, j)
          ensures x in {id} + NamedFrom(ids, j + 1)
        {
          var i :| j <= i < |ids| && ids[i].Returned? && ids[i].value.Some? && ids[i].value.value == x;
          if i > j {
            assert x in NamedFrom(ids, j + 1);
          }
        }
      }
    }
  }

  /** Scenarios of a clean run: SUCCESS with one try per entry, the table
      gains exactly the identifiers of the visited entries and keeps every
      existing record; a second run over videos that are all indexed already
      leaves the table exactly as it was. */
  lemma CleanRun(cfg: Config, ev: Event, env: Environment, st: Store)
    requires !IsDelete(ev) && cfg.playListUrl != ""
    requires var urls := Truncate(env.playlist, cfg.numberOfVideos);
             forall i :: 0 <= i < |urls| ==> VideoId(urls[i]).Returned? && VideoId(urls[i]).value.Some?
    requires forall i, k :: Clean(env.fetch(i, k))
    ensures var inv := LambdaHandler(cfg, ev, env, st);
            var ids := EntryIds(Truncate(env.playlist, cfg.numberOfVideos));
            && inv.ret == Returned(Success)
            && (forall i :: 0 <= i < |inv.traces| ==> inv.traces[i].Attempts() == 1)
            && inv.store.table.Keys == st.table.Keys + NamedFrom(ids, 0)
            && Keeps(st, inv.store)
            && (NamedFrom(ids, 0) <= st.table.Keys ==> inv.store.table == st.table)
  {
    var ids := EntryIds(Truncate(env.playlist, cfg.numberOfVideos));
    EntryRunnerClean(cfg, env.fetch);
    CleanDrive(ids, EntryRunner(cfg, env.fetch), st, 0);
  }

  /** A Delete request whose purge fails still ends with SUCCESS: the purge
      failure is reported by a FAILED callback, then the handler reports
      SUCCESS by a second one, and no playlist entry is touched. */
  lemma DeleteWithFailedPurge(cfg: Config, ev: Event, env: Environment, st: Store)
    requires IsDelete(ev) && cfg.mediaBucket != "" && !env.purgeOk
    requires ev.resourceType.Some? && Find(ev.resourceType.value, CustomResourceMarker) > 0
    ensures var inv := LambdaHandler(cfg, ev, env, st);
            && inv.ret == Returned(Success)
            && inv.callbacks == [Callback(Failed, ev.physicalResourceId), Callback(Success, ev.physicalResourceId)]
            && inv.traces == []
            && inv.store == st
  {
  }

  /** Where the marker sits decides the callback: after position 0 it fires,
      at position 0 or absent it does not. */
  lemma {:induction false} CallbackExamples()
    ensures |ExitStatus(Event(None, Some("AWS::CloudFormation::CustomResource"), None), Success).1| == 1
    ensures ExitStatus(Event(None, Some("CustomResource"), None), Failed).1 == []
    ensures ExitStatus(Event(None, None, None), Failed).1 == []
  {
    var rt := "AWS::CloudFormation::CustomResource";
    assert OccursAt(rt, CustomResourceMarker, 21);
    assert rt[0] != CustomResourceMarker[0];
    assert OccursAt("CustomResource", CustomResourceMarker, 0);
  }
}
