/** Worker liveness in time: a key with a time to live, refreshed on a ticker. Times are milliseconds. */
module Heartbeat {
  import opened ProcessingKeys

  const TTL: nat := 60_000
  const INTERVAL: nat := 20_000
  /** How long a canceled worker may go on draining before the process ends, unless configured otherwise. */
  const DEFAULT_GRACE: nat := 60_000

  const WORKER_KEY_PREFIX := "shieldscan:workers:"

  /** When the `n`-th tick (from 1) of a ticker created at `start` fires. */
  function TickAt(start: nat, n: nat): nat { start + n * INTERVAL }

  /** The last successful write among the registration and the first `n` ticks. */
  function LastWrite(registered: nat, start: nat, ok: seq<bool>, n: nat): (t: nat)
    requires n <= |ok|
  {
    if n == 0 then registered
    else if ok[n - 1] then TickAt(start, n)
    else LastWrite(registered, start, ok, n - 1)
  }

  class Beat {
    /** The instant at which the worker's key lapses, unless it is written again. */
    var expires: nat

    constructor (registered: nat)
      ensures expires == registered + TTL
    {
      expires := registered + TTL;
    }

    /** SETEX; a failed write leaves the old expiry in place. */
    method WriteOnce(now: nat, ok: bool)
      modifies this
      ensures expires == if ok then now + TTL else old(expires)
    {
      if ok {
        expires := now + TTL;
      }
    }

    /** The ticker loop until cancellation; `ok` says how each write went. Failures are logged and survived. */
    method Run(ghost registered: nat, start: nat, ok: seq<bool>)
      requires expires == registered + TTL
      modifies this
      ensures expires == LastWrite(registered, start, ok, |ok|) + TTL
    {
      var n := 0;
      while n < |ok|
        invariant 0 <= n <= |ok|
        invariant expires == LastWrite(registered, start, ok, n) + TTL
      {
        n := n + 1;
        WriteOnce(TickAt(start, n), ok[n - 1]);
      }
    }
  }

  /** The ticks that have fired by time `t` when the worker is canceled at `canceled`. */
  function Fired(start: nat, canceled: nat, t: nat): (n: nat)
    ensures n <= if canceled < start then 0 else (canceled - start) / INTERVAL
  {
    var end := if t < canceled then t else canceled;
    if end < start then 0 else (end - start) / INTERVAL
  }

  /** The worker's key exists at time `t`. */
  predicate Alive(registered: nat, start: nat, canceled: nat, ok: seq<bool>, t: nat)
    requires Fired(start, canceled, t) <= |ok|
  {
    registered <= t < LastWrite(registered, start, ok, Fired(start, canceled, t)) + TTL
  }

  /** The ticks counted as fired are those whose time has come, unless the worker was canceled before. */
  lemma FiredMeans(start: nat, canceled: nat, t: nat, n: nat)
    requires n >= 1
    ensures n <= Fired(start, canceled, t) <==> TickAt(start, n) <= t && TickAt(start, n) <= canceled
  {
    var end := if t < canceled then t else canceled;
    if end >= start {
      assert (end - start) / INTERVAL * INTERVAL <= end - start < ((end - start) / INTERVAL + 1) * INTERVAL;
    }
  }

  /** Nowhere more than `m` failed writes in a row. */
  predicate AtMostInARow(ok: seq<bool>, m: nat) {
    forall i :: 0 <= i < |ok| - m ==> SomeSuccess(ok, i, m)
  }

  predicate SomeSuccess(ok: seq<bool>, lo: nat, m: nat)
    requires lo + m < |ok|
  {
    exists j :: lo <= j <= lo + m && ok[j]
  }

  lemma {:induction false} RecentWrite(registered: nat, start: nat, ok: seq<bool>, n: nat, m: nat)
    requires n <= |ok| && AtMostInARow(ok, m)
    ensures (LastWrite(registered, start, ok, n) == registered && n <= m)
         || (LastWrite(registered, start, ok, n) + m * INTERVAL >= TickAt(start, n))
  {
    if n > m {
      assert SomeSuccess(ok, n - m - 1, m);
      var j :| n - m - 1 <= j <= n - 1 && ok[j];
      WriteSince(registered, start, ok, n, j + 1);
    } else if forall i :: 0 <= i < n ==> !ok[i] {
      NoWriteYet(registered, start, ok, n);
    } else {
      var j :| 0 <= j < n && ok[j];
      WriteSince(registered, start, ok, n, j + 1);
    }
  }

  lemma {:induction false} WriteSince(registered: nat, start: nat, ok: seq<bool>, n: nat, j: nat)
    requires 1 <= j <= n <= |ok| && ok[j - 1]
    ensures LastWrite(registered, start, ok, n) >= TickAt(start, j)
    decreases n
  {
    if j < n && !ok[n - 1] {
      WriteSince(registered, start, ok, n - 1, j);
    }
  }

  lemma {:induction false} NoWriteYet(registered: nat, start: nat, ok: seq<bool>, n: nat)
    requires n <= |ok| && forall i :: 0 <= i < n ==> !ok[i]
    ensures LastWrite(registered, start, ok, n) == registered
    decreases n
  {
    if n > 0 { NoWriteYet(registered, start, ok, n - 1); }
  }

  /** Up to `m` failed writes in a row never let the key of a worker lapse that runs, or drains for at most `grace`
      after its cancellation, when the delay before the ticker starts plus `m + 1` intervals plus the grace fits into
      the time to live. */
  lemma NeverLapses(registered: nat, start: nat, canceled: nat, ok: seq<bool>, m: nat, grace: nat, t: nat)
    requires registered <= start && AtMostInARow(ok, m)
    requires start - registered + (m + 1) * INTERVAL + grace <= TTL
    requires registered <= t <= canceled + grace && Fired(start, canceled, t) <= |ok|
    ensures Alive(registered, start, canceled, ok, t)
  {
    RecentWrite(registered, start, ok, Fired(start, canceled, t), m);
  }

  /** Otherwise there is a schedule of writes and a cancellation such that the key lapses within the grace: while the
      worker drains, if running workers are safe. */
  lemma DrainLapses(registered: nat, start: nat, m: nat, grace: nat) returns (canceled: nat, ok: seq<bool>, t: nat)
    requires registered <= start && start - registered + (m + 1) * INTERVAL + grace > TTL
    ensures AtMostInARow(ok, m) && registered <= canceled && registered <= t <= canceled + grace
    ensures start - registered + (m + 1) * INTERVAL <= TTL ==> canceled < t
    ensures Fired(start, canceled, canceled) <= |ok| && !Alive(registered, start, canceled, ok, t)
  {
    t := registered + TTL;
    canceled := start + (m + 1) * INTERVAL - 1;
    ok := seq(m, i => false);
    assert Fired(start, canceled, canceled) <= m;
    NoWriteYet(registered, start, ok, Fired(start, canceled, t));
  }

  /** The default grace is too long: even if no write ever fails, a worker canceled just before its first tick loses
      its key while it may still be draining. */
  lemma DefaultGraceExposes(registered: nat, start: nat) returns (canceled: nat, ok: seq<bool>, t: nat)
    requires registered <= start <= registered + 20_000
    ensures AtMostInARow(ok, 0) && registered <= canceled < t <= canceled + 60_000
    ensures Fired(start, canceled, canceled) <= |ok| && !Alive(registered, start, canceled, ok, t)
  {
    canceled, ok, t := DrainLapses(registered, start, 0, DEFAULT_GRACE);
  }

  /** With a longer delay or one failure more there is a schedule of writes that lapses while the worker runs. */
  lemma TooManyFailuresLapse(registered: nat, start: nat, canceled: nat, m: nat) returns (ok: seq<bool>, t: nat)
    requires registered <= start && start - registered + (m + 1) * INTERVAL > TTL
    requires canceled >= registered + TTL
    ensures AtMostInARow(ok, m) && registered <= t <= canceled && Fired(start, canceled, t) <= |ok|
    ensures !Alive(registered, start, canceled, ok, t)
  {
    t := registered + TTL;
    ok := seq(m, i => false);
    assert Fired(start, canceled, t) <= m;
    NoWriteYet(registered, start, ok, Fired(start, canceled, t));
  }

  /** The shipped timings survive any single failure, given that the loop starts within one interval. */
  lemma OneMissIsSurvived(registered: nat, start: nat, canceled: nat, ok: seq<bool>, t: nat)
    requires registered <= start <= registered + 20_000 && AtMostInARow(ok, 1)
    requires registered <= t <= canceled && Fired(start, canceled, t) <= |ok|
    ensures Alive(registered, start, canceled, ok, t)
  {
    NeverLapses(registered, start, canceled, ok, 1, 0, t);
  }

  /** But not two in a row, unless the ticker starts at the very instant of registration. */
  lemma TwoMissesLapse(registered: nat, start: nat, canceled: nat) returns (ok: seq<bool>, t: nat)
    requires registered < start && canceled >= registered + 60_000
    ensures AtMostInARow(ok, 2) && registered <= t <= canceled && Fired(start, canceled, t) <= |ok|
    ensures !Alive(registered, start, canceled, ok, t)
  {
    ok, t := TooManyFailuresLapse(registered, start, canceled, 2);
  }

  /** If no write failed, the key outlives a cancellation by a time to live less one interval; when not even the
      first tick has fired, less the delay before the ticker started as well. */
  lemma ProtectedAfterCancel(registered: nat, start: nat, canceled: nat, ok: seq<bool>, t: nat)
    requires registered <= start && registered <= canceled
    requires forall i :: 0 <= i < |ok| ==> ok[i]
    requires Fired(start, canceled, t) <= |ok|
    requires canceled <= t < canceled + TTL - INTERVAL
                             - (if Fired(start, canceled, canceled) == 0 then start - registered else 0)
    ensures Alive(registered, start, canceled, ok, t)
  {
    var n := Fired(start, canceled, t);
    if n > 0 {
      WriteSince(registered, start, ok, n, n);
    }
  }

  // The snapshot ------------------------------------------------------------

  /** Collects the ids behind the heartbeat keys a scan returns. */
  method LiveWorkerIds(batches: seq<seq<string>>) returns (live: set<string>)
    ensures forall id :: id in live <==>
              id != "" && exists i, k :: 0 <= i < |batches| && k in batches[i] && id == TrimPrefix(k)
  {
    live := {};
    var cursor := 0;
    while cursor < |batches|
      invariant 0 <= cursor <= |batches|
      invariant forall id :: id in live <==>
                  id != "" && exists i, k :: 0 <= i < cursor && k in batches[i] && id == TrimPrefix(k)
    {
      var batch := batches[cursor];
      ghost var before := live;
      var j := 0;
      while j < |batch|
        invariant 0 <= j <= |batch|
        invariant forall id :: id in live <==>
                    id in before || (id != "" && exists k :: k in batch[..j] && id == TrimPrefix(k))
      {
        assert batch[..j + 1] == batch[..j] + [batch[j]];
        var id := TrimPrefix(batch[j]);
        if id != "" {
          live := live + {id};
        }
        j := j + 1;
      }
      assert batch[..|batch|] == batch;
      cursor := cursor + 1;
    }
  }

  function TrimPrefix(k: string): string {
    if WORKER_KEY_PREFIX <= k then k[|WORKER_KEY_PREFIX|..] else k
  }

  /** The worker's key exists, or is missing, during the whole scan of the heartbeat keys. */
  ghost predicate AliveThroughout(registered: nat, start: nat, canceled: nat, ok: seq<bool>, from: nat, to: nat)
    requires Fired(start, canceled, canceled) <= |ok|
  {
    forall t :: from <= t <= to ==> Alive(registered, start, canceled, ok, t)
  }

  ghost predicate GoneThroughout(registered: nat, start: nat, canceled: nat, ok: seq<bool>, from: nat, to: nat)
    requires Fired(start, canceled, canceled) <= |ok|
  {
    forall t :: from <= t <= to ==> !Alive(registered, start, canceled, ok, t)
  }

  predicate InBatches(k: string, batches: seq<seq<string>>) {
    exists i :: 0 <= i < |batches| && k in batches[i]
  }

  /** What a scan guarantees: a key that exists all the time is returned, one that never exists is not. */
  ghost predicate ScanOk(worker: string, registered: nat, start: nat, canceled: nat, ok: seq<bool>, from: nat, to: nat,
                         heartbeats: seq<seq<string>>)
    requires Fired(start, canceled, canceled) <= |ok|
  {
    && (forall i, k :: 0 <= i < |heartbeats| && k in heartbeats[i] ==> WORKER_KEY_PREFIX <= k)
    && (AliveThroughout(registered, start, canceled, ok, from, to) ==>
        InBatches(WORKER_KEY_PREFIX + worker, heartbeats))
    && (GoneThroughout(registered, start, canceled, ok, from, to) ==>
        !InBatches(WORKER_KEY_PREFIX + worker, heartbeats))
  }

  /** Snapshot, then sweep. A worker whose key exists during the whole heartbeat scan keeps its lists; one whose key is
      missing during the whole scan, because it has not registered yet, has lapsed while running, or drains after a
      cancellation, loses every list the second scan finds. */
  method SweepSelects(worker: string, priority: string, registered: nat, start: nat, canceled: nat, ok: seq<bool>,
                      from: nat, to: nat, heartbeats: seq<seq<string>>, lists: seq<seq<string>>, self: string)
    returns (keys: seq<string>)
    requires worker != "" && priority != "" && ':' !in priority
    requires from <= to && Fired(start, canceled, canceled) <= |ok|
    requires ScanOk(worker, registered, start, canceled, ok, from, to, heartbeats)
    ensures AliveThroughout(registered, start, canceled, ok, from, to) ==> ProcessingKey(worker, priority) !in keys
    ensures GoneThroughout(registered, start, canceled, ok, from, to) ==>
              (worker != self && InBatches(ProcessingKey(worker, priority), lists) ==>
                 ProcessingKey(worker, priority) in keys)
  {
    var live := LiveWorkerIds(heartbeats);
    assert TrimPrefix(WORKER_KEY_PREFIX + worker) == worker;
    LiveMeans(heartbeats, live, worker);
    live := live + {self};
    keys := OrphanProcessingKeys(lists, self, live);
    KeyRoundTrip(worker, priority);
  }

  lemma LiveMeans(heartbeats: seq<seq<string>>, live: set<string>, worker: string)
    requires worker != "" && forall i, k :: 0 <= i < |heartbeats| && k in heartbeats[i] ==> WORKER_KEY_PREFIX <= k
    requires worker in live <==> exists i, k :: 0 <= i < |heartbeats| && k in heartbeats[i] && worker == TrimPrefix(k)
    ensures worker in live <==> InBatches(WORKER_KEY_PREFIX + worker, heartbeats)
  {
    assert TrimPrefix(WORKER_KEY_PREFIX + worker) == worker;
    if worker in live {
      var i, k :| 0 <= i < |heartbeats| && k in heartbeats[i] && worker == TrimPrefix(k);
      assert k == WORKER_KEY_PREFIX + worker;
    }
    if InBatches(WORKER_KEY_PREFIX + worker, heartbeats) {
      var i :| 0 <= i < |heartbeats| && WORKER_KEY_PREFIX + worker in heartbeats[i];
    }
  }

  /** So a sweep whose heartbeat scan falls between a worker's registration and the end of its drain leaves all of its
      lists alone, when no more than `m` writes in a row fail and delay, `m + 1` intervals and grace fit into the time
      to live. */
  method SweepSparesLive(worker: string, priority: string, registered: nat, start: nat, canceled: nat, ok: seq<bool>,
                         m: nat, grace: nat, from: nat, to: nat, heartbeats: seq<seq<string>>,
                         lists: seq<seq<string>>, self: string)
    returns (keys: seq<string>)
    requires worker != "" && priority != "" && ':' !in priority
    requires registered <= start && AtMostInARow(ok, m) && start - registered + (m + 1) * INTERVAL + grace <= TTL
    requires registered <= from <= to <= canceled + grace && Fired(start, canceled, canceled) <= |ok|
    requires ScanOk(worker, registered, start, canceled, ok, from, to, heartbeats)
    ensures ProcessingKey(worker, priority) !in keys
  {
    forall t | from <= t <= to
      ensures Alive(registered, start, canceled, ok, t)
    {
      NeverLapses(registered, start, canceled, ok, m, grace, t);
    }
    keys := SweepSelects(worker, priority, registered, start, canceled, ok, from, to, heartbeats, lists, self);
  }

  /** And one whose heartbeat scan ends before the worker has registered takes its lists if it finds them. */
  method SweepTakesLate(worker: string, priority: string, registered: nat, start: nat, canceled: nat, ok: seq<bool>,
                        from: nat, to: nat, heartbeats: seq<seq<string>>, lists: seq<seq<string>>, self: string)
    returns (keys: seq<string>)
    requires worker != "" && priority != "" && ':' !in priority && worker != self
    requires from <= to < registered && Fired(start, canceled, canceled) <= |ok|
    requires ScanOk(worker, registered, start, canceled, ok, from, to, heartbeats)
    requires InBatches(ProcessingKey(worker, priority), lists)
    ensures ProcessingKey(worker, priority) in keys
  {
    keys := SweepSelects(worker, priority, registered, start, canceled, ok, from, to, heartbeats, lists, self);
  }
}
