/** The notification delivery queue: attempts, backoff and draining. */
module DeliveryQueue {
  import opened Rows

  datatype Status = Queued | Retrying | Delivered | Skipped | Failed

  datatype NotificationDelivery =
    NotificationDelivery(status: Status, attempts: nat, nextRetryAt: Option<nat>, processedAt: Option<nat>)

  /** What a delivery attempt meets: its notification gone, or a channel's answer. */
  datatype Outcome = NotificationGone | Sent | NotConfigured | ProviderFailed

  const MAX_ATTEMPTS := 3
  const RETRY_BASE_MINUTES := 5

  // ---------------------------------------------------------------- one attempt

  function Pow2(n: nat): nat { if n == 0 then 1 else 2 * Pow2(n - 1) }

  /** Minutes to wait after the given number of attempts. */
  function Backoff(attempts: nat): nat {
    RETRY_BASE_MINUTES * Pow2(if attempts >= 1 then attempts - 1 else 0)
  }

  predicate ShouldRetry(outcome: Outcome, attempts: nat) {
    outcome.ProviderFailed? && attempts < MAX_ATTEMPTS
  }

  function Processed(d: NotificationDelivery, outcome: Outcome, now: nat): NotificationDelivery {
    if outcome.NotificationGone? then d.(status := Failed, processedAt := Some(now))
    else
      var n := d.attempts + 1;
      if outcome.Sent? then NotificationDelivery(Delivered, n, None, Some(now))
      else if outcome.NotConfigured? then NotificationDelivery(Skipped, n, None, Some(now))
      else if ShouldRetry(outcome, n) then NotificationDelivery(Retrying, n, Some(now + Backoff(n)), None)
      else NotificationDelivery(Failed, n, None, Some(now))
  }

  const NEW := NotificationDelivery(Queued, 0, None, None)

  predicate Active(d: NotificationDelivery) { d.status.Queued? || d.status.Retrying? }

  predicate Due(d: NotificationDelivery, now: nat) {
    Active(d) && (d.nextRetryAt.None? || d.nextRetryAt.value <= now)
  }

  /** Waiting deliveries have attempts left, a retrying one knows when, and finished ones are stamped. */
  predicate Sound(d: NotificationDelivery) {
    match d.status
    case Queued => d.attempts == 0 && d.nextRetryAt.None? && d.processedAt.None?
    case Retrying => 1 <= d.attempts <= 2 && d.nextRetryAt.Some? && d.processedAt.None?
    case _ => d.processedAt.Some?
  }

  /** The moment outcome and clock are looked up, per delivery. */
  datatype World = World(outcome: nat -> Outcome, clock: nat -> nat)

  /** An attempt keeps a delivery sound, whatever its state and outcome, and a retry is never more
      than ten minutes away. */
  lemma AttemptIsSound(d: NotificationDelivery, outcome: Outcome, now: nat)
    ensures Sound(Processed(d, outcome, now))
    ensures Active(Processed(d, outcome, now)) ==> Due(Processed(d, outcome, now), now + 10)
  {
    assert Pow2(0) == 1 && Pow2(1) == 2;
  }

  // ---------------------------------------------------------------- one batch

  /** The first `limit` due deliveries from position `i` on, in id order. */
  function DueFrom(ds: seq<NotificationDelivery>, now: nat, limit: nat, i: nat): (ids: seq<nat>)
    requires i <= |ds|
    ensures |ids| <= limit
    ensures forall k :: 0 <= k < |ids| ==> i <= ids[k] < |ds| && Due(ds[ids[k]], now)
    ensures forall j, k :: 0 <= j < k < |ids| ==> ids[j] < ids[k]
    ensures |ids| < limit ==> forall k :: i <= k < |ds| && Due(ds[k], now) ==> k in ids
    ensures forall k, x :: i <= k < |ds| && Due(ds[k], now) && x in ids && k < x ==> k in ids
    decreases |ds| - i
  {
    if i == |ds| || limit == 0 then []
    else if Due(ds[i], now) then [i] + DueFrom(ds, now, limit - 1, i + 1)
    else DueFrom(ds, now, limit, i + 1)
  }

  /** Exactly the chosen deliveries are processed, each once. */
  function ProcessAll(ds: seq<NotificationDelivery>, ids: seq<nat>, w: World): (r: seq<NotificationDelivery>)
    ensures |r| == |ds|
    ensures forall i :: 0 <= i < |ds| ==> r[i] == if i in ids then Processed(ds[i], w.outcome(i), w.clock(i)) else ds[i]
  {
    seq(|ds|, i requires 0 <= i < |ds| => if i in ids then Processed(ds[i], w.outcome(i), w.clock(i)) else ds[i])
  }

  function Batch(ds: seq<NotificationDelivery>, now: nat, limit: nat, w: World): seq<NotificationDelivery> {
    ProcessAll(ds, DueFrom(ds, now, limit, 0), w)
  }

  class Queue {
    var deliveries: seq<NotificationDelivery>

    constructor ()
      ensures deliveries == []
    {
      deliveries := [];
    }

    /** One delivery attempt, written column by column. */
    method Process(i: nat, outcome: Outcome, now: nat)
      requires i < |deliveries|
      modifies this
      ensures deliveries == old(deliveries)[i := Processed(old(deliveries)[i], outcome, now)]
    {
      var d := deliveries[i];
      if outcome.NotificationGone? {
        d := d.(status := Failed);
        d := d.(processedAt := Some(now));
      } else {
        d := d.(attempts := d.attempts + 1);
        if outcome.Sent? || outcome.NotConfigured? {
          d := d.(status := if outcome.Sent? then Delivered else Skipped);
          d := d.(nextRetryAt := None, processedAt := Some(now));
        } else if ShouldRetry(outcome, d.attempts) {
          d := d.(status := Retrying);
          d := d.(nextRetryAt := Some(now + Backoff(d.attempts)), processedAt := None);
        } else {
          d := d.(status := Failed);
          d := d.(nextRetryAt := None, processedAt := Some(now));
        }
      }
      deliveries := deliveries[i := d];
    }

    /** A notification's deliveries are queued and attempted at once, one per enabled channel. */
    method Enqueue(channels: nat, w: World)
      modifies this
      ensures |deliveries| == old(|deliveries|) + channels && deliveries[..old(|deliveries|)] == old(deliveries)
      ensures forall i :: old(|deliveries|) <= i < |deliveries| ==>
        deliveries[i] == Processed(NEW, w.outcome(i), w.clock(i))
    {
      for k := 0 to channels
        invariant |deliveries| == old(|deliveries|) + k && deliveries[..old(|deliveries|)] == old(deliveries)
        invariant forall i :: old(|deliveries|) <= i < |deliveries| ==>
          deliveries[i] == Processed(NEW, w.outcome(i), w.clock(i))
      {
        var i := |deliveries|;
        deliveries := deliveries + [NEW];
        Process(i, w.outcome(i), w.clock(i));
      }
    }

    /** Works through the due deliveries, oldest id first, at most `limit` of them. */
    method ProcessDue(now: nat, limit: nat, w: World) returns (processed: nat)
      modifies this
      ensures deliveries == Batch(old(deliveries), now, limit, w)
      ensures processed == |DueFrom(old(deliveries), now, limit, 0)|
    {
      var ids := DueFrom(deliveries, now, limit, 0);
      processed := 0;
      ghost var start := deliveries;
      for k := 0 to |ids|
        invariant processed == k && deliveries == ProcessAll(start, ids[..k], w)
      {
        assert ids[..k + 1] == ids[..k] + [ids[k]];
        assert ids[k] !in ids[..k];
        Process(ids[k], w.outcome(ids[k]), w.clock(ids[k]));
        processed := processed + 1;
        assert deliveries == ProcessAll(start, ids[..k + 1], w);
      }
      assert ids[..|ids|] == ids;
    }

    /** A user's retry: allowed on failed and retrying deliveries, whatever their attempts. */
    method Retry(i: nat, authorised: bool, outcome: Outcome, now: nat) returns (accepted: bool)
      requires i < |deliveries|
      modifies this
      ensures accepted <==> authorised && (old(deliveries)[i].status.Failed? || old(deliveries)[i].status.Retrying?)
      ensures deliveries == if accepted then old(deliveries)[i := Retried(old(deliveries)[i], outcome, now)]
        else old(deliveries)
    {
      if !authorised { return false; }
      if !deliveries[i].status.Failed? && !deliveries[i].status.Retrying? { return false; }
      deliveries := deliveries[i := deliveries[i].(nextRetryAt := None)];
      Process(i, outcome, now);
      return true;
    }
  }

  function Retried(d: NotificationDelivery, outcome: Outcome, now: nat): NotificationDelivery {
    Processed(d.(nextRetryAt := None), outcome, now)
  }

  // ---------------------------------------------------------------- whole runs

  /** A user's retry of one delivery, with what it meets. */
  datatype UserRetry = UserRetry(id: nat, outcome: Outcome, now: nat)

  datatype QueueCall =
    | Enqueue(channels: nat, world: World)
    | ProcessDue(now: nat, limit: nat, world: World)
    | Retry(retry: UserRetry)

  predicate CanRetry(d: NotificationDelivery) { d.status.Failed? || d.status.Retrying? }

  function RetryOne(ds: seq<NotificationDelivery>, r: UserRetry): (after: seq<NotificationDelivery>)
    ensures |after| == |ds|
  {
    if r.id < |ds| && CanRetry(ds[r.id]) then ds[r.id := Retried(ds[r.id], r.outcome, r.now)] else ds
  }

  function Fresh(n: nat, at: nat, w: World): (r: seq<NotificationDelivery>)
    ensures |r| == n && forall i :: 0 <= i < n ==> r[i] == Processed(NEW, w.outcome(at + i), w.clock(at + i))
  {
    seq(n, i requires 0 <= i < n => Processed(NEW, w.outcome(at + i), w.clock(at + i)))
  }

  function Step(ds: seq<NotificationDelivery>, call: QueueCall): seq<NotificationDelivery> {
    match call
    case Enqueue(n, w) => ds + Fresh(n, |ds|, w)
    case ProcessDue(now, limit, w) => Batch(ds, now, limit, w)
    case Retry(r) => RetryOne(ds, r)
  }

  function Run(calls: seq<QueueCall>): seq<NotificationDelivery> {
    if calls == [] then [] else Step(Run(calls[..|calls| - 1]), calls[|calls| - 1])
  }

  /** Attempts the queue itself made on a delivery. */
  function AutomaticAttempts(calls: seq<QueueCall>, i: nat): nat {
    if calls == [] then 0
    else
      var before := calls[..|calls| - 1];
      AutomaticAttempts(before, i) + if Attempts(Run(before), calls[|calls| - 1], i) then 1 else 0
  }

  predicate Attempts(ds: seq<NotificationDelivery>, call: QueueCall, i: nat) {
    match call
    case Enqueue(n, w) => |ds| <= i < |ds| + n && !w.outcome(i).NotificationGone?
    case ProcessDue(now, limit, w) => i in DueFrom(ds, now, limit, 0) && !w.outcome(i).NotificationGone?
    case Retry(_) => false
  }

  ghost predicate AllSound(ds: seq<NotificationDelivery>) { forall i :: 0 <= i < |ds| ==> Sound(ds[i]) }

  lemma StepKeepsSound(ds: seq<NotificationDelivery>, call: QueueCall)
    requires AllSound(ds)
    ensures AllSound(Step(ds, call)) && |ds| <= |Step(ds, call)|
  {
    var r := Step(ds, call);
    forall i | 0 <= i < |r| ensures Sound(r[i]) {
      match call
      case Enqueue(n, w) => if i >= |ds| { AttemptIsSound(NEW, w.outcome(i), w.clock(i)); }
      case ProcessDue(now, limit, w) =>
        if i in DueFrom(ds, now, limit, 0) { AttemptIsSound(ds[i], w.outcome(i), w.clock(i)); }
      case Retry(q) => if q.id < |ds| { AttemptIsSound(ds[q.id].(nextRetryAt := None), q.outcome, q.now); }
    }
  }

  lemma AttemptsCount(ds: seq<NotificationDelivery>, call: QueueCall, i: nat)
    requires AllSound(ds) && i < |Step(ds, call)|
    ensures Attempts(ds, call, i) ==> Step(ds, call)[i].attempts == (if i < |ds| then ds[i].attempts else 0) + 1 <= 3
    ensures i < |ds| ==> Step(ds, call)[i].attempts >= ds[i].attempts
  {
    if i < |ds| {
      assert Sound(ds[i]);
    }
  }

  /** In every run, users' retries included: each delivery is sound, and the queue by itself has
      attempted it at most three times. */
  lemma {:induction false} AtMostThreeAttempts(calls: seq<QueueCall>, i: nat)
    ensures AllSound(Run(calls))
    ensures AutomaticAttempts(calls, i) <= 3
    ensures AutomaticAttempts(calls, i) <= if i < |Run(calls)| then Run(calls)[i].attempts else 0
  {
    if calls != [] {
      var before, call := calls[..|calls| - 1], calls[|calls| - 1];
      AtMostThreeAttempts(before, i);
      StepKeepsSound(Run(before), call);
      if i < |Run(calls)| {
        AttemptsCount(Run(before), call, i);
      }
    }
  }

  // ---------------------------------------------------------------- outcomes and backoff

  /** What an attempt leaves: a sent delivery delivered, one without a configured channel skipped, a
      failed one to be retried after five minutes, then after ten, and then given up. */
  lemma AttemptOutcome(d: NotificationDelivery, outcome: Outcome, now: nat)
    ensures
      var r := Processed(d, outcome, now);
      match outcome
      case NotificationGone => r == d.(status := Failed, processedAt := Some(now))
      case Sent => r == NotificationDelivery(Delivered, d.attempts + 1, None, Some(now))
      case NotConfigured => r == NotificationDelivery(Skipped, d.attempts + 1, None, Some(now))
      case ProviderFailed =>
        r == if d.attempts == 0 then NotificationDelivery(Retrying, 1, Some(now + 5), None)
             else if d.attempts == 1 then NotificationDelivery(Retrying, 2, Some(now + 10), None)
             else NotificationDelivery(Failed, d.attempts + 1, None, Some(now))
  {
    assert Pow2(0) == 1 && Pow2(1) == 2;
  }

  /** A new delivery is attempted at once, for the first time. */
  lemma FirstAttempt(ds: seq<NotificationDelivery>, n: nat, w: World, i: nat)
    requires |ds| <= i < |ds| + n
    ensures |Step(ds, QueueCall.Enqueue(n, w))| == |ds| + n
    ensures
      var d := Step(ds, QueueCall.Enqueue(n, w))[i];
      match w.outcome(i)
      case NotificationGone => d == NotificationDelivery(Failed, 0, None, Some(w.clock(i)))
      case Sent => d == NotificationDelivery(Delivered, 1, None, Some(w.clock(i)))
      case NotConfigured => d == NotificationDelivery(Skipped, 1, None, Some(w.clock(i)))
      case ProviderFailed => d == NotificationDelivery(Retrying, 1, Some(w.clock(i) + 5), None)
  {
    AttemptOutcome(NEW, w.outcome(i), w.clock(i));
  }

  /** When a delivery was last attempted, by whatever call. */
  function LastAttempt(calls: seq<QueueCall>, i: nat): nat {
    if calls == [] then 0
    else
      var before := calls[..|calls| - 1];
      var ds := Run(before);
      match calls[|calls| - 1]
      case Enqueue(n, w) => if |ds| <= i < |ds| + n then w.clock(i) else LastAttempt(before, i)
      case ProcessDue(now, limit, w) =>
        if i in DueFrom(ds, now, limit, 0) then w.clock(i) else LastAttempt(before, i)
      case Retry(r) =>
        if r.id == i && i < |ds| && (ds[i].status == Failed || ds[i].status == Retrying) then r.now
        else LastAttempt(before, i)
  }

  predicate WaitsForRetry(d: NotificationDelivery, last: nat) {
    d.status == Retrying ==>
      (d.attempts == 1 || d.attempts == 2) && d.nextRetryAt == Some(last + if d.attempts == 1 then 5 else 10)
  }

  /** In every run, a delivery to be retried waits five minutes from its first attempt or ten from its
      second, users' retries included. */
  lemma {:induction false} BackoffKept(calls: seq<QueueCall>, i: nat)
    requires i < |Run(calls)|
    ensures WaitsForRetry(Run(calls)[i], LastAttempt(calls, i))
  {
    if calls != [] {
      var before := calls[..|calls| - 1];
      var ds := Run(before);
      if i < |ds| {
        BackoffKept(before, i);
      }
      match calls[|calls| - 1]
      case Enqueue(n, w) => if i >= |ds| { AttemptOutcome(NEW, w.outcome(i), w.clock(i)); }
      case ProcessDue(now, limit, w) => AttemptOutcome(ds[i], w.outcome(i), w.clock(i));
      case Retry(r) => AttemptOutcome(ds[i].(nextRetryAt := None), r.outcome, r.now);
    }
  }

  /** So the queue never takes a delivery up again too early: one a batch takes is new, or was last
      attempted five minutes ago if that was its first time, and ten if its second. */
  lemma NoEarlyAttempt(calls: seq<QueueCall>, now: nat, limit: nat, i: nat)
    requires i in DueFrom(Run(calls), now, limit, 0)
    ensures i < |Run(calls)|
    ensures
      var d := Run(calls)[i];
      || d.status == Queued
      || (d.status == Retrying && d.attempts == 1 && LastAttempt(calls, i) + 5 <= now)
      || (d.status == Retrying && d.attempts == 2 && LastAttempt(calls, i) + 10 <= now)
  {
    BackoffKept(calls, i);
  }

  /** And it misses none it has room for. */
  lemma NoneLeftBehind(ds: seq<NotificationDelivery>, now: nat, limit: nat, i: nat)
    requires i < |ds| && |DueFrom(ds, now, limit, 0)| < limit
    requires ds[i].status == Queued || ds[i].status == Retrying
    requires ds[i].nextRetryAt.None? || ds[i].nextRetryAt.value <= now
    ensures i in DueFrom(ds, now, limit, 0)
  {
    assert Due(ds[i], now);
  }

  // ---------------------------------------------------------------- draining

  /** Attempts a delivery may still get. */
  function Weight(d: NotificationDelivery): nat {
    if Active(d) && d.attempts < MAX_ATTEMPTS then MAX_ATTEMPTS - d.attempts else 0
  }

  function TotalWeight(ds: seq<NotificationDelivery>): nat {
    if ds == [] then 0 else TotalWeight(ds[..|ds| - 1]) + Weight(ds[|ds| - 1])
  }

  /** Processing a waiting delivery uses up at least one of its attempts. */
  lemma AttemptCosts(d: NotificationDelivery, outcome: Outcome, now: nat)
    requires Sound(d) && Active(d)
    ensures Weight(Processed(d, outcome, now)) < Weight(d)
  {
  }

  /** How many of the ids lie below `n`. */
  function Below(ids: seq<nat>, n: nat): nat {
    if ids == [] then 0 else Below(ids[..|ids| - 1], n) + if ids[|ids| - 1] < n then 1 else 0
  }

  lemma {:induction false} BelowNext(ids: seq<nat>, n: nat)
    requires forall j, k :: 0 <= j < k < |ids| ==> ids[j] < ids[k]
    ensures Below(ids, n + 1) == Below(ids, n) + if n in ids then 1 else 0
  {
    if ids != [] {
      var rest := ids[..|ids| - 1];
      BelowNext(rest, n);
      assert n in ids <==> n in rest || n == ids[|ids| - 1];
      assert ids[|ids| - 1] == n ==> n !in rest;
    }
  }

  lemma {:induction false} BelowAll(ids: seq<nat>, n: nat)
    requires forall k :: 0 <= k < |ids| ==> ids[k] < n
    ensures Below(ids, n) == |ids|
  {
    if ids != [] {
      BelowAll(ids[..|ids| - 1], n);
    }
  }

  lemma {:induction false} BelowSome(ids: seq<nat>, n: nat, k: nat)
    requires k < |ids| && ids[k] < n
    ensures Below(ids, n) >= 1
  {
    if k < |ids| - 1 {
      BelowSome(ids[..|ids| - 1], n, k);
    }
  }

  /** A batch lowers the weight of any prefix of the table by at least one per delivery of the
      prefix it processes. */
  lemma {:induction false} BatchCosts(ds: seq<NotificationDelivery>, now: nat, limit: nat, w: World, n: nat)
    requires AllSound(ds) && n <= |ds|
    ensures TotalWeight(Batch(ds, now, limit, w)[..n]) + Below(DueFrom(ds, now, limit, 0), n) <= TotalWeight(ds[..n])
  {
    var ids := DueFrom(ds, now, limit, 0);
    var r := Batch(ds, now, limit, w);
    if n == 0 {
      BelowNone(ids);
    } else {
      BatchCosts(ds, now, limit, w, n - 1);
      BelowNext(ids, n - 1);
      assert r[..n][..n - 1] == r[..n - 1] && ds[..n][..n - 1] == ds[..n - 1];
      if n - 1 in ids {
        AttemptCosts(ds[n - 1], w.outcome(n - 1), w.clock(n - 1));
      }
    }
  }

  lemma {:induction false} BelowNone(ids: seq<nat>)
    ensures Below(ids, 0) == 0
  {
    if ids != [] {
      BelowNone(ids[..|ids| - 1]);
    }
  }

  /** The total of attempts left falls strictly with every delivery processed. */
  lemma BatchProgress(ds: seq<NotificationDelivery>, now: nat, limit: nat, w: World)
    requires AllSound(ds)
    ensures TotalWeight(Batch(ds, now, limit, w)) + |DueFrom(ds, now, limit, 0)| <= TotalWeight(ds)
  {
    BatchCosts(ds, now, limit, w, |ds|);
    BelowAll(DueFrom(ds, now, limit, 0), |ds|);
    assert ds[..|ds|] == ds;
    assert Batch(ds, now, limit, w)[..|ds|] == Batch(ds, now, limit, w);
  }

  /** A batch run some time after another, with the deliveries that arrived meanwhile and the retries
      that users asked for meanwhile. */
  datatype Round =
    Round(arrivals: seq<NotificationDelivery>, retries: seq<UserRetry>, now: nat, limit: nat, world: World)

  function RetryAll(ds: seq<NotificationDelivery>, rs: seq<UserRetry>): (after: seq<NotificationDelivery>)
    ensures |after| == |ds|
  {
    if rs == [] then ds else RetryOne(RetryAll(ds, rs[..|rs| - 1]), rs[|rs| - 1])
  }

  /** What the batch of a round finds. */
  function Found(ds: seq<NotificationDelivery>, r: Round): seq<NotificationDelivery> {
    RetryAll(ds + r.arrivals, r.retries)
  }

  function Play(ds: seq<NotificationDelivery>, rounds: seq<Round>): seq<NotificationDelivery> {
    if rounds == [] then ds
    else
      var r := rounds[|rounds| - 1];
      Batch(Found(Play(ds, rounds[..|rounds| - 1]), r), r.now, r.limit, r.world)
  }

  predicate RetriesSettled(rs: seq<UserRetry>, now: nat) {
    forall k :: 0 <= k < |rs| ==> rs[k].now + 10 <= now
  }

  /** All that was attempted in the round, by its batch or by users before it, is ten minutes old. */
  ghost predicate Settled(r: Round, now: nat) {
    r.now <= now && (forall i :: r.world.clock(i) + 10 <= now) && RetriesSettled(r.retries, now)
  }

  /** Each round takes at least one delivery and starts ten minutes after all attempts of the last. */
  ghost predicate Spaced(rounds: seq<Round>) {
    && (forall j :: 0 <= j < |rounds| ==> rounds[j].limit >= 1 && AllSound(rounds[j].arrivals))
    && (forall j :: 0 <= j < |rounds| - 1 ==> Settled(rounds[j], rounds[j + 1].now))
  }

  ghost predicate AllDue(ds: seq<NotificationDelivery>, n: nat, now: nat)
    requires n <= |ds|
  {
    forall i :: 0 <= i < n && Active(ds[i]) ==> Due(ds[i], now)
  }

  lemma WeightZero(ds: seq<NotificationDelivery>, i: nat)
    requires AllSound(ds) && TotalWeight(ds) == 0 && i < |ds|
    ensures !Active(ds[i])
    decreases |ds|
  {
    if i < |ds| - 1 {
      WeightZero(ds[..|ds| - 1], i);
    } else {
      assert Sound(ds[i]);
    }
  }

  lemma {:induction false} WeightUpdate(ds: seq<NotificationDelivery>, i: nat, d: NotificationDelivery)
    requires i < |ds|
    ensures TotalWeight(ds[i := d]) == TotalWeight(ds) - Weight(ds[i]) + Weight(d)
  {
    var last := |ds| - 1;
    if i == last {
      assert ds[i := d][..last] == ds[..last];
    } else {
      assert ds[i := d][..last] == ds[..last][i := d];
      WeightUpdate(ds[..last], i, d);
    }
  }

  /** A retry brings back at most two attempts, and what it leaves waiting is due ten minutes on. */
  lemma RetryCosts(ds: seq<NotificationDelivery>, n: nat, r: UserRetry, now: nat)
    requires AllSound(ds) && n <= |ds| && AllDue(ds, n, now) && r.now + 10 <= now
    ensures AllSound(RetryOne(ds, r)) && AllDue(RetryOne(ds, r), n, now)
    ensures TotalWeight(RetryOne(ds, r)[..n]) <= TotalWeight(ds[..n]) + 2
  {
    if r.id < |ds| && CanRetry(ds[r.id]) {
      AttemptIsSound(ds[r.id].(nextRetryAt := None), r.outcome, r.now);
      if r.id < n {
        assert RetryOne(ds, r)[..n] == ds[..n][r.id := Retried(ds[r.id], r.outcome, r.now)];
        WeightUpdate(ds[..n], r.id, Retried(ds[r.id], r.outcome, r.now));
      } else {
        assert RetryOne(ds, r)[..n] == ds[..n];
      }
    }
  }

  lemma {:induction false} RetriesCost(ds: seq<NotificationDelivery>, n: nat, rs: seq<UserRetry>, now: nat)
    requires AllSound(ds) && n <= |ds| && AllDue(ds, n, now)
    requires RetriesSettled(rs, now)
    ensures AllSound(RetryAll(ds, rs)) && AllDue(RetryAll(ds, rs), n, now)
    ensures TotalWeight(RetryAll(ds, rs)[..n]) <= TotalWeight(ds[..n]) + 2 * |rs|
  {
    if rs != [] {
      RetriesCost(ds, n, rs[..|rs| - 1], now);
      RetryCosts(RetryAll(ds, rs[..|rs| - 1]), n, rs[|rs| - 1], now);
    }
  }

  /** Something of the first `n` deliveries waits when the batch of the round starts. */
  predicate Waiting(ds: seq<NotificationDelivery>, n: nat, r: Round) {
    n <= |Found(ds, r)| && TotalWeight(Found(ds, r)[..n]) > 0
  }

  /** A batch over deliveries that are all due lowers the weight of any prefix that waits: the oldest
      ids come first, so later arrivals cannot starve it. */
  lemma BatchAdvances(ds: seq<NotificationDelivery>, n: nat, r: Round)
    requires AllSound(ds) && n <= |ds| && r.limit >= 1 && AllDue(ds, n, r.now) && TotalWeight(ds[..n]) > 0
    ensures TotalWeight(Batch(ds, r.now, r.limit, r.world)[..n]) < TotalWeight(ds[..n])
  {
    BatchCosts(ds, r.now, r.limit, r.world, n);
    var i := SomeWaiting(ds[..n]);
    OldestFirst(ds, r.now, r.limit, i);
    BelowSome(DueFrom(ds, r.now, r.limit, 0), n, 0);
  }

  lemma OldestFirst(ds: seq<NotificationDelivery>, now: nat, limit: nat, i: nat)
    requires i < |ds| && Due(ds[i], now) && limit >= 1
    ensures var ids := DueFrom(ds, now, limit, 0); ids != [] && ids[0] <= i
  {
    var ids := DueFrom(ds, now, limit, 0);
    assert ids != [] ==> ids[0] in ids;
  }

  lemma SomeWaiting(ds: seq<NotificationDelivery>) returns (i: nat)
    requires TotalWeight(ds) > 0
    ensures i < |ds| && Active(ds[i])
  {
    if Weight(ds[|ds| - 1]) > 0 {
      i := |ds| - 1;
    } else {
      i := SomeWaiting(ds[..|ds| - 1]);
    }
  }

  /** A round that finds some of the first `n` waiting uses up one of their attempts, unless users
      retried meanwhile: each retry may bring two attempts back and keep the round from making one. */
  lemma RoundAdvances(ds: seq<NotificationDelivery>, n: nat, r: Round, next: nat)
    requires AllSound(ds) && AllSound(r.arrivals) && n <= |ds| && r.limit >= 1 && AllDue(ds, n, r.now)
    requires r.now <= next && RetriesSettled(r.retries, next)
    ensures AllDue(Found(ds, r), n, next)
    ensures
      var after := Batch(Found(ds, r), r.now, r.limit, r.world);
      && |after| >= n && AllSound(after)
      && TotalWeight(after[..n]) + (if Waiting(ds, n, r) then 1 else 0) <= TotalWeight(ds[..n]) + 3 * |r.retries|
  {
    var all, found := ds + r.arrivals, Found(ds, r);
    assert all[..n] == ds[..n];
    RetriesCost(all, n, r.retries, next);
    StepKeepsSound(found, QueueCall.ProcessDue(r.now, r.limit, r.world));
    BatchCosts(found, r.now, r.limit, r.world, n);
    if r.retries == [] && Waiting(ds, n, r) {
      BatchAdvances(found, n, r);
    }
  }

  /** Ten minutes after all attempts of a round, whatever still waits is due again. */
  lemma DueAfterBatch(ds: seq<NotificationDelivery>, n: nat, r: Round, next: nat)
    requires n <= |ds| && AllDue(ds, n, next) && Settled(r, next)
    ensures AllDue(Batch(ds, r.now, r.limit, r.world), n, next)
  {
    var after := Batch(ds, r.now, r.limit, r.world);
    forall i | 0 <= i < n && Active(after[i]) ensures Due(after[i], next) {
      AttemptIsSound(ds[i], r.world.outcome(i), r.world.clock(i));
    }
  }

  function Retries(rounds: seq<Round>): nat {
    if rounds == [] then 0 else Retries(rounds[..|rounds| - 1]) + |rounds[|rounds| - 1].retries|
  }

  /** How many of the rounds find something of the first `n` deliveries waiting. */
  function WaitingRounds(ds: seq<NotificationDelivery>, n: nat, rounds: seq<Round>): nat {
    if rounds == [] then 0
    else
      var before := rounds[..|rounds| - 1];
      WaitingRounds(ds, n, before) + if Waiting(Play(ds, before), n, rounds[|rounds| - 1]) then 1 else 0
  }

  /** The first `n` deliveries are sound, and due when the first round starts. */
  ghost predicate Ready(ds: seq<NotificationDelivery>, n: nat, rounds: seq<Round>) {
    AllSound(ds) && n <= |ds| && Spaced(rounds) && (rounds != [] ==> AllDue(ds, n, rounds[0].now))
  }

  /** At the start of every round all that waits is due. */
  lemma {:induction false} StaysDue(ds: seq<NotificationDelivery>, n: nat, rounds: seq<Round>, k: nat)
    requires Ready(ds, n, rounds) && k < |rounds|
    ensures n <= |Play(ds, rounds[..k])| && AllSound(Play(ds, rounds[..k]))
    ensures AllDue(Play(ds, rounds[..k]), n, rounds[k].now)
  {
    if k > 0 {
      var before, r, next := Play(ds, rounds[..k - 1]), rounds[k - 1], rounds[k].now;
      StaysDue(ds, n, rounds, k - 1);
      assert rounds[..k][..k - 1] == rounds[..k - 1];
      RoundAdvances(before, n, r, next);
      DueAfterBatch(Found(before, r), n, r, next);
    }
  }

  /** Some time by which the retries are ten minutes old. */
  lemma {:induction false} RetriesSettle(rs: seq<UserRetry>, from: nat) returns (now: nat)
    ensures now >= from && RetriesSettled(rs, now)
  {
    now := from;
    if rs != [] {
      var earlier := RetriesSettle(rs[..|rs| - 1], from);
      now := if earlier >= rs[|rs| - 1].now + 10 then earlier else rs[|rs| - 1].now + 10;
    }
  }

  lemma {:induction false} RoundsAdvance(ds: seq<NotificationDelivery>, n: nat, rounds: seq<Round>, k: nat)
    requires Ready(ds, n, rounds) && k <= |rounds|
    ensures |Play(ds, rounds[..k])| >= n && AllSound(Play(ds, rounds[..k]))
    ensures TotalWeight(Play(ds, rounds[..k])[..n]) + WaitingRounds(ds, n, rounds[..k])
         <= TotalWeight(ds[..n]) + 3 * Retries(rounds[..k])
  {
    if k > 0 {
      var r := rounds[k - 1];
      RoundsAdvance(ds, n, rounds, k - 1);
      StaysDue(ds, n, rounds, k - 1);
      assert rounds[..k][..k - 1] == rounds[..k - 1];
      var next := RetriesSettle(r.retries, r.now);
      RoundAdvances(Play(ds, rounds[..k - 1]), n, r, next);
    }
  }

  lemma {:induction false} WeightAtMostThree(ds: seq<NotificationDelivery>)
    ensures TotalWeight(ds) <= 3 * |ds|
  {
    if ds != [] {
      WeightAtMostThree(ds[..|ds| - 1]);
    }
  }

  /** No starvation, whatever arrives, fails or is retried between the rounds: of any number of rounds -
      each taking one delivery or more, each ten minutes after the last - at most three per delivery
      now in the table and three per retry find any of these deliveries still waiting. */
  lemma WaitingIsBounded(ds: seq<NotificationDelivery>, rounds: seq<Round>)
    requires Ready(ds, |ds|, rounds)
    ensures WaitingRounds(ds, |ds|, rounds) <= 3 * (|ds| + Retries(rounds))
  {
    assert rounds[..|rounds|] == rounds && ds[..|ds|] == ds;
    RoundsAdvance(ds, |ds|, rounds, |rounds|);
    WeightAtMostThree(ds);
  }

  predicate Quiet(rounds: seq<Round>) { forall j :: 0 <= j < |rounds| ==> rounds[j].retries == [] }

  /** Without retries each round uses up an attempt until none is left. */
  lemma {:induction false} QuietRoundsAdvance(ds: seq<NotificationDelivery>, n: nat, rounds: seq<Round>, k: nat)
    requires Ready(ds, n, rounds) && Quiet(rounds) && k <= |rounds|
    ensures |Play(ds, rounds[..k])| >= n && AllSound(Play(ds, rounds[..k]))
    ensures var left := TotalWeight(Play(ds, rounds[..k])[..n]); left == 0 || left + k <= TotalWeight(ds[..n])
  {
    if k > 0 {
      var before, r := Play(ds, rounds[..k - 1]), rounds[k - 1];
      QuietRoundsAdvance(ds, n, rounds, k - 1);
      StaysDue(ds, n, rounds, k - 1);
      assert rounds[..k][..k - 1] == rounds[..k - 1];
      RoundAdvances(before, n, r, r.now);
      assert Found(before, r)[..n] == before[..n];
    }
  }

  lemma {:induction false} PlayOn(ds: seq<NotificationDelivery>, busy: seq<Round>, quiet: seq<Round>)
    ensures Play(ds, busy + quiet) == Play(Play(ds, busy), quiet)
  {
    if quiet == [] {
      assert busy + quiet == busy;
    } else {
      var last := |quiet| - 1;
      assert (busy + quiet)[..|busy| + last] == busy + quiet[..last];
      PlayOn(ds, busy, quiet[..last]);
    }
  }

  lemma ReadyForTheRest(ds: seq<NotificationDelivery>, busy: seq<Round>, quiet: seq<Round>)
    requires Ready(ds, |ds|, busy + quiet)
    ensures quiet != [] ==> Ready(Play(ds, busy), |ds|, quiet)
  {
    var rounds := busy + quiet;
    if quiet != [] {
      StaysDue(ds, |ds|, rounds, |busy|);
      assert rounds[..|busy|] == busy;
      forall j | 0 <= j < |quiet| ensures quiet[j] == rounds[|busy| + j] {
      }
      assert Spaced(quiet) by {
        forall j | 0 <= j < |quiet| - 1 ensures Settled(quiet[j], quiet[j + 1].now) {
          assert Settled(rounds[|busy| + j], rounds[|busy| + j + 1].now);
        }
      }
    }
  }

  /** The queue drains. The deliveries now in the table being due, and however users retried them
      during some busy rounds: three rounds per delivery without further retries leave none of them
      waiting, no matter what arrives meanwhile or fails. */
  lemma QueueDrains(ds: seq<NotificationDelivery>, busy: seq<Round>, quiet: seq<Round>)
    requires Ready(ds, |ds|, busy + quiet) && Quiet(quiet) && |quiet| >= 3 * |ds|
    ensures |Play(ds, busy + quiet)| >= |ds|
    ensures forall i :: 0 <= i < |ds| ==> !Active(Play(ds, busy + quiet)[i])
  {
    var mid, n := Play(ds, busy), |ds|;
    PlayOn(ds, busy, quiet);
    if n > 0 {
      ReadyForTheRest(ds, busy, quiet);
      assert quiet[..|quiet|] == quiet;
      QuietRoundsAdvance(mid, n, quiet, |quiet|);
      WeightAtMostThree(mid[..n]);
      var end := Play(mid, quiet);
      forall i | 0 <= i < n ensures !Active(end[i]) {
        WeightZero(end[..n], i);
      }
    }
  }
}
