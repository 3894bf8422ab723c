/**
 The per-user download limiter: the module-level dictionary `user_jobs` from
 user id to the number of downloads that user has running, the ceiling
 USER_LIMIT, and the three functions that read and update it.

 The dictionary is first described as a value (`Count`, `Started`, `Ended`),
 then owned by the class `JobLimiter`, whose methods update it in place as
 `start_job` and `end_job` do.
 */
module Limiter {

  type UserId = int

  /** Simultaneous downloads allowed per user. */
  const USER_LIMIT: int := 3

  /** `user_jobs.get(u, 0)`. */
  function Count(jobs: map<UserId, int>, u: UserId): int {
    if u in jobs then jobs[u] else 0
  }

  /** `can_download(u)`: the user's count, 0 when unseen, is below the ceiling. */
  predicate Allowed(jobs: map<UserId, int>, u: UserId) {
    Count(jobs, u) < USER_LIMIT
  }

  /** The dictionary after `start_job(u)`. */
  function Started(jobs: map<UserId, int>, u: UserId): (r: map<UserId, int>)
    ensures r.Keys == jobs.Keys + {u}
    ensures Count(r, u) == Count(jobs, u) + 1
    ensures forall v :: v != u ==> Count(r, v) == Count(jobs, v)
  {
    jobs[u := Count(jobs, u) + 1]
  }

  /** The dictionary after `end_job(u)`, which reads a missing entry as 1
      and floors the decrement at 0. */
  function Ended(jobs: map<UserId, int>, u: UserId): (r: map<UserId, int>)
    ensures r.Keys == jobs.Keys + {u}
    ensures Count(r, u) >= 0
    ensures u !in jobs ==> r[u] == 0
    ensures u in jobs && jobs[u] >= 1 ==> r[u] == jobs[u] - 1
    ensures u in jobs && jobs[u] < 1 ==> r[u] == 0
    ensures forall v :: v != u ==> Count(r, v) == Count(jobs, v)
  {
    var before := if u in jobs then jobs[u] else 1;
    jobs[u := if before - 1 > 0 then before - 1 else 0]
  }

  /** No stored count is negative. */
  ghost predicate NonNegative(jobs: map<UserId, int>) {
    forall u :: u in jobs ==> jobs[u] >= 0
  }

  /** Every stored count lies between 0 and the ceiling. */
  ghost predicate Bounded(jobs: map<UserId, int>) {
    forall u :: u in jobs ==> 0 <= jobs[u] <= USER_LIMIT
  }

  /** A start followed by an end gives every user, including `u`, the count
      it had before: the net effect of one download in `paginate`, whatever
      happened between `start_job` and the `finally` that calls `end_job`. */
  lemma StartThenEndRestores(jobs: map<UserId, int>, u: UserId, v: UserId)
    requires NonNegative(jobs)
    ensures Count(Ended(Started(jobs, u), u), v) == Count(jobs, v)
  {
  }

  /** `end_job` called more often than `start_job` never drives a count
      below 0, and keeps every stored count non-negative. */
  lemma EndedKeepsNonNegative(jobs: map<UserId, int>, u: UserId)
    requires NonNegative(jobs)
    ensures NonNegative(Ended(jobs, u))
  {
  }

  /** One step of the limiter as the handlers use it. In `paginate` the test
      `can_download` and the call `start_job` follow each other with no
      `await` in between, so under asyncio they happen as one step; `end_job`
      is another. Steps of different downloads, of one user or of several,
      may interleave in any order. */
  datatype Event = Acquire(user: UserId) | Release(user: UserId)

  function Step(jobs: map<UserId, int>, e: Event): map<UserId, int> {
    match e
    case Acquire(u) => if Allowed(jobs, u) then Started(jobs, u) else jobs
    case Release(u) => Ended(jobs, u)
  }

  function Run(jobs: map<UserId, int>, trace: seq<Event>): map<UserId, int>
    decreases |trace|
  {
    if trace == [] then jobs else Run(Step(jobs, trace[0]), trace[1..])
  }

  /** A refused attempt changes nothing. */
  lemma RefusedAcquireChangesNothing(jobs: map<UserId, int>, u: UserId)
    requires !Allowed(jobs, u)
    ensures Step(jobs, Acquire(u)) == jobs
    ensures Count(jobs, u) >= USER_LIMIT
  {
  }

  lemma StepKeepsBounded(jobs: map<UserId, int>, e: Event)
    requires Bounded(jobs)
    ensures Bounded(Step(jobs, e))
  {
    var r := Step(jobs, e);
    forall v | v in r ensures 0 <= r[v] <= USER_LIMIT {
      if v != e.user {
        assert Count(r, v) == Count(jobs, v);
      }
    }
  }

  /** Whatever the interleaving of attempts and releases, no user ever has
      more than USER_LIMIT downloads counted, and no count goes negative. */
  lemma {:induction false} RunKeepsBounded(jobs: map<UserId, int>, trace: seq<Event>)
    requires Bounded(jobs)
    ensures Bounded(Run(jobs, trace))
    decreases |trace|
  {
    if trace != [] {
      StepKeepsBounded(jobs, trace[0]);
      RunKeepsBounded(Step(jobs, trace[0]), trace[1..]);
    }
  }

  function Attempts(u: UserId, n: nat): (t: seq<Event>)
    ensures |t| == n && forall i :: 0 <= i < n ==> t[i] == Acquire(u)
  {
    if n == 0 then [] else [Acquire(u)] + Attempts(u, n - 1)
  }

  /** `n` overlapping attempts by one user, none finished yet, leave exactly
      min(start + n, USER_LIMIT) downloads counted: the attempts beyond the
      ceiling are refused and do not raise the count. */
  lemma {:induction false} OverlappingAttempts(jobs: map<UserId, int>, u: UserId, n: nat)
    requires 0 <= Count(jobs, u) <= USER_LIMIT
    ensures Count(Run(jobs, Attempts(u, n)), u) ==
            if Count(jobs, u) + n <= USER_LIMIT then Count(jobs, u) + n else USER_LIMIT
    ensures forall v :: v != u ==> Count(Run(jobs, Attempts(u, n)), v) == Count(jobs, v)
    decreases n
  {
    if n > 0 {
      var next := Step(jobs, Acquire(u));
      assert Attempts(u, n)[1..] == Attempts(u, n - 1);
      OverlappingAttempts(next, u, n - 1);
    }
  }

  /** From no downloads, the fourth overlapping attempt is refused. */
  lemma FourthAttemptRefused(u: UserId)
    ensures Count(Run(map[], Attempts(u, 3)), u) == USER_LIMIT
    ensures Step(Run(map[], Attempts(u, 3)), Acquire(u)) == Run(map[], Attempts(u, 3))
  {
    OverlappingAttempts(map[], u, 3);
  }

  /** The owner of `user_jobs`. */
  class JobLimiter {
    var userJobs: map<UserId, int>

    ghost predicate Valid()
      reads this
    {
      NonNegative(userJobs)
    }

    constructor ()
      ensures Valid() && userJobs == map[]
    {
      userJobs := map[];
    }

    /** `can_download(u)`. */
    method CanDownload(u: UserId) returns (ok: bool)
      ensures ok <==> Count(userJobs, u) < USER_LIMIT
      ensures u !in userJobs ==> ok
    {
      ok := (if u in userJobs then userJobs[u] else 0) < USER_LIMIT;
    }

    /** `start_job(u)`. */
    method StartJob(u: UserId)
      requires Valid()
      modifies this
      ensures Valid()
      ensures userJobs == Started(old(userJobs), u)
    {
      userJobs := userJobs[u := (if u in userJobs then userJobs[u] else 0) + 1];
    }

    /** `end_job(u)`. */
    method EndJob(u: UserId)
      requires Valid()
      modifies this
      ensures Valid()
      ensures userJobs == Ended(old(userJobs), u)
    {
      var before := if u in userJobs then userJobs[u] else 1;
      userJobs := userJobs[u := if before - 1 > 0 then before - 1 else 0];
    }
  }

}
