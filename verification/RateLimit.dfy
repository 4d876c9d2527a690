/** The fixed-window rate limiter, one bucket per client address. */
module RateLimit {
  const WINDOW := 60.0

  datatype Bucket = Bucket(start: real, count: nat)
  datatype Request = Request(ip: string, time: real, exempt: bool)

  const NO_BUCKET := Bucket(0.0, 0)

  /** An expired window starts again at the request. */
  function Current(b: Bucket, now: real): Bucket {
    if now - b.start >= WINDOW then Bucket(now, 0) else b
  }

  predicate Admits(b: Bucket, rpm: int, now: real) {
    Current(b, now).count < rpm
  }

  function Next(b: Bucket, rpm: int, now: real): Bucket {
    var w := Current(b, now);
    if w.count < rpm then Bucket(w.start, w.count + 1) else b
  }

  function BucketOf(buckets: map<string, Bucket>, ip: string): Bucket {
    if ip in buckets then buckets[ip] else NO_BUCKET
  }

  function AfterRequest(buckets: map<string, Bucket>, rpm: int, r: Request): map<string, Bucket> {
    if rpm <= 0 || r.exempt || !Admits(BucketOf(buckets, r.ip), rpm, r.time) then buckets
    else buckets[r.ip := Next(BucketOf(buckets, r.ip), rpm, r.time)]
  }

  predicate AdmitsRequest(buckets: map<string, Bucket>, rpm: int, r: Request) {
    rpm <= 0 || r.exempt || Admits(BucketOf(buckets, r.ip), rpm, r.time)
  }

  function AfterAll(requests: seq<Request>, rpm: int): map<string, Bucket> {
    if requests == [] then map[]
    else AfterRequest(AfterAll(requests[..|requests| - 1], rpm), rpm, requests[|requests| - 1])
  }

  class Limiter {
    const rpm: int
    var buckets: map<string, Bucket>

    constructor (rpm: int)
      ensures buckets == map[] && this.rpm == rpm
    {
      this.rpm, buckets := rpm, map[];
    }

    method Dispatch(r: Request) returns (admitted: bool)
      modifies this
      ensures admitted == AdmitsRequest(old(buckets), rpm, r)
      ensures buckets == AfterRequest(old(buckets), rpm, r)
    {
      if rpm <= 0 || r.exempt {
        return true;
      }
      var start, count := 0.0, 0;
      if r.ip in buckets {
        start, count := buckets[r.ip].start, buckets[r.ip].count;
      }
      if r.time - start >= WINDOW {
        start, count := r.time, 0;
      }
      if count >= rpm {
        return false;
      }
      buckets := buckets[r.ip := Bucket(start, count + 1)];
      return true;
    }
  }

  // -- one address ----------------------------------------------------------------

  /** The times at which an address asked for something limited. */
  function TimesOf(requests: seq<Request>, ip: string): seq<real> {
    if requests == [] then []
    else
      var before, last := TimesOf(requests[..|requests| - 1], ip), requests[|requests| - 1];
      if last.ip == ip && !last.exempt then before + [last.time] else before
  }

  function BucketAfter(times: seq<real>, rpm: int): Bucket {
    if times == [] then NO_BUCKET
    else Next(BucketAfter(times[..|times| - 1], rpm), rpm, times[|times| - 1])
  }

  /** Isolation: an address's bucket, and so every later decision about it, depends on its
      own requests alone. */
  lemma {:induction false} OthersDoNotMatter(requests: seq<Request>, rpm: int, ip: string)
    requires rpm > 0
    ensures BucketOf(AfterAll(requests, rpm), ip) == BucketAfter(TimesOf(requests, ip), rpm)
  {
    if requests != [] {
      var before, last := requests[..|requests| - 1], requests[|requests| - 1];
      OthersDoNotMatter(before, rpm, ip);
      if last.ip == ip && !last.exempt {
        var times := TimesOf(before, ip);
        assert (times + [last.time])[..|times|] == times;
      }
    }
  }

  /** An admitted request and the start of the window it was counted in. */
  datatype Admission = Admission(time: real, window: real)

  function Admitted(times: seq<real>, rpm: int): seq<Admission> {
    if times == [] then []
    else
      var earlier, now := times[..|times| - 1], times[|times| - 1];
      var b := BucketAfter(earlier, rpm);
      if Admits(b, rpm, now) then Admitted(earlier, rpm) + [Admission(now, Current(b, now).start)]
      else Admitted(earlier, rpm)
  }

  function InWindow(log: seq<Admission>, window: real): nat {
    if log == [] then 0
    else InWindow(log[..|log| - 1], window) + if log[|log| - 1].window == window then 1 else 0
  }

  function InInterval(log: seq<Admission>, from: real): nat {
    if log == [] then 0
    else InInterval(log[..|log| - 1], from) + if from <= log[|log| - 1].time < from + WINDOW then 1 else 0
  }

  predicate Clock(times: seq<real>) {
    (forall i :: 0 <= i < |times| ==> times[i] >= 0.0) && forall i, j :: 0 <= i < j < |times| ==> times[i] <= times[j]
  }

  /** Windows are the same or a whole window apart, and hold the requests counted in them. */
  predicate Apart(a: real, b: real) {
    a == b || a + WINDOW <= b
  }

  /** Each admission lies in its window. */
  ghost predicate Inside(log: seq<Admission>) {
    forall i :: 0 <= i < |log| ==> log[i].window <= log[i].time < log[i].window + WINDOW
  }

  ghost predicate Spaced(log: seq<Admission>, start: real) {
    && (forall i, j :: 0 <= i < j < |log| ==> Apart(log[i].window, log[j].window))
    && (forall i :: 0 <= i < |log| ==> Apart(log[i].window, start))
  }

  ghost predicate Counted(log: seq<Admission>, b: Bucket, rpm: int) {
    && b.count == InWindow(log, b.start) && b.count <= rpm
    && (forall w: real :: InWindow(log, w) <= rpm)
  }

  ghost predicate LogSound(log: seq<Admission>, b: Bucket, rpm: int) {
    Inside(log) && Spaced(log, b.start) && Counted(log, b, rpm)
  }

  lemma {:induction false} NoneInWindow(log: seq<Admission>, window: real)
    requires forall i :: 0 <= i < |log| ==> log[i].window != window
    ensures InWindow(log, window) == 0
  {
    if log != [] {
      NoneInWindow(log[..|log| - 1], window);
    }
  }

  lemma {:induction false} RunIsSound(times: seq<real>, rpm: int)
    requires rpm > 0 && Clock(times)
    ensures LogSound(Admitted(times, rpm), BucketAfter(times, rpm), rpm)
    ensures BucketAfter(times, rpm).start <= if times == [] then 0.0 else times[|times| - 1]
  {
    if times != [] {
      var earlier, now := times[..|times| - 1], times[|times| - 1];
      var log, b := Admitted(earlier, rpm), BucketAfter(earlier, rpm);
      RunIsSound(earlier, rpm);
      var w := Current(b, now);
      if w.start != b.start {
        NoneInWindow(log, now);
      }
      assert b.start <= now;
      if w.count < rpm {
        AdmitSound(log, b, rpm, now);
      }
    }
  }

  lemma WindowAdd(log: seq<Admission>, a: Admission, window: real)
    ensures InWindow(log + [a], window) == InWindow(log, window) + if a.window == window then 1 else 0
  {
    assert (log + [a])[..|log|] == log;
  }

  lemma AdmitCounted(log: seq<Admission>, b: Bucket, rpm: int, now: real, a: Admission)
    requires Counted(log, b, rpm) && Admits(b, rpm, now) && a.window == Current(b, now).start
    requires Current(b, now).count == InWindow(log, a.window)
    ensures Counted(log + [a], Next(b, rpm, now), rpm)
  {
    forall x: real
      ensures InWindow(log + [a], x) <= rpm
    {
      WindowAdd(log, a, x);
    }
    WindowAdd(log, a, a.window);
  }

  lemma AdmitSpaced(log: seq<Admission>, b: Bucket, now: real, a: Admission)
    requires Spaced(log, b.start) && b.start <= now && a.window == Current(b, now).start
    ensures Spaced(log + [a], a.window)
  {
    forall i | 0 <= i < |log|
      ensures Apart(log[i].window, a.window)
    {
    }
  }

  lemma AdmitSound(log: seq<Admission>, b: Bucket, rpm: int, now: real)
    requires LogSound(log, b, rpm) && b.start <= now && Admits(b, rpm, now)
    requires Current(b, now).count == InWindow(log, Current(b, now).start)
    ensures LogSound(log + [Admission(now, Current(b, now).start)], Next(b, rpm, now), rpm)
  {
    var a := Admission(now, Current(b, now).start);
    AdmitCounted(log, b, rpm, now, a);
    AdmitSpaced(log, b, now, a);
  }

  // -- intervals ------------------------------------------------------------------

  predicate Hits(a: Admission, from: real) {
    from <= a.time < from + WINDOW
  }

  lemma {:induction false} IntervalInTwo(log: seq<Admission>, from: real, v: real, w: real)
    requires forall i :: 0 <= i < |log| && Hits(log[i], from) ==> log[i].window == v || log[i].window == w
    ensures InInterval(log, from) <= InWindow(log, v) + InWindow(log, w)
  {
    if log != [] {
      IntervalInTwo(log[..|log| - 1], from, v, w);
    }
  }

  /** No half-open interval of sixty seconds admits more than twice the limit, and no
      window more than the limit. */
  lemma IntervalBound(times: seq<real>, rpm: int, from: real)
    requires rpm > 0 && Clock(times)
    ensures InInterval(Admitted(times, rpm), from) <= 2 * rpm
    ensures forall w: real :: InWindow(Admitted(times, rpm), w) <= rpm
  {
    var log := Admitted(times, rpm);
    RunIsSound(times, rpm);
    if i :| 0 <= i < |log| && Hits(log[i], from) {
      var v := log[i].window;
      var w := v;
      if j :| 0 <= j < |log| && Hits(log[j], from) && log[j].window != v {
        w := log[j].window;
      }
      forall k | 0 <= k < |log| && Hits(log[k], from)
        ensures log[k].window == v || log[k].window == w
      {
        if v != w && log[k].window != v && log[k].window != w {
          ThreeApart(log[k].window, v, w);
          assert false;
        }
      }
      IntervalInTwo(log, from, v, w);
    } else {
      IntervalInTwo(log, from, 0.0, 0.0);
    }
  }

  predicate Far(a: real, b: real) {
    a + 2.0 * WINDOW <= b || b + 2.0 * WINDOW <= a
  }

  /** Of three windows that are pairwise apart, two are two windows apart. */
  lemma ThreeApart(a: real, b: real, c: real)
    requires a != b && b != c && a != c
    requires (Apart(a, b) || Apart(b, a)) && (Apart(b, c) || Apart(c, b)) && (Apart(a, c) || Apart(c, a))
    ensures Far(a, b) || Far(b, c) || Far(a, c)
  {
  }

  /** A request is refused only when the limit has been used up in the sixty seconds
      before it. */
  lemma RefusedOnlyWhenFull(times: seq<real>, rpm: int, now: real)
    requires rpm > 0 && Clock(times) && !Admits(BucketAfter(times, rpm), rpm, now)
    requires times != [] ==> times[|times| - 1] <= now
    ensures var start := BucketAfter(times, rpm).start;
            now - WINDOW < start <= now && InWindow(Admitted(times, rpm), start) == rpm
  {
    RunIsSound(times, rpm);
  }

  // -- the bound is reached -------------------------------------------------------

  /** `m` requests a second before the first window ends, then `n` as the next begins. */
  function Burst(m: nat, n: nat): seq<real> {
    seq(m, _ => 59.0) + seq(n, _ => 60.0)
  }

  lemma IntervalAdd(log: seq<Admission>, a: Admission, from: real)
    ensures InInterval(log + [a], from) == InInterval(log, from) + if Hits(a, from) then 1 else 0
  {
    assert (log + [a])[..|log|] == log;
  }

  lemma RunAdd(earlier: seq<real>, now: real, rpm: int)
    requires Admits(BucketAfter(earlier, rpm), rpm, now)
    ensures BucketAfter(earlier + [now], rpm) == Next(BucketAfter(earlier, rpm), rpm, now)
    ensures Admitted(earlier + [now], rpm)
         == Admitted(earlier, rpm) + [Admission(now, Current(BucketAfter(earlier, rpm), now).start)]
  {
    assert (earlier + [now])[..|earlier|] == earlier;
  }

  lemma OneMore(earlier: seq<real>, now: real, rpm: int)
    requires Admits(BucketAfter(earlier, rpm), rpm, now) && 59.0 <= now <= 60.0
    ensures BucketAfter(earlier + [now], rpm) == Next(BucketAfter(earlier, rpm), rpm, now)
    ensures InInterval(Admitted(earlier + [now], rpm), 59.0) == InInterval(Admitted(earlier, rpm), 59.0) + 1
  {
    RunAdd(earlier, now, rpm);
    IntervalAdd(Admitted(earlier, rpm), Admission(now, Current(BucketAfter(earlier, rpm), now).start), 59.0);
  }

  lemma {:induction false} BurstAdmitted(m: nat, n: nat, rpm: int) returns (times: seq<real>)
    requires m <= rpm && n <= rpm && rpm > 0 && (n > 0 ==> m == rpm)
    ensures times == Burst(m, n)
    ensures BucketAfter(times, rpm) == if n > 0 then Bucket(60.0, n) else Bucket(0.0, m)
    ensures InInterval(Admitted(times, rpm), 59.0) == m + n
    decreases n, m
  {
    if n > 0 {
      times := BurstAdmitted(m, n - 1, rpm);
      OneMore(times, 60.0, rpm);
      times := times + [60.0];
    } else if m > 0 {
      times := BurstAdmitted(m - 1, n, rpm);
      OneMore(times, 59.0, rpm);
      times := times + [59.0];
    } else {
      times := [];
    }
  }

  /** The factor of two cannot be improved: a client can get twice the limit into sixty
      seconds by straddling a window's end. */
  lemma TwiceTheLimitIsReached(rpm: int)
    requires rpm > 0
    ensures exists times :: Clock(times) && InInterval(Admitted(times, rpm), 59.0) == 2 * rpm
  {
    var times := BurstAdmitted(rpm, rpm, rpm);
    assert Clock(times);
  }

  // -- the table ----------------------------------------------------------------------

  /** The addresses that ever asked for something limited. */
  function Requesters(requests: seq<Request>): set<string> {
    set r | r in requests && !r.exempt :: r.ip
  }

  lemma {:induction false} KeysAreRequesters(requests: seq<Request>, rpm: int)
    requires rpm > 0
    ensures AfterAll(requests, rpm).Keys == Requesters(requests)
  {
    if requests != [] {
      var before, last := requests[..|requests| - 1], requests[|requests| - 1];
      KeysAreRequesters(before, rpm);
      assert requests == before + [last];
      assert Requesters(requests) == Requesters(before) + if last.exempt then {} else {last.ip};
    }
  }

  /** No bucket is ever pruned: after any requests, at any times, the table holds a bucket
      for exactly the addresses that ever asked, those of every earlier moment included. */
  lemma BucketsAreNeverPruned(requests: seq<Request>, rpm: int, n: nat)
    requires rpm > 0 && n <= |requests|
    ensures AfterAll(requests, rpm).Keys == Requesters(requests)
    ensures AfterAll(requests[..n], rpm).Keys <= AfterAll(requests, rpm).Keys
  {
    KeysAreRequesters(requests, rpm);
    KeysAreRequesters(requests[..n], rpm);
    assert forall r :: r in requests[..n] ==> r in requests;
  }

  /** An address heard of once, an hour ago, is still there. */
  lemma AnHourLaterStillThere(ip: string, other: string)
    ensures ip in AfterAll([Request(ip, 0.0, false)] + [Request(other, 3600.0, false)], 1)
  {
    var requests := [Request(ip, 0.0, false)] + [Request(other, 3600.0, false)];
    KeysAreRequesters(requests, 1);
    assert requests[0] in requests;
  }
}
