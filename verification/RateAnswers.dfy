/** The answers that callers of the rate limiter get, over any sequence of requests. */
module RateAnswers {
  import opened RateLimit

  /** How many requests that count towards the limit were let through for an address in
      the sixty seconds from `from` on. */
  function GrantedFrom(requests: seq<Request>, answers: seq<bool>, ip: string, from: real): nat
    requires |answers| == |requests|
  {
    if requests == [] then 0
    else
      var n := |requests| - 1;
      GrantedFrom(requests[..n], answers[..n], ip, from)
        + if answers[n] && requests[n].ip == ip && !requests[n].exempt && from <= requests[n].time < from + 60.0
          then 1 else 0
  }

  /** The same for the sixty seconds up to and including `now`. */
  function GrantedUpTo(requests: seq<Request>, answers: seq<bool>, ip: string, now: real): nat
    requires |answers| == |requests|
  {
    if requests == [] then 0
    else
      var n := |requests| - 1;
      GrantedUpTo(requests[..n], answers[..n], ip, now)
        + if answers[n] && requests[n].ip == ip && !requests[n].exempt && now - 60.0 < requests[n].time <= now
          then 1 else 0
  }

  /** The clock never runs backwards. */
  predicate Timely(requests: seq<Request>) {
    && (forall i :: 0 <= i < |requests| ==> requests[i].time >= 0.0)
    && forall i, j :: 0 <= i < j < |requests| ==> requests[i].time <= requests[j].time
  }

  // -- the answers by address -----------------------------------------------------

  function Answers(requests: seq<Request>, rpm: int): (answers: seq<bool>)
    ensures |answers| == |requests|
  {
    if requests == [] then []
    else
      var n := |requests| - 1;
      Answers(requests[..n], rpm) + [AdmitsRequest(AfterAll(requests[..n], rpm), rpm, requests[n])]
  }

  function InRecent(log: seq<Admission>, now: real): nat {
    if log == [] then 0
    else InRecent(log[..|log| - 1], now) + if now - 60.0 < log[|log| - 1].time <= now then 1 else 0
  }

  lemma AnswerIs(requests: seq<Request>, rpm: int)
    requires rpm > 0 && requests != []
    ensures var n := |requests| - 1;
            var r, answers := requests[n], Answers(requests, rpm);
            && answers[..n] == Answers(requests[..n], rpm)
            && answers[n] == (r.exempt || Admits(BucketAfter(TimesOf(requests[..n], r.ip), rpm), rpm, r.time))
  {
    OthersDoNotMatter(requests[..|requests| - 1], rpm, requests[|requests| - 1].ip);
  }

  lemma AdmittedNext(requests: seq<Request>, rpm: int, ip: string)
    requires rpm > 0 && requests != []
    ensures var n := |requests| - 1;
            var r, times := requests[n], TimesOf(requests[..n], ip);
            Admitted(TimesOf(requests, ip), rpm)
            == Admitted(times, rpm)
               + if r.ip == ip && !r.exempt && Admits(BucketAfter(times, rpm), rpm, r.time)
                 then [Admission(r.time, Current(BucketAfter(times, rpm), r.time).start)] else []
  {
    var n := |requests| - 1;
    var times := TimesOf(requests[..n], ip);
    assert (times + [requests[n].time])[..|times|] == times;
  }

  lemma RecentAdd(log: seq<Admission>, a: Admission, now: real)
    ensures InRecent(log + [a], now) == InRecent(log, now) + if now - 60.0 < a.time <= now then 1 else 0
  {
    assert (log + [a])[..|log|] == log;
  }

  /** The answers to an address are the admissions of its own requests. */
  lemma {:induction false} GrantedIsAdmitted(requests: seq<Request>, rpm: int, ip: string, from: real, now: real)
    requires rpm > 0
    ensures var log, answers := Admitted(TimesOf(requests, ip), rpm), Answers(requests, rpm);
            && GrantedFrom(requests, answers, ip, from) == InInterval(log, from)
            && GrantedUpTo(requests, answers, ip, now) == InRecent(log, now)
    decreases |requests|
  {
    if requests != [] {
      var n := |requests| - 1;
      var r, times := requests[n], TimesOf(requests[..n], ip);
      GrantedIsAdmitted(requests[..n], rpm, ip, from, now);
      AnswerIs(requests, rpm);
      AdmittedNext(requests, rpm, ip);
      var a := Admission(r.time, Current(BucketAfter(times, rpm), r.time).start);
      IntervalAdd(Admitted(times, rpm), a, from);
      RecentAdd(Admitted(times, rpm), a, now);
    }
  }

  lemma {:induction false} TimesAreTimely(requests: seq<Request>, ip: string)
    requires Timely(requests)
    ensures Clock(TimesOf(requests, ip))
    ensures forall i :: 0 <= i < |TimesOf(requests, ip)| ==> TimesOf(requests, ip)[i] <= requests[|requests| - 1].time
    decreases |requests|
  {
    if requests != [] {
      TimesAreTimely(requests[..|requests| - 1], ip);
    }
  }

  /** Every admission of a window that is still open is recent. */
  lemma {:induction false} OpenWindowIsRecent(log: seq<Admission>, start: real, now: real)
    requires now - 60.0 < start
    requires forall i :: 0 <= i < |log| ==> log[i].window <= log[i].time <= now
    ensures InRecent(log, now) >= InWindow(log, start)
  {
    if log != [] {
      OpenWindowIsRecent(log[..|log| - 1], start, now);
    }
  }

  lemma {:induction false} AdmittedBy(times: seq<real>, rpm: int, now: real)
    requires forall i :: 0 <= i < |times| ==> times[i] <= now
    ensures forall i :: 0 <= i < |Admitted(times, rpm)| ==> Admitted(times, rpm)[i].time <= now
  {
    if times != [] {
      AdmittedBy(times[..|times| - 1], rpm, now);
    }
  }

  // -- what callers are told ------------------------------------------------------

  /** At most twice the limit in any sixty seconds. */
  lemma GrantedAtMostTwice(requests: seq<Request>, rpm: int, ip: string, from: real)
    requires rpm > 0 && Timely(requests)
    ensures GrantedFrom(requests, Answers(requests, rpm), ip, from) <= 2 * rpm
  {
    GrantedIsAdmitted(requests, rpm, ip, from, 0.0);
    TimesAreTimely(requests, ip);
    IntervalBound(TimesOf(requests, ip), rpm, from);
  }

  /** A refusal is earned: the address has had its whole limit in the last sixty seconds. */
  lemma RefusalIsEarned(requests: seq<Request>, rpm: int, i: nat)
    requires Timely(requests) && i < |requests| && !Answers(requests, rpm)[i]
    ensures rpm > 0 && !requests[i].exempt
    ensures var r := requests[i];
            GrantedUpTo(requests[..i], Answers(requests, rpm)[..i], r.ip, r.time) >= rpm
    decreases |requests|
  {
    var n := |requests| - 1;
    if i < n {
      RefusalIsEarned(requests[..n], rpm, i);
      assert requests[..n][..i] == requests[..i];
      assert Answers(requests, rpm)[..n][..i] == Answers(requests, rpm)[..i];
    } else {
      var r, times := requests[n], TimesOf(requests[..n], requests[n].ip);
      AnswerIs(requests, rpm);
      TimesAreTimely(requests[..n], r.ip);
      RefusedOnlyWhenFull(times, rpm, r.time);
      RunIsSound(times, rpm);
      AdmittedBy(times, rpm, r.time);
      OpenWindowIsRecent(Admitted(times, rpm), BucketAfter(times, rpm).start, r.time);
      GrantedIsAdmitted(requests[..n], rpm, r.ip, 0.0, r.time);
    }
  }

  lemma {:induction false} UnlimitedPasses(requests: seq<Request>, rpm: int, i: nat)
    requires i < |requests| && (rpm <= 0 || requests[i].exempt)
    ensures Answers(requests, rpm)[i]
    decreases |requests|
  {
    if i < |requests| - 1 {
      UnlimitedPasses(requests[..|requests| - 1], rpm, i);
    }
  }

  /** One limiter serves a sequence of requests. In any sixty seconds it lets an address
      through at most twice the limit; it refuses a request only when the address has had
      its whole limit in the sixty seconds before; and it never refuses an exempt request,
      nor any request when the limit is switched off. */
  method DispatchAll(requests: seq<Request>, rpm: int) returns (answers: seq<bool>)
    ensures |answers| == |requests|
    ensures rpm > 0 && Timely(requests)
            ==> forall ip, from :: GrantedFrom(requests, answers, ip, from) <= 2 * rpm
    ensures Timely(requests)
            ==> forall i :: 0 <= i < |requests| && !answers[i]
                  ==> rpm > 0 && !requests[i].exempt
                      && GrantedUpTo(requests[..i], answers[..i], requests[i].ip, requests[i].time) >= rpm
    ensures forall i :: 0 <= i < |requests| && (rpm <= 0 || requests[i].exempt) ==> answers[i]
  {
    var limiter := new Limiter(rpm);
    answers := [];
    for n := 0 to |requests|
      invariant fresh(limiter) && limiter.rpm == rpm && limiter.buckets == AfterAll(requests[..n], rpm)
      invariant answers == Answers(requests[..n], rpm)
    {
      assert requests[..n + 1][..n] == requests[..n];
      var admitted := limiter.Dispatch(requests[n]);
      answers := answers + [admitted];
    }
    assert requests[..|requests|] == requests;
    Told(requests, rpm);
  }

  lemma Told(requests: seq<Request>, rpm: int)
    ensures var answers := Answers(requests, rpm);
            && (rpm > 0 && Timely(requests)
                ==> forall ip, from :: GrantedFrom(requests, answers, ip, from) <= 2 * rpm)
            && (Timely(requests)
                ==> forall i :: 0 <= i < |requests| && !answers[i]
                      ==> rpm > 0 && !requests[i].exempt
                          && GrantedUpTo(requests[..i], answers[..i], requests[i].ip, requests[i].time) >= rpm)
            && (forall i :: 0 <= i < |requests| && (rpm <= 0 || requests[i].exempt) ==> answers[i])
  {
    var answers := Answers(requests, rpm);
    if rpm > 0 && Timely(requests) {
      forall ip, from
        ensures GrantedFrom(requests, answers, ip, from) <= 2 * rpm
      {
        GrantedAtMostTwice(requests, rpm, ip, from);
      }
    }
    if Timely(requests) {
      forall i | 0 <= i < |requests| && !answers[i]
        ensures rpm > 0 && !requests[i].exempt
        ensures GrantedUpTo(requests[..i], answers[..i], requests[i].ip, requests[i].time) >= rpm
      {
        RefusalIsEarned(requests, rpm, i);
      }
    }
    forall i | 0 <= i < |requests| && (rpm <= 0 || requests[i].exempt)
      ensures answers[i]
    {
      UnlimitedPasses(requests, rpm, i);
    }
  }
}
