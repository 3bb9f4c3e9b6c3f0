/** The sliding-window rate limiter of src/rate_limit.py: a table from caller
    identity to the instants of its recent admitted requests. Each check
    drops the instants that left the trailing 60-second window, rejects with
    429 when the ceiling is already reached, and otherwise records `now`.
    Instants are whole seconds here (`time.time()` is a float there). */
module RateLimit {
  import opened Common

  const WindowSeconds := 60

  /** The constructor's default ceiling, and the ceiling of the module's
      singleton `limiter`. */
  const DefaultRequestsPerMinute := 60

  /** What the limiter reads of a request: the two headers (absent is None)
      and the address of the direct connection. */
  datatype Request = Request(xApiKey: Option<string>, xForwardedFor: Option<string>, clientHost: string)

  // ---------------------------------------------------------------------
  // Caller identity (`_get_key`)
  // ---------------------------------------------------------------------

  /** Python's `str.isspace` for one character. */
  predicate IsSpace(c: char)
  {
    var n := c as int;
    || 9 <= n <= 13 || 28 <= n <= 32 || n == 0x85 || n == 0xA0 || n == 0x1680
    || 0x2000 <= n <= 0x200A || n == 0x2028 || n == 0x2029 || n == 0x202F
    || n == 0x205F || n == 0x3000
  }

  function TrimStart(s: string): (r: string)
    ensures |r| <= |s| && r == s[|s| - |r|..]
    ensures forall i :: 0 <= i < |s| - |r| ==> IsSpace(s[i])
    ensures r != [] ==> !IsSpace(r[0])
  {
    if s != [] && IsSpace(s[0]) then TrimStart(s[1..]) else s
  }

  function TrimEnd(s: string): (r: string)
    ensures |r| <= |s| && r == s[..|r|]
    ensures forall i :: |r| <= i < |s| ==> IsSpace(s[i])
    ensures r != [] ==> !IsSpace(r[|r| - 1])
  {
    if s != [] && IsSpace(s[|s| - 1]) then TrimEnd(s[..|s| - 1]) else s
  }

  /** `s.strip()`: a slice of `s` with the surrounding whitespace removed. */
  function Strip(s: string): (r: string)
    ensures |r| <= |s|
    ensures r != [] ==> !IsSpace(r[0]) && !IsSpace(r[|r| - 1])
    ensures (s == [] || (!IsSpace(s[0]) && !IsSpace(s[|s| - 1]))) ==> r == s
    ensures exists i :: SliceBetweenSpaces(s, r, i)
  {
    var t := TrimStart(s);
    var r := TrimEnd(t);
    TrimmedIsSlice(s, t, r, |s| - |t|);
    r
  }

  /** Whitespace before the suffix `t` of `s` and after the prefix `r` of `t`
      makes `r` a slice of `s` between spaces. */
  lemma TrimmedIsSlice(s: string, t: string, r: string, i: nat)
    requires i <= |s| && t == s[i..]
    requires forall k :: 0 <= k < i ==> IsSpace(s[k])
    requires |r| <= |t| && r == t[..|r|]
    requires forall k :: |r| <= k < |t| ==> IsSpace(t[k])
    ensures SliceBetweenSpaces(s, r, i)
  {
    PrefixOfSuffix(s, i, |r|);
    TrailingSpacesShift(s, t, i, |r|);
  }

  /** A prefix of a suffix is a slice. */
  lemma PrefixOfSuffix(s: string, i: nat, m: nat)
    requires i + m <= |s|
    ensures s[i..][..m] == s[i..i + m]
  {
  }

  /** Whitespace at the end of the suffix `s[i..]` is whitespace at the end of `s`. */
  lemma TrailingSpacesShift(s: string, t: string, i: nat, m: nat)
    requires i <= |s| && t == s[i..]
    requires forall k :: m <= k < |t| ==> IsSpace(t[k])
    ensures forall k :: i + m <= k < |s| ==> IsSpace(s[k])
  {
    forall k | i + m <= k < |s| ensures IsSpace(s[k]) { assert s[k] == t[k - i]; }
  }

  /** A character absent from `s` is absent from `s.strip()`. */
  lemma StripKeepsOut(s: string, c: char)
    requires c !in s
    ensures c !in Strip(s)
  {
    var i :| SliceBetweenSpaces(s, Strip(s), i);
    assert Strip(s) == s[i..i + |Strip(s)|];
  }

  /** `r` is the slice of `s` at offset `i`, with only whitespace before and after it. */
  predicate SliceBetweenSpaces(s: string, r: string, i: int)
  {
    && 0 <= i <= |s| - |r| && r == s[i..i + |r|]
    && (forall k :: 0 <= k < i ==> IsSpace(s[k]))
    && (forall k :: i + |r| <= k < |s| ==> IsSpace(s[k]))
  }

  /** `s.split(",")[0]`: the text before the first comma, or all of `s`. */
  function BeforeComma(s: string): (r: string)
    ensures r <= s && ',' !in r
    ensures |r| < |s| ==> s[|r|] == ','
  {
    if s == [] || s[0] == ',' then [] else [s[0]] + BeforeComma(s[1..])
  }

  /** The client address: the first hop of a non-empty `X-Forwarded-For`,
      otherwise the address of the connection. */
  function ClientIp(request: Request): (r: string)
    ensures !Present(request.xForwardedFor) ==> r == request.clientHost
    ensures Present(request.xForwardedFor) ==>
      && |r| <= |request.xForwardedFor.value|
      && ',' !in r
      && (r != [] ==> !IsSpace(r[0]) && !IsSpace(r[|r| - 1]))
  {
    if Present(request.xForwardedFor) then
      var hop := BeforeComma(request.xForwardedFor.value);
      StripKeepsOut(hop, ',');
      Strip(hop)
    else request.clientHost
  }

  /** `_get_key`: a non-empty API key identifies the caller, otherwise its
      address does; the two kinds of identity carry distinct prefixes. */
  function GetKey(request: Request): (key: string)
    ensures Present(request.xApiKey) ==> key == "key:" + request.xApiKey.value
    ensures !Present(request.xApiKey) && Present(request.xForwardedFor) ==>
      key == "ip:" + Strip(BeforeComma(request.xForwardedFor.value))
    ensures !Present(request.xApiKey) && !Present(request.xForwardedFor) ==>
      key == "ip:" + request.clientHost
  {
    if Present(request.xApiKey) then "key:" + request.xApiKey.value
    else "ip:" + ClientIp(request)
  }

  /** With a non-empty API key, the forwarding header and the connection
      address make no difference to the identity. */
  lemma ApiKeyOverridesAddress(request: Request, forwarded: Option<string>, host: string)
    requires Present(request.xApiKey)
    ensures GetKey(request.(xForwardedFor := forwarded, clientHost := host)) == GetKey(request)
  {
  }

  /** An API-key identity never equals an address identity, and two API-key
      identities are equal exactly when the keys are. */
  lemma IdentityNamespacesAreDisjoint(r1: Request, r2: Request)
    ensures Present(r1.xApiKey) && !Present(r2.xApiKey) ==> GetKey(r1) != GetKey(r2)
    ensures Present(r1.xApiKey) && Present(r2.xApiKey) ==>
      (GetKey(r1) == GetKey(r2) <==> r1.xApiKey.value == r2.xApiKey.value)
  {
    if Present(r1.xApiKey) && !Present(r2.xApiKey) {
      assert GetKey(r1)[0] == 'k' && GetKey(r2)[0] == 'i';
    }
    if Present(r1.xApiKey) && Present(r2.xApiKey) && GetKey(r1) == GetKey(r2) {
      assert r1.xApiKey.value == GetKey(r1)[4..] == GetKey(r2)[4..] == r2.xApiKey.value;
    }
  }

  // ---------------------------------------------------------------------
  // One check on one caller's list
  // ---------------------------------------------------------------------

  function Last(s: seq<int>): int
    requires s != []
  {
    s[|s| - 1]
  }

  function Init(s: seq<int>): seq<int>
    requires s != []
  {
    s[..|s| - 1]
  }

  /** `[t for t in ts if t > windowStart]`. */
  function Prune(ts: seq<int>, windowStart: int): (r: seq<int>)
    ensures |r| <= |ts|
  {
    if ts == [] then []
    else if windowStart < Last(ts) then Prune(Init(ts), windowStart) + [Last(ts)]
    else Prune(Init(ts), windowStart)
  }

  /** A caller's list as the `defaultdict` gives it: empty when absent. */
  function Bucket(table: map<string, seq<int>>, key: string): (r: seq<int>)
    ensures key in table ==> r == table[key]
    ensures key !in table ==> r == []
  {
    if key in table then table[key] else []
  }

  /** The largest list length a ceiling allows (a negative ceiling allows none). */
  function Capacity(limit: int): nat
  {
    if limit < 0 then 0 else limit
  }

  datatype Decision = Decision(kept: seq<int>, admitted: bool)

  /** A caller whose list fits the ceiling still fits it after a decision. */
  lemma DecideFitsCapacity(table: map<string, seq<int>>, key: string, now: int, limit: int)
    requires AllFit(table, limit)
    ensures AllFit(table[key := Decide(Bucket(table, key), now, limit).kept], limit)
  {
  }

  /** Every list of the table fits the ceiling. */
  ghost predicate AllFit(table: map<string, seq<int>>, limit: int)
  {
    forall key :: key in table ==> |table[key]| <= Capacity(limit)
  }

  /** The decision of one check: the pruned list is stored either way, and
      `now` is appended only on admission. */
  function Decide(ts: seq<int>, now: int, limit: int): (d: Decision)
    ensures d.admitted <==> |Prune(ts, now - WindowSeconds)| < limit
    ensures d.admitted ==> d.kept == Prune(ts, now - WindowSeconds) + [now] && |d.kept| <= limit
    ensures !d.admitted ==> d.kept == Prune(ts, now - WindowSeconds) && |d.kept| <= |ts|
  {
    var pruned := Prune(ts, now - WindowSeconds);
    if |pruned| >= limit then Decision(pruned, false) else Decision(pruned + [now], true)
  }

  /** Pruning keeps exactly the instants after the window start. */
  lemma {:induction false} PruneSelects(ts: seq<int>, windowStart: int)
    ensures forall t :: t in Prune(ts, windowStart) ==> t in ts && windowStart < t
    ensures forall t :: t in ts && windowStart < t ==> t in Prune(ts, windowStart)
  {
    if ts != [] {
      PruneSelects(Init(ts), windowStart);
      assert ts == Init(ts) + [Last(ts)];
    }
  }

  /** Whatever a check stores lies inside the window ending at `now`. */
  lemma DecideKeepsWindow(ts: seq<int>, now: int, limit: int)
    ensures forall t :: t in Decide(ts, now, limit).kept ==> now - WindowSeconds < t
  {
    PruneSelects(ts, now - WindowSeconds);
  }

  /** Once every recorded instant is 60 seconds old or older, a check is
      admitted again (for any positive ceiling) and starts a fresh list. */
  lemma AdmissionResumesAfterWindow(ts: seq<int>, now: int, limit: int)
    requires limit >= 1
    requires forall t :: t in ts ==> t <= now - WindowSeconds
    ensures Decide(ts, now, limit) == Decision([now], true)
  {
    PruneDropsOld(ts, now - WindowSeconds);
  }

  lemma {:induction false} PruneDropsOld(s: seq<int>, w: int)
    requires forall t :: t in s ==> t <= w
    ensures Prune(s, w) == []
  {
    if s != [] {
      assert forall t :: t in Init(s) ==> t in s;
      assert Last(s) in s;
      PruneDropsOld(Init(s), w);
    }
  }

  /** With a ceiling of zero or less every check is rejected. */
  lemma NonPositiveCeilingRejectsAll(ts: seq<int>, now: int, limit: int)
    requires limit <= 0
    ensures !Decide(ts, now, limit).admitted
  {
  }

  // ---------------------------------------------------------------------
  // The limiter object
  // ---------------------------------------------------------------------

  /** The text around the ceiling in the 429 detail. */
  const ExceededHead := "Rate limit exceeded. Max "
  const ExceededTail := " requests/minute. Try again shortly."

  class RateLimiter {
    const requestsPerMinute: int
    var requests: map<string, seq<int>>

    /** Every caller's list fits the ceiling. */
    ghost predicate Valid()
      reads this
    {
      AllFit(requests, requestsPerMinute)
    }

    /** `RateLimiter(requests_per_minute)`: an empty table. */
    constructor (requestsPerMinute: int)
      ensures Valid()
      ensures this.requestsPerMinute == requestsPerMinute && requests == map[]
    {
      this.requestsPerMinute := requestsPerMinute;
      requests := map[];
    }

    /** The 429 error a rejected check raises. */
    function Exceeded(): (r: HttpError)
      ensures r.status == 429
    {
      HttpError(429, ExceededHead + IntToString(requestsPerMinute) + ExceededTail)
    }

    /** The 429 detail names the ceiling between its fixed head and tail. */
    lemma ExceededNamesCeiling()
      ensures var d := Exceeded().detail;
        && |d| > |ExceededHead| + |ExceededTail|
        && d[..|ExceededHead|] == ExceededHead
        && d[|d| - |ExceededTail|..] == ExceededTail
        && (requestsPerMinute >= 0 ==> DigitsValue(d[|ExceededHead|..|d| - |ExceededTail|]) == requestsPerMinute)
    {
      var limit := IntToString(requestsPerMinute);
      var d := Exceeded().detail;
      NatToStringReadsBack(if requestsPerMinute >= 0 then requestsPerMinute else 0);
      assert d[|ExceededHead|..|d| - |ExceededTail|] == limit;
      assert d[..|ExceededHead|] == ExceededHead;
    }

    /** `check(request)` at instant `now`: only the caller's own list changes;
        it becomes the pruned list, with `now` appended exactly when the check
        is admitted; a rejected check raises 429. */
    method Check(request: Request, now: int) returns (r: Outcome<HttpError>)
      requires Valid()
      modifies this
      ensures Valid()
      ensures var key := GetKey(request);
        var d := Decide(Bucket(old(requests), key), now, requestsPerMinute);
        && requests == old(requests)[key := d.kept]
        && (r == Pass <==> d.admitted)
        && (r.Fail? ==> r.error == Exceeded())
      ensures r == Pass ==> |requests[GetKey(request)]| <= requestsPerMinute
    {
      var key := GetKey(request);
      r := CheckKey(key, now);
    }

    /** The body of `check` once the caller's identity `key` is known. */
    method CheckKey(key: string, now: int) returns (r: Outcome<HttpError>)
      requires Valid()
      modifies this
      ensures Valid()
      ensures var d := Decide(Bucket(old(requests), key), now, requestsPerMinute);
        && requests == old(requests)[key := d.kept]
        && (r == Pass <==> d.admitted)
        && (r.Fail? ==> r.error == Exceeded())
      ensures r == Pass ==> |requests[key]| <= requestsPerMinute
    {
      ghost var d := Decide(Bucket(requests, key), now, requestsPerMinute);
      DecideFitsCapacity(requests, key, now, requestsPerMinute);
      var windowStart := now - WindowSeconds;
      var pruned := Prune(Bucket(requests, key), windowStart);
      requests := requests[key := pruned];
      if |pruned| >= requestsPerMinute {
        assert pruned == d.kept;
        return Fail(Exceeded());
      }
      requests := requests[key := pruned + [now]];
      assert pruned + [now] == d.kept;
      r := Pass;
    }

    /** Successive `check` calls by a caller new to the table, at the instants
        `times` in order: the caller's list ends as `Run` says, every other
        list is untouched, and the last call passes exactly when `Run` admits
        its last check. */
    method CheckEach(request: Request, times: seq<int>) returns (last: Outcome<HttpError>)
      requires Valid() && GetKey(request) !in requests && times != []
      modifies this
      ensures Valid()
      ensures requests == old(requests)[GetKey(request) := Run(requestsPerMinute, times).stored]
      ensures last == Pass <==> Run(requestsPerMinute, times).lastAdmitted
    {
      var key := GetKey(request);
      RunPrefixStep(requestsPerMinute, times, 0);
      last := Check(request, times[0]);
      for i := 1 to |times|
        invariant Valid()
        invariant requests == old(requests)[key := Run(requestsPerMinute, times[..i]).stored]
        invariant last == Pass <==> Run(requestsPerMinute, times[..i]).lastAdmitted
      {
        CheckFollowsRun(old(requests), key, requestsPerMinute, times, i);
        last := Check(request, times[i]);
      }
      assert times[..|times|] == times;
    }
  }

  // ---------------------------------------------------------------------
  // Sequences of checks on one caller
  // ---------------------------------------------------------------------

  /** What a run of checks for one caller leaves behind: the stored list, every
      instant that was admitted, and whether the last check was admitted. */
  datatype Trace = Trace(stored: seq<int>, admitted: seq<int>, lastAdmitted: bool)

  /** Checks for one caller at the instants `times`, in order, from an empty
      list: each step is the `Decide` that `RateLimiter.Check` applies. */
  function Run(limit: int, times: seq<int>): (tr: Trace)
    ensures |tr.admitted| <= |times|
  {
    if times == [] then Trace([], [], false)
    else Step(Run(limit, Init(times)), Last(times), limit)
  }

  /** One more check at `now` after the checks summarised by `prev`. */
  function Step(prev: Trace, now: int, limit: int): (tr: Trace)
    ensures |tr.admitted| <= |prev.admitted| + 1
  {
    var d := Decide(prev.stored, now, limit);
    Trace(d.kept, if d.admitted then prev.admitted + [now] else prev.admitted, d.admitted)
  }

  /** One more check extends a run by one `Step`. */
  lemma RunPrefixStep(limit: int, times: seq<int>, i: nat)
    requires i < |times|
    ensures Run(limit, times[..i + 1]) == Step(Run(limit, times[..i]), times[i], limit)
  {
    assert Init(times[..i + 1]) == times[..i];
  }

  /** One more check on a table holding a run's list for `key` stores the
      list of the run one instant longer, and admits as that run's last step. */
  lemma CheckFollowsRun(table: map<string, seq<int>>, key: string, limit: int, times: seq<int>, i: nat)
    requires i < |times|
    ensures var before := table[key := Run(limit, times[..i]).stored];
      var d := Decide(Bucket(before, key), times[i], limit);
      && before[key := d.kept] == table[key := Run(limit, times[..i + 1]).stored]
      && (d.admitted <==> Run(limit, times[..i + 1]).lastAdmitted)
  {
    RunPrefixStep(limit, times, i);
  }

  predicate NonDecreasing(s: seq<int>)
  {
    forall i, j :: 0 <= i <= j < |s| ==> s[i] <= s[j]
  }

  /** The number of instants of `s` in the half-open window (lo, hi]. */
  function CountWithin(s: seq<int>, lo: int, hi: int): nat
  {
    if s == [] then 0
    else CountWithin(Init(s), lo, hi) + (if lo < Last(s) <= hi then 1 else 0)
  }

  lemma PruneAppend(s: seq<int>, t: int, w: int)
    ensures Prune(s + [t], w) == if w < t then Prune(s, w) + [t] else Prune(s, w)
  {
    assert Init(s + [t]) == s;
  }

  /** Pruning with an earlier window start and then a later one is pruning
      with the later one. */
  lemma {:induction false} PruneTwice(s: seq<int>, w1: int, w2: int)
    requires w1 <= w2
    ensures Prune(Prune(s, w1), w2) == Prune(s, w2)
  {
    if s != [] {
      PruneTwice(Init(s), w1, w2);
      if w1 < Last(s) {
        PruneAppend(Prune(Init(s), w1), Last(s), w2);
      }
    }
  }

  /** Everything counted in a window starting at or after `w` survives a
      prune at `w`. */
  lemma {:induction false} CountWithinAtMostPruned(s: seq<int>, lo: int, hi: int, w: int)
    requires w <= lo
    ensures CountWithin(s, lo, hi) <= |Prune(s, w)|
  {
    if s != [] {
      CountWithinAtMostPruned(Init(s), lo, hi, w);
    }
  }

  /** With non-decreasing instants, the stored list is exactly the admitted
      instants still inside the window of the latest check. */
  lemma {:induction false} RunStoresWindowOfAdmitted(limit: int, times: seq<int>)
    requires times != [] && NonDecreasing(times)
    ensures Run(limit, times).stored == Prune(Run(limit, times).admitted, Last(times) - WindowSeconds)
  {
    var now := Last(times);
    var init := Init(times);
    var prev := Run(limit, init);
    if init == [] {
      StepKeepsWindow(prev, now - WindowSeconds, now, limit);
    } else {
      NonDecreasingInit(times);
      RunStoresWindowOfAdmitted(limit, init);
      StepKeepsWindow(prev, Last(init) - WindowSeconds, now, limit);
    }
  }

  /** A check that follows a stored list equal to the admitted instants after
      an earlier window start leaves the same relation for its own window. */
  lemma StepKeepsWindow(prev: Trace, w: int, now: int, limit: int)
    requires w <= now - WindowSeconds
    requires prev.stored == Prune(prev.admitted, w)
    ensures Step(prev, now, limit).stored == Prune(Step(prev, now, limit).admitted, now - WindowSeconds)
  {
    PruneTwice(prev.admitted, w, now - WindowSeconds);
    PruneAppend(prev.admitted, now, now - WindowSeconds);
  }

  /** The rate limit itself: for one caller checked at non-decreasing
      instants, no 60-second window (lo, lo + 60] ever holds more admitted
      requests than the ceiling. */
  lemma {:induction false} AdmissionsPerWindowBounded(limit: int, times: seq<int>, lo: int)
    requires NonDecreasing(times)
    ensures CountWithin(Run(limit, times).admitted, lo, lo + WindowSeconds) <= Capacity(limit)
  {
    if times != [] {
      var now := Last(times);
      var init := Init(times);
      var prev := Run(limit, init);
      NonDecreasingInit(times);
      AdmissionsPerWindowBounded(limit, init, lo);
      if Decide(prev.stored, now, limit).admitted {
        assert Init(prev.admitted + [now]) == prev.admitted;
        if lo < now <= lo + WindowSeconds {
          if init == [] {
            AdmittedStepFits(prev, now - WindowSeconds, now, lo, limit);
          } else {
            RunStoresWindowOfAdmitted(limit, init);
            AdmittedStepFits(prev, Last(init) - WindowSeconds, now, lo, limit);
          }
        }
      }
    }
  }

  /** The window bound needs instants that never go back: with a ceiling of
      2, checks at 100, 101, 200 and then 110 (a clock stepped back) are all
      admitted, and the window (99, 159] holds three of them. */
  lemma BackwardClockExceedsCeiling(times: seq<int>)
    requires times == [100, 101, 200, 110]
    ensures Run(2, times).admitted == times
    ensures CountWithin(times, 99, 99 + WindowSeconds) == 3 > Capacity(2)
  {
    var s1, s2, s3 := times[..1], times[..2], times[..3];
    assert s1 == [] + [times[0]] && s2 == s1 + [times[1]] && s3 == s2 + [times[2]] && times == s3 + [times[3]];
    BackwardClockSteps(s1, s2, s3, times);
    BackwardClockCount(s1, s2, s3, times);
  }

  lemma BackwardClockSteps(s1: seq<int>, s2: seq<int>, s3: seq<int>, s4: seq<int>)
    requires s1 == [100] && s2 == s1 + [101] && s3 == s2 + [200] && s4 == s3 + [110]
    ensures Run(2, s4).admitted == s4
  {
    BackwardClockThird(s1, s2, s3);
    PruneKeepsRecent([200], 50);
    RunSnoc(2, s3, 110);
  }

  lemma BackwardClockFirst(s1: seq<int>)
    requires s1 == [100]
    ensures Run(2, s1) == Trace(s1, s1, true)
  {
    RunSnoc(2, [], 100);
    assert [] + [100] == s1;
  }

  lemma BackwardClockSecond(s1: seq<int>, s2: seq<int>)
    requires s1 == [100] && s2 == s1 + [101]
    ensures Run(2, s2) == Trace(s2, s2, true)
  {
    BackwardClockFirst(s1);
    PruneKeepsRecent(s1, 41);
    RunSnoc(2, s1, 101);
  }

  lemma BackwardClockThird(s1: seq<int>, s2: seq<int>, s3: seq<int>)
    requires s1 == [100] && s2 == s1 + [101] && s3 == s2 + [200]
    ensures Run(2, s3) == Trace([200], s3, true)
  {
    BackwardClockSecond(s1, s2);
    PruneAppend([], 100, 140);
    assert [] + [100] == s1;
    PruneAppend(s1, 101, 140);
    assert Prune(s2, 140) == [];
    RunSnoc(2, s2, 200);
  }

  lemma BackwardClockCount(s1: seq<int>, s2: seq<int>, s3: seq<int>, s4: seq<int>)
    requires s1 == [100] && s2 == s1 + [101] && s3 == s2 + [200] && s4 == s3 + [110]
    ensures CountWithin(s4, 99, 159) == 3
  {
    assert Init(s1) == [] && Last(s1) == 100;
    assert CountWithin(s1, 99, 159) == 1;
    assert Init(s2) == s1 && Last(s2) == 101;
    assert CountWithin(s2, 99, 159) == 2;
    assert Init(s3) == s2 && Last(s3) == 200;
    assert CountWithin(s3, 99, 159) == 2;
    assert Init(s4) == s3 && Last(s4) == 110;
  }

  lemma RunSnoc(limit: int, s: seq<int>, t: int)
    ensures Run(limit, s + [t]) == Step(Run(limit, s), t, limit)
  {
    assert Init(s + [t]) == s;
  }

  lemma NonDecreasingInit(s: seq<int>)
    requires s != [] && NonDecreasing(s)
    ensures NonDecreasing(Init(s))
    ensures |s| >= 2 ==> Last(Init(s)) <= Last(s)
  {
  }

  /** The step of AdmissionsPerWindowBounded where the new instant is
      admitted into a window that contains it. */
  lemma AdmittedStepFits(prev: Trace, w: int, now: int, lo: int, limit: int)
    requires w <= now - WindowSeconds && prev.stored == Prune(prev.admitted, w)
    requires Decide(prev.stored, now, limit).admitted
    requires lo < now <= lo + WindowSeconds
    ensures CountWithin(prev.admitted + [now], lo, lo + WindowSeconds) <= limit
  {
    PruneTwice(prev.admitted, w, now - WindowSeconds);
    AdmittedInstantFits(prev.admitted, now, lo, limit);
  }

  /** Admitting `now` with fewer than `limit` instants left after pruning
      keeps every window that contains `now` within the ceiling. */
  lemma AdmittedInstantFits(a: seq<int>, now: int, lo: int, limit: int)
    requires |Prune(a, now - WindowSeconds)| < limit
    requires lo < now <= lo + WindowSeconds
    ensures CountWithin(a + [now], lo, lo + WindowSeconds) <= limit
  {
    assert Init(a + [now]) == a;
    CountWithinAtMostPruned(a, lo, lo + WindowSeconds, now - WindowSeconds);
  }

  function Repeat(t: int, n: nat): (s: seq<int>)
    ensures |s| == n && forall i :: 0 <= i < n ==> s[i] == t
  {
    seq(n, _ => t)
  }

  lemma PruneKeepsRecent(s: seq<int>, w: int)
    requires forall t :: t in s ==> w < t
    ensures Prune(s, w) == s
  {
    if s != [] {
      assert forall t :: t in Init(s) ==> t in s;
      assert Last(s) in s;
      PruneKeepsRecent(Init(s), w);
      assert s == Init(s) + [Last(s)];
    }
  }

  /** `n` checks by one caller at a single instant: the first `ceiling` are
      admitted and every later one is rejected. */
  lemma {:induction false} BurstAtOneInstant(limit: int, now: int, n: nat)
    ensures Run(limit, Repeat(now, n)).admitted == Repeat(now, if n < Capacity(limit) then n else Capacity(limit))
    ensures Run(limit, Repeat(now, n)).stored == Run(limit, Repeat(now, n)).admitted
    ensures n > 0 ==> (Run(limit, Repeat(now, n)).lastAdmitted <==> n <= limit)
  {
    if n > 0 {
      var times := Repeat(now, n);
      assert Init(times) == Repeat(now, n - 1);
      BurstAtOneInstant(limit, now, n - 1);
      var prev := Run(limit, Repeat(now, n - 1));
      PruneKeepsRecent(prev.stored, now - WindowSeconds);
      if n - 1 < Capacity(limit) {
        assert Repeat(now, n - 1) + [now] == Repeat(now, n);
      }
    }
  }

  /** A ceiling of 3: three checks at one instant are admitted, the fourth is
      rejected, and a fifth check 61 seconds later is admitted again. */
  lemma CeilingOfThreeExample(four: seq<int>, five: seq<int>)
    requires four == [0, 0, 0, 0] && five == four + [61]
    ensures !Run(3, four).lastAdmitted
    ensures Run(3, five).lastAdmitted
  {
    assert four == Repeat(0, 4);
    BurstAtOneInstant(3, 0, 4);
    assert Init(five) == four;
    AdmissionResumesAfterWindow(Run(3, four).stored, 61, 3);
  }
}
