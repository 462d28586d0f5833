/** The Redis sliding-window limiter: a sorted set of admission times that each
    check prunes, counts and possibly extends, with a key expiry of one window. */
module RateLimit {
  import opened Prelude

  datatype Entry = Entry(score: nat, member: nat)

  datatype Decision = Decision(allowed: bool, retryAfter: int)

  /** The stored key: its members in score order, and when the key expires. */
  datatype Key = Key(entries: seq<Entry>, expiresAt: int)

  const NoKey := Key([], 0)

  function Remaining(entries: seq<Entry>, cutoff: int): seq<Entry> {
    if entries == [] then []
    else (if 0 <= entries[0].score <= cutoff then [] else [entries[0]]) + Remaining(entries[1..], cutoff)
  }

  function Without(entries: seq<Entry>, member: nat): seq<Entry> {
    if entries == [] then []
    else (if entries[0].member == member then [] else [entries[0]]) + Without(entries[1..], member)
  }

  /** Sorted insertion after every entry of the same or a smaller score. */
  function Inserted(entries: seq<Entry>, e: Entry): seq<Entry> {
    if entries == [] || entries[|entries| - 1].score <= e.score then entries + [e]
    else Inserted(entries[..|entries| - 1], e) + [entries[|entries| - 1]]
  }

  function CeilSeconds(ms: int): int {
    -((-ms) / 1000)
  }

  function RetryAfter(entries: seq<Entry>, now: nat, window: nat): int {
    if entries == [] then 1 else Max(1, CeilSeconds(entries[0].score + window - now))
  }

  /** The members Redis still serves at `now`. */
  function Live(key: Key, now: nat): seq<Entry> {
    if key.entries != [] && key.expiresAt <= now then [] else key.entries
  }

  /** The script on a given member list. */
  function Evaluated(key: Key, live: seq<Entry>, now: nat, window: nat, limit: int, member: nat): (Key, Decision) {
    var kept := Remaining(live, now - window);
    if |kept| < limit then
      (Key(Inserted(Without(kept, member), Entry(now, member)), now + window), Decision(true, 0))
    else (key.(entries := kept), Decision(false, RetryAfter(kept, now, window)))
  }

  function Checked(key: Key, now: nat, window: nat, limit: int, member: nat): (Key, Decision) {
    Evaluated(key, Live(key, now), now, window, limit, member)
  }

  class SlidingWindow {
    var entries: seq<Entry>
    var expiresAt: int

    constructor ()
      ensures Key(entries, expiresAt) == NoKey
    {
      entries, expiresAt := [], 0;
    }

    method Check(now: nat, window: nat, limit: int, member: nat) returns (decision: Decision)
      modifies this
      ensures (Key(entries, expiresAt), decision) == Checked(old(Key(entries, expiresAt)), now, window, limit, member)
    {
      if entries != [] && expiresAt <= now {
        entries := [];
      }
      entries := Remaining(entries, now - window);
      if |entries| < limit {
        entries := Inserted(Without(entries, member), Entry(now, member));
        expiresAt := now + window;
        return Decision(true, 0);
      }
      var retry := 1;
      if entries != [] {
        retry := CeilSeconds(entries[0].score + window - now);
        if retry < 1 {
          retry := 1;
        }
      }
      return Decision(false, retry);
    }
  }

  // ------------------------------------------------------------------- traffic

  datatype Call = Call(now: nat, member: nat)

  /** Traffic on one key: the stored key after it and the admitted times. */
  datatype Traffic = Traffic(key: Key, admitted: seq<nat>)

  function Serve(t: Traffic, call: Call, window: nat, limit: int): Traffic {
    var (key, decision) := Checked(t.key, call.now, window, limit, call.member);
    Traffic(key, if decision.allowed then t.admitted + [call.now] else t.admitted)
  }

  function ServeAll(calls: seq<Call>, window: nat, limit: int): Traffic {
    if calls == [] then Traffic(NoKey, [])
    else Serve(ServeAll(calls[..|calls| - 1], window, limit), calls[|calls| - 1], window, limit)
  }

  /** The clock never runs backwards and each request draws its own member. */
  ghost predicate Proper(calls: seq<Call>) {
    forall i, j :: 0 <= i < j < |calls| ==> calls[i].now <= calls[j].now && calls[i].member != calls[j].member
  }

  /** How many admissions fall in the half-open interval (lo, hi]. */
  function CountIn(times: seq<nat>, lo: int, hi: int): nat {
    if times == [] then 0
    else CountIn(times[..|times| - 1], lo, hi) + if lo < times[|times| - 1] <= hi then 1 else 0
  }

  ghost predicate Ascending(times: seq<nat>) {
    forall i, j :: 0 <= i < j < |times| ==> times[i] <= times[j]
  }

  /** The members are the admissions from index `k` on, in the same order. */
  ghost predicate Matches(entries: seq<Entry>, times: seq<nat>, k: nat) {
    |entries| + k == |times| && forall i :: 0 <= i < |entries| ==> entries[i].score == times[k + i]
  }

  /** Index `k` splits the admissions into those that have left the window ending
      at `now` and those still inside it. */
  ghost predicate Splits(times: seq<nat>, k: nat, now: nat, window: nat) {
    && k <= |times|
    && (forall i :: 0 <= i < k ==> times[i] + window <= now)
    && (forall i :: k <= i < |times| ==> now < times[i] + window)
  }

  ghost predicate Tracks(t: Traffic, k: nat, now: nat, window: nat, limit: int) {
    && Ascending(t.admitted)
    && (forall i :: 0 <= i < |t.admitted| ==> t.admitted[i] <= now)
    && (forall i :: 0 <= i < k <= |t.admitted| ==> t.admitted[i] + window <= now)
    && Matches(t.key.entries, t.admitted, k)
    && (t.key.entries != [] ==> t.key.expiresAt == t.admitted[|t.admitted| - 1] + window)
    && |t.key.entries| <= Max(limit, 0)
  }

  /** Pruning an ascending list drops a prefix. */
  lemma {:induction false} RemainingIsSuffix(entries: seq<Entry>, cutoff: int) returns (d: nat)
    requires forall i, j :: 0 <= i < j < |entries| ==> entries[i].score <= entries[j].score
    ensures d <= |entries| && Remaining(entries, cutoff) == entries[d..]
    ensures forall i :: 0 <= i < d ==> entries[i].score <= cutoff
    ensures forall i :: d <= i < |entries| ==> cutoff < entries[i].score
  {
    if entries == [] || cutoff < entries[0].score {
      d := 0;
      NothingToPrune(entries, cutoff);
    } else {
      var rest := entries[1..];
      assert forall i :: 0 <= i < |rest| ==> rest[i] == entries[i + 1];
      d := RemainingIsSuffix(rest, cutoff);
      assert rest[d..] == entries[d + 1..];
      assert forall i :: 0 < i < |entries| ==> entries[i] == rest[i - 1];
      d := d + 1;
    }
  }

  lemma {:induction false} NothingToPrune(entries: seq<Entry>, cutoff: int)
    requires forall i :: 0 <= i < |entries| ==> cutoff < entries[i].score
    ensures Remaining(entries, cutoff) == entries
  {
    if entries != [] {
      NothingToPrune(entries[1..], cutoff);
      assert entries == [entries[0]] + entries[1..];
    }
  }

  lemma {:induction false} WithoutFresh(entries: seq<Entry>, member: nat)
    requires forall i :: 0 <= i < |entries| ==> entries[i].member != member
    ensures Without(entries, member) == entries
  {
    if entries != [] {
      WithoutFresh(entries[1..], member);
      assert entries == [entries[0]] + entries[1..];
    }
  }

  lemma {:induction false} CountOfSuffix(times: seq<nat>, k: nat, lo: int, hi: int)
    requires k <= |times|
    requires forall i :: 0 <= i < k ==> times[i] <= lo
    requires forall i :: k <= i < |times| ==> lo < times[i] <= hi
    ensures CountIn(times, lo, hi) == |times| - k
  {
    if times != [] {
      var last := |times| - 1;
      CountOfSuffix(times[..last], if k <= last then k else last, lo, hi);
    }
  }

  /** Pruning at `now` keeps exactly the admissions inside the window. */
  lemma PruneIsWindow(t: Traffic, k: nat, since: nat, now: nat, window: nat, limit: int)
    returns (k': nat, kept: seq<Entry>)
    requires Tracks(t, k, since, window, limit) && since <= now
    ensures kept == Remaining(t.key.entries, now - window) && |kept| <= |t.key.entries|
    ensures forall e :: e in kept ==> e in t.key.entries
    ensures Splits(t.admitted, k', now, window) && Matches(kept, t.admitted, k')
    ensures |kept| == CountIn(t.admitted, now - window, now)
  {
    hide Remaining;
    var entries := t.key.entries;
    var d := RemainingIsSuffix(entries, now - window);
    kept := entries[d..];
    k' := k + d;
    forall i | 0 <= i < |t.admitted| && k <= i
      ensures i < k' ==> t.admitted[i] + window <= now
      ensures k' <= i ==> now < t.admitted[i] + window
    {
      assert entries[i - k].score == t.admitted[i];
    }
    CountOfSuffix(t.admitted, k', now - window, now);
  }

  /** An expired key holds nothing that pruning would keep. */
  lemma ExpiredKeepsNothing(t: Traffic, k: nat, since: nat, now: nat, window: nat, limit: int)
    requires Tracks(t, k, since, window, limit) && since <= now
    ensures Remaining(Live(t.key, now), now - window) == Remaining(t.key.entries, now - window)
  {
    if t.key.entries != [] && t.key.expiresAt <= now {
      var k', kept := PruneIsWindow(t, k, since, now, window, limit);
      assert t.admitted[|t.admitted| - 1] + window <= now;
    }
  }

  lemma AdmissionTracks(times: seq<nat>, k: nat, kept: seq<Entry>, since: nat, now: nat, member: nat, window: nat,
                        limit: int)
    requires Ascending(times) && Matches(kept, times, k) && Splits(times, k, now, window)
    requires since <= now && |kept| < limit
    requires forall i :: 0 <= i < |times| ==> times[i] <= since
    ensures Tracks(Traffic(Key(kept + [Entry(now, member)], now + window), times + [now]), k, now, window, limit)
  {
  }

  /** The script's outcome, spelled out from what pruning leaves. */
  lemma ScriptOutcome(key: Key, kept: seq<Entry>, now: nat, window: nat, limit: int, member: nat)
    requires kept == Remaining(Live(key, now), now - window)
    requires forall i :: 0 <= i < |kept| ==> kept[i].score <= now && kept[i].member != member
    ensures Checked(key, now, window, limit, member) ==
      if |kept| < limit then (Key(kept + [Entry(now, member)], now + window), Decision(true, 0))
      else (key.(entries := kept), Decision(false, RetryAfter(kept, now, window)))
  {
    WithoutFresh(kept, member);
  }

  lemma KeptIsOld(t: Traffic, k: nat, since: nat, kept: seq<Entry>, k': nat, member: nat)
    requires forall i :: 0 <= i < |t.admitted| ==> t.admitted[i] <= since
    requires Matches(kept, t.admitted, k') && forall e :: e in kept ==> e in t.key.entries
    requires forall e :: e in t.key.entries ==> e.member != member
    ensures forall i :: 0 <= i < |kept| ==> kept[i].score <= since && kept[i].member != member
  {
    forall i | 0 <= i < |kept| ensures kept[i].score <= since && kept[i].member != member {
      assert kept[i] in kept;
    }
  }

  lemma ServeTracks(t: Traffic, k: nat, since: nat, call: Call, window: nat, limit: int) returns (k': nat)
    requires Tracks(t, k, since, window, limit) && since <= call.now
    requires forall e :: e in t.key.entries ==> e.member != call.member
    ensures Tracks(Serve(t, call, window, limit), k', call.now, window, limit)
    ensures Checked(t.key, call.now, window, limit, call.member).1.allowed
       <==> CountIn(t.admitted, call.now - window, call.now) < limit
    ensures forall e :: e in Serve(t, call, window, limit).key.entries ==> e in t.key.entries || e.member == call.member
  {
    hide Remaining, Inserted, Without, CountIn;
    var kept;
    k', kept := PruneIsWindow(t, k, since, call.now, window, limit);
    ExpiredKeepsNothing(t, k, since, call.now, window, limit);
    KeptIsOld(t, k, since, kept, k', call.member);
    ScriptOutcome(t.key, kept, call.now, window, limit, call.member);
    if |kept| < limit {
      AdmissionTracks(t.admitted, k', kept, since, call.now, call.member, window, limit);
    }
  }

  function LastTime(calls: seq<Call>): nat {
    if calls == [] then 0 else calls[|calls| - 1].now
  }

  /** Every stored member was drawn by one of the calls. */
  ghost predicate Drawn(entries: seq<Entry>, calls: seq<Call>) {
    forall e :: e in entries ==> exists i :: 0 <= i < |calls| && calls[i].member == e.member
  }

  lemma DrawnIsFresh(entries: seq<Entry>, calls: seq<Call>, call: Call)
    requires Drawn(entries, calls)
    requires forall i :: 0 <= i < |calls| ==> calls[i].member != call.member
    ensures forall e :: e in entries ==> e.member != call.member
  {
  }

  lemma DrawnExtends(entries: seq<Entry>, entries': seq<Entry>, calls: seq<Call>, call: Call)
    requires Drawn(entries, calls)
    requires forall e :: e in entries' ==> e in entries || e.member == call.member
    ensures Drawn(entries', calls + [call])
  {
    forall e | e in entries' ensures exists i :: 0 <= i < |calls + [call]| && (calls + [call])[i].member == e.member {
      if e in entries {
        var i :| 0 <= i < |calls| && calls[i].member == e.member;
        assert (calls + [call])[i].member == e.member;
      } else {
        assert (calls + [call])[|calls|].member == e.member;
      }
    }
  }

  lemma {:induction false} TrafficTracks(calls: seq<Call>, window: nat, limit: int) returns (k: nat)
    requires Proper(calls)
    ensures Tracks(ServeAll(calls, window, limit), k, LastTime(calls), window, limit)
    ensures Drawn(ServeAll(calls, window, limit).key.entries, calls)
  {
    hide Checked, CountIn;
    if calls == [] {
      k := 0;
    } else {
      var before, call := calls[..|calls| - 1], calls[|calls| - 1];
      var k0 := TrafficTracks(before, window, limit);
      var t := ServeAll(before, window, limit);
      DrawnIsFresh(t.key.entries, before, call);
      k := ServeTracks(t, k0, LastTime(before), call, window, limit);
      DrawnExtends(t.key.entries, Serve(t, call, window, limit).key.entries, before, call);
      assert calls == before + [call];
    }
  }

  lemma ProperPrefix(calls: seq<Call>, call: Call)
    requires Proper(calls + [call])
    ensures Proper(calls) && LastTime(calls) <= call.now
    ensures forall i :: 0 <= i < |calls| ==> calls[i].member != call.member
  {
    var all := calls + [call];
    assert forall i :: 0 <= i < |calls| ==> all[i] == calls[i];
    assert all[|calls|] == call;
  }

  // --------------------------------------------------------------- main results

  /** The pruned, expiring sorted set decides exactly as a log of every admission
      would: a request is admitted if and only if fewer than `limit` admissions
      lie in the window that ends now. */
  lemma DecisionIsWindowCount(calls: seq<Call>, call: Call, window: nat, limit: int)
    requires Proper(calls + [call])
    ensures Checked(ServeAll(calls, window, limit).key, call.now, window, limit, call.member).1.allowed
       <==> CountIn(ServeAll(calls, window, limit).admitted, call.now - window, call.now) < limit
  {
    ProperPrefix(calls, call);
    var k := TrafficTracks(calls, window, limit);
    DrawnIsFresh(ServeAll(calls, window, limit).key.entries, calls, call);
    var _ := ServeTracks(ServeAll(calls, window, limit), k, LastTime(calls), call, window, limit);
  }

  /** The admission log after one more request. */
  lemma AdmittedStep(calls: seq<Call>, call: Call, window: nat, limit: int)
    requires Proper(calls + [call])
    ensures var times := ServeAll(calls, window, limit).admitted;
      ServeAll(calls + [call], window, limit).admitted
        == if CountIn(times, call.now - window, call.now) < limit then times + [call.now] else times
  {
    DecisionIsWindowCount(calls, call, window, limit);
    assert (calls + [call])[..|calls|] == calls;
  }

  lemma AdmittedInPast(calls: seq<Call>, window: nat, limit: int)
    requires Proper(calls)
    ensures forall i :: 0 <= i < |ServeAll(calls, window, limit).admitted| ==>
              ServeAll(calls, window, limit).admitted[i] <= LastTime(calls)
  {
    var _ := TrafficTracks(calls, window, limit);
  }

  /** Admissions already made only lose weight as the window moves on. */
  lemma {:induction false} CountShrinks(times: seq<nat>, lo: int, lo': int, hi: int, hi': int)
    requires lo' <= lo
    requires forall i :: 0 <= i < |times| ==> times[i] <= hi'
    ensures CountIn(times, lo, hi) <= CountIn(times, lo', hi')
  {
    if times != [] {
      CountShrinks(times[..|times| - 1], lo, lo', hi, hi');
    }
  }

  lemma OneMoreInWindow(times: seq<nat>, now: nat, window: nat, limit: int, t: int)
    requires forall i :: 0 <= i < |times| ==> times[i] <= now
    requires CountIn(times, now - window, now) < limit
    requires CountIn(times, t - window, t) <= Max(limit, 0)
    ensures CountIn(times + [now], t - window, t) <= Max(limit, 0)
  {
    assert (times + [now])[..|times|] == times;
    if t - window < now <= t {
      CountShrinks(times, t - window, now - window, t, now);
    }
  }

  lemma WindowStep(before: seq<Call>, call: Call, window: nat, limit: int, t: int)
    requires Proper(before + [call])
    requires CountIn(ServeAll(before, window, limit).admitted, t - window, t) <= Max(limit, 0)
    ensures CountIn(ServeAll(before + [call], window, limit).admitted, t - window, t) <= Max(limit, 0)
  {
    hide ServeAll;
    ProperPrefix(before, call);
    var times := ServeAll(before, window, limit).admitted;
    assert forall i :: 0 <= i < |times| ==> times[i] <= call.now by {
      AdmittedInPast(before, window, limit);
    }
    AdmittedStep(before, call, window, limit);
    if CountIn(times, call.now - window, call.now) < limit {
      OneMoreInWindow(times, call.now, window, limit, t);
    }
  }

  /** No window (t - W, t], wherever it ends, ever holds more than `limit` admissions. */
  lemma {:induction false} NoWindowExceedsLimit(calls: seq<Call>, window: nat, limit: int, t: int)
    requires Proper(calls)
    ensures CountIn(ServeAll(calls, window, limit).admitted, t - window, t) <= Max(limit, 0)
  {
    if calls != [] {
      var before, call := calls[..|calls| - 1], calls[|calls| - 1];
      assert calls == before + [call];
      NoWindowExceedsLimit(before, window, limit, t);
      WindowStep(before, call, window, limit, t);
    }
  }

  /** The script looks at the member list only through what pruning leaves. */
  lemma PrunedListDecides(key: Key, a: seq<Entry>, b: seq<Entry>, now: nat, window: nat, limit: int, member: nat)
    requires Remaining(a, now - window) == Remaining(b, now - window)
    ensures Evaluated(key, a, now, window, limit, member) == Evaluated(key, b, now, window, limit, member)
  {
  }

  /** What the script finds when `call` follows `calls`. */
  lemma PrunedAt(calls: seq<Call>, call: Call, window: nat, limit: int) returns (k: nat, kept: seq<Entry>)
    requires Proper(calls + [call])
    ensures kept == Remaining(ServeAll(calls, window, limit).key.entries, call.now - window)
    ensures kept == Remaining(Live(ServeAll(calls, window, limit).key, call.now), call.now - window)
    ensures Splits(ServeAll(calls, window, limit).admitted, k, call.now, window)
    ensures Matches(kept, ServeAll(calls, window, limit).admitted, k)
    ensures Ascending(ServeAll(calls, window, limit).admitted) && |kept| <= Max(limit, 0)
  {
    hide ServeAll, Remaining, CountIn;
    ProperPrefix(calls, call);
    var k0 := TrafficTracks(calls, window, limit);
    k, kept := PruneIsWindow(ServeAll(calls, window, limit), k0, LastTime(calls), call.now, window, limit);
    ExpiredKeepsNothing(ServeAll(calls, window, limit), k0, LastTime(calls), call.now, window, limit);
  }

  /** Whether or not Redis has already dropped the expired key, the script gives
      the same decision and leaves the same members. */
  lemma ExpiryNeverChangesADecision(calls: seq<Call>, call: Call, window: nat, limit: int)
    requires Proper(calls + [call])
    ensures var key := ServeAll(calls, window, limit).key;
      Evaluated(key, key.entries, call.now, window, limit, call.member)
        == Checked(key, call.now, window, limit, call.member)
  {
    hide ServeAll, Remaining;
    var _, _ := PrunedAt(calls, call, window, limit);
    var key := ServeAll(calls, window, limit).key;
    PrunedListDecides(key, key.entries, Live(key, call.now), call.now, window, limit, call.member);
  }

  lemma CeilSecondsBounds(ms: int)
    ensures 1000 * (CeilSeconds(ms) - 1) < ms <= 1000 * CeilSeconds(ms)
  {
  }

  /** What a rejection that reports `wait` promises about a later attempt. */
  lemma RejectionPromise(times: seq<nat>, k: nat, kept: seq<Entry>, wait: int, now: nat, later: nat, window: nat,
                         limit: int)
    requires Ascending(times) && Splits(times, k, now, window) && Matches(kept, times, k)
    requires (forall i :: 0 <= i < |times| ==> times[i] <= now) && now <= later
    requires limit <= |kept| <= Max(limit, 0) && wait == RetryAfter(kept, now, window)
    ensures limit < 1 ==> !(CountIn(times, later - window, later) < limit)
    ensures limit >= 1 && now + 1000 * wait <= later ==> CountIn(times, later - window, later) < limit
    ensures later <= now + 1000 * (wait - 1) ==> !(CountIn(times, later - window, later) < limit)
  {
    if kept != [] {
      assert kept[0].score == times[k];
      CeilSecondsBounds(times[k] + window - now);
      if later < times[k] + window {
        CountOfSuffix(times, k, later - window, later);
      } else {
        CountAtMost(times, k + 1, later - window, later);
      }
    }
  }

  lemma {:induction false} CountAtMost(times: seq<nat>, k: nat, lo: int, hi: int)
    requires k <= |times| && forall i :: 0 <= i < k ==> times[i] <= lo
    ensures CountIn(times, lo, hi) <= |times| - k
  {
    if times != [] {
      CountAtMost(times[..|times| - 1], if k < |times| then k else k - 1, lo, hi);
    }
  }

  /** `retry_after` is exact: with no other traffic, a rejected caller that comes
      back after that many seconds is admitted, and one that comes back a full
      second earlier is rejected again. A non-positive limit admits nobody. */
  lemma RetryAfterIsExact(calls: seq<Call>, call: Call, again: Call, window: nat, limit: int)
    requires Proper(calls + [call] + [again])
    requires !Checked(ServeAll(calls, window, limit).key, call.now, window, limit, call.member).1.allowed
    ensures var wait := Checked(ServeAll(calls, window, limit).key, call.now, window, limit, call.member).1.retryAfter;
      var admitted :=
        Checked(ServeAll(calls + [call], window, limit).key, again.now, window, limit, again.member).1.allowed;
      && (limit < 1 ==> !admitted)
      && (limit >= 1 && call.now + 1000 * wait <= again.now ==> admitted)
      && (again.now <= call.now + 1000 * (wait - 1) ==> !admitted)
  {
    hide ServeAll, Remaining, Inserted, Without, CountIn;
    ProperPrefix(calls + [call], again);
    ProperPrefix(calls, call);
    AdmittedInPast(calls, window, limit);
    var times := ServeAll(calls, window, limit).admitted;
    var k, kept := PrunedAt(calls, call, window, limit);
    RejectionPromise(times, k, kept, RetryAfter(kept, call.now, window), call.now, again.now, window, limit);
    AdmittedUnchanged(calls, call, window, limit);
    DecisionIsWindowCount(calls + [call], again, window, limit);
  }

  /** Every refusal names at least a second, and exactly one where nobody is ever admitted. */
  lemma {:induction false} RefusalsWait(calls: seq<Call>, call: Call, window: nat, limit: int)
    ensures var decision := Checked(ServeAll(calls, window, limit).key, call.now, window, limit, call.member).1;
            && (if decision.allowed then decision.retryAfter == 0 else decision.retryAfter >= 1)
            && (limit < 1 ==> decision == Decision(false, 1) && ServeAll(calls, window, limit) == Traffic(NoKey, []))
  {
    if limit < 1 && calls != [] {
      RefusalsWait(calls[..|calls| - 1], calls[|calls| - 1], window, limit);
    }
  }

  lemma AdmittedUnchanged(calls: seq<Call>, call: Call, window: nat, limit: int)
    requires Proper(calls + [call])
    requires !Checked(ServeAll(calls, window, limit).key, call.now, window, limit, call.member).1.allowed
    ensures ServeAll(calls + [call], window, limit).admitted == ServeAll(calls, window, limit).admitted
  {
    DecisionIsWindowCount(calls, call, window, limit);
    AdmittedStep(calls, call, window, limit);
  }
}
