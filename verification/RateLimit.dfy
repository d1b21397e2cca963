/** The sliding-window limiter of the control plane (src/platform/rate_limit.py), and the
    same window as the sensor registry keeps it, with one form that takes a slot and one
    that only looks. */
module RateLimit {
  import opened Prelude

  const WINDOW: int := 60 * SECOND

  /** Drops the admissions at the head that are older than `cutoff`; `cutoff` itself stays. */
  function Prune(history: seq<int>, cutoff: int): (kept: seq<int>) {
    if history != [] && history[0] < cutoff then Prune(history[1..], cutoff) else history
  }

  /** Pruning removes exactly the leading elements below the cutoff. */
  lemma {:induction false} PruneKeepsSuffix(history: seq<int>, cutoff: int)
    ensures
      var kept := Prune(history, cutoff);
      && |kept| <= |history|
      && kept == history[|history| - |kept|..]
      && (kept != [] ==> kept[0] >= cutoff)
      && (forall i :: 0 <= i < |history| - |kept| ==> history[i] < cutoff)
  {
    if history != [] && history[0] < cutoff {
      PruneKeepsSuffix(history[1..], cutoff);
      var kept := Prune(history[1..], cutoff);
      forall i | 0 <= i < |history| - |kept|
        ensures history[i] < cutoff
      {
        assert i > 0 ==> history[i] == history[1..][i - 1];
      }
    }
  }

  predicate HasRoom(history: seq<int>, limit: nat, now: int) {
    |Prune(history, now - WINDOW)| < limit
  }

  /** The history a request leaves behind: a refused or merely looking request adds nothing. */
  function AfterRequest(history: seq<int>, limit: nat, now: int, consume: bool): seq<int> {
    var kept := Prune(history, now - WINDOW);
    if consume && |kept| < limit then kept + [now] else kept
  }

  /** The history kept for `key`; a key never seen has an empty one. */
  function HistoryOf(histories: map<string, seq<int>>, key: string): seq<int> {
    if key in histories then histories[key] else []
  }

  // ---- Runs ----

  datatype Request = Request(key: string, now: int, consume: bool)

  /** What one key's requests have produced: the pruned history, and every admission ever made. */
  datatype Ledger = Ledger(history: seq<int>, admitted: seq<int>)

  /** The ledger one request of the key later. */
  function Answer(before: Ledger, limit: nat, now: int, consume: bool): Ledger {
    Ledger(
      AfterRequest(before.history, limit, now, consume),
      if consume && HasRoom(before.history, limit, now) then before.admitted + [now] else before.admitted)
  }

  function LedgerFor(requests: seq<Request>, key: string, limit: nat): Ledger {
    if requests == [] then Ledger([], [])
    else
      var before := LedgerFor(Front(requests), key, limit);
      var r := Last(requests);
      if r.key != key then before
      else Answer(before, limit, r.now, r.consume)
  }

  ghost predicate Chronological(requests: seq<Request>) {
    forall i, j :: 0 <= i <= j < |requests| ==> requests[i].now <= requests[j].now
  }

  ghost predicate Sorted(s: seq<int>) {
    forall i, j :: 0 <= i <= j < |s| ==> s[i] <= s[j]
  }

  /** How many elements of `s` lie in the closed interval from `lo` to `hi`. */
  function CountIn(s: seq<int>, lo: int, hi: int): nat {
    if s == [] then 0 else CountIn(Front(s), lo, hi) + (if lo <= Last(s) <= hi then 1 else 0)
  }

  /** The history is the part of the admissions the window still needs, and any `limit + 1`
      consecutive admissions span more than a window. */
  ghost predicate Faithful(ledger: Ledger, limit: nat, now: int) {
    var n, kept := |ledger.admitted|, |ledger.history|;
    && Sorted(ledger.admitted)
    && kept <= n
    && ledger.history == ledger.admitted[n - kept..]
    && (forall i :: 0 <= i < n ==> ledger.admitted[i] <= now)
    && (forall i :: 0 <= i < n - kept ==> ledger.admitted[i] < now - WINDOW)
    && (forall i, j :: 0 <= i && i + limit <= j < n ==> ledger.admitted[i] < ledger.admitted[j] - WINDOW)
  }

  lemma {:induction false} SuffixOfSuffix(s: seq<int>, t: seq<int>, u: seq<int>)
    requires |u| <= |t| <= |s| && t == s[|s| - |t|..] && u == t[|t| - |u|..]
    ensures u == s[|s| - |u|..]
  {
  }

  lemma {:induction false} DroppingIsFaithful(s: seq<int>, history: seq<int>, kept: seq<int>,
                                              limit: nat, past: int, now: int)
    requires past <= now && Faithful(Ledger(history, s), limit, past)
    requires |kept| <= |history| && kept == history[|history| - |kept|..]
    requires forall i :: 0 <= i < |history| - |kept| ==> history[i] < now - WINDOW
    ensures Faithful(Ledger(kept, s), limit, now)
  {
    SuffixOfSuffix(s, history, kept);
    forall i | 0 <= i < |s| - |kept|
      ensures s[i] < now - WINDOW
    {
      if i >= |s| - |history| {
        assert s[i] == history[i - (|s| - |history|)];
      }
    }
  }

  lemma {:induction false} PrunedPartIsOld(history: seq<int>, cutoff: int)
    ensures
      var kept := Prune(history, cutoff);
      && |kept| <= |history| && kept == history[|history| - |kept|..]
      && (forall i :: 0 <= i < |history| - |kept| ==> history[i] < cutoff)
      && (kept != [] ==> kept[0] >= cutoff)
  {
    PruneKeepsSuffix(history, cutoff);
  }

  lemma {:induction false} PruningIsFaithful(before: Ledger, limit: nat, past: int, now: int)
    requires past <= now && Faithful(before, limit, past)
    ensures Faithful(before.(history := Prune(before.history, now - WINDOW)), limit, now)
  {
    var kept := Prune(before.history, now - WINDOW);
    PrunedPartIsOld(before.history, now - WINDOW);
    DroppingIsFaithful(before.admitted, before.history, kept, limit, past, now);
    assert before.(history := kept) == Ledger(kept, before.admitted);
  }

  lemma {:induction false} AdmittingIsFaithful(before: Ledger, limit: nat, now: int)
    requires Faithful(before, limit, now) && |before.history| < limit
    ensures Faithful(Ledger(before.history + [now], before.admitted + [now]), limit, now)
  {
    var s := before.admitted + [now];
    var n := |before.admitted|;
    forall i, j | 0 <= i && i + limit <= j < |s|
      ensures s[i] < s[j] - WINDOW
    {
      if j == n {
        assert i < n - |before.history|;
      } else {
        assert before.admitted[i] < before.admitted[j] - WINDOW;
      }
    }
  }

  lemma {:induction false} StepIsFaithful(before: Ledger, limit: nat, past: int, now: int, consume: bool)
    requires limit > 0 && past <= now && Faithful(before, limit, past)
    ensures Faithful(Answer(before, limit, now, consume), limit, now)
  {
    PruningIsFaithful(before, limit, past, now);
    var pruned := before.(history := Prune(before.history, now - WINDOW));
    if consume && HasRoom(before.history, limit, now) {
      AdmittingIsFaithful(pruned, limit, now);
    }
  }

  lemma {:induction false} LedgerIsFaithful(requests: seq<Request>, key: string, limit: nat, now: int)
    requires limit > 0 && Chronological(requests)
    requires requests != [] ==> Last(requests).now <= now
    ensures Faithful(LedgerFor(requests, key, limit), limit, now)
  {
    if requests != [] {
      var r := Last(requests);
      var before := LedgerFor(Front(requests), key, limit);
      LedgerIsFaithful(Front(requests), key, limit, r.now);
      if r.key == key {
        StepIsFaithful(before, limit, r.now, r.now, r.consume);
      }
      var after := LedgerFor(requests, key, limit);
      DroppingIsFaithful(after.admitted, after.history, after.history, limit, r.now, now);
    }
  }

  lemma {:induction false} CountOfStretch(s: seq<int>, lo: int, hi: int, i: nat, j: nat)
    requires i <= j <= |s|
    requires forall k :: 0 <= k < |s| && !(i <= k < j) ==> !(lo <= s[k] <= hi)
    ensures CountIn(s, lo, hi) <= j - i
    ensures (forall k :: i <= k < j ==> lo <= s[k] <= hi) ==> CountIn(s, lo, hi) == j - i
  {
    if s != [] {
      var n := |s| - 1;
      CountOfStretch(Front(s), lo, hi, if i <= n then i else n, if j <= n then j else n);
    }
  }

  function FirstAtLeast(s: seq<int>, bound: int): (i: nat)
    ensures i <= |s|
    ensures forall k :: 0 <= k < i ==> s[k] < bound
    ensures i < |s| ==> s[i] >= bound
  {
    if s == [] || s[0] >= bound then 0 else 1 + FirstAtLeast(s[1..], bound)
  }

  /** In every closed 60-second interval at most `limit` requests of a key are admitted. */
  lemma {:induction false} AtMostLimitPerWindow(requests: seq<Request>, key: string, limit: nat, start: int)
    requires limit > 0 && Chronological(requests)
    ensures CountIn(LedgerFor(requests, key, limit).admitted, start, start + WINDOW) <= limit
  {
    var now := if requests == [] then 0 else Last(requests).now;
    LedgerIsFaithful(requests, key, limit, now);
    var s := LedgerFor(requests, key, limit).admitted;
    var i := FirstAtLeast(s, start);
    var j := if i + limit <= |s| then i + limit else |s|;
    CountOfStretch(s, start, start + WINDOW, i, j);
  }

  lemma {:induction false} KeptIsRecent(s: seq<int>, kept: seq<int>, cutoff: int)
    requires Sorted(s) && |kept| <= |s| && kept == s[|s| - |kept|..]
    requires kept != [] ==> kept[0] >= cutoff
    ensures forall k :: |s| - |kept| <= k < |s| ==> s[k] >= cutoff
  {
    if kept != [] {
      assert s[|s| - |kept|] == kept[0];
    }
  }

  lemma {:induction false} KeptIsWindow(ledger: Ledger, limit: nat, now: int)
    requires Faithful(ledger, limit, now) && (ledger.history != [] ==> ledger.history[0] >= now - WINDOW)
    ensures CountIn(ledger.admitted, now - WINDOW, now) == |ledger.history|
  {
    KeptIsRecent(ledger.admitted, ledger.history, now - WINDOW);
    var n, kept := |ledger.admitted|, |ledger.history|;
    CountOfStretch(ledger.admitted, now - WINDOW, now, n - kept, n);
  }

  /** A request finds room exactly when the 60 seconds up to it hold fewer than `limit`
      admissions, whatever was pruned before. */
  lemma {:induction false} RoomExactlyWhenWindowIsNotFull(requests: seq<Request>, key: string, limit: nat, now: int)
    requires limit > 0 && Chronological(requests)
    requires requests != [] ==> Last(requests).now <= now
    ensures
      var ledger := LedgerFor(requests, key, limit);
      HasRoom(ledger.history, limit, now) <==> CountIn(ledger.admitted, now - WINDOW, now) < limit
  {
    LedgerIsFaithful(requests, key, limit, now);
    var ledger := LedgerFor(requests, key, limit);
    PruningIsFaithful(ledger, limit, now, now);
    PrunedPartIsOld(ledger.history, now - WINDOW);
    KeptIsWindow(ledger.(history := Prune(ledger.history, now - WINDOW)), limit, now);
  }

  /** Looking twice is looking once at the later time: pruning never brings room back or takes
      it away behind a request that already found room. */
  lemma {:induction false} RoomSurvivesPruning(history: seq<int>, limit: nat, first: int, second: int)
    requires HasRoom(history, limit, first)
    ensures HasRoom(AfterRequest(history, limit, first, false), limit, second)
  {
    PruneKeepsSuffix(Prune(history, first - WINDOW), second - WINDOW);
  }

  lemma {:induction false} NextLedger(requests: seq<Request>, r: Request, limit: nat)
    ensures forall key :: LedgerFor(requests + [r], key, limit) ==
                          (if r.key != key then LedgerFor(requests, key, limit)
                           else Answer(LedgerFor(requests, key, limit), limit, r.now, r.consume))
  {
    assert Front(requests + [r]) == requests;
  }

  lemma {:induction false} Earlier(requests: seq<Request>, r: Request)
    requires Chronological(requests + [r])
    ensures Chronological(requests) && (requests != [] ==> Last(requests).now <= r.now)
  {
    var all := requests + [r];
    assert forall i :: 0 <= i < |requests| ==> all[i] == requests[i];
    assert requests != [] ==> all[|requests| - 1].now <= all[|requests|].now;
  }

  /** The decision on a consuming request `r` after `requests`: admitted exactly when the 60
      seconds up to it hold fewer than `limit` admissions, and recorded exactly then. */
  ghost predicate DecidesExactly(requests: seq<Request>, r: Request, limit: nat, admitted: bool) {
    var earlier := LedgerFor(requests, r.key, limit).admitted;
    && (admitted <==> CountIn(earlier, r.now - WINDOW, r.now) < limit)
    && LedgerFor(requests + [r], r.key, limit).admitted == (if admitted then earlier + [r.now] else earlier)
  }

  lemma {:induction false} RoomDecidesExactly(requests: seq<Request>, r: Request, limit: nat)
    requires limit > 0 && r.consume && Chronological(requests + [r])
    ensures DecidesExactly(requests, r, limit, HasRoom(LedgerFor(requests, r.key, limit).history, limit, r.now))
  {
    Earlier(requests, r);
    RoomExactlyWhenWindowIsNotFull(requests, r.key, limit, r.now);
    NextLedger(requests, r, limit);
  }

  /** The stored histories are those of the requests made so far. */
  ghost predicate Tracks(histories: map<string, seq<int>>, requests: seq<Request>, limit: nat) {
    forall key :: HistoryOf(histories, key) == LedgerFor(requests, key, limit).history
  }

  lemma {:induction false} StillTracks(histories: map<string, seq<int>>, requests: seq<Request>, limit: nat, r: Request)
    requires Tracks(histories, requests, limit)
    ensures Tracks(histories[r.key := AfterRequest(HistoryOf(histories, r.key), limit, r.now, r.consume)],
                   requests + [r], limit)
  {
    NextLedger(requests, r, limit);
  }

  // ---- The limiter object ----

  /** The pruning loop over a deque, as both the limiter and the registry run it. */
  method DropExpired(history: seq<int>, cutoff: int) returns (kept: seq<int>)
    ensures kept == Prune(history, cutoff)
  {
    kept := history;
    while kept != [] && kept[0] < cutoff
      invariant Prune(kept, cutoff) == Prune(history, cutoff)
      decreases |kept|
    {
      kept := kept[1..];
    }
  }

  class SlidingWindowRateLimiter {
    const limitPerMinute: nat
    var histories: map<string, seq<int>>
    ghost var requests: seq<Request>

    ghost predicate Valid()
      reads this
    {
      && limitPerMinute > 0
      && Tracks(histories, requests, limitPerMinute)
    }

    constructor (limit: nat)
      requires limit > 0
      ensures Valid() && limitPerMinute == limit && requests == []
    {
      limitPerMinute := limit;
      histories := map[];
      requests := [];
    }

    method Check(key: string, now: int) returns (admitted: bool)
      requires Valid()
      modifies this
      ensures Valid()
      ensures requests == old(requests) + [Request(key, now, true)]
      ensures Chronological(requests) ==>
                DecidesExactly(old(requests), Request(key, now, true), limitPerMinute, admitted)
    {
      var history := DropExpired(HistoryOf(histories, key), now - WINDOW);
      admitted := |history| < limitPerMinute;
      if admitted {
        history := history + [now];
      }
      histories := histories[key := history];
      ghost var r := Request(key, now, true);
      requests := requests + [r];
      StillTracks(old(histories), old(requests), limitPerMinute, r);
      if Chronological(requests) {
        RoomDecidesExactly(old(requests), r, limitPerMinute);
      }
    }
  }
}
