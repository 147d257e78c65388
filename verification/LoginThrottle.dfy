/** The fixed-window login limiter (apps/web/src/server/auth/throttle.ts). */
module LoginThrottle {
  import opened Common

  const FAILURE_LIMIT: int := 5
  const WINDOW_MS: int := 15 * 60 * 1000
  const BLOCK_MS: int := 15 * 60 * 1000

  datatype Key = Username(hash: nat) | Ip(hash: nat)

  datatype Row = Row(failureCount: int, windowStartedAt: int, blockedUntil: Option<int>)

  predicate Blocks(row: Option<Row>, now: int) {
    row.Some? && row.value.blockedUntil.Some? && row.value.blockedUntil.value > now
  }

  /** The upsert of recordFailureInTransaction. */
  function Failed(row: Option<Row>, now: int): Row {
    var inside := row.Some? && row.value.windowStartedAt > now - WINDOW_MS;
    var count := if inside then row.value.failureCount + 1 else 1;
    Row(count, if inside then row.value.windowStartedAt else now,
        if count >= FAILURE_LIMIT then Some(now + BLOCK_MS) else None)
  }

  // ----- the failures of one key that is never cleared -----

  /** The row after the failures at these times. */
  function RowAfter(times: seq<int>): (r: Option<Row>)
    ensures r.None? <==> times == []
  {
    if times == [] then None else Some(Failed(RowAfter(times[..|times| - 1]), times[|times| - 1]))
  }

  predicate Ordered(times: seq<int>) {
    forall i, j :: 0 <= i < j < |times| ==> times[i] <= times[j]
  }

  /** No failure happened while the row blocked. */
  predicate Admitted(times: seq<int>) {
    Ordered(times) && forall n :: 0 <= n < |times| ==> !Blocks(RowAfter(times[..n]), times[n])
  }

  function RowAt(times: seq<int>, i: nat): Row
    requires i < |times|
  {
    RowAfter(times[..i + 1]).value
  }

  lemma RowStep(times: seq<int>, i: nat)
    requires i < |times|
    ensures RowAt(times, i) == Failed(if i == 0 then None else Some(RowAt(times, i - 1)), times[i])
  {
    assert times[..i + 1][..i] == times[..i];
  }

  /** The count is how many failures the current window holds, counted from its first. */
  lemma {:induction false} RowMeans(times: seq<int>, i: nat)
    requires Admitted(times) && i < |times|
    ensures var r := RowAt(times, i);
      && 1 <= r.failureCount <= FAILURE_LIMIT && r.failureCount <= i + 1
      && r.windowStartedAt == times[i + 1 - r.failureCount]
      && (r.blockedUntil == if r.failureCount == FAILURE_LIMIT then Some(times[i] + BLOCK_MS) else None)
  {
    RowStep(times, i);
    if i > 0 {
      RowMeans(times, i - 1);
      assert times[..i] == times[..i - 1 + 1];
    }
  }

  /** After a failure with count `c`, either the window goes on, or the next failure
      opens a new one: after the end of the window, and after the block of a fifth failure. */
  lemma NextFailure(times: seq<int>, i: nat)
    requires Admitted(times) && i + 1 < |times|
    ensures var r, next := RowAt(times, i), RowAt(times, i + 1);
      || (next.failureCount == r.failureCount + 1 && r.failureCount < FAILURE_LIMIT)
      || (next.failureCount == 1 && times[i + 1] >= r.windowStartedAt + WINDOW_MS
          && (r.failureCount == FAILURE_LIMIT ==> times[i + 1] >= times[i] + BLOCK_MS))
  {
    RowStep(times, i + 1);
    RowMeans(times, i);
    RowMeans(times, i + 1);
    assert times[..i + 1] == times[..i + 1];
  }

  function CountAt(times: seq<int>, i: nat): int
    requires i < |times|
  {
    RowAt(times, i).failureCount
  }

  /** What RowMeans and NextFailure say, in terms of counts and times. */
  lemma Counted(times: seq<int>, i: nat)
    requires Admitted(times) && i < |times|
    ensures 1 <= CountAt(times, i) <= FAILURE_LIMIT && CountAt(times, i) <= i + 1
    ensures i + 1 < |times| ==>
      || (CountAt(times, i + 1) == CountAt(times, i) + 1 && CountAt(times, i) < FAILURE_LIMIT)
      || (CountAt(times, i + 1) == 1 && times[i + 1] >= times[i + 1 - CountAt(times, i)] + WINDOW_MS
          && (CountAt(times, i) == FAILURE_LIMIT ==> times[i + 1] >= times[i] + BLOCK_MS))
  {
    RowMeans(times, i);
    if i + 1 < |times| {
      NextFailure(times, i);
    }
    hide RowAt, Admitted;
  }

  /** Where the window of failure `i` ends. */
  lemma {:induction false} WindowEnds(times: seq<int>, i: nat, last: nat) returns (e: nat)
    requires Admitted(times) && i <= last < |times|
    ensures i <= e <= last && CountAt(times, e) == CountAt(times, i) + (e - i)
    ensures e == last || CountAt(times, e + 1) == 1
    decreases last - i
  {
    hide CountAt, Admitted;
    Counted(times, i);
    if i == last || CountAt(times, i + 1) == 1 {
      e := i;
    } else {
      e := WindowEnds(times, i + 1, last);
    }
  }

  lemma InOrder(times: seq<int>, a: nat, b: nat)
    requires Admitted(times) && a <= b < |times|
    ensures times[a] <= times[b]
  {
  }

  /** A window that opens after failure `e` opens a whole window after failure `e` opened its own. */
  lemma OpensLate(times: seq<int>, e: nat)
    requires Admitted(times) && e + 1 < |times| && CountAt(times, e + 1) == 1
    ensures 0 <= e + 1 - CountAt(times, e) <= e
    ensures times[e + 1] >= times[e + 1 - CountAt(times, e)] + WINDOW_MS
    ensures CountAt(times, e) == FAILURE_LIMIT ==> times[e + 1] >= times[e] + WINDOW_MS
  {
    Counted(times, e);
    hide CountAt, Admitted;
  }

  /** The ninth failure comes at least a whole window after the first. */
  lemma NinthIsLate(times: seq<int>, i: nat)
    requires Admitted(times) && i + 8 < |times|
    ensures times[i + 8] >= times[i] + WINDOW_MS
  {
    hide CountAt, Admitted;
    var e := WindowEnds(times, i, i + 8);
    Counted(times, i);
    Counted(times, e);
    OpensLate(times, e);
    InOrder(times, e + 1, i + 8);
    InOrder(times, i, e);
    var c := CountAt(times, e);
    if c < FAILURE_LIMIT && CountAt(times, i) > 1 {
      InOrder(times, i, e + 1);
      var f := WindowEnds(times, e + 1, i + 8);
      Counted(times, e + 1);
      Counted(times, f);
      OpensLate(times, f);
      InOrder(times, f + 1, i + 8);
    }
  }

  function FailuresWithin(times: seq<int>, from: int, to: int): nat {
    if times == [] then 0
    else FailuresWithin(times[..|times| - 1], from, to) + if from <= times[|times| - 1] < to then 1 else 0
  }

  /** In ordered times the failures of an interval are consecutive. */
  lemma {:induction false} ConsecutiveWithin(times: seq<int>, from: int, to: int) returns (first: nat)
    requires Ordered(times) && FailuresWithin(times, from, to) > 0
    ensures first + FailuresWithin(times, from, to) <= |times|
    ensures forall k :: first <= k < first + FailuresWithin(times, from, to) ==> from <= times[k] < to
    ensures forall k :: first + FailuresWithin(times, from, to) <= k < |times| ==> times[k] >= to
    ensures forall k :: 0 <= k < first ==> times[k] < from
  {
    var n := |times| - 1;
    var before := times[..n];
    if FailuresWithin(before, from, to) > 0 {
      first := ConsecutiveWithin(before, from, to);
      assert before[first] == times[first] <= times[n];
    } else {
      NoneWithin(before, from, to);
      first := n;
      forall k | 0 <= k < n
        ensures times[k] < from
      {
        assert before[k] == times[k] <= times[n];
      }
    }
  }

  lemma {:induction false} NoneWithin(times: seq<int>, from: int, to: int)
    requires FailuresWithin(times, from, to) == 0
    ensures forall k :: 0 <= k < |times| ==> !(from <= times[k] < to)
  {
    if times != [] {
      NoneWithin(times[..|times| - 1], from, to);
    }
  }

  /** At most eight failures are recorded for one IP in any half-open interval of
      fifteen minutes, however long the history. */
  lemma EightPerWindow(times: seq<int>, from: int)
    requires Admitted(times)
    ensures FailuresWithin(times, from, from + WINDOW_MS) <= 8
  {
    if FailuresWithin(times, from, from + WINDOW_MS) > 8 {
      var first := ConsecutiveWithin(times, from, from + WINDOW_MS);
      NinthIsLate(times, first);
    }
  }

  lemma StillOrdered(times: seq<int>, now: int)
    requires Ordered(times) && (times != [] ==> times[|times| - 1] <= now)
    ensures Ordered(times + [now])
  {
  }

  lemma Longer(times: seq<int>, now: int, n: nat)
    requires n <= |times|
    ensures (times + [now])[..n] == times[..n]
  {
  }

  lemma StillAdmitted(times: seq<int>, now: int)
    requires Admitted(times) && (times != [] ==> times[|times| - 1] <= now) && !Blocks(RowAfter(times), now)
    ensures Admitted(times + [now])
  {
    var more := times + [now];
    StillOrdered(times, now);
    assert times[..|times|] == times;
    hide Ordered, RowAfter, Blocks;
    forall n | 0 <= n < |more|
      ensures !Blocks(RowAfter(more[..n]), more[n])
    {
      Longer(times, now, n);
    }
  }

  /** One more failure of an admitted history. */
  lemma AddFailure(times: seq<int>, now: int, from: int, to: int) returns (more: seq<int>)
    requires Admitted(times) && (times != [] ==> times[|times| - 1] <= now) && !Blocks(RowAfter(times), now)
    ensures more == times + [now] && Admitted(more) && RowAfter(more) == Some(Failed(RowAfter(times), now))
    ensures FailuresWithin(more, from, to) == FailuresWithin(times, from, to) + if from <= now < to then 1 else 0
  {
    more := times + [now];
    StillAdmitted(times, now);
    assert more[..|more| - 1] == times;
    hide Admitted, Blocks, Failed;
  }

  /** The bound is reached: three late failures of one window and a full next one. */
  lemma EightHappen() returns (times: seq<int>)
    ensures Admitted(times) && FailuresWithin(times, 1, 1 + WINDOW_MS) == 8
  {
    hide Admitted, RowAfter, FailuresWithin;
    var end := 1 + WINDOW_MS;
    times := NoFailures(1, end);
    times := AddFailure(times, 0, 1, end);
    times := AddFailure(times, WINDOW_MS - 1, 1, end);
    times := AddFailure(times, WINDOW_MS - 1, 1, end);
    times := AddFailure(times, WINDOW_MS - 1, 1, end);
    times := AddFailure(times, WINDOW_MS, 1, end);
    times := AddFailure(times, WINDOW_MS, 1, end);
    times := AddFailure(times, WINDOW_MS, 1, end);
    times := AddFailure(times, WINDOW_MS, 1, end);
    times := AddFailure(times, WINDOW_MS, 1, end);
  }

  lemma NoFailures(from: int, to: int) returns (times: seq<int>)
    ensures times == [] && Admitted(times) && RowAfter(times) == None && FailuresWithin(times, from, to) == 0
  {
    times := [];
  }

  // ----- the table -----

  function RowIn(rows: map<Key, Row>, key: Key): Option<Row> {
    if key in rows then Some(rows[key]) else None
  }

  /** The failed verifications of an IP, first to last. */
  function FailuresOf(failures: map<nat, seq<int>>, ip: nat): seq<int> {
    if ip in failures then failures[ip] else []
  }

  /** What holds of every row: the count, and that a full row blocks past its window. */
  predicate CountOk(row: Row, last: int) {
    && 1 <= row.failureCount <= FAILURE_LIMIT && row.windowStartedAt <= last
    && (row.failureCount == FAILURE_LIMIT ==> row.blockedUntil.Some? && row.blockedUntil.value >= row.windowStartedAt + WINDOW_MS)
  }

  predicate HistoryOk(row: Option<Row>, times: seq<int>, last: int) {
    row == RowAfter(times) && Admitted(times) && forall i :: 0 <= i < |times| ==> times[i] <= last
  }

  /** The IP rows are what their failures make of them. */
  ghost predicate TableOk(rows: map<Key, Row>, failures: map<nat, seq<int>>, last: int) {
    && (forall ip :: HistoryOk(RowIn(rows, Ip(ip)), FailuresOf(failures, ip), last))
    && (forall key :: key in rows ==> CountOk(rows[key], last))
  }

  lemma KeepsCount(row: Option<Row>, last: int, now: int)
    requires (row.Some? ==> CountOk(row.value, last)) && last <= now && !Blocks(row, now)
    ensures CountOk(Failed(row, now), now)
  {
  }

  lemma KeepsHistory(row: Option<Row>, times: seq<int>, last: int, now: int)
    requires HistoryOk(row, times, last) && last <= now && !Blocks(row, now)
    ensures HistoryOk(Some(Failed(row, now)), times + [now], now)
  {
    var more := AddFailure(times, now, 0, 0);
    hide Admitted, RowAfter;
  }

  lemma TimePasses(rows: map<Key, Row>, failures: map<nat, seq<int>>, last: int, now: int)
    requires TableOk(rows, failures, last) && last <= now
    ensures TableOk(rows, failures, now)
  {
    hide Admitted, RowAfter;
    forall ip
      ensures HistoryOk(RowIn(rows, Ip(ip)), FailuresOf(failures, ip), now)
    {
      assert HistoryOk(RowIn(rows, Ip(ip)), FailuresOf(failures, ip), last);
    }
  }

  lemma UsernameCleared(rows: map<Key, Row>, failures: map<nat, seq<int>>, last: int, username: nat)
    requires TableOk(rows, failures, last)
    ensures TableOk(rows - {Username(username)}, failures, last)
  {
    hide Admitted, RowAfter, HistoryOk, CountOk;
    forall ip
      ensures HistoryOk(RowIn(rows - {Username(username)}, Ip(ip)), FailuresOf(failures, ip), last)
    {
      assert HistoryOk(RowIn(rows, Ip(ip)), FailuresOf(failures, ip), last);
    }
  }

  function BothFailed(rows: map<Key, Row>, username: nat, ip: nat, now: int): map<Key, Row> {
    rows[Username(username) := Failed(RowIn(rows, Username(username)), now)][Ip(ip) := Failed(RowIn(rows, Ip(ip)), now)]
  }

  lemma CountsRecorded(rows: map<Key, Row>, last: int, username: nat, ip: nat, now: int)
    requires (forall key :: key in rows ==> CountOk(rows[key], last)) && last <= now
    requires !Blocks(RowIn(rows, Username(username)), now) && !Blocks(RowIn(rows, Ip(ip)), now)
    ensures forall key :: key in BothFailed(rows, username, ip, now) ==> CountOk(BothFailed(rows, username, ip, now)[key], now)
  {
    KeepsCount(RowIn(rows, Username(username)), last, now);
    KeepsCount(RowIn(rows, Ip(ip)), last, now);
    hide Failed, Blocks;
  }

  lemma HistoriesRecorded(rows: map<Key, Row>, failures: map<nat, seq<int>>, last: int, username: nat, ip: nat, now: int)
    requires TableOk(rows, failures, last) && last <= now && !Blocks(RowIn(rows, Ip(ip)), now)
    ensures forall h :: HistoryOk(RowIn(BothFailed(rows, username, ip, now), Ip(h)),
                                  FailuresOf(failures[ip := FailuresOf(failures, ip) + [now]], h), now)
  {
    hide Admitted, RowAfter, HistoryOk, CountOk, Failed, Blocks;
    TimePasses(rows, failures, last, now);
    assert HistoryOk(RowIn(rows, Ip(ip)), FailuresOf(failures, ip), last);
    KeepsHistory(RowIn(rows, Ip(ip)), FailuresOf(failures, ip), last, now);
    forall h
      ensures HistoryOk(RowIn(BothFailed(rows, username, ip, now), Ip(h)),
                        FailuresOf(failures[ip := FailuresOf(failures, ip) + [now]], h), now)
    {
      assert HistoryOk(RowIn(rows, Ip(h)), FailuresOf(failures, h), now);
    }
  }

  lemma FailureRecorded(rows: map<Key, Row>, failures: map<nat, seq<int>>, last: int, username: nat, ip: nat, now: int)
    requires TableOk(rows, failures, last) && last <= now
    requires !Blocks(RowIn(rows, Username(username)), now) && !Blocks(RowIn(rows, Ip(ip)), now)
    ensures TableOk(BothFailed(rows, username, ip, now), failures[ip := FailuresOf(failures, ip) + [now]], now)
  {
    hide HistoryOk, CountOk, Failed, Blocks, BothFailed, RowIn, FailuresOf;
    CountsRecorded(rows, last, username, ip, now);
    HistoriesRecorded(rows, failures, last, username, ip, now);
  }

  /** No more than eight failures in any window of fifteen minutes. */
  ghost predicate Bounded(times: seq<int>) {
    forall from, to :: to == from + WINDOW_MS ==> FailuresWithin(times, from, to) <= 8
  }

  lemma AllBounded(rows: map<Key, Row>, failures: map<nat, seq<int>>, last: int)
    requires TableOk(rows, failures, last)
    ensures forall ip :: Bounded(FailuresOf(failures, ip))
    ensures forall key :: key in rows ==> 1 <= rows[key].failureCount <= FAILURE_LIMIT
  {
    hide Admitted, FailuresWithin, RowAfter, FailuresOf;
    forall ip
      ensures Bounded(FailuresOf(failures, ip))
    {
      assert HistoryOk(RowIn(rows, Ip(ip)), FailuresOf(failures, ip), last);
      forall from, to | to == from + WINDOW_MS
        ensures FailuresWithin(FailuresOf(failures, ip), from, to) <= 8
      {
        EightPerWindow(FailuresOf(failures, ip), from);
      }
    }
  }

  lemma SomeKeyBlocks(rows: map<Key, Row>, username: nat, ip: nat, now: int)
    ensures Blocks(RowIn(rows, Username(username)), now) || Blocks(RowIn(rows, Ip(ip)), now) <==>
      exists key | key in rows && (key == Username(username) || key == Ip(ip)) ::
        rows[key].blockedUntil.Some? && rows[key].blockedUntil.value > now
  {
  }

  /** login_throttle with the history of failed verifications of every IP. */
  class Limiter {
    var rows: map<Key, Row>
    ghost var lastAttempt: int
    ghost var failures: map<nat, seq<int>>     // by IP hash

    ghost predicate Valid()
      reads this
    {
      TableOk(rows, failures, lastAttempt)
    }

    constructor (start: int)
      ensures Valid() && rows == map[] && failures == map[] && lastAttempt == start
    {
      rows, lastAttempt, failures := map[], start, map[];
    }

    /** One turn of the loop over the two keys. */
    method Upsert(key: Key, now: int)
      modifies this`rows
      ensures rows == old(rows)[key := Failed(RowIn(old(rows), key), now)]
    {
      var inside := key in rows && rows[key].windowStartedAt > now - WINDOW_MS;
      var failureCount := if inside then rows[key].failureCount + 1 else 1;
      var blockedUntil := if failureCount >= FAILURE_LIMIT then Some(now + BLOCK_MS) else None;
      if key in rows {
        var started := if inside then rows[key].windowStartedAt else now;
        rows := rows[key := Row(failureCount, started, blockedUntil)];
      } else {
        rows := rows[key := Row(failureCount, now, blockedUntil)];
      }
    }

    /** evaluateLoginAttempt; `verified` is the answer of `verify`, asked for only when
        neither key blocks. */
    method EvaluateLoginAttempt(username: nat, ip: nat, now: int, verified: bool) returns (blocked: bool)
      requires Valid() && lastAttempt <= now
      modifies this
      ensures Valid() && lastAttempt == now
      ensures blocked <==>
        exists key | key in old(rows) && (key == Username(username) || key == Ip(ip)) ::
          old(rows)[key].blockedUntil.Some? && old(rows)[key].blockedUntil.value > now
      ensures blocked ==> rows == old(rows) && failures == old(failures)
      ensures !blocked && verified ==> rows == old(rows) - {Username(username)} && failures == old(failures)
      ensures !blocked && !verified ==>
        && rows == old(rows)[Username(username) := Failed(RowIn(old(rows), Username(username)), now)]
                            [Ip(ip) := Failed(RowIn(old(rows), Ip(ip)), now)]
        && failures == old(failures)[ip := FailuresOf(old(failures), ip) + [now]]
      ensures forall key :: key in rows ==> 1 <= rows[key].failureCount <= FAILURE_LIMIT
      ensures forall h :: Bounded(FailuresOf(failures, h))
    {
      hide TableOk, Blocks, Failed, Bounded, FailuresOf;
      blocked := Blocks(RowIn(rows, Username(username)), now) || Blocks(RowIn(rows, Ip(ip)), now);
      SomeKeyBlocks(rows, username, ip, now);
      TimePasses(rows, failures, lastAttempt, now);
      if !blocked {
        if verified {
          UsernameCleared(rows, failures, now, username);
          rows := rows - {Username(username)};
        } else {
          FailureRecorded(rows, failures, lastAttempt, username, ip, now);
          var keys := [Username(username), Ip(ip)];
          ghost var was := rows;
          Upsert(keys[0], now);
          assert RowIn(rows, keys[1]) == RowIn(was, keys[1]);
          Upsert(keys[1], now);
          failures := failures[ip := FailuresOf(failures, ip) + [now]];
        }
      }
      lastAttempt := now;
      AllBounded(rows, failures, now);
    }
  }
}
