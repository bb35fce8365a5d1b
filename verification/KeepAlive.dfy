/**
 The keep-alive tracker of controller/controller.go on an ideal clock that counts nanoseconds: a poll every
 five seconds from Connect on, each comparing the time since the last request with the keep-alive.
 */
module KeepAlive {
  const SECOND := 1_000_000_000
  const POLL := 5 * SECOND
  const TWO_63 := 0x8000_0000_0000_0000
  const TWO_64 := 0x1_0000_0000_0000_0000

  // The 64-bit signed value that an integer wraps to.
  function Wrap64(x: int): int { (x + TWO_63) % TWO_64 - TWO_63 }

  // time.Duration(keepAlive) * time.Second
  function DurationOf(keepAlive: nat): int { Wrap64(Wrap64(keepAlive) * SECOND) }

  /** The duration is the keep-alive in nanoseconds exactly up to 9223372036 seconds. */
  lemma DurationExactIff(keepAlive: nat)
    requires keepAlive < TWO_64
    ensures DurationOf(keepAlive) == keepAlive * 1_000_000_000 <==> keepAlive <= 9223372036
  {
    if keepAlive <= 9223372036 {
      assert Wrap64(keepAlive) == keepAlive;
    }
  }

  // Requests come in order, none before the connection.
  ghost predicate InOrder(connect: int, requests: seq<int>) {
    && (forall i :: 0 <= i < |requests| ==> connect <= requests[i])
    && (forall i, j :: 0 <= i <= j < |requests| ==> requests[i] <= requests[j])
  }

  // c.lastRequest at time t: Connect sets it, and so does every request.
  function LastRequest(connect: int, requests: seq<int>, t: int): int {
    if requests == [] then connect
    else if requests[|requests| - 1] <= t then requests[|requests| - 1]
    else LastRequest(connect, requests[..|requests| - 1], t)
  }

  function FinalRequest(connect: int, requests: seq<int>): int {
    if requests == [] then connect else requests[|requests| - 1]
  }

  predicate Expired(connect: int, requests: seq<int>, duration: int, t: int) {
    t - LastRequest(connect, requests, t) >= duration
  }

  predicate IsPoll(connect: int, t: int) { connect <= t && (t - connect) % POLL == 0 }

  // t is the first poll that finds the keep-alive expired.
  ghost predicate FiresFirstAt(connect: int, requests: seq<int>, duration: int, t: int) {
    && IsPoll(connect, t) && Expired(connect, requests, duration, t)
    && (forall p :: p < t && IsPoll(connect, p) ==> !Expired(connect, requests, duration, p))
  }

  // The polling loop, up to the poll that disconnects.
  method Track(connect: int, requests: seq<int>, duration: int) returns (now: int)
    requires InOrder(connect, requests)
    ensures FiresFirstAt(connect, requests, duration, now)
  {
    now := connect;
    while !Expired(connect, requests, duration, now)
      invariant IsPoll(connect, now)
      invariant forall p :: p < now && IsPoll(connect, p) ==> !Expired(connect, requests, duration, p)
      decreases FinalRequest(connect, requests) + duration - now
    {
      LastRequestAt(connect, requests, now);
      NoPollBetween(connect, now);
      now := now + POLL;
    }
  }

  lemma NoPollBetween(connect: int, now: int)
    requires IsPoll(connect, now)
    ensures IsPoll(connect, now + POLL) && forall p :: now < p < now + POLL ==> !IsPoll(connect, p)
  {
  }

  lemma {:induction false} LastRequestAt(connect: int, requests: seq<int>, t: int)
    requires InOrder(connect, requests) && connect <= t
    ensures connect <= LastRequest(connect, requests, t) <= t
    ensures LastRequest(connect, requests, t) <= FinalRequest(connect, requests)
    ensures FinalRequest(connect, requests) <= t ==>
              LastRequest(connect, requests, t) == FinalRequest(connect, requests)
    ensures forall i :: 0 <= i < |requests| && requests[i] <= t ==> requests[i] <= LastRequest(connect, requests, t)
    ensures LastRequest(connect, requests, t) == connect || LastRequest(connect, requests, t) in requests
  {
    if requests != [] && requests[|requests| - 1] > t {
      var init := requests[..|requests| - 1];
      LastRequestAt(connect, init, t);
      if init != [] {
        assert FinalRequest(connect, init) == requests[|requests| - 2];
      }
      forall i | 0 <= i < |requests| && requests[i] <= t ensures requests[i] <= LastRequest(connect, requests, t) {
        assert requests[i] == init[i];
      }
    }
  }

  /**
   The tracker disconnects no earlier than `duration` after the request it saw last, and less than one poll
   later than that.
   */
  lemma FiresWithinOnePoll(connect: int, requests: seq<int>, duration: int, t: int)
    requires InOrder(connect, requests) && duration > 0 && FiresFirstAt(connect, requests, duration, t)
    ensures var last := LastRequest(connect, requests, t);
            last + duration <= t < last + duration + POLL
  {
    LastRequestAt(connect, requests, t);
    LastRequestAt(connect, requests, connect);
    assert t != connect;
    var p := t - POLL;
    PreviousPoll(connect, t);
    LastRequestAt(connect, requests, p);
    var last := LastRequest(connect, requests, t);
    if last <= p {
      assert last <= LastRequest(connect, requests, p) by {
        if last != connect {
          var i :| 0 <= i < |requests| && requests[i] == last;
        }
      }
    }
  }

  lemma PreviousPoll(connect: int, t: int)
    requires connect < t && IsPoll(connect, t)
    ensures IsPoll(connect, t - POLL)
  {
  }

  // Each request comes sooner than `duration` after the one before it, the first after the connection.
  ghost predicate GapsBelow(connect: int, requests: seq<int>, duration: int) {
    forall i :: 0 <= i < |requests| ==> requests[i] - (if i == 0 then connect else requests[i - 1]) < duration
  }

  /** While the gaps stay below `duration` there is no disconnect before the final request. */
  lemma NoDisconnectInGaps(connect: int, requests: seq<int>, duration: int, t: int)
    requires InOrder(connect, requests) && GapsBelow(connect, requests, duration)
    requires connect <= t < FinalRequest(connect, requests)
    ensures !Expired(connect, requests, duration, t)
  {
    LastRequestAt(connect, requests, t);
    var i := 0;
    while requests[i] <= t
      invariant 0 <= i < |requests| && forall j :: 0 <= j < i ==> requests[j] <= t
      decreases |requests| - i
    {
      i := i + 1;
    }
    assert i > 0 ==> requests[i - 1] <= LastRequest(connect, requests, t);
  }

  /**
   For a keep-alive of 1 to 9223372036 seconds and requests closer together than that, the automatic
   disconnect comes at least the keep-alive, and less than the keep-alive plus five seconds, after the last one.
   */
  lemma KeepAliveBound(connect: int, requests: seq<int>, keepAlive: nat, t: int)
    requires 1 <= keepAlive <= 9223372036 && InOrder(connect, requests)
    requires GapsBelow(connect, requests, keepAlive * 1_000_000_000)
    requires FiresFirstAt(connect, requests, DurationOf(keepAlive), t)
    ensures var last := FinalRequest(connect, requests);
            last + keepAlive * 1_000_000_000 <= t < last + keepAlive * 1_000_000_000 + 5_000_000_000
  {
    DurationExactIff(keepAlive);
    if t < FinalRequest(connect, requests) {
      NoDisconnectInGaps(connect, requests, keepAlive * SECOND, t);
    }
    LastRequestAt(connect, requests, t);
    FiresWithinOnePoll(connect, requests, keepAlive * SECOND, t);
  }

  // The bound holds for every connection and all requests that are closer together than the keep-alive.
  ghost predicate AlwaysBounded(keepAlive: nat) {
    forall connect, requests, t {:trigger FiresFirstAt(connect, requests, DurationOf(keepAlive), t)} ::
      InOrder(connect, requests) && GapsBelow(connect, requests, keepAlive * 1_000_000_000)
      && FiresFirstAt(connect, requests, DurationOf(keepAlive), t) ==>
        var last := FinalRequest(connect, requests);
        last + keepAlive * 1_000_000_000 <= t < last + keepAlive * 1_000_000_000 + 5_000_000_000
  }

  lemma WrapLoses(x: int) returns (m: int)
    ensures Wrap64(x) == x - m * TWO_64 && -TWO_63 <= Wrap64(x) < TWO_63
  {
    m := (x + TWO_63) / TWO_64;
  }

  // A longer keep-alive loses at least one whole range of the 64-bit product.
  lemma LongDurationIsShort(keepAlive: nat)
    requires keepAlive > 9223372036
    ensures DurationOf(keepAlive) <= keepAlive * SECOND - TWO_64
  {
    var m1 := WrapLoses(keepAlive);
    var m2 := WrapLoses(Wrap64(keepAlive) * SECOND);
    var m := m1 * SECOND + m2;
    assert DurationOf(keepAlive) == keepAlive * SECOND - m * TWO_64;
    assert keepAlive * SECOND >= TWO_63;
    assert m >= 1;
  }

  // With no request at all, the first poll that is late enough.
  lemma SilentConnectionFires(duration: int) returns (t: int)
    ensures FiresFirstAt(0, [], duration, t)
    ensures duration <= 0 ==> t == 0
    ensures duration > 0 ==> t < duration + POLL
  {
    t := if duration <= 0 then 0 else (duration + POLL - 1) / POLL * POLL;
    if duration > 0 {
      forall p | p < t && IsPoll(0, p) ensures !Expired(0, [], duration, p) {
        assert p / POLL * POLL == p;
      }
    }
  }

  /** The bound of KeepAliveBound holds in all cases exactly up to 9223372036 seconds. */
  lemma BoundedIff(keepAlive: nat)
    requires keepAlive >= 1
    ensures AlwaysBounded(keepAlive) <==> keepAlive <= 9223372036
  {
    if keepAlive <= 9223372036 {
      forall connect, requests, t
        | InOrder(connect, requests) && GapsBelow(connect, requests, keepAlive * SECOND)
          && FiresFirstAt(connect, requests, DurationOf(keepAlive), t)
        ensures var last := FinalRequest(connect, requests);
                last + keepAlive * 1_000_000_000 <= t < last + keepAlive * 1_000_000_000 + 5_000_000_000
      {
        KeepAliveBound(connect, requests, keepAlive, t);
      }
    } else {
      LongDurationIsShort(keepAlive);
      var t := SilentConnectionFires(DurationOf(keepAlive));
      assert InOrder(0, []) && GapsBelow(0, [], keepAlive * SECOND) && FinalRequest(0, []) == 0;
      assert t < keepAlive * SECOND;
    }
  }

  /** A keep-alive whose product wraps to zero or below disconnects the client at once; 9223372037 is one. */
  lemma WrappedFiresAtOnce(connect: int, requests: seq<int>, keepAlive: nat)
    requires InOrder(connect, requests)
    ensures FiresFirstAt(connect, requests, DurationOf(keepAlive), connect) <==> DurationOf(keepAlive) <= 0
    ensures DurationOf(9223372037) < 0
  {
    LastRequestAt(connect, requests, connect);
  }
}
