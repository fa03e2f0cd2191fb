/** The self-healing part of the consumer's main loop, cmd/notification-service/main.go:140-185 and 219-223. */
module FetchLoop {
  import opened Base

  const REOPEN_AFTER: nat := 12
  const REOPEN_PAUSE: int := 30 * SECOND

  /** One turn of the main loop: how the fetch ended (a cancelled fetch counts as timed out), when it was looked at, and when a reopen it led to was done.
      `Got` carries whether handling the record made the loop reopen its reader. */
  datatype Poll =
    | TimedOut(at: int, reopenedAt: int)
    | Broken(at: int, reopenedAt: int)
    | Stopping(at: int)
    | Got(at: int, reopens: bool, reopenedAt: int)

  /** timeoutStreak and lastReopenAt, with the times of all reopens so far. */
  datatype Loop = Loop(streak: nat, lastReopenAt: Option<int>, reopens: seq<int>)

  const START := Loop(0, None, [])

  predicate IdleReopen(l: Loop, poll: Poll) {
    && poll.TimedOut?
    && l.streak + 1 >= REOPEN_AFTER
    && (l.lastReopenAt.None? || poll.at - l.lastReopenAt.value > REOPEN_PAUSE)
  }

  function Reopened(l: Loop, at: int): Loop {
    Loop(0, Some(at), l.reopens + [at])
  }

  function Turn(l: Loop, poll: Poll): Loop {
    match poll
    case TimedOut(_, reopenedAt) =>
      if IdleReopen(l, poll) then Reopened(l, reopenedAt)
      else l.(streak := if l.streak + 1 >= REOPEN_AFTER then 0 else l.streak + 1)
    case Broken(_, reopenedAt) => Reopened(l, reopenedAt)
    case Stopping(_) => l
    case Got(_, reopens, reopenedAt) => if reopens then Reopened(l, reopenedAt) else l.(streak := 0)
  }

  function After(polls: seq<Poll>): Loop {
    if polls == [] then START else Turn(After(polls[..|polls| - 1]), polls[|polls| - 1])
  }

  /** The clock does not run backwards. */
  ghost predicate InOrder(polls: seq<Poll>) {
    && (forall i :: 0 <= i < |polls| && !polls[i].Stopping? ==> polls[i].at <= polls[i].reopenedAt)
    && (forall i, j :: 0 <= i < j < |polls| && !polls[i].Stopping? ==> polls[i].reopenedAt <= polls[j].at)
  }

  /** The loop's own copy of lastReopenAt and timeoutStreak, updated in place. */
  class State {
    var timeoutStreak: nat
    var lastReopenAt: Option<int>
    ghost var polls: seq<Poll>

    ghost predicate Valid()
      reads this
    {
      timeoutStreak == After(polls).streak && lastReopenAt == After(polls).lastReopenAt
    }

    constructor ()
      ensures Valid() && polls == []
    {
      timeoutStreak, lastReopenAt, polls := 0, None, [];
    }

    method Observe(poll: Poll) returns (reopen: bool)
      requires Valid()
      modifies this
      ensures Valid() && polls == old(polls) + [poll]
      ensures reopen <==> match poll
        case TimedOut(at, _) =>
          old(timeoutStreak) >= 11 && (old(lastReopenAt).None? || at - old(lastReopenAt).value > 30_000_000)
        case Broken(_, _) => true
        case Stopping(_) => false
        case Got(_, reopens, _) => reopens
      ensures lastReopenAt == if reopen then Some(poll.reopenedAt) else old(lastReopenAt)
      ensures timeoutStreak == match poll
        case TimedOut(_, _) => if old(timeoutStreak) >= 11 then 0 else old(timeoutStreak) + 1
        case Stopping(_) => old(timeoutStreak)
        case _ => 0
      ensures After(polls).reopens == After(old(polls)).reopens + if reopen then [poll.reopenedAt] else []
    {
      reopen := false;
      match poll {
        case TimedOut(at, reopenedAt) =>
          timeoutStreak := timeoutStreak + 1;
          if timeoutStreak >= 12 {
            if lastReopenAt.None? || at - lastReopenAt.value > 30 * SECOND {
              reopen := true;
              lastReopenAt := Some(reopenedAt);
            }
            timeoutStreak := 0;
          }
        case Broken(_, reopenedAt) =>
          reopen := true;
          lastReopenAt := Some(reopenedAt);
          timeoutStreak := 0;
        case Stopping(_) =>
        case Got(_, reopens, reopenedAt) =>
          timeoutStreak := 0;
          if reopens {
            reopen := true;
            lastReopenAt := Some(reopenedAt);
          }
      }
      polls := polls + [poll];
      assert polls[..|polls| - 1] == old(polls);
    }
  }

  lemma {:induction false} StreakIsTimeouts(polls: seq<Poll>)
    ensures After(polls).streak < 12
    ensures exists from: nat :: StreakFrom(polls, from, After(polls).streak)
    decreases |polls|
  {
    if polls == [] {
      assert StreakFrom(polls, 0, 0);
    } else {
      var past := polls[..|polls| - 1];
      StreakIsTimeouts(past);
      var from: nat :| StreakFrom(past, from, After(past).streak);
      if After(polls).streak == 0 {
        assert StreakFrom(polls, |polls|, 0);
      } else {
        assert polls[from..][..|polls[from..]| - 1] == past[from..];
        assert StreakFrom(polls, from, After(polls).streak);
      }
    }
  }

  /** The polls from here on are timeouts, apart from turns that saw the process stopping, and there are n of them. */
  ghost predicate StreakFrom(polls: seq<Poll>, from: nat, n: nat) {
    && from <= |polls|
    && Timeouts(polls[from..]) == n
    && forall i :: from <= i < |polls| ==> polls[i].TimedOut? || polls[i].Stopping?
  }

  ghost function Timeouts(polls: seq<Poll>): nat {
    if polls == [] then 0 else Timeouts(polls[..|polls| - 1]) + if polls[|polls| - 1].TimedOut? then 1 else 0
  }

  lemma {:induction false} LastIsLatest(polls: seq<Poll>)
    requires InOrder(polls)
    ensures
      var l := After(polls);
      && (l.reopens == [] <==> l.lastReopenAt.None?)
      && (l.lastReopenAt.Some? ==>
            && (exists i :: 0 <= i < |polls| && !polls[i].Stopping? && polls[i].reopenedAt == l.lastReopenAt.value)
            && forall i :: 0 <= i < |l.reopens| ==> l.reopens[i] <= l.lastReopenAt.value)
    decreases |polls|
  {
    if polls != [] {
      var past := polls[..|polls| - 1];
      LastIsLatest(past);
      var last := polls[|polls| - 1];
      var l := After(past);
      if l.lastReopenAt.Some? {
        var i :| 0 <= i < |past| && !past[i].Stopping? && past[i].reopenedAt == l.lastReopenAt.value;
        assert polls[i] == past[i];
        assert polls[i].reopenedAt <= last.at;
      }
    }
  }

  /** Every reopen for idleness ends a run of twelve timeouts and comes more than 30 seconds after every earlier reopen;
      between turns the streak is below twelve. */
  lemma IdleReopenIsRare(polls: seq<Poll>, poll: Poll)
    requires InOrder(polls + [poll]) && IdleReopen(After(polls), poll)
    ensures After(polls).streak == 11
    ensures exists from: nat :: StreakFrom(polls + [poll], from, 12)
    ensures forall i :: 0 <= i < |After(polls).reopens| ==> poll.at - After(polls).reopens[i] > 30_000_000
  {
    StreakIsTimeouts(polls);
    var all := polls + [poll];
    var from: nat :| StreakFrom(polls, from, After(polls).streak);
    assert all[from..][..|all[from..]| - 1] == polls[from..];
    assert StreakFrom(all, from, REOPEN_AFTER);
    forall i | 0 <= i < |polls|
      ensures polls[i] == all[i]
    {
    }
    assert InOrder(polls);
    LastIsLatest(polls);
  }
}
