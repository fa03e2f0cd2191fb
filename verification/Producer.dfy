/** internal/shared/kafkax/producer.go: at most two writes per message, writer resets at least two seconds apart. */
module Kafka {
  import opened Base
  import opened Text

  const RESET_INTERVAL: int := 2 * SECOND

  /** The part of the world a process does not control: the clock and how calls to the database and the broker end. */
  class World {
    var now: int

    constructor (now: int)
      ensures this.now == now
    {
      this.now := now;
    }

    method Pass()
      modifies this
      ensures now >= old(now)
    {
      var d: nat :| true;
      now := now + d;
    }

    method Wait(d: int)
      requires d >= 0
      modifies this
      ensures now >= old(now) + d
    {
      var late: nat :| true;
      now := now + d + late;
    }

    method Query() returns (call: Call)
    {
      call := *;
    }

    /** The text of an error that some call has returned. */
    method Text() returns (text: string)
    {
      text := *;
    }

    /** A write that is acknowledged is in the topic; one that is answered with an error may be. */
    method Broker() returns (appended: bool, error: Option<string>)
      ensures error.None? ==> appended
    {
      appended := *;
      var refused: bool := *;
      var text: string :| true;
      error := if refused || !appended then Some(text) else None;
    }
  }

  const SUSPECTS := [
    "dial tcp", "connection refused", "i/o timeout", "eof", "broken pipe", "transport is closing", "not leader",
    "unknown broker", "failed to dial"]

  predicate ShouldReset(error: string) {
    exists s :: s in SUSPECTS && Contains(ToLower(error), s)
  }

  /** The error mentions one of the nine symptoms of a stale connection, in letters of any case. */
  ghost predicate Stale(error: string) {
    || Says(error, "dial tcp")
    || Says(error, "connection refused")
    || Says(error, "i/o timeout")
    || Says(error, "eof")
    || Says(error, "broken pipe")
    || Says(error, "transport is closing")
    || Says(error, "not leader")
    || Says(error, "unknown broker")
    || Says(error, "failed to dial")
  }

  lemma ShouldResetExactly(error: string)
    ensures ShouldReset(error) <==> Stale(error)
  {
    if ShouldReset(error) {
      var s :| s in SUSPECTS && Contains(ToLower(error), s);
      AllLower(s);
      ContainsExactly(error, s);
    }
    if Stale(error) {
      var i := Symptom(error);
      var s := SUSPECTS[i];
      AllLower(s);
      ContainsExactly(error, s);
    }
  }

  /** Which of the nine it mentions. */
  lemma Symptom(error: string) returns (i: nat)
    requires Stale(error)
    ensures i < |SUSPECTS| && Says(error, SUSPECTS[i])
  {
    i := if Says(error, "dial tcp") then 0
         else if Says(error, "connection refused") then 1
         else if Says(error, "i/o timeout") then 2
         else if Says(error, "eof") then 3
         else if Says(error, "broken pipe") then 4
         else if Says(error, "transport is closing") then 5
         else if Says(error, "not leader") then 6
         else if Says(error, "unknown broker") then 7
         else 8;
  }

  lemma AllLower(s: string)
    requires s in SUSPECTS
    ensures forall k :: 0 <= k < |s| ==> !('A' <= s[k] <= 'Z')
  {
  }

  /** A symptom is found wherever it stands in the error and however it is capitalised. */
  lemma SymptomAnywhere(before: string, spelled: string, behind: string, symptom: string)
    requires symptom in {
      "dial tcp", "connection refused", "i/o timeout", "eof", "broken pipe", "transport is closing", "not leader", "unknown broker",
      "failed to dial"}
    requires SameLetters(spelled, symptom)
    ensures Stale(before + spelled + behind)
  {
    SaysAnywhere(before, spelled, behind, symptom);
  }

  /** One call of write(): when it ended, whether the message is in the topic, and the error if there was one. */
  datatype Attempt<+M> = Attempt(message: M, at: int, appended: bool, error: Option<string>) {
    predicate Heals() {
      error.Some? && ShouldReset(error.value)
    }
  }

  /** The writes of one call of Produce: none if the producer is closed, otherwise one, or two exactly when the first ends in
      an error that looks like a stale connection. */
  ghost predicate Tried<M>(attempts: seq<Attempt<M>>, open: bool, message: M) {
    && (if open then 1 <= |attempts| <= 2 && (|attempts| == 2 <==> attempts[0].Heals()) else attempts == [])
    && forall i :: 0 <= i < |attempts| ==> attempts[i].message == message && (attempts[i].error.None? ==> attempts[i].appended)
  }

  /** The writes ended one after the other between these times. */
  ghost predicate Between<M>(attempts: seq<Attempt<M>>, start: int, end: int) {
    && start <= end
    && (forall i :: 0 <= i < |attempts| ==> start <= attempts[i].at <= end)
    && (forall i, j :: 0 <= i < j < |attempts| ==> attempts[i].at <= attempts[j].at)
  }

  /** The result of Produce is that of its last write. */
  function Answer<M>(attempts: seq<Attempt<M>>): Option<string> {
    if attempts == [] then Some("context canceled") else attempts[|attempts| - 1].error
  }

  ghost predicate Spaced(times: seq<int>) {
    forall i :: 0 <= i < |times| - 1 ==> times[i + 1] - times[i] >= RESET_INTERVAL
  }

  /** `log` is what has arrived in the topic through this producer; `writes` and `resets` record what it has done. */
  class Producer<M> {
    var open: bool
    var lastReset: Option<int>
    var log: seq<M>
    ghost var writes: seq<Attempt<M>>
    ghost var resets: seq<int>

    ghost predicate Valid()
      reads this
    {
      && Spaced(resets)
      && lastReset == if resets == [] then None else Some(resets[|resets| - 1])
    }

    constructor ()
      ensures Valid() && open && log == [] && writes == [] && resets == []
    {
      open, lastReset, log, writes, resets := true, None, [], [], [];
    }

    method Close()
      requires Valid()
      modifies this
      ensures Valid() && !open && log == old(log) && writes == old(writes) && resets == old(resets)
    {
      open := false;
    }

    method ResetOnce(world: World)
      requires Valid()
      modifies this, world
      ensures Valid() && world.now >= old(world.now) && log == old(log) && writes == old(writes)
      ensures if old(lastReset).Some? && old(world.now) - old(lastReset).value < 2_000_000
              then resets == old(resets) && open == old(open)
              else open && lastReset.Some? && resets == old(resets) + [lastReset.value] && old(world.now) <= lastReset.value <= world.now
    {
      if lastReset.Some? && world.now - lastReset.value < RESET_INTERVAL {
        return;
      }
      open := true;
      world.Pass();
      lastReset := Some(world.now);
      resets := resets + [world.now];
    }

    method Write(world: World, message: M) returns (attempt: Attempt<M>)
      requires open
      modifies this, world
      ensures old(world.now) <= attempt.at == world.now
      ensures attempt.message == message && (attempt.error.None? ==> attempt.appended)
      ensures log == old(log) + if attempt.appended then [message] else []
      ensures writes == old(writes) + [attempt]
      ensures open && lastReset == old(lastReset) && resets == old(resets)
    {
      world.Pass();
      var appended, error := world.Broker();
      if appended {
        log := log + [message];
      }
      attempt := Attempt(message, world.now, appended, error);
      writes := writes + [attempt];
    }

    /** A second write happens exactly when the first ended in an error that looks like a stale connection. */
    method Produce(world: World, message: M) returns (error: Option<string>, attempts: seq<Attempt<M>>)
      requires Valid()
      modifies this, world
      ensures Valid() && open == old(open)
      ensures if open then 1 <= |attempts| <= 2 && (|attempts| == 2 <==> attempts[0].error.Some? && Stale(attempts[0].error.value))
              else attempts == []
      ensures error == if open then attempts[|attempts| - 1].error else Some("context canceled")
      ensures Tried(attempts, open, message) && Between(attempts, old(world.now), world.now) && error == Answer(attempts)
      ensures writes == old(writes) + attempts
      ensures log == old(log) + (if |attempts| >= 1 && attempts[0].appended then [message] else [])
                              + (if |attempts| == 2 && attempts[1].appended then [message] else [])
      ensures old(resets) <= resets && |resets| <= |old(resets)| + 1
      ensures |resets| > |old(resets)| ==> |attempts| == 2
    {
      attempts := [];
      error := Some("context canceled");
      if open {
        var first := Write(world, message);
        if first.error.Some? {
          ShouldResetExactly(first.error.value);
        }
        if first.Heals() {
          var second := WriteAgain(world, message);
          attempts, error := [first, second], second.error;
        } else {
          attempts, error := [first], first.error;
        }
      }
    }

    /** The writer is replaced, unless that happened a moment ago, and the write is repeated. */
    method WriteAgain(world: World, message: M) returns (attempt: Attempt<M>)
      requires Valid() && open
      modifies this, world
      ensures Valid() && open
      ensures old(world.now) <= attempt.at == world.now
      ensures attempt.message == message && (attempt.error.None? ==> attempt.appended)
      ensures log == old(log) + if attempt.appended then [message] else []
      ensures writes == old(writes) + [attempt]
      ensures old(resets) <= resets && |resets| <= |old(resets)| + 1
    {
      ResetOnce(world);
      attempt := Write(world, message);
    }
  }

  lemma {:induction false} SpacedApart(times: seq<int>, i: nat, j: nat)
    requires Spaced(times) && i <= j < |times|
    ensures times[j] - times[i] >= (j - i) * 2_000_000
    decreases j
  {
    if i < j {
      SpacedApart(times, i, j - 1);
    }
  }

  /** Resets i .. j that fall into a window of length T are at most T / 2s + 1 many. */
  lemma ResetsInWindow(times: seq<int>, i: nat, j: nat, window: int)
    requires Spaced(times) && i <= j < |times| && times[j] - times[i] <= window
    ensures j - i + 1 <= window / 2_000_000 + 1
  {
    SpacedApart(times, i, j);
  }
}
