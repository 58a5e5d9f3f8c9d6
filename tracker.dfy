/** The up/down debouncing state machine of the cron tick handler.

    The handler keeps one module-level flag, `isActive`, which starts `true`.
    Each tick polls the bot; a success while inactive sends the recovery
    message and a failure while active sends the down alert. Any outcome that
    confirms the current belief sends nothing. */
module Tracker {
  import opened Events

  /** One tick on the level of values: the new value of `isActive` and the
      notification the tick sends, if any. A failure while already inactive
      takes the early return and leaves the flag as it was. */
  function Step(active: bool, success: bool): (r: (bool, Option<Event>))
    ensures r.0 == success
    ensures r.1.Some? <==> active != success
    ensures r.1 == Some(Down) <==> active && !success
    ensures r.1 == Some(Recovered) <==> !active && success
  {
    if success then
      (true, if !active then Some(Recovered) else None)
    else if !active then
      (active, None)
    else
      (false, Some(Down))
  }

  /** The value of `isActive` after feeding `outcomes` to a tracker whose
      flag started at `init`. */
  function State(init: bool, outcomes: seq<bool>): (s: bool)
    ensures outcomes == [] ==> s == init
    ensures outcomes != [] ==> s == outcomes[|outcomes| - 1]
  {
    if outcomes == [] then init
    else Step(State(init, outcomes[..|outcomes| - 1]), outcomes[|outcomes| - 1]).0
  }

  /** The notifications sent, in order, while feeding `outcomes` to a
      tracker whose flag started at `init`. */
  function Emitted(init: bool, outcomes: seq<bool>): (evs: seq<Event>)
    ensures |evs| <= |outcomes|
  {
    if outcomes == [] then []
    else
      var prefix := outcomes[..|outcomes| - 1];
      var ev := Step(State(init, prefix), outcomes[|outcomes| - 1]).1;
      Emitted(init, prefix) + (if ev.Some? then [ev.value] else [])
  }

  /** The belief held just before tick `i`: the initial flag for the first
      tick, the outcome of the previous tick otherwise. */
  function Previous(init: bool, outcomes: seq<bool>, i: nat): bool
    requires i < |outcomes|
  {
    if i == 0 then init else outcomes[i - 1]
  }

  /** The ticks whose outcome differs from the belief held before them. */
  function ChangePoints(init: bool, outcomes: seq<bool>): set<nat>
  {
    set i: nat | i < |outcomes| && outcomes[i] != Previous(init, outcomes, i)
  }

  /** Feeding one more outcome: the flag becomes that outcome, and one
      notification is appended exactly when it differs from the flag. */
  lemma EmittedSnoc(init: bool, outcomes: seq<bool>, success: bool)
    ensures State(init, outcomes + [success]) == success
    ensures Emitted(init, outcomes + [success]) ==
      Emitted(init, outcomes) + (if State(init, outcomes) != success
                                  then [Step(State(init, outcomes), success).1.value] else [])
  {
  }

  /** Feeding one more outcome adds its tick to the change points exactly
      when it differs from the flag before it. */
  lemma ChangePointsSnoc(init: bool, outcomes: seq<bool>, success: bool)
    ensures ChangePoints(init, outcomes + [success]) ==
      ChangePoints(init, outcomes) + (if success != State(init, outcomes) then {|outcomes|} else {})
  {
    var longer := outcomes + [success];
    var added: set<nat> := if success != State(init, outcomes) then {|outcomes|} else {};
    forall i: nat | i < |outcomes|
      ensures Previous(init, longer, i) == Previous(init, outcomes, i) && longer[i] == outcomes[i]
    {
    }
    assert Previous(init, longer, |outcomes|) == State(init, outcomes);
    forall i: nat
      ensures i in ChangePoints(init, longer) <==> i in ChangePoints(init, outcomes) + added
    {
      if i < |outcomes| {
        assert Previous(init, longer, i) == Previous(init, outcomes, i);
      }
    }
  }

  /** A notification is sent exactly for the ticks whose outcome differs from
      the belief before them, so the number of notifications is the number of
      state changes. */
  lemma {:induction false} EmittedCountsChanges(init: bool, outcomes: seq<bool>)
    ensures |Emitted(init, outcomes)| == |ChangePoints(init, outcomes)|
  {
    if outcomes == [] {
      assert ChangePoints(init, outcomes) == {};
    } else {
      var n := |outcomes| - 1;
      var prefix := outcomes[..n];
      assert outcomes == prefix + [outcomes[n]];
      EmittedCountsChanges(init, prefix);
      EmittedSnoc(init, prefix, outcomes[n]);
      ChangePointsSnoc(init, prefix, outcomes[n]);
      assert forall i | i in ChangePoints(init, prefix) :: i < n;
    }
  }

  /** The parity of the number of notifications sent tells whether the flag
      is back at its initial value. */
  lemma {:induction false} EmittedParity(init: bool, outcomes: seq<bool>)
    ensures (|Emitted(init, outcomes)| % 2 == 0) == (State(init, outcomes) == init)
  {
    if outcomes != [] {
      var n := |outcomes| - 1;
      var prefix := outcomes[..n];
      assert outcomes == prefix + [outcomes[n]];
      EmittedParity(init, prefix);
      EmittedSnoc(init, prefix, outcomes[n]);
    }
  }

  /** Notifications alternate: starting from an active bot the first is a
      down alert, the next a recovery, and so on. No two down alerts and no
      two recoveries are ever sent back to back. */
  lemma {:induction false} EmittedAlternates(init: bool, outcomes: seq<bool>, k: nat)
    requires k < |Emitted(init, outcomes)|
    ensures Emitted(init, outcomes)[k] == (if (k % 2 == 0) == init then Down else Recovered)
  {
    var n := |outcomes| - 1;
    var prefix := outcomes[..n];
    assert outcomes == prefix + [outcomes[n]];
    EmittedSnoc(init, prefix, outcomes[n]);
    if k < |Emitted(init, prefix)| {
      EmittedAlternates(init, prefix, k);
    } else {
      EmittedParity(init, prefix);
    }
  }

  /** Debouncing: once an outcome has been seen, repeating it any number of
      times sends nothing more. */
  lemma {:induction false} RepeatIsSilent(init: bool, outcomes: seq<bool>, success: bool, k: nat)
    requires k >= 1
    ensures State(init, outcomes + seq(k, _ => success)) == success
    ensures Emitted(init, outcomes + seq(k, _ => success)) == Emitted(init, outcomes + [success])
  {
    if k == 1 {
      assert seq(k, _ => success) == [success];
    } else {
      var shorter := outcomes + seq(k - 1, _ => success);
      RepeatIsSilent(init, outcomes, success, k - 1);
      assert outcomes + seq(k, _ => success) == shorter + [success];
      EmittedSnoc(init, shorter, success);
    }
  }

  /** Scenario: three successes from the start send nothing. */
  lemma AllGreenIsSilent()
    ensures Emitted(true, [true, true, true]) == []
    ensures State(true, [true, true, true])
  {
    EmittedCountsChanges(true, [true, true, true]);
    assert ChangePoints(true, [true, true, true]) == {};
  }

  /** Scenario: success, three failures, success send exactly one down alert
      and one recovery. */
  lemma OutageAndRecovery()
    ensures Emitted(true, [true, false, false, false, true]) == [Down, Recovered]
    ensures State(true, [true, false, false, false, true])
  {
    var o1: seq<bool> := [] + [true];
    EmittedSnoc(true, [], true);
    assert Emitted(true, o1) == [];
    var o2 := o1 + [false];
    EmittedSnoc(true, o1, false);
    assert Emitted(true, o2) == [Down];
    var o4 := o2 + [false] + [false];
    RepeatIsSilent(true, o1, false, 3);
    assert o1 + seq(3, _ => false) == o4;
    assert Emitted(true, o4) == [Down] && !State(true, o4);
    var o5 := o4 + [true];
    EmittedSnoc(true, o4, true);
    assert o5 == [true, false, false, false, true];
  }

  /** Scenario: a first-ever failure sends the down alert, because the
      tracker starts out believing the bot is active. */
  lemma FirstFailureAlerts()
    ensures Emitted(true, [false]) == [Down]
    ensures !State(true, [false])
  {
    EmittedSnoc(true, [], false);
    assert [false] == [] + [false];
  }

  /** The module-level `isActive` flag and the cron tick that updates it.
      The ghost fields record every outcome fed so far and every
      notification sent, and `Valid` ties the flag and the notifications to
      the specification functions above. */
  class HealthTracker {
    var isActive: bool
    ghost var outcomes: seq<bool>
    ghost var notifications: seq<Event>

    ghost predicate Valid()
      reads this
    {
      isActive == State(true, outcomes) && notifications == Emitted(true, outcomes)
    }

    /** Process start: the bot is believed active before any tick. */
    constructor ()
      ensures Valid()
      ensures isActive
      ensures outcomes == [] && notifications == []
    {
      isActive := true;
      outcomes := [];
      notifications := [];
    }

    /** One cron tick with the outcome of its poll; `ev` is the notification
        handed to the webhook, if any. */
    method Tick(success: bool) returns (ev: Option<Event>)
      requires Valid()
      modifies this
      ensures Valid()
      ensures outcomes == old(outcomes) + [success]
      ensures isActive == success
      ensures ev.Some? <==> old(isActive) != success
      ensures ev == Some(Recovered) <==> !old(isActive) && success
      ensures ev == Some(Down) <==> old(isActive) && !success
      ensures notifications == old(notifications) + (if ev.Some? then [ev.value] else [])
    {
      EmittedSnoc(true, outcomes, success);
      outcomes := outcomes + [success];
      if success {
        ev := None;
        if !isActive {
          ev := Some(Recovered);
          notifications := notifications + [Recovered];
        }
        isActive := true;
      } else {
        if !isActive {
          ev := None;
          return;
        }
        isActive := false;
        ev := Some(Down);
        notifications := notifications + [Down];
      }
    }
  }
}
