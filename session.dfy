/**
 * Session establishment: the events the reconnect loop issues for a given
 * sequence of answers from the client. Each pass of the loop attempts a
 * connect; a refusal is followed by a fixed pause, an acceptance by the
 * welcome notice and the four command subscribes. The loop then re-tests
 * whether the session is up and stops only when it is.
 */
module Session {
  import opened Messages
  import Commands

  /** Pause after a refused connect, in milliseconds. */
  const RETRY_DELAY: nat := 5000

  /** What a refused connect attempt leaves in the log. */
  const FAILED_ATTEMPT: seq<Event> := [Connect(false), Delay(RETRY_DELAY)]

  /**
   * One pass of the reconnect loop as the client answers it: the broker
   * refuses the connect, or accepts it and `holds` is what the loop's
   * re-test of the session then reports.
   */
  datatype Attempt = Refused | Accepted(holds: bool)

  /** What an accepted connect is followed by: the welcome notice, then four subscribes. */
  function SessionStart(): seq<Event>
  {
    [ GREETING,
      Subscribe(SERVO_TOPIC),
      Subscribe(LIGHT_TOPIC),
      Subscribe(PUMP_TOPIC),
      Subscribe(FAN_TOPIC) ]
  }

  /** What one pass of the loop body logs. */
  function AttemptLog(x: Attempt): seq<Event>
  {
    match x
    case Refused => FAILED_ATTEMPT
    case Accepted(_) => [Connect(true)] + SessionStart()
  }

  /** The reconnect loop's events, pass after pass, until a re-test finds the session up. */
  function ReconnectLog(attempts: seq<Attempt>): seq<Event>
  {
    if attempts == [] then []
    else AttemptLog(attempts[0]) + (if attempts[0] == Accepted(true) then [] else ReconnectLog(attempts[1..]))
  }

  /**
   * The log of a run splits at any point, and nothing is logged after the
   * pass that leaves the session up.
   */
  lemma {:induction false} ReconnectLogAppend(p: seq<Attempt>, q: seq<Attempt>)
    ensures ReconnectLog(p + q) == ReconnectLog(p) + (if Accepted(true) in p then [] else ReconnectLog(q))
  {
    if p == [] {
      assert p + q == q;
    } else {
      assert (p + q)[0] == p[0];
      assert (p + q)[1..] == p[1..] + q;
      assert p == [p[0]] + p[1..];
      assert (Accepted(true) in p) == (p[0] == Accepted(true) || Accepted(true) in p[1..]);
      ReconnectLogAppend(p[1..], q);
    }
  }

  /**
   * While the session is not yet up after the first i passes, pass i
   * appends its own events, and the session is up after it exactly when
   * that pass is an acceptance that holds.
   */
  lemma {:induction false} ReconnectLogStep(attempts: seq<Attempt>, i: nat)
    requires i < |attempts|
    requires Accepted(true) !in attempts[..i]
    ensures ReconnectLog(attempts[..i + 1]) == ReconnectLog(attempts[..i]) + AttemptLog(attempts[i])
    ensures (Accepted(true) in attempts[..i + 1]) == (attempts[i] == Accepted(true))
  {
    assert attempts[..i + 1] == attempts[..i] + [attempts[i]];
    ReconnectLogAppend(attempts[..i], [attempts[i]]);
    assert [attempts[i]][1..] == [];
  }

  /**
   * Once the first i passes leave the session up, or every answer has been
   * used, those passes log the whole run.
   */
  lemma {:induction false} ReconnectLogDone(attempts: seq<Attempt>, i: nat)
    requires i <= |attempts|
    requires i == |attempts| || Accepted(true) in attempts[..i]
    ensures ReconnectLog(attempts) == ReconnectLog(attempts[..i])
    ensures (Accepted(true) in attempts[..i]) == (Accepted(true) in attempts)
  {
    if i == |attempts| {
      assert attempts[..i] == attempts;
    } else {
      assert attempts == attempts[..i] + attempts[i..];
      ReconnectLogAppend(attempts[..i], attempts[i..]);
    }
  }

  /** Refused attempts log a connect and a pause each, and publish and subscribe nothing. */
  lemma {:induction false} RefusalsSilent(attempts: seq<Attempt>)
    requires forall i :: 0 <= i < |attempts| ==> attempts[i] == Refused
    ensures |ReconnectLog(attempts)| == 2 * |attempts|
    ensures Silent(ReconnectLog(attempts))
    ensures Count(ReconnectLog(attempts), GREETING) == 0
    ensures forall k :: 0 <= k < |ReconnectLog(attempts)| ==>
      ReconnectLog(attempts)[k] == (if k % 2 == 0 then Connect(false) else Delay(RETRY_DELAY))
  {
    if attempts != [] {
      var rest := attempts[1..];
      RefusalsSilent(rest);
      assert ReconnectLog(attempts) == FAILED_ATTEMPT + ReconnectLog(rest);
      CountAppend(FAILED_ATTEMPT, ReconnectLog(rest), GREETING);
      assert Count(FAILED_ATTEMPT, GREETING) == 0 by {
        assert FAILED_ATTEMPT[1..] == [Delay(RETRY_DELAY)];
        assert [Delay(RETRY_DELAY)][1..] == [];
      }
    }
  }

  /** One pass logs one welcome exactly when it logs an accepted connect. */
  lemma AttemptLogCounts(x: Attempt)
    ensures Count(AttemptLog(x), GREETING) == (if x.Accepted? then 1 else 0)
    ensures Count(AttemptLog(x), Connect(true)) == (if x.Accepted? then 1 else 0)
  {
    var l := AttemptLog(x);
    if x.Accepted? {
      assert l[1..] == SessionStart();
      assert SessionStart()[1..][1..][1..][1..][1..] == [];
    } else {
      assert l[1..] == [Delay(RETRY_DELAY)];
      assert Count([Delay(RETRY_DELAY)], GREETING) == 0 by { assert [Delay(RETRY_DELAY)][1..] == []; }
      assert Count([Delay(RETRY_DELAY)], Connect(true)) == 0 by { assert [Delay(RETRY_DELAY)][1..] == []; }
    }
  }

  /** Every accepted connect of the reconnect loop is greeted exactly once. */
  lemma {:induction false} GreetedOncePerAccept(attempts: seq<Attempt>)
    ensures Count(ReconnectLog(attempts), GREETING) == Count(ReconnectLog(attempts), Connect(true))
    ensures forall k :: 0 <= k < |ReconnectLog(attempts)| && ReconnectLog(attempts)[k] == Connect(true) ==>
      k + 1 < |ReconnectLog(attempts)| && ReconnectLog(attempts)[k + 1] == GREETING
  {
    if attempts != [] {
      var head := AttemptLog(attempts[0]);
      var rest: seq<Event> := if attempts[0] == Accepted(true) then [] else ReconnectLog(attempts[1..]);
      var log := ReconnectLog(attempts);
      assert log == head + rest;
      GreetedOncePerAccept(attempts[1..]);
      AttemptLogCounts(attempts[0]);
      CountAppend(head, rest, GREETING);
      CountAppend(head, rest, Connect(true));
      forall k | 0 <= k < |log| && log[k] == Connect(true)
        ensures k + 1 < |log| && log[k + 1] == GREETING
      {
        if k < |head| {
          assert head[k] == Connect(true);
          assert k == 0 && attempts[0].Accepted?;
        } else {
          assert rest[k - |head|] == Connect(true);
        }
      }
    }
  }

  /**
   * When no accepted session drops before the re-test, a reconnect greets
   * the broker once if some attempt is accepted and never otherwise.
   */
  lemma {:induction false} WelcomeOnce(attempts: seq<Attempt>)
    requires forall i :: 0 <= i < |attempts| ==> attempts[i] != Accepted(false)
    ensures Count(ReconnectLog(attempts), GREETING) == if Accepted(true) in attempts then 1 else 0
  {
    if attempts != [] {
      var rest := attempts[1..];
      assert attempts == [attempts[0]] + rest;
      AttemptLogCounts(attempts[0]);
      if attempts[0] == Accepted(true) {
        CountAppend(AttemptLog(attempts[0]), [], GREETING);
        assert AttemptLog(attempts[0]) + [] == AttemptLog(attempts[0]);
      } else {
        WelcomeOnce(rest);
        CountAppend(AttemptLog(attempts[0]), ReconnectLog(rest), GREETING);
      }
    }
  }

  /**
   * A session subscribes to exactly the topics the callback acts on:
   * every command topic, and nothing else.
   */
  lemma SubscribesCommandTopics()
    ensures forall d :: Subscribe(Commands.CommandTopic(d)) in SessionStart()
    ensures forall i :: 1 <= i < |SessionStart()| ==>
      SessionStart()[i].Subscribe? && Commands.DeviceOf(SessionStart()[i].topic).Some?
  {
  }

  /**
   * Three refusals, then an acceptance that holds: three pauses of
   * RETRY_DELAY, and the welcome notice once, right after the accepted attempt.
   */
  lemma ThreeFailuresThenSuccess()
    ensures var log := ReconnectLog([Refused, Refused, Refused, Accepted(true)]);
      log == FAILED_ATTEMPT + FAILED_ATTEMPT + FAILED_ATTEMPT + [Connect(true)] + SessionStart()
      && log[6] == Connect(true) && log[7] == GREETING
      && Count(log, GREETING) == 1
  {
    var run := [Refused, Refused, Refused, Accepted(true)];
    assert run[1..] == [Refused, Refused, Accepted(true)];
    assert run[1..][1..] == [Refused, Accepted(true)];
    assert run[1..][1..][1..] == [Accepted(true)];
    var log := ReconnectLog(run);
    assert log == FAILED_ATTEMPT + (FAILED_ATTEMPT + (FAILED_ATTEMPT + AttemptLog(Accepted(true))));
    WelcomeOnce(run);
  }

  /**
   * A session that is found down at the re-test keeps the loop going, and
   * the next accepted connect greets the broker a second time.
   */
  lemma DroppedSessionGreetedAgain()
    ensures var log := ReconnectLog([Accepted(false), Refused, Accepted(true)]);
      log == [Connect(true)] + SessionStart() + FAILED_ATTEMPT + [Connect(true)] + SessionStart()
      && Count(log, GREETING) == 2
  {
    var tail := [Refused, Accepted(true)];
    assert [Accepted(false), Refused, Accepted(true)][1..] == tail;
    assert tail[1..] == [Accepted(true)];
    var last := ReconnectLog([Accepted(true)]);
    assert last == AttemptLog(Accepted(true));
    var mid := ReconnectLog(tail);
    assert mid == AttemptLog(Refused) + last;
    AttemptLogCounts(Accepted(false));
    AttemptLogCounts(Refused);
    AttemptLogCounts(Accepted(true));
    CountAppend(AttemptLog(Refused), last, GREETING);
    CountAppend(AttemptLog(Accepted(false)), mid, GREETING);
  }
}
