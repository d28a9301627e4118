/**
 * The 4G/MQTT connection state machine driven by `loop()`
 * (src/main.cpp:435-540) and its bring-up helper `G_start_connect()`
 * (src/main.cpp:62-87). Every modem and broker call is an input: what it
 * returned during the pass being modelled.
 */
module Connectivity {
  import opened Wrappers
  import opened Clock
  import opened Telemetry
  import CurrentSensor
  import SlowSensors

  // The state codes of src/main.cpp:100-109.
  const ON_INIT_4G: int := 1
  const MQTT_START: int := 2
  const MQTT_CONNECT: int := 3
  const SEND_DATA: int := 4
  const MQTT_DISCONNECT: int := 5
  const MQTT_STOP: int := 6
  const OFF_4G: int := 7
  /** Declared by the source but never assigned. */
  const FST_SEND_DATA: int := 8

  /** Consecutive failures that make the machine escalate. */
  const ERROR_COUNT_TH: int := 5
  /** Milliseconds between publishes. */
  const SEND_INTERVAL: int := 1000
  /** How many times bring-up calls the modem's Init. */
  const MAX_INIT_ATTEMPTS: nat := 5

  /**
   * The results of the library calls of one pass: `init(k)` is what the k-th
   * Init call (from 0) returns, `attached` what the final IS_ATTACH check
   * returns, and the rest what MQTT_SETUP, MQTT_CONNECT, MQTT_PUB,
   * MQTT_DISCONNECT and MQTT_STOP return.
   */
  datatype Modem = Modem(init: nat -> bool, attached: bool, setup: bool, connect: bool,
                         publish: bool, disconnect: bool, stop: bool)

  /** Everything one pass of `loop()` reads: library results, millis(), the shared values. */
  datatype Input = Input(modem: Modem, now: U32, snapshot: Snapshot)

  /** The variables `loop()` keeps: `state`, `error_count`, `lastSendTime`. */
  datatype Conn = Conn(state: int, errorCount: int, lastSendTime: U32)

  /** The variables after `setup()`. */
  const Initial: Conn := Conn(ON_INIT_4G, 0, 0)

  /** What one pass leaves behind, and the payload it handed to MQTT_PUB, if any. */
  datatype Outcome = Outcome(next: Conn, payload: Option<string>)

  // ---------------------------------------------------------------------
  // Bring-up

  /** Some Init call within the attempt cap succeeds. */
  predicate InitSucceeds(init: nat -> bool) {
    exists k :: 0 <= k < MAX_INIT_ATTEMPTS && init(k)
  }

  /** `G_start_connect()` reports success: Init succeeded and the modem is attached. */
  predicate StartConnected(init: nat -> bool, attached: bool) {
    InitSucceeds(init) && attached
  }

  /**
   * `G_start_connect()`: calls Init until it succeeds, at most five times,
   * then requires the network attach. `attempts` is the number of Init calls.
   */
  method StartConnect(init: nat -> bool, attached: bool) returns (ok: bool, attempts: nat)
    ensures 1 <= attempts <= MAX_INIT_ATTEMPTS
    ensures forall k :: 0 <= k < attempts - 1 ==> !init(k)
    ensures init(attempts - 1) || attempts == MAX_INIT_ATTEMPTS
    ensures ok ==> init(attempts - 1) && attached
    ensures ok <==> StartConnected(init, attached)
  {
    var startCount: nat := 0;
    var initOk := init(startCount);
    startCount := startCount + 1;
    while !initOk && startCount < MAX_INIT_ATTEMPTS
      invariant 1 <= startCount <= MAX_INIT_ATTEMPTS
      invariant initOk == init(startCount - 1)
      invariant forall k :: 0 <= k < startCount - 1 ==> !init(k)
    {
      initOk := init(startCount);
      startCount := startCount + 1;
    }
    attempts := startCount;
    if !initOk {
      ok := false;
      return;
    }
    ok := attached;
  }

  // ---------------------------------------------------------------------
  // One pass of loop()

  /**
   * One pass of `loop()`, case by case as written. A code outside the seven
   * states matches no case and changes nothing; the seven states lead only
   * to one another; only a publish sends anything, and the send time only
   * ever moves to the current time.
   */
  function Step(c: Conn, input: Input): (r: Outcome)
    ensures !(ON_INIT_4G <= c.state <= OFF_4G) ==> r == Outcome(c, None)
    ensures ON_INIT_4G <= c.state <= OFF_4G ==> ON_INIT_4G <= r.next.state <= OFF_4G
    ensures r.payload.Some? ==> c.state == SEND_DATA && r.payload.value == Payload(input.snapshot)
    ensures r.next.lastSendTime == c.lastSendTime || r.next.lastSendTime == input.now
  {
    var m := input.modem;
    if c.state == ON_INIT_4G then
      Outcome(c.(state := if StartConnected(m.init, m.attached) then MQTT_START else OFF_4G), None)
    else if c.state == MQTT_START then
      Outcome(c.(state := if m.setup then MQTT_CONNECT else OFF_4G), None)
    else if c.state == MQTT_CONNECT then
      if m.connect then
        Outcome(Conn(SEND_DATA, 0, input.now), None)
      else
        var count := c.errorCount + 1;
        Outcome(c.(state := if count >= ERROR_COUNT_TH then OFF_4G else MQTT_CONNECT, errorCount := count), None)
    else if c.state == SEND_DATA then
      if Elapsed(input.now, c.lastSendTime) >= SEND_INTERVAL then
        var sent := Some(Payload(input.snapshot));
        if m.publish then
          Outcome(c.(errorCount := 0, lastSendTime := input.now), sent)
        else if c.errorCount + 1 >= ERROR_COUNT_TH then
          Outcome(Conn(MQTT_DISCONNECT, 0, input.now), sent)
        else
          Outcome(c.(errorCount := c.errorCount + 1, lastSendTime := input.now), sent)
      else
        Outcome(c, None)
    else if c.state == MQTT_DISCONNECT then
      Outcome(c.(state := MQTT_STOP), None)
    else if c.state == MQTT_STOP then
      Outcome(c.(state := OFF_4G), None)
    else if c.state == OFF_4G then
      Outcome(c.(state := ON_INIT_4G, errorCount := 0), None)
    else
      Outcome(c, None)
  }

  /** The variables after a sequence of passes. */
  function Run(c: Conn, inputs: seq<Input>): Conn
    decreases |inputs|
  {
    if inputs == [] then c else Run(Step(c, inputs[0]).next, inputs[1..])
  }

  lemma {:induction false} RunAppend(c: Conn, a: seq<Input>, b: seq<Input>)
    ensures Run(c, a + b) == Run(Run(c, a), b)
    decreases |a|
  {
    if a != [] {
      assert (a + b)[1..] == a[1..] + b;
      RunAppend(Step(c, a[0]).next, a[1..], b);
    } else {
      assert a + b == b;
    }
  }

  // ---------------------------------------------------------------------
  // The failure counter's invariant

  /** The states in which the counter is always 0. */
  predicate CounterCleared(state: int) {
    state == ON_INIT_4G || state == MQTT_START || state == MQTT_DISCONNECT || state == MQTT_STOP
  }

  /**
   * The state is one of the seven codes; the counter is 0 outside the two
   * retry states and `_off_4G`, below the threshold in the retry states, and
   * reaches the threshold only on the way into `_off_4G`.
   */
  predicate Inv(c: Conn) {
    && ON_INIT_4G <= c.state <= OFF_4G
    && (CounterCleared(c.state) ==> c.errorCount == 0)
    && (c.state == MQTT_CONNECT || c.state == SEND_DATA ==> 0 <= c.errorCount < ERROR_COUNT_TH)
    && (c.state == OFF_4G ==> c.errorCount == 0 || c.errorCount == ERROR_COUNT_TH)
  }

  lemma StepKeepsInv(c: Conn, input: Input)
    requires Inv(c)
    ensures Inv(Step(c, input).next)
  {
  }

  lemma {:induction false} RunKeepsInv(c: Conn, inputs: seq<Input>)
    requires Inv(c)
    ensures Inv(Run(c, inputs))
    decreases |inputs|
  {
    if inputs != [] {
      StepKeepsInv(c, inputs[0]);
      RunKeepsInv(Step(c, inputs[0]).next, inputs[1..]);
    }
  }

  /**
   * After any sequence of passes from start-up: the state is one of 1..7
   * (never code 8), the counter lies in 0..5, equals 5 only in `_off_4G`,
   * and is 0 in `_ON_Init_4G`, `_MQTT_START`, `_MQTT_Disconnect` and `_MQTT_Stop`.
   */
  lemma Reachable(inputs: seq<Input>)
    ensures var c := Run(Initial, inputs);
      && ON_INIT_4G <= c.state <= OFF_4G && c.state != FST_SEND_DATA
      && 0 <= c.errorCount <= ERROR_COUNT_TH
      && (c.errorCount == ERROR_COUNT_TH ==> c.state == OFF_4G)
      && (CounterCleared(c.state) ==> c.errorCount == 0)
  {
    RunKeepsInv(Initial, inputs);
  }

  // ---------------------------------------------------------------------
  // Bring-up and broker start

  /** `_ON_Init_4G` goes to `_MQTT_START` iff bring-up succeeded, otherwise to `_off_4G`. */
  lemma BringUp(c: Conn, input: Input)
    requires c.state == ON_INIT_4G
    ensures Step(c, input).next.state ==
            if StartConnected(input.modem.init, input.modem.attached) then MQTT_START else OFF_4G
    ensures Step(c, input).next.errorCount == c.errorCount
  {
  }

  /** `_MQTT_START` goes to `_MQTT_Connect` iff MQTT_SETUP succeeded, otherwise to `_off_4G`. */
  lemma BrokerStart(c: Conn, input: Input)
    requires c.state == MQTT_START
    ensures Step(c, input).next.state == if input.modem.setup then MQTT_CONNECT else OFF_4G
    ensures Step(c, input).next.errorCount == c.errorCount
  {
  }

  // ---------------------------------------------------------------------
  // Connecting

  /** A successful connect starts publishing with a fresh counter and send time. */
  lemma ConnectSuccess(c: Conn, input: Input)
    requires c.state == MQTT_CONNECT && input.modem.connect
    ensures Step(c, input) == Outcome(Conn(SEND_DATA, 0, input.now), None)
  {
  }

  /**
   * Consecutive connect failures count up one by one; the machine retries
   * while the count is below 5 and moves to `_off_4G` exactly on the failure
   * that makes it 5.
   */
  lemma {:induction false} ConsecutiveConnectFailures(c: Conn, inputs: seq<Input>)
    requires c.state == MQTT_CONNECT && 0 <= c.errorCount < ERROR_COUNT_TH
    requires c.errorCount + |inputs| <= ERROR_COUNT_TH
    requires forall i :: 0 <= i < |inputs| ==> !inputs[i].modem.connect
    ensures Run(c, inputs).errorCount == c.errorCount + |inputs|
    ensures Run(c, inputs).state ==
            if c.errorCount + |inputs| < ERROR_COUNT_TH then MQTT_CONNECT else OFF_4G
    decreases |inputs|
  {
    if inputs != [] {
      var c1 := Step(c, inputs[0]).next;
      if c.errorCount + 1 < ERROR_COUNT_TH {
        ConsecutiveConnectFailures(c1, inputs[1..]);
      } else {
        assert inputs[1..] == [];
      }
    }
  }

  /** From a fresh counter, failures 1 to 4 stay in `_MQTT_Connect`; the 5th leaves for `_off_4G`. */
  lemma FifthConnectFailure(c: Conn, inputs: seq<Input>)
    requires c.state == MQTT_CONNECT && c.errorCount == 0
    requires |inputs| == ERROR_COUNT_TH
    requires forall i :: 0 <= i < |inputs| ==> !inputs[i].modem.connect
    ensures forall k :: 0 <= k < ERROR_COUNT_TH ==> Run(c, inputs[..k]).state == MQTT_CONNECT
    ensures Run(c, inputs).state == OFF_4G
  {
    forall k | 0 <= k < ERROR_COUNT_TH
      ensures Run(c, inputs[..k]).state == MQTT_CONNECT
    {
      ConsecutiveConnectFailures(c, inputs[..k]);
    }
    ConsecutiveConnectFailures(c, inputs);
  }

  // ---------------------------------------------------------------------
  // Publishing

  /** A payload goes to MQTT_PUB exactly when publishing and a send interval has passed. */
  lemma PublishesOnlyWhenDue(c: Conn, input: Input)
    ensures Step(c, input).payload.Some? <==>
            c.state == SEND_DATA && Elapsed(input.now, c.lastSendTime) >= SEND_INTERVAL
    ensures Step(c, input).payload.Some? ==> Step(c, input).payload.value == Payload(input.snapshot)
  {
  }

  /** Before the send interval has passed, a pass in `_send_data` changes nothing. */
  lemma SendNotDue(c: Conn, input: Input)
    requires c.state == SEND_DATA && Elapsed(input.now, c.lastSendTime) < SEND_INTERVAL
    ensures Step(c, input) == Outcome(c, None)
  {
  }

  /**
   * Once the interval has passed, the send time is taken before publishing,
   * whatever the outcome; success clears the counter, a failure counts, and
   * the failure that makes the count 5 clears it and moves to `_MQTT_Disconnect`.
   */
  lemma SendDue(c: Conn, input: Input)
    requires c.state == SEND_DATA && Elapsed(input.now, c.lastSendTime) >= SEND_INTERVAL
    ensures var n := Step(c, input).next;
      && n.lastSendTime == input.now
      && (input.modem.publish ==> n.state == SEND_DATA && n.errorCount == 0)
      && (!input.modem.publish && c.errorCount + 1 < ERROR_COUNT_TH ==>
            n.state == SEND_DATA && n.errorCount == c.errorCount + 1)
      && (!input.modem.publish && c.errorCount + 1 >= ERROR_COUNT_TH ==>
            n.state == MQTT_DISCONNECT && n.errorCount == 0)
  {
  }

  /** Each pass comes at least one send interval after the one before it. */
  predicate SendsDue(last: U32, inputs: seq<Input>) {
    && (|inputs| > 0 ==> Elapsed(inputs[0].now, last) >= SEND_INTERVAL)
    && (forall i :: 0 < i < |inputs| ==> Elapsed(inputs[i].now, inputs[i - 1].now) >= SEND_INTERVAL)
  }

  /**
   * Publish failures on consecutive due passes count up one by one while
   * below 5; the 5th leaves for `_MQTT_Disconnect` with the counter cleared.
   */
  lemma {:induction false} ConsecutivePublishFailures(c: Conn, inputs: seq<Input>)
    requires c.state == SEND_DATA && 0 <= c.errorCount < ERROR_COUNT_TH
    requires c.errorCount + |inputs| <= ERROR_COUNT_TH
    requires forall i :: 0 <= i < |inputs| ==> !inputs[i].modem.publish
    requires SendsDue(c.lastSendTime, inputs)
    ensures var r := Run(c, inputs);
      && (|inputs| > 0 ==> r.lastSendTime == inputs[|inputs| - 1].now)
      && (c.errorCount + |inputs| < ERROR_COUNT_TH ==>
            r.state == SEND_DATA && r.errorCount == c.errorCount + |inputs|)
      && (c.errorCount + |inputs| == ERROR_COUNT_TH ==>
            r.state == MQTT_DISCONNECT && r.errorCount == 0)
    decreases |inputs|
  {
    if inputs != [] {
      var c1 := Step(c, inputs[0]).next;
      if c.errorCount + 1 < ERROR_COUNT_TH {
        assert SendsDue(c1.lastSendTime, inputs[1..]) by {
          if |inputs| > 1 {
            assert Elapsed(inputs[1].now, inputs[0].now) >= SEND_INTERVAL;
          }
          forall i | 0 < i < |inputs[1..]|
            ensures Elapsed(inputs[1..][i].now, inputs[1..][i - 1].now) >= SEND_INTERVAL
          {
            assert Elapsed(inputs[i + 1].now, inputs[i].now) >= SEND_INTERVAL;
          }
        }
        ConsecutivePublishFailures(c1, inputs[1..]);
      } else {
        assert inputs[1..] == [];
      }
    }
  }

  // ---------------------------------------------------------------------
  // Teardown

  /** Disconnect and stop move on whatever the library calls return. */
  lemma TeardownIgnoresResults(c: Conn, a: Input, b: Input)
    requires c.state == MQTT_DISCONNECT || c.state == MQTT_STOP
    ensures Step(c, a) == Step(c, b)
    ensures Step(c, a).next == c.(state := if c.state == MQTT_DISCONNECT then MQTT_STOP else OFF_4G)
  {
  }

  /** `_off_4G` always powers down into `_ON_Init_4G` with the counter cleared. */
  lemma PowerCycle(c: Conn, input: Input)
    requires c.state == OFF_4G
    ensures Step(c, input) == Outcome(Conn(ON_INIT_4G, 0, c.lastSendTime), None)
  {
  }

  /**
   * From `_MQTT_Disconnect` any three passes go through `_MQTT_Stop` and
   * `_off_4G` back to `_ON_Init_4G` with the counter cleared.
   */
  lemma TeardownCycle(c: Conn, inputs: seq<Input>)
    requires c.state == MQTT_DISCONNECT && |inputs| == 3
    ensures Run(c, inputs[..1]).state == MQTT_STOP
    ensures Run(c, inputs[..2]).state == OFF_4G
    ensures Run(c, inputs) == Conn(ON_INIT_4G, 0, c.lastSendTime)
  {
    var c1 := Step(c, inputs[0]).next;
    var c2 := Step(c1, inputs[1]).next;
    assert Run(c, inputs[..1]) == Run(c1, []) == c1;
    assert inputs[..2][1..] == [inputs[1]];
    assert Run(c, inputs[..2]) == Run(c1, [inputs[1]]) == Run(c2, []) == c2;
    var c3 := Step(c2, inputs[2]).next;
    assert inputs[1..][1..] == [inputs[2]];
    assert Run(c, inputs) == Run(c1, inputs[1..]) == Run(c2, [inputs[2]]) == Run(c3, []) == c3;
  }

  /**
   * Every escalation ends in a power cycle: five failed publishes on due
   * passes followed by any three passes bring the machine back to
   * `_ON_Init_4G` with the counter cleared.
   */
  lemma PublishEscalationRestarts(c: Conn, failures: seq<Input>, after: seq<Input>)
    requires c.state == SEND_DATA && c.errorCount == 0
    requires |failures| == ERROR_COUNT_TH && |after| == 3
    requires forall i :: 0 <= i < |failures| ==> !failures[i].modem.publish
    requires SendsDue(c.lastSendTime, failures)
    ensures Run(c, failures + after) == Conn(ON_INIT_4G, 0, failures[|failures| - 1].now)
  {
    ConsecutivePublishFailures(c, failures);
    RunAppend(c, failures, after);
    TeardownCycle(Run(c, failures), after);
  }

  // ---------------------------------------------------------------------
  // The loop() task, on its global variables

  class Controller {
    var state: int
    var errorCount: int
    var lastSendTime: U32

    function View(): Conn
      reads this
    {
      Conn(state, errorCount, lastSendTime)
    }

    /** The variables as `setup()` leaves them. */
    constructor ()
      ensures View() == Initial && Inv(View())
    {
      state := ON_INIT_4G;
      errorCount := 0;
      lastSendTime := 0;
    }

    /**
     * One pass of `loop()` at time `now`, with `modem` the library results
     * and the four producers' current values as the shared telemetry.
     */
    method Loop(modem: Modem, now: U32, ct1: CurrentSensor.Acquirer, ct2: CurrentSensor.Acquirer,
                thermo: SlowSensors.Thermocouple, ir: SlowSensors.IrSensor)
      returns (payload: Option<string>)
      requires Inv(View())
      modifies this
      ensures Inv(View())
      ensures Outcome(View(), payload) ==
              Step(old(View()), Input(modem, now, Snapshot(ct1.current, ct2.current, thermo.temperatureC, ir.irTemperature)))
    {
      StepKeepsInv(View(), Input(modem, now, Snapshot(ct1.current, ct2.current, thermo.temperatureC, ir.irTemperature)));
      payload := None;
      if state == ON_INIT_4G {
        var ok, attempts := StartConnect(modem.init, modem.attached);
        if ok {
          state := MQTT_START;
        } else {
          state := OFF_4G;
        }
      } else if state == MQTT_START {
        if modem.setup {
          state := MQTT_CONNECT;
        } else {
          state := OFF_4G;
        }
      } else if state == MQTT_CONNECT {
        if modem.connect {
          state := SEND_DATA;
          errorCount := 0;
          lastSendTime := now;
        } else {
          errorCount := errorCount + 1;
          if errorCount >= ERROR_COUNT_TH {
            state := OFF_4G;
          } else {
            state := MQTT_CONNECT;
          }
        }
      } else if state == SEND_DATA {
        if Elapsed(now, lastSendTime) >= SEND_INTERVAL {
          lastSendTime := now;
          var data := Payload(Snapshot(ct1.current, ct2.current, thermo.temperatureC, ir.irTemperature));
          payload := Some(data);
          if modem.publish {
            errorCount := 0;
          } else {
            errorCount := errorCount + 1;
            if errorCount >= ERROR_COUNT_TH {
              errorCount := 0;
              state := MQTT_DISCONNECT;
            }
          }
        }
      } else if state == MQTT_DISCONNECT {
        state := MQTT_STOP;
      } else if state == MQTT_STOP {
        state := OFF_4G;
      } else if state == OFF_4G {
        errorCount := 0;
        state := ON_INIT_4G;
      }
    }
  }
}
