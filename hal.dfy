/**
 * Stand-ins for the hardware the driver is generic over: a full-duplex SPI
 * device, a stateful digital output (the nSLEEP and DISABLE lines), a digital
 * input that can be waited on (nFAULT) and an asynchronous delay. Each one
 * answers from a script fixed in advance and logs what the driver did to it,
 * so that the driver's contracts can speak about exact traces.
 */
module Hal {
  import opened Wrappers

  // ---------------------------------------------------------------------
  // SPI

  /** What the peer answers to the next transfer: the bytes it clocks back, or a bus failure. */
  datatype Reply = Respond(rx: seq<bv8>) | BusFault

  datatype BusError = BusError

  /** The next reply succeeds and fills a read buffer of `n` bytes. */
  predicate Answers(script: seq<Reply>, n: nat) {
    script != [] && script[0].Respond? && |script[0].rx| == n
  }

  /** The script once its first entry has been used. */
  function Rest<T>(script: seq<T>): (r: seq<T>)
    ensures script != [] ==> |r| == |script| - 1
  {
    if script == [] then [] else script[1..]
  }

  class SpiDevice {
    /** Replies still to come, in order. */
    var script: seq<Reply>
    /** Every frame the driver clocked out, in order. */
    var sent: seq<seq<bv8>>

    constructor (script: seq<Reply>)
      ensures this.script == script && sent == []
    {
      this.script := script;
      sent := [];
    }

    /**
     * One full-duplex transfer: clocks out `write` and fills `read` with the
     * peer's answer. It fails, leaving `read` as it was, when the peer reports a
     * bus fault, answers with the wrong number of bytes, or has nothing left to say.
     */
    method Transfer(read: array<bv8>, write: seq<bv8>) returns (r: Result<(), BusError>)
      modifies this, read
      ensures sent == old(sent) + [write]
      ensures script == Rest(old(script))
      ensures r.Success? <==> Answers(old(script), read.Length)
      ensures r.Success? ==> read[..] == old(script)[0].rx
      ensures r.Failure? ==> read[..] == old(read[..])
    {
      sent := sent + [write];
      if Answers(script, read.Length) {
        var rx := script[0].rx;
        forall k | 0 <= k < read.Length {
          read[k] := rx[k];
        }
        r := Success(());
      } else {
        r := Failure(BusError);
      }
      script := Rest(script);
    }
  }

  // ---------------------------------------------------------------------
  // Digital lines

  datatype Level = Low | High

  /** What an output line saw: a read-back of its driven state, or a new level driven. */
  datatype PinEvent = GetState(level: Level) | Set(level: Level)

  datatype PinError = PinError

  /** The abstract value of an output line. */
  datatype PinState = PinState(level: Level, script: seq<bool>, events: seq<PinEvent>)

  /** The next operation on a line with this outcome script succeeds; an exhausted script always succeeds. */
  predicate NextSucceeds(script: seq<bool>) {
    script == [] || script[0]
  }

  /** `is_set_low` on a line in state `s`: the new state and the answer. */
  function IsSetLowStep(s: PinState): (PinState, Result<bool, PinError>) {
    if NextSucceeds(s.script) then
      (PinState(s.level, Rest(s.script), s.events + [GetState(s.level)]), Success(s.level == Low))
    else
      (PinState(s.level, Rest(s.script), s.events), Failure(PinError))
  }

  /** `set_high` / `set_low` on a line in state `s`: the new state and the outcome. */
  function DriveStep(s: PinState, l: Level): (PinState, Result<(), PinError>) {
    if NextSucceeds(s.script) then
      (PinState(l, Rest(s.script), s.events + [Set(l)]), Success(()))
    else
      (PinState(s.level, Rest(s.script), s.events), Failure(PinError))
  }

  /** A stateful digital output; each operation consumes one entry of its outcome script. */
  class OutputPin {
    var level: Level
    /** Outcomes of the coming operations: `false` makes that operation fail. */
    var script: seq<bool>
    var events: seq<PinEvent>

    constructor (level: Level, script: seq<bool>)
      ensures State() == PinState(level, script, [])
    {
      this.level := level;
      this.script := script;
      events := [];
    }

    function State(): PinState
      reads this
    {
      PinState(level, script, events)
    }

    method IsSetLow() returns (r: Result<bool, PinError>)
      modifies this
      ensures (State(), r) == IsSetLowStep(old(State()))
    {
      if NextSucceeds(script) {
        events := events + [GetState(level)];
        r := Success(level == Low);
      } else {
        r := Failure(PinError);
      }
      script := Rest(script);
    }

    method SetHigh() returns (r: Result<(), PinError>)
      modifies this
      ensures (State(), r) == DriveStep(old(State()), High)
    {
      if NextSucceeds(script) {
        level := High;
        events := events + [Set(High)];
        r := Success(());
      } else {
        r := Failure(PinError);
      }
      script := Rest(script);
    }

    method SetLow() returns (r: Result<(), PinError>)
      modifies this
      ensures (State(), r) == DriveStep(old(State()), Low)
    {
      if NextSucceeds(script) {
        level := Low;
        events := events + [Set(Low)];
        r := Success(());
      } else {
        r := Failure(PinError);
      }
      script := Rest(script);
    }
  }

  /** A digital input the driver stores but never reads. */
  class WaitPin {
    constructor () {
    }
  }

  // ---------------------------------------------------------------------
  // Time

  /** An asynchronous delay that logs every wait, in microseconds. */
  class Delay {
    var waited: seq<nat>

    constructor ()
      ensures waited == []
    {
      waited := [];
    }

    method DelayUs(us: nat)
      modifies this
      ensures waited == old(waited) + [us]
    {
      waited := waited + [us];
    }
  }
}
