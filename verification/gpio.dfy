/**
 * Abstract model of the GPIO output layer (`GPIOOn` / `GPIOOff` of the
 * board's HAL). A port holds the output level of every pin it knows about
 * and an append-only trace of the writes issued to it; the levels are at
 * all times the replay of the trace over the levels the port started with.
 */
module Gpio {
  /** A GPIO identifier (`GPIO_9`, `GPIO_20`, ...); its numeric value is irrelevant here. */
  type Pin = nat

  /** One write issued to the GPIO layer. */
  datatype Event = On(pin: Pin) | Off(pin: Pin)

  /** The write that drives `p` to `high`. */
  function Write(p: Pin, high: bool): Event {
    if high then On(p) else Off(p)
  }

  /** Output levels after replaying the writes of `t`, in order, over `m`. */
  function Apply(m: map<Pin, bool>, t: seq<Event>): map<Pin, bool>
    decreases |t|
  {
    if t == [] then m
    else
      var e := t[|t| - 1];
      Apply(m, t[..|t| - 1])[e.pin := e.On?]
  }

  /** A pin reads high when it is known and driven high. */
  predicate High(m: map<Pin, bool>, p: Pin) {
    p in m && m[p]
  }

  /** Replaying two traces one after the other is replaying their concatenation. */
  lemma {:induction false} ApplyConcat(m: map<Pin, bool>, a: seq<Event>, b: seq<Event>)
    ensures Apply(m, a + b) == Apply(Apply(m, a), b)
    decreases |b|
  {
    if b == [] {
      assert a + b == a;
    } else {
      var b' := b[..|b| - 1];
      assert (a + b)[..|a + b| - 1] == a + b';
      assert (a + b)[|a + b| - 1] == b[|b| - 1];
      ApplyConcat(m, a, b');
    }
  }

  /** A pin that no write of `t` names keeps its level (and stays unknown if it was). */
  lemma {:induction false} ApplyUntouched(m: map<Pin, bool>, t: seq<Event>, p: Pin)
    requires forall k :: 0 <= k < |t| ==> t[k].pin != p
    ensures p in Apply(m, t) <==> p in m
    ensures p in m ==> Apply(m, t)[p] == m[p]
    decreases |t|
  {
    if t != [] {
      ApplyUntouched(m, t[..|t| - 1], p);
    }
  }

  /** Last write wins: the level of a pin is the one set by the last write naming it. */
  lemma {:induction false} ApplyLastWrite(m: map<Pin, bool>, t: seq<Event>, j: nat)
    requires j < |t|
    requires forall k :: j < k < |t| ==> t[k].pin != t[j].pin
    ensures t[j].pin in Apply(m, t)
    ensures Apply(m, t)[t[j].pin] == t[j].On?
    decreases |t|
  {
    if j < |t| - 1 {
      ApplyLastWrite(m, t[..|t| - 1], j);
    }
  }

  /** The GPIO output layer of the board. */
  class GpioPort {
    var level: map<Pin, bool>
    var trace: seq<Event>
    ghost const initial: map<Pin, bool>

    ghost predicate Valid()
      reads this
    {
      level == Apply(initial, trace)
    }

    /** A port whose pins start at the levels `init` (their state after `GPIOInit`). */
    constructor (init: map<Pin, bool>)
      ensures Valid()
      ensures initial == init && level == init && trace == []
    {
      level := init;
      trace := [];
      initial := init;
    }

    /** `GPIOOn(p)`: drive `p` high. */
    method GpioOn(p: Pin)
      requires Valid()
      modifies this
      ensures Valid()
      ensures trace == old(trace) + [On(p)]
      ensures level == old(level)[p := true]
    {
      trace := trace + [On(p)];
      level := level[p := true];
      assert trace[..|trace| - 1] == old(trace);
    }

    /** `GPIOOff(p)`: drive `p` low. */
    method GpioOff(p: Pin)
      requires Valid()
      modifies this
      ensures Valid()
      ensures trace == old(trace) + [Off(p)]
      ensures level == old(level)[p := false]
    {
      trace := trace + [Off(p)];
      level := level[p := false];
      assert trace[..|trace| - 1] == old(trace);
    }
  }
}
