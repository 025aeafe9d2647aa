/**
 * The LED mode controller of guia1_ej3: `ControlLED` reads a configuration
 * record and turns one of three LEDs on, off, or toggles it a number of
 * times with a fixed delay after each toggle. The LED driver (`LedOn`,
 * `LedOff`, `LedToggle`) and the RTOS delay are modelled as a board with
 * three LED states and a trace of the calls made to it.
 */
module LedControl {
  import opened MachineTypes

  /** The mode values of the configuration record. */
  const OFF: u8 := 0
  const ON: u8 := 1
  const TOGGLE: u8 := 2

  /** The delay after each toggle, in milliseconds; fixed, whatever the configured period. */
  const TOGGLE_DELAY_MS: nat := 100

  /** `struct leds`: mode, LED identifier, number of cycles, period in ms. */
  datatype LedConfig = LedConfig(mode: u8, nLed: u8, nCiclos: u8, periodo: u16)

  /** The values of `LED_1`, `LED_2`, `LED_3` from the LED driver. */
  datatype LedIds = LedIds(led1: u8, led2: u8, led3: u8) {
    predicate Distinct() {
      led1 != led2 && led1 != led3 && led2 != led3
    }

    /** `n` is one of the three LED identifiers. */
    predicate Names(n: u8) {
      n == led1 || n == led2 || n == led3
    }
  }

  /** Whether each of the three LEDs is lit. */
  datatype Lights = Lights(l1: bool, l2: bool, l3: bool)

  /** One call into the LED driver or the scheduler, or the invalid-mode diagnostic. */
  datatype Call = SwitchOn(led: u8) | SwitchOff(led: u8) | Toggle(led: u8) | Delay(ms: nat) | InvalidMode

  /** Whether LED `n` is lit in `s` (false for an identifier that names no LED). */
  function Lit(ids: LedIds, s: Lights, n: u8): bool {
    if n == ids.led1 then s.l1
    else if n == ids.led2 then s.l2
    else if n == ids.led3 then s.l3
    else false
  }

  /** `s` with LED `n` set to `on`. */
  function Set(ids: LedIds, s: Lights, n: u8, on: bool): Lights {
    if n == ids.led1 then s.(l1 := on)
    else if n == ids.led2 then s.(l2 := on)
    else if n == ids.led3 then s.(l3 := on)
    else s
  }

  /** The effect of one call on the LEDs. */
  function Step(ids: LedIds, s: Lights, c: Call): Lights {
    match c
    case SwitchOn(n) => Set(ids, s, n, true)
    case SwitchOff(n) => Set(ids, s, n, false)
    case Toggle(n) => Set(ids, s, n, !Lit(ids, s, n))
    case Delay(_) => s
    case InvalidMode => s
  }

  /** The LEDs after the calls of `t`, in order, starting from `s`. */
  function Run(ids: LedIds, s: Lights, t: seq<Call>): Lights
    decreases |t|
  {
    if t == [] then s else Step(ids, Run(ids, s, t[..|t| - 1]), t[|t| - 1])
  }

  lemma {:induction false} RunConcat(ids: LedIds, s: Lights, a: seq<Call>, b: seq<Call>)
    ensures Run(ids, s, a + b) == Run(ids, Run(ids, s, a), b)
    decreases |b|
  {
    if b == [] {
      assert a + b == a;
    } else {
      var b' := b[..|b| - 1];
      assert (a + b)[..|a + b| - 1] == a + b';
      assert (a + b)[|a + b| - 1] == b[|b| - 1];
      RunConcat(ids, s, a, b');
    }
  }

  /** `k` copies of `cycle`, one after the other. */
  function Repeat(cycle: seq<Call>, k: nat): seq<Call> {
    if k == 0 then [] else Repeat(cycle, k - 1) + cycle
  }

  lemma AppendAssoc(a: seq<Call>, b: seq<Call>, c: seq<Call>)
    ensures a + b + c == a + (b + c)
  {
  }

  lemma RepeatOnceMore(cycle: seq<Call>, k: nat)
    ensures Repeat(cycle, k + 1) == Repeat(cycle, k) + cycle
  {
  }

  /** The call made only when `n` names one of the LEDs (the `if / else if` chain has no `else`). */
  function Guarded(ids: LedIds, n: u8, c: Call): seq<Call> {
    if ids.Names(n) then [c] else []
  }

  /** One pass of the toggle loop. */
  function ToggleCycle(ids: LedIds, n: u8): seq<Call> {
    Guarded(ids, n, Toggle(n)) + [Delay(TOGGLE_DELAY_MS)]
  }

  /**
   * A call that `ControlLED` may make for `config`: only the configured LED is
   * driven, only when it names an LED, and only in the way the mode asks for;
   * delays belong to TOGGLE alone and the diagnostic to an unknown mode alone.
   */
  predicate Permitted(ids: LedIds, config: LedConfig, c: Call) {
    match c
    case SwitchOn(n) => config.mode == ON && n == config.nLed && ids.Names(n)
    case SwitchOff(n) => config.mode == OFF && n == config.nLed && ids.Names(n)
    case Toggle(n) => config.mode == TOGGLE && n == config.nLed && ids.Names(n)
    case Delay(ms) => config.mode == TOGGLE && ms == TOGGLE_DELAY_MS
    case InvalidMode => config.mode != ON && config.mode != OFF && config.mode != TOGGLE
  }

  /** Repeating a cycle of permitted calls makes only permitted calls. */
  lemma {:induction false} RepeatPermitted(ids: LedIds, config: LedConfig, cycle: seq<Call>, k: nat)
    requires forall j :: 0 <= j < |cycle| ==> Permitted(ids, config, cycle[j])
    ensures forall j :: 0 <= j < |Repeat(cycle, k)| ==> Permitted(ids, config, Repeat(cycle, k)[j])
  {
    if k > 0 {
      RepeatPermitted(ids, config, cycle, k - 1);
    }
  }

  /** Every call `ControlLED` makes for `config`. */
  function Calls(ids: LedIds, config: LedConfig): seq<Call> {
    if config.mode == ON then Guarded(ids, config.nLed, SwitchOn(config.nLed))
    else if config.mode == OFF then Guarded(ids, config.nLed, SwitchOff(config.nLed))
    else if config.mode == TOGGLE then Repeat(ToggleCycle(ids, config.nLed), config.nCiclos as nat)
    else [InvalidMode]
  }

  /** `ControlLED` makes only permitted calls, and for an unknown mode the diagnostic alone. */
  lemma CallsPermitted(ids: LedIds, config: LedConfig)
    ensures forall k :: 0 <= k < |Calls(ids, config)| ==> Permitted(ids, config, Calls(ids, config)[k])
    ensures config.mode != ON && config.mode != OFF && config.mode != TOGGLE ==> Calls(ids, config) == [InvalidMode]
  {
    if config.mode == TOGGLE {
      RepeatPermitted(ids, config, ToggleCycle(ids, config.nLed), config.nCiclos as nat);
    }
  }

  /** A trace made of `k` copies of the pair `[a, b]` alternates `a` and `b`, `k` times. */
  lemma {:induction false} RepeatPairAt(a: Call, b: Call, k: nat)
    ensures |Repeat([a, b], k)| == 2 * k
    ensures forall j :: 0 <= j < k ==> Repeat([a, b], k)[2 * j] == a && Repeat([a, b], k)[2 * j + 1] == b
  {
    if k > 0 {
      RepeatPairAt(a, b, k - 1);
    }
  }

  /** `k` toggle cycles leave LED `n` flipped exactly when `k` is odd, and the other LEDs as they were. */
  lemma {:induction false} RunToggleCycles(ids: LedIds, s: Lights, n: u8, k: nat)
    requires ids.Distinct() && ids.Names(n)
    ensures Lit(ids, Run(ids, s, Repeat(ToggleCycle(ids, n), k)), n) == (Lit(ids, s, n) != (k % 2 == 1))
    ensures forall m :: ids.Names(m) && m != n ==>
              Lit(ids, Run(ids, s, Repeat(ToggleCycle(ids, n), k)), m) == Lit(ids, s, m)
  {
    if k > 0 {
      var cycle := ToggleCycle(ids, n);
      RunToggleCycles(ids, s, n, k - 1);
      var mid := Run(ids, s, Repeat(cycle, k - 1));
      RunConcat(ids, s, Repeat(cycle, k - 1), cycle);
      assert cycle == [Toggle(n), Delay(TOGGLE_DELAY_MS)];
      assert cycle[..1] == [Toggle(n)] && [Toggle(n)][..0] == [];
      assert Run(ids, mid, [Toggle(n)]) == Step(ids, mid, Toggle(n));
      assert Run(ids, mid, cycle) == Run(ids, mid, [Toggle(n)]);
    }
  }

  /** Cycles that toggle nothing leave every LED as it was. */
  lemma {:induction false} RunDelaysOnly(ids: LedIds, s: Lights, n: u8, k: nat)
    requires !ids.Names(n)
    ensures Repeat(ToggleCycle(ids, n), k) == Repeat([Delay(TOGGLE_DELAY_MS)], k)
    ensures Run(ids, s, Repeat(ToggleCycle(ids, n), k)) == s
  {
    if k > 0 {
      RunDelaysOnly(ids, s, n, k - 1);
      RunConcat(ids, s, Repeat(ToggleCycle(ids, n), k - 1), [Delay(TOGGLE_DELAY_MS)]);
    }
  }

  /** ON mode with a recognised LED: one `LedOn` call; that LED lit, the other two unchanged. */
  lemma OnMode(ids: LedIds, s: Lights, config: LedConfig)
    requires ids.Distinct() && config.mode == ON && ids.Names(config.nLed)
    ensures Calls(ids, config) == [SwitchOn(config.nLed)]
    ensures Lit(ids, Run(ids, s, Calls(ids, config)), config.nLed)
    ensures forall m :: ids.Names(m) && m != config.nLed ==>
              Lit(ids, Run(ids, s, Calls(ids, config)), m) == Lit(ids, s, m)
  {
    assert [SwitchOn(config.nLed)][..0] == [];
  }

  /** OFF mode with a recognised LED: one `LedOff` call; that LED dark, the other two unchanged. */
  lemma OffMode(ids: LedIds, s: Lights, config: LedConfig)
    requires ids.Distinct() && config.mode == OFF && ids.Names(config.nLed)
    ensures Calls(ids, config) == [SwitchOff(config.nLed)]
    ensures !Lit(ids, Run(ids, s, Calls(ids, config)), config.nLed)
    ensures forall m :: ids.Names(m) && m != config.nLed ==>
              Lit(ids, Run(ids, s, Calls(ids, config)), m) == Lit(ids, s, m)
  {
    assert [SwitchOff(config.nLed)][..0] == [];
  }

  /**
   * TOGGLE mode with a recognised LED: exactly `n_ciclos` pairs of a toggle
   * of that LED and a 100 ms delay; the LED ends flipped exactly when
   * `n_ciclos` is odd; the other two LEDs are unchanged.
   */
  lemma ToggleMode(ids: LedIds, s: Lights, config: LedConfig)
    requires ids.Distinct() && config.mode == TOGGLE && ids.Names(config.nLed)
    ensures |Calls(ids, config)| == 2 * config.nCiclos as int
    ensures forall j :: 0 <= j < config.nCiclos as int ==>
              Calls(ids, config)[2 * j] == Toggle(config.nLed) &&
              Calls(ids, config)[2 * j + 1] == Delay(TOGGLE_DELAY_MS)
    ensures Lit(ids, Run(ids, s, Calls(ids, config)), config.nLed)
         == (Lit(ids, s, config.nLed) != (config.nCiclos % 2 == 1))
    ensures forall m :: ids.Names(m) && m != config.nLed ==>
              Lit(ids, Run(ids, s, Calls(ids, config)), m) == Lit(ids, s, m)
  {
    var n, k := config.nLed, config.nCiclos as nat;
    assert ToggleCycle(ids, n) == [Toggle(n), Delay(TOGGLE_DELAY_MS)];
    RepeatPairAt(Toggle(n), Delay(TOGGLE_DELAY_MS), k);
    RunToggleCycles(ids, s, n, k);
  }

  /**
   * An identifier that names no LED changes no LED in any valid mode; in
   * TOGGLE mode the `n_ciclos` delays still happen, and nothing else.
   */
  lemma UnrecognisedLed(ids: LedIds, s: Lights, config: LedConfig)
    requires !ids.Names(config.nLed) && config.mode in {ON, OFF, TOGGLE}
    ensures Run(ids, s, Calls(ids, config)) == s
    ensures config.mode != TOGGLE ==> Calls(ids, config) == []
    ensures config.mode == TOGGLE ==>
              |Calls(ids, config)| == config.nCiclos as int &&
              forall j :: 0 <= j < |Calls(ids, config)| ==> Calls(ids, config)[j] == Delay(TOGGLE_DELAY_MS)
  {
    if config.mode == TOGGLE {
      RunDelaysOnly(ids, s, config.nLed, config.nCiclos as nat);
      RepeatDelays(config.nCiclos as nat);
    }
  }

  lemma {:induction false} RepeatDelays(k: nat)
    ensures |Repeat([Delay(TOGGLE_DELAY_MS)], k)| == k
    ensures forall j :: 0 <= j < k ==> Repeat([Delay(TOGGLE_DELAY_MS)], k)[j] == Delay(TOGGLE_DELAY_MS)
  {
    if k > 0 {
      RepeatDelays(k - 1);
    }
  }

  /** A mode other than ON, OFF or TOGGLE only emits the diagnostic and changes no LED. */
  lemma InvalidModeOnly(ids: LedIds, s: Lights, config: LedConfig)
    requires config.mode !in {ON, OFF, TOGGLE}
    ensures Calls(ids, config) == [InvalidMode]
    ensures Run(ids, s, Calls(ids, config)) == s
  {
    assert [InvalidMode][..0] == [];
  }

  /** The `periodo` field has no influence on what `ControlLED` does. */
  lemma PeriodIgnored(ids: LedIds, config: LedConfig, p: u16)
    ensures Calls(ids, config.(periodo := p)) == Calls(ids, config)
  {
  }

  /**
   * The configuration of `app_main` (TOGGLE, `LED_1`, 10 cycles, 500 ms):
   * ten toggles of `LED_1`, each followed by a 100 ms delay, no call on
   * `LED_2` or `LED_3`, and all LEDs end as they started.
   */
  lemma ToggleDemo(ids: LedIds, s: Lights)
    requires ids.Distinct()
    ensures |Calls(ids, LedConfig(TOGGLE, ids.led1, 10, 500))| == 20
    ensures forall j :: 0 <= j < 10 ==>
              Calls(ids, LedConfig(TOGGLE, ids.led1, 10, 500))[2 * j] == Toggle(ids.led1) &&
              Calls(ids, LedConfig(TOGGLE, ids.led1, 10, 500))[2 * j + 1] == Delay(TOGGLE_DELAY_MS)
    ensures Run(ids, s, Calls(ids, LedConfig(TOGGLE, ids.led1, 10, 500))) == s
  {
    var config := LedConfig(TOGGLE, ids.led1, 10, 500);
    ToggleMode(ids, s, config);
    var r := Run(ids, s, Calls(ids, config));
    assert Lit(ids, r, ids.led2) == s.l2 && Lit(ids, r, ids.led3) == s.l3;
  }

  /** The LED driver and scheduler as seen by `ControlLED`. */
  class LedBoard {
    const ids: LedIds
    var lit1: bool
    var lit2: bool
    var lit3: bool
    var trace: seq<Call>
    ghost const initial: Lights

    function Now(): Lights
      reads this
    {
      Lights(lit1, lit2, lit3)
    }

    /** The LEDs are the replay of the calls made so far. */
    ghost predicate Valid()
      reads this
    {
      ids.Distinct() && Now() == Run(ids, initial, trace)
    }

    /** A board after `LedsInit`, its LEDs in state `init`. */
    constructor (ids: LedIds, init: Lights)
      requires ids.Distinct()
      ensures Valid()
      ensures this.ids == ids && initial == init && Now() == init && trace == []
    {
      this.ids := ids;
      lit1, lit2, lit3 := init.l1, init.l2, init.l3;
      trace := [];
      initial := init;
    }

    /** `LedOn(n)`. */
    method LedOn(n: u8)
      requires Valid() && ids.Names(n)
      modifies this
      ensures Valid()
      ensures trace == old(trace) + [SwitchOn(n)]
      ensures Now() == Set(ids, old(Now()), n, true)
    {
      if n == ids.led1 { lit1 := true; } else if n == ids.led2 { lit2 := true; } else { lit3 := true; }
      trace := trace + [SwitchOn(n)];
      assert trace[..|trace| - 1] == old(trace);
    }

    /** `LedOff(n)`. */
    method LedOff(n: u8)
      requires Valid() && ids.Names(n)
      modifies this
      ensures Valid()
      ensures trace == old(trace) + [SwitchOff(n)]
      ensures Now() == Set(ids, old(Now()), n, false)
    {
      if n == ids.led1 { lit1 := false; } else if n == ids.led2 { lit2 := false; } else { lit3 := false; }
      trace := trace + [SwitchOff(n)];
      assert trace[..|trace| - 1] == old(trace);
    }

    /** `LedToggle(n)`. */
    method LedToggle(n: u8)
      requires Valid() && ids.Names(n)
      modifies this
      ensures Valid()
      ensures trace == old(trace) + [Toggle(n)]
      ensures Now() == Set(ids, old(Now()), n, !Lit(ids, old(Now()), n))
    {
      if n == ids.led1 { lit1 := !lit1; } else if n == ids.led2 { lit2 := !lit2; } else { lit3 := !lit3; }
      trace := trace + [Toggle(n)];
      assert trace[..|trace| - 1] == old(trace);
    }

    /** `vTaskDelay`: recorded, the LEDs do not change. */
    method TaskDelay(ms: nat)
      requires Valid()
      modifies this
      ensures Valid()
      ensures trace == old(trace) + [Delay(ms)]
      ensures Now() == old(Now())
    {
      trace := trace + [Delay(ms)];
      assert trace[..|trace| - 1] == old(trace);
    }

    /** The "invalid mode" diagnostic: recorded, the LEDs do not change. */
    method ReportInvalidMode()
      requires Valid()
      modifies this
      ensures Valid()
      ensures trace == old(trace) + [InvalidMode]
      ensures Now() == old(Now())
    {
      trace := trace + [InvalidMode];
      assert trace[..|trace| - 1] == old(trace);
    }

    /**
     * One pass of the TOGGLE loop of `ControlLED`: toggle LED `n` if it names
     * one, then the inner loop that waits once.
     */
    method TogglePass(n: u8)
      requires Valid()
      modifies this
      ensures Valid()
      ensures trace == old(trace) + ToggleCycle(ids, n)
    {
      if n == ids.led1 {
        LedToggle(ids.led1);
      } else if n == ids.led2 {
        LedToggle(ids.led2);
      } else if n == ids.led3 {
        LedToggle(ids.led3);
      }
      ghost var toggled := trace;
      var j: u8 := 0;
      while j < 1
        invariant Valid()
        invariant j <= 1
        invariant j == 0 ==> trace == toggled
        invariant j == 1 ==> trace == toggled + [Delay(TOGGLE_DELAY_MS)]
      {
        j := j + 1;
        TaskDelay(TOGGLE_DELAY_MS);
      }
    }

    /** `ControlLED(config)`. */
    method ControlLed(config: LedConfig)
      requires Valid()
      modifies this
      ensures Valid()
      ensures trace == old(trace) + Calls(ids, config)
      ensures Now() == Run(ids, old(Now()), Calls(ids, config))
    {
      var i: u8 := 0;
      if config.mode == ON {
        if config.nLed == ids.led1 {
          LedOn(ids.led1);
        } else if config.nLed == ids.led2 {
          LedOn(ids.led2);
        } else if config.nLed == ids.led3 {
          LedOn(ids.led3);
        }
        assert trace == old(trace) + Calls(ids, config);
      } else if config.mode == OFF {
        if config.nLed == ids.led1 {
          LedOff(ids.led1);
        } else if config.nLed == ids.led2 {
          LedOff(ids.led2);
        } else if config.nLed == ids.led3 {
          LedOff(ids.led3);
        }
        assert trace == old(trace) + Calls(ids, config);
      } else if config.mode == TOGGLE {
        ghost var cycle := ToggleCycle(ids, config.nLed);
        while i < config.nCiclos
          invariant Valid()
          invariant i <= config.nCiclos
          invariant trace == old(trace) + Repeat(cycle, i as nat)
        {
          ghost var k := i as nat;
          TogglePass(config.nLed);
          i := i + 1;
          RepeatOnceMore(cycle, k);
          AppendAssoc(old(trace), Repeat(cycle, k), cycle);
        }
        assert trace == old(trace) + Calls(ids, config);
      } else {
        ReportInvalidMode();
        assert trace == old(trace) + Calls(ids, config);
      }
      RunConcat(ids, initial, old(trace), Calls(ids, config));
    }
  }
}
