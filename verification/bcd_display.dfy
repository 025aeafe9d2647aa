/**
 * The three-digit multiplexed BCD display of guia1_ej4: a number is split
 * into decimal digits (`convertToBcdArray`), each digit is spelled on four
 * BCD lines feeding a 7447 decoder (`mapearbits`), and one select line per
 * display position is pulsed to latch it (`multipelxor`).
 */
module BcdDisplay {
  import opened MachineTypes
  import opened Gpio
  import opened Arith

  /** `io_t`: the direction a pin is configured with. */
  datatype Direction = GpioInput | GpioOutput

  /** `gpioConf_t`: a pin and its direction. */
  datatype GpioConf = GpioConf(pin: Pin, dir: Direction)

  // ---------------------------------------------------------------------
  // Decimal digits
  // ---------------------------------------------------------------------

  function Pow10(n: nat): (r: nat)
    ensures r >= 1
  {
    if n == 0 then 1 else 10 * Pow10(n - 1)
  }

  /**
   * The `n` lowest decimal digits of `x`, least significant first, as
   * repeated `% 10` and `/ 10` produce them. Every digit is in 0..9.
   */
  function Digits(x: nat, n: nat): (ds: seq<u8>)
    ensures |ds| == n
    ensures forall k :: 0 <= k < n ==> ds[k] <= 9
  {
    if n == 0 then [] else [(x % 10) as u8] + Digits(x / 10, n - 1)
  }

  /** The number a digit sequence denotes: the sum of `ds[k] * 10^k`. */
  function Value(ds: seq<u8>): nat
  {
    if ds == [] then 0 else ds[0] as nat + 10 * Value(ds[1..])
  }

  /** Round trip: the digits denote `x` reduced modulo `10^n`. */
  lemma {:induction false} DigitsRoundTrip(x: nat, n: nat)
    ensures Value(Digits(x, n)) == x % Pow10(n)
  {
    if n > 0 {
      var ds := Digits(x, n);
      assert ds[1..] == Digits(x / 10, n - 1);
      DigitsRoundTrip(x / 10, n - 1);
      DivModByTimes(x, 10, Pow10(n - 1));
    }
  }

  /** When `x` has at most `n` digits the round trip is exact. */
  lemma DigitsRoundTripExact(x: nat, n: nat)
    requires x < Pow10(n)
    ensures Value(Digits(x, n)) == x
  {
    DigitsRoundTrip(x, n);
    DivModUnique(x, Pow10(n), 0, x);
  }

  /** Digit `k` is `(x / 10^k) % 10`. */
  lemma {:induction false} DigitAt(x: nat, n: nat, k: nat)
    requires k < n
    ensures Digits(x, n)[k] as nat == (x / Pow10(k)) % 10
  {
    if k > 0 {
      DigitAt(x / 10, n - 1, k - 1);
      DivModByTimes(x, 10, Pow10(k - 1));
    }
  }

  /** `DigitAt` for every position of the conversion at once. */
  lemma AllDigitsAt(x: nat, n: nat)
    ensures forall k :: 0 <= k < n ==> Digits(x, n)[k] as nat == (x / Pow10(k)) % 10
  {
    forall k | 0 <= k < n
      ensures Digits(x, n)[k] as nat == (x / Pow10(k)) % 10
    {
      DigitAt(x, n, k);
    }
  }

  /** Positions past the significant digits of `x` hold 0. */
  lemma LeadingZeros(x: nat, n: nat, k: nat)
    requires k < n && x < Pow10(k)
    ensures Digits(x, n)[k] == 0
  {
    DigitAt(x, n, k);
    DivModUnique(x, Pow10(k), 0, x);
  }

  /** The other direction of the round trip: a digit sequence is recovered from the number it denotes. */
  lemma {:induction false} ValueRoundTrip(ds: seq<u8>)
    requires forall k :: 0 <= k < |ds| ==> ds[k] <= 9
    ensures Digits(Value(ds), |ds|) == ds
  {
    if ds != [] {
      var rest := ds[1..];
      DivModUnique(Value(ds), 10, Value(rest), ds[0] as nat);
      ValueRoundTrip(rest);
      assert ds == [ds[0]] + rest;
    }
  }

  /** `convertToBcdArray(data, digits, bcd_number)`. */
  method ConvertToBcdArray(data: u32, digits: u8, bcd: array<u8>) returns (r: i8)
    requires digits as int <= bcd.Length
    modifies bcd
    ensures r == 0
    ensures bcd[..digits as int] == Digits(data as nat, digits as nat)
    ensures bcd[digits as int..] == old(bcd[digits as int..])
  {
    var rest := data;
    var i := 0;
    while i < digits as int
      invariant 0 <= i <= digits as int
      invariant bcd[..i] + Digits(rest as nat, digits as int - i) == Digits(data as nat, digits as nat)
      invariant bcd[digits as int..] == old(bcd[digits as int..])
    {
      ghost var done := bcd[..i];
      assert Digits(rest as nat, digits as int - i)
          == [(rest % 10) as u8] + Digits((rest / 10) as nat, digits as int - i - 1);
      bcd[i] := (rest % 10) as u8;
      rest := rest / 10;
      i := i + 1;
      assert bcd[..i] == done + [bcd[i - 1]];
    }
    assert bcd[..i] + [] == bcd[..i];
    return 0;
  }

  // ---------------------------------------------------------------------
  // Spelling one digit on the four BCD lines
  // ---------------------------------------------------------------------

  function Pow2(n: nat): (r: nat)
    ensures r >= 1
  {
    if n == 0 then 1 else 2 * Pow2(n - 1)
  }

  /** Bit `i` of `d` is 1, which is what `d & 1 << i` tests for non-zero. */
  predicate BitSet(d: u8, i: nat) {
    (d as int / Pow2(i)) % 2 == 1
  }

  function Bit(b: bool): nat {
    if b then 1 else 0
  }

  /** The four low bits of `d`, weighted 1, 2, 4, 8, add up to `d mod 16`. */
  lemma NibbleOfBits(d: u8)
    ensures Bit(BitSet(d, 0)) + 2 * Bit(BitSet(d, 1)) + 4 * Bit(BitSet(d, 2)) + 8 * Bit(BitSet(d, 3))
         == d as int % 16
  {
    var x := d as int;
    assert Pow2(2) == 4 && Pow2(3) == 8;
    DivModByTimes(x, 2, 8);
    DivModByTimes(x, 2, 2);
    DivModByTimes(x, 4, 2);
    DivModByTimes(x / 2, 2, 4);
    DivModByTimes(x / 4, 2, 2);
  }

  /** The first `n` configurations name `n` different pins. */
  predicate DistinctPins(confs: seq<GpioConf>, n: nat)
    requires n <= |confs|
  {
    forall a, b :: 0 <= a < b < n ==> confs[a].pin != confs[b].pin
  }

  /** The four BCD lines, read back as a 4-bit number (line 0 is the least significant bit). */
  function ReadNibble(m: map<Pin, bool>, lines: seq<GpioConf>): nat
    requires |lines| >= 4
  {
    Bit(High(m, lines[0].pin)) + 2 * Bit(High(m, lines[1].pin))
      + 4 * Bit(High(m, lines[2].pin)) + 8 * Bit(High(m, lines[3].pin))
  }

  /** The writes `mapearbits` issues for digit `d`: line `i` follows bit `i`, for `i` = 0 to 3. */
  function BitWrites(lines: seq<GpioConf>, d: u8): seq<Event>
    requires |lines| >= 4
  {
    seq(4, i requires 0 <= i < 4 => Write(lines[i].pin, BitSet(d, i)))
  }

  /** `mapearbits(arreglo, digits)`. */
  method MapBits(gpio: GpioPort, lines: seq<GpioConf>, d: u8)
    requires gpio.Valid() && |lines| >= 4
    modifies gpio
    ensures gpio.Valid()
    ensures gpio.trace == old(gpio.trace) + BitWrites(lines, d)
    ensures gpio.level == Apply(old(gpio.level), BitWrites(lines, d))
  {
    for i := 0 to 4
      invariant gpio.Valid()
      invariant gpio.trace == old(gpio.trace) + BitWrites(lines, d)[..i]
    {
      assert BitWrites(lines, d)[..i + 1] == BitWrites(lines, d)[..i] + [Write(lines[i].pin, BitSet(d, i))];
      if BitSet(d, i) {
        gpio.GpioOn(lines[i].pin);
      } else {
        gpio.GpioOff(lines[i].pin);
      }
    }
    assert BitWrites(lines, d)[..4] == BitWrites(lines, d);
    ApplyConcat(gpio.initial, old(gpio.trace), BitWrites(lines, d));
  }

  /**
   * After the writes for `d`, BCD line `i` is high exactly when bit `i` of
   * `d` is set, and a pin that is not a BCD line keeps its level.
   */
  lemma MapBitsLevel(m: map<Pin, bool>, lines: seq<GpioConf>, d: u8, p: Pin)
    requires |lines| >= 4 && DistinctPins(lines, 4)
    ensures forall i :: 0 <= i < 4 && lines[i].pin == p ==> High(Apply(m, BitWrites(lines, d)), p) == BitSet(d, i)
    ensures (forall i :: 0 <= i < 4 ==> lines[i].pin != p) ==>
              (p in Apply(m, BitWrites(lines, d)) <==> p in m) &&
              (p in m ==> Apply(m, BitWrites(lines, d))[p] == m[p])
  {
    var t := BitWrites(lines, d);
    forall i | 0 <= i < 4 && lines[i].pin == p
      ensures High(Apply(m, t), p) == BitSet(d, i)
    {
      ApplyLastWrite(m, t, i);
    }
    if forall i :: 0 <= i < 4 ==> lines[i].pin != p {
      ApplyUntouched(m, t, p);
    }
  }

  /** Reading the four BCD lines back gives `d mod 16`. */
  lemma MapBitsReadBack(m: map<Pin, bool>, lines: seq<GpioConf>, d: u8)
    requires |lines| >= 4 && DistinctPins(lines, 4)
    ensures ReadNibble(Apply(m, BitWrites(lines, d)), lines) == d as int % 16
  {
    MapBitsLevel(m, lines, d, lines[0].pin);
    MapBitsLevel(m, lines, d, lines[1].pin);
    MapBitsLevel(m, lines, d, lines[2].pin);
    MapBitsLevel(m, lines, d, lines[3].pin);
    NibbleOfBits(d);
  }

  // ---------------------------------------------------------------------
  // Multiplexing three digits
  // ---------------------------------------------------------------------

  /** Four BCD lines and three select lines, seven different pins in all. */
  predicate WellWired(lines: seq<GpioConf>, mult: seq<GpioConf>) {
    |lines| >= 4 && |mult| >= 3 && DistinctPins(lines, 4) && DistinctPins(mult, 3) &&
    forall a, b :: 0 <= a < 4 && 0 <= b < 3 ==> lines[a].pin != mult[b].pin
  }

  /** Display position `i` showing digit `d`: spell `d`, then pulse select line `i`. */
  function Block(lines: seq<GpioConf>, mult: seq<GpioConf>, d: u8, i: nat): seq<Event>
    requires |lines| >= 4 && i < |mult|
  {
    BitWrites(lines, d) + [On(mult[i].pin), Off(mult[i].pin)]
  }

  /** The blocks of positions `0 .. n-1`, in that order. */
  function MuxPrefix(lines: seq<GpioConf>, mult: seq<GpioConf>, v: seq<u8>, n: nat): (t: seq<Event>)
    requires |lines| >= 4 && n <= |mult| && n <= |v|
    ensures |t| == 6 * n
  {
    if n == 0 then [] else MuxPrefix(lines, mult, v, n - 1) + Block(lines, mult, v[n - 1], n - 1)
  }

  lemma MuxPrefixOnceMore(lines: seq<GpioConf>, mult: seq<GpioConf>, v: seq<u8>, n: nat)
    requires |lines| >= 4 && n < |mult| && n < |v|
    ensures MuxPrefix(lines, mult, v, n + 1) == MuxPrefix(lines, mult, v, n) + Block(lines, mult, v[n], n)
  {
  }

  /** Everything `multipelxor` writes when its digit buffer holds `v`. */
  function MuxTrace(lines: seq<GpioConf>, mult: seq<GpioConf>, v: seq<u8>): seq<Event>
    requires |lines| >= 4 && |mult| >= 3 && |v| >= 3
  {
    MuxPrefix(lines, mult, v, 3)
  }

  /**
   * The digit buffer `multipelxor` displays: the `digito` converted digits,
   * then whatever the uninitialised local array `vector` held before.
   */
  function Shown(numero: u32, digito: u8, stale: seq<u8>): seq<u8>
    requires digito <= 3 && |stale| == 3
  {
    Digits(numero as nat, digito as nat) + stale[digito..]
  }

  /**
   * The displayed buffer has three entries: below `digito` the decimal digits
   * of `numero`, from `digito` on the stale bytes.
   */
  lemma ShownEntries(numero: u32, digito: u8, stale: seq<u8>)
    requires digito <= 3 && |stale| == 3
    ensures |Shown(numero, digito, stale)| == 3
    ensures forall k :: 0 <= k < digito as int ==> Shown(numero, digito, stale)[k] as nat == (numero as nat / Pow10(k)) % 10
    ensures forall k :: digito as int <= k < 3 ==> Shown(numero, digito, stale)[k] == stale[k]
  {
    AllDigitsAt(numero as nat, digito as nat);
  }

  /** One pass of the display loop: put `d` on the BCD lines, then pulse select line `i`. */
  method ShowPosition(gpio: GpioPort, lines: seq<GpioConf>, mult: seq<GpioConf>, d: u8, i: nat)
    requires gpio.Valid() && |lines| >= 4 && i < |mult|
    modifies gpio
    ensures gpio.Valid()
    ensures gpio.trace == old(gpio.trace) + Block(lines, mult, d, i)
  {
    MapBits(gpio, lines, d);
    gpio.GpioOn(mult[i].pin);
    gpio.GpioOff(mult[i].pin);
  }

  /** `multipelxor(numero, digito, arreglo, mult)`; `stale` is the prior content of its stack buffer. */
  method Multiplex(gpio: GpioPort, numero: u32, digito: u8, lines: seq<GpioConf>, mult: seq<GpioConf>,
                   stale: seq<u8>)
    requires gpio.Valid()
    requires digito <= 3 && |lines| >= 4 && |mult| >= 3 && |stale| == 3
    modifies gpio
    ensures gpio.Valid()
    ensures gpio.trace == old(gpio.trace) + MuxTrace(lines, mult, Shown(numero, digito, stale))
    ensures gpio.level == Apply(old(gpio.level), MuxTrace(lines, mult, Shown(numero, digito, stale)))
  {
    var vector := new u8[3](k requires 0 <= k < 3 => stale[k]);
    assert vector[..] == stale;
    var _ := ConvertToBcdArray(numero, digito, vector);
    ghost var shown := vector[..];
    assert shown == vector[..digito as int] + vector[digito as int..];
    assert shown == Shown(numero, digito, stale);
    ghost var start := gpio.trace;
    for i := 0 to 3
      invariant gpio.Valid()
      invariant vector[..] == shown
      invariant gpio.trace == start + MuxPrefix(lines, mult, shown, i)
    {
      ShowPosition(gpio, lines, mult, vector[i], i);
      MuxPrefixOnceMore(lines, mult, shown, i);
    }
    ghost var t := MuxTrace(lines, mult, shown);
    assert gpio.trace == old(gpio.trace) + t;
    ApplyConcat(gpio.initial, old(gpio.trace), t);
  }

  /** Earlier prefixes are prefixes of later ones, six writes per position. */
  lemma {:induction false} MuxPrefixGrows(lines: seq<GpioConf>, mult: seq<GpioConf>, v: seq<u8>, i: nat, n: nat)
    requires |lines| >= 4 && i <= n <= |mult| && n <= |v|
    ensures MuxPrefix(lines, mult, v, n)[..6 * i] == MuxPrefix(lines, mult, v, i)
  {
    if n > 0 {
      if i == n {
        MuxPrefixGrows(lines, mult, v, 0, n - 1);
      } else {
        MuxPrefixGrows(lines, mult, v, i, n - 1);
      }
    }
  }

  /**
   * The trace is three blocks in order: for position `i`, writes `6i .. 6i+3`
   * spell `v[i]` on the BCD lines, then select line `i` goes high, then low.
   */
  lemma MuxOrder(lines: seq<GpioConf>, mult: seq<GpioConf>, v: seq<u8>, i: nat)
    requires |lines| >= 4 && |mult| >= 3 && |v| >= 3 && i < 3
    ensures |MuxTrace(lines, mult, v)| == 18
    ensures MuxTrace(lines, mult, v)[6 * i .. 6 * i + 4] == BitWrites(lines, v[i])
    ensures MuxTrace(lines, mult, v)[6 * i + 4] == On(mult[i].pin)
    ensures MuxTrace(lines, mult, v)[6 * i + 5] == Off(mult[i].pin)
  {
    MuxPrefixGrows(lines, mult, v, i + 1, 3);
    MuxPrefixGrows(lines, mult, v, i, i + 1);
    var t := MuxTrace(lines, mult, v);
    assert t[..6 * i + 6] == MuxPrefix(lines, mult, v, i) + Block(lines, mult, v[i], i);
    assert t[6 * i .. 6 * i + 6] == Block(lines, mult, v[i], i);
  }

  /** The effect of one block's first five writes: digit spelled, select line `i` high, other selects untouched. */
  lemma BlockLatched(m: map<Pin, bool>, lines: seq<GpioConf>, mult: seq<GpioConf>, d: u8, i: nat)
    requires WellWired(lines, mult) && i < 3
    ensures ReadNibble(Apply(m, Block(lines, mult, d, i)[..5]), lines) == d as int % 16
    ensures High(Apply(m, Block(lines, mult, d, i)[..5]), mult[i].pin)
    ensures forall j :: 0 <= j < 3 && j != i ==>
              High(Apply(m, Block(lines, mult, d, i)[..5]), mult[j].pin) == High(m, mult[j].pin)
  {
    var w := BitWrites(lines, d);
    var t := Block(lines, mult, d, i)[..5];
    assert t == w + [On(mult[i].pin)];
    ApplyConcat(m, w, [On(mult[i].pin)]);
    MapBitsReadBack(m, lines, d);
    forall j | 0 <= j < 3 && j != i
      ensures High(Apply(m, t), mult[j].pin) == High(m, mult[j].pin)
    {
      MapBitsLevel(m, lines, d, mult[j].pin);
    }
  }

  /** The effect of a whole block: digit spelled, select line `i` low again, other selects untouched. */
  lemma BlockDone(m: map<Pin, bool>, lines: seq<GpioConf>, mult: seq<GpioConf>, d: u8, i: nat)
    requires WellWired(lines, mult) && i < 3
    ensures ReadNibble(Apply(m, Block(lines, mult, d, i)), lines) == d as int % 16
    ensures !High(Apply(m, Block(lines, mult, d, i)), mult[i].pin)
    ensures forall j :: 0 <= j < 3 && j != i ==>
              High(Apply(m, Block(lines, mult, d, i)), mult[j].pin) == High(m, mult[j].pin)
  {
    var t := Block(lines, mult, d, i);
    assert t == t[..5] + [Off(mult[i].pin)];
    ApplyConcat(m, t[..5], [Off(mult[i].pin)]);
    BlockLatched(m, lines, mult, d, i);
  }

  /** After positions `0 .. n-1`: their select lines are low, later ones untouched, the BCD lines spell `v[n-1]`. */
  lemma {:induction false} MuxPrefixState(m: map<Pin, bool>, lines: seq<GpioConf>, mult: seq<GpioConf>,
                                          v: seq<u8>, n: nat)
    requires WellWired(lines, mult) && |v| >= 3 && n <= 3
    ensures forall j :: 0 <= j < n ==> !High(Apply(m, MuxPrefix(lines, mult, v, n)), mult[j].pin)
    ensures forall j :: n <= j < 3 ==> High(Apply(m, MuxPrefix(lines, mult, v, n)), mult[j].pin) == High(m, mult[j].pin)
    ensures n > 0 ==> ReadNibble(Apply(m, MuxPrefix(lines, mult, v, n)), lines) == v[n - 1] as int % 16
  {
    if n > 0 {
      MuxPrefixState(m, lines, mult, v, n - 1);
      var before := MuxPrefix(lines, mult, v, n - 1);
      ApplyConcat(m, before, Block(lines, mult, v[n - 1], n - 1));
      BlockDone(Apply(m, before), lines, mult, v[n - 1], n - 1);
    }
  }

  /**
   * While select line `i` is high, the BCD lines spell `v[i]` and no other
   * select line is high (given that all three start low).
   */
  lemma MuxLatch(m: map<Pin, bool>, lines: seq<GpioConf>, mult: seq<GpioConf>, v: seq<u8>, i: nat)
    requires WellWired(lines, mult) && |v| >= 3 && i < 3
    requires forall j :: 0 <= j < 3 ==> !High(m, mult[j].pin)
    ensures High(Apply(m, MuxTrace(lines, mult, v)[..6 * i + 5]), mult[i].pin)
    ensures forall j :: 0 <= j < 3 && j != i ==> !High(Apply(m, MuxTrace(lines, mult, v)[..6 * i + 5]), mult[j].pin)
    ensures ReadNibble(Apply(m, MuxTrace(lines, mult, v)[..6 * i + 5]), lines) == v[i] as int % 16
  {
    MuxPrefixGrows(lines, mult, v, i + 1, 3);
    MuxPrefixGrows(lines, mult, v, i, i + 1);
    var before := MuxPrefix(lines, mult, v, i);
    var block := Block(lines, mult, v[i], i);
    assert MuxTrace(lines, mult, v)[..6 * i + 5] == before + block[..5];
    ApplyConcat(m, before, block[..5]);
    MuxPrefixState(m, lines, mult, v, i);
    BlockLatched(Apply(m, before), lines, mult, v[i], i);
  }

  /** Afterwards every select line is low and the BCD lines spell `v[2]`. */
  lemma MuxFinal(m: map<Pin, bool>, lines: seq<GpioConf>, mult: seq<GpioConf>, v: seq<u8>)
    requires WellWired(lines, mult) && |v| >= 3
    ensures forall j :: 0 <= j < 3 ==> !High(Apply(m, MuxTrace(lines, mult, v)), mult[j].pin)
    ensures ReadNibble(Apply(m, MuxTrace(lines, mult, v)), lines) == v[2] as int % 16
  {
    MuxPrefixState(m, lines, mult, v, 3);
  }

  /** A pin that is neither a BCD line nor a select line is never written. */
  lemma MuxLeavesOtherPins(m: map<Pin, bool>, lines: seq<GpioConf>, mult: seq<GpioConf>, v: seq<u8>, p: Pin)
    requires |lines| >= 4 && |mult| >= 3 && |v| >= 3
    requires forall a :: 0 <= a < 4 ==> lines[a].pin != p
    requires forall b :: 0 <= b < 3 ==> mult[b].pin != p
    ensures p in Apply(m, MuxTrace(lines, mult, v)) <==> p in m
    ensures p in m ==> Apply(m, MuxTrace(lines, mult, v))[p] == m[p]
  {
    var t := MuxTrace(lines, mult, v);
    forall k | 0 <= k < |t| ensures t[k].pin != p {
      var i := k / 6;
      MuxOrder(lines, mult, v, i);
      if k % 6 < 4 {
        assert t[k] == t[6 * i .. 6 * i + 4][k % 6];
      }
    }
    ApplyUntouched(m, t, p);
  }

  /** With `digito == 3` every displayed digit comes from the conversion, none from the stale buffer. */
  lemma ShownAllConverted(numero: u32, stale: seq<u8>)
    requires |stale| == 3
    ensures Shown(numero, 3, stale) == Digits(numero as nat, 3)
    ensures numero < 1000 ==> Value(Shown(numero, 3, stale)) == numero as nat
  {
    assert Pow10(3) == 1000;
    if numero < 1000 {
      DigitsRoundTripExact(numero as nat, 3);
    }
  }

  /** The demonstration number 138 splits into units 8, tens 3, hundreds 1. */
  lemma Digits138()
    ensures Digits(138, 3) == [8, 3, 1]
  {
  }

  /**
   * The demonstration of `app_main`: 138 shown on three positions with BCD
   * lines `a0..a3` and select lines `s0..s2` issues exactly these writes.
   */
  method DisplayDemo(a0: Pin, a1: Pin, a2: Pin, a3: Pin, s0: Pin, s1: Pin, s2: Pin,
                     init: map<Pin, bool>, stale: seq<u8>) returns (trace: seq<Event>)
    requires |stale| == 3
    ensures trace == [Off(a0), Off(a1), Off(a2), On(a3), On(s0), Off(s0),
                      On(a0), On(a1), Off(a2), Off(a3), On(s1), Off(s1),
                      On(a0), Off(a1), Off(a2), Off(a3), On(s2), Off(s2)]
  {
    var lines := [GpioConf(a0, GpioOutput), GpioConf(a1, GpioOutput), GpioConf(a2, GpioOutput), GpioConf(a3, GpioOutput)];
    var mult := [GpioConf(s0, GpioOutput), GpioConf(s1, GpioOutput), GpioConf(s2, GpioOutput)];
    var gpio := new GpioPort(init);
    Multiplex(gpio, 138, 3, lines, mult, stale);
    Digits138();
    assert Shown(138, 3, stale) == [8, 3, 1];
    assert Pow2(2) == 4 && Pow2(3) == 8;
    assert !BitSet(8, 0) && !BitSet(8, 1) && !BitSet(8, 2) && BitSet(8, 3);
    assert BitSet(3, 0) && BitSet(3, 1) && !BitSet(3, 2) && !BitSet(3, 3);
    assert BitSet(1, 0) && !BitSet(1, 1) && !BitSet(1, 2) && !BitSet(1, 3);
    assert Block(lines, mult, 8, 0) == [Off(a0), Off(a1), Off(a2), On(a3), On(s0), Off(s0)];
    assert Block(lines, mult, 3, 1) == [On(a0), On(a1), Off(a2), Off(a3), On(s1), Off(s1)];
    assert Block(lines, mult, 1, 2) == [On(a0), Off(a1), Off(a2), Off(a3), On(s2), Off(s2)];
    assert MuxPrefix(lines, mult, [8, 3, 1], 1) == Block(lines, mult, 8, 0);
    assert MuxPrefix(lines, mult, [8, 3, 1], 2) == Block(lines, mult, 8, 0) + Block(lines, mult, 3, 1);
    assert MuxTrace(lines, mult, [8, 3, 1])
        == Block(lines, mult, 8, 0) + Block(lines, mult, 3, 1) + Block(lines, mult, 1, 2);
    trace := gpio.trace;
  }
}
