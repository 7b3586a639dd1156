/**
 * The argument codec of `ZkWasmUtil` (dist/cjs/helper/util.js and its mjs
 * twin): typed literals such as "123:i64" or "0xdead:bytes" become
 * big-number chunks for the verifier contract, proof payloads become
 * 32-byte little-endian words, and the image registration fields become the
 * signing payload. Big numbers are `nat`.
 */
module ZkWasmUtil {
  import opened Wrappers
  import opened Numerals
  import opened JsText
  import opened JsArray

  function Min(a: int, b: int): int {
    if a < b then a else b
  }

  /** `Math.ceil(n / 16)`. */
  function Ceil16(n: nat): nat {
    (n + 15) / 16
  }

  /** `Math.ceil(n / 32)`. */
  function Ceil32(n: nat): nat {
    (n + 31) / 32
  }

  // ===========================================================================
  // hexToBNs: 16-digit windows, stored at their character offsets

  /** The window of up to 16 digits that starts at offset i. */
  function Window(hex: string, i: nat): string
    requires i <= |hex|
  {
    hex[i..Min(i + 16, |hex|)]
  }

  /** The offsets `hexToBNs` writes to: 0, 16, 32, ... below n. */
  predicate IsOffset(i: nat, n: nat) {
    i < n && i % 16 == 0
  }

  /** One past the last offset written, which is where the writes leave `length`. */
  function SlotsLength(n: nat): nat {
    if n == 0 then 0 else 16 * (Ceil16(n) - 1) + 1
  }

  /**
   * The array `hexToBNs` builds: the value of the window starting at each
   * offset is stored at index = offset, every other index is a hole.
   */
  function ChunkSlots(hex: string): Sparse<nat> {
    Sparse(SlotsLength(|hex|), map i: nat | i < |hex| && i % 16 == 0 :: HexValue(Window(hex, i)))
  }

  /** `hexToBNs(hexString)`: a loop writing each window's value at its offset. */
  method HexToBNs(hexString: string) returns (bytes: Sparse<nat>)
    requires forall i :: 0 <= i < |hexString| ==> IsHexDigit(hexString[i])
    ensures bytes == ChunkSlots(hexString)
  {
    var n := |hexString|;
    bytes := Allocate(Ceil16(n));
    var i := 0;
    while i < n
      invariant i % 16 == 0 && i <= n + 15
      invariant bytes.Valid()
      invariant bytes.length == Max(Ceil16(n), i - 15)
      invariant forall j: nat :: j in bytes.elems <==> IsOffset(j, n) && j < i
      invariant forall j :: j in bytes.elems ==> bytes.elems[j] == HexValue(Window(hexString, j))
    {
      bytes := Put(bytes, i, HexValue(Window(hexString, i)));
      NextOffsets(i, n);
      i := i + 16;
    }
    LoopEnd(i, n);
    SameSlots(bytes, hexString);
  }

  lemma NextOffsets(i: nat, n: nat)
    requires IsOffset(i, n)
    ensures forall j: nat :: IsOffset(j, n) && j < i + 16 <==> (IsOffset(j, n) && j < i) || j == i
  {
  }

  /** When the loop stops, every offset is written and `length` is one past the last. */
  lemma LoopEnd(i: nat, n: nat)
    requires i % 16 == 0 && n <= i <= n + 15
    ensures forall j: nat :: IsOffset(j, n) && j < i <==> IsOffset(j, n)
    ensures Max(Ceil16(n), i - 15) == SlotsLength(n)
  {
  }

  lemma SameSlots(a: Sparse<nat>, hex: string)
    requires a.length == SlotsLength(|hex|)
    requires forall j: nat :: j in a.elems <==> IsOffset(j, |hex|)
    requires forall j :: j in a.elems ==> j < |hex| && a.elems[j] == HexValue(Window(hex, j))
    ensures a == ChunkSlots(hex)
  {
  }

  /**
   * The dense reference: the hex string cut into consecutive windows of 16
   * digits (the last one shorter), each read in base 16.
   */
  function HexChunks(hex: string): seq<nat> {
    if |hex| == 0 then []
    else if |hex| <= 16 then [HexValue(hex)]
    else [HexValue(hex[..16])] + HexChunks(hex[16..])
  }

  /** n digits give ceil(n/16) chunks; chunk k is the value of the window at offset 16k. */
  lemma {:induction false} HexChunksShape(hex: string)
    ensures |HexChunks(hex)| == Ceil16(|hex|)
    ensures forall k :: 0 <= k < Ceil16(|hex|) ==> 16 * k < |hex| && HexChunks(hex)[k] == HexValue(Window(hex, 16 * k))
  {
    var n := |hex|;
    if n > 16 {
      var rest := hex[16..];
      HexChunksShape(rest);
      assert Ceil16(n) == Ceil16(n - 16) + 1;
      forall k | 0 <= k < Ceil16(n)
        ensures 16 * k < n && HexChunks(hex)[k] == HexValue(Window(hex, 16 * k))
      {
        if k > 0 {
          assert HexChunks(hex)[k] == HexChunks(rest)[k - 1];
          WindowShift(hex, 16 * k);
        }
      }
    } else if n > 0 {
      assert Ceil16(n) == 1 && Window(hex, 0) == hex;
    }
  }

  lemma WindowShift(hex: string, j: nat)
    requires 16 <= j <= |hex|
    ensures Window(hex[16..], j - 16) == Window(hex, j)
  {
    var m := Min(j + 16, |hex|);
    assert Min(j - 16 + 16, |hex| - 16) == m - 16;
    SliceShift(hex, 16, j, m);
  }

  /** Every chunk fits in 64 bits: a window has at most 16 digits. */
  lemma {:induction false} HexChunksFit64(hex: string)
    ensures forall x :: x in HexChunks(hex) ==> x < Pow(2, 64)
  {
    if |hex| > 0 {
      var w := if |hex| <= 16 then hex else hex[..16];
      HexValueBound(w);
      PowMonotone(16, |w|, 16);
      WordSizes();
      if |hex| > 16 {
        HexChunksFit64(hex[16..]);
      }
    }
  }

  lemma CeilStep(k: nat, n: nat)
    requires k > 0
    ensures IsOffset(k - 1, n) ==> Ceil16(Min(k, n)) == (k - 1) / 16 + 1 && Ceil16(Min(k - 1, n)) == (k - 1) / 16
    ensures !IsOffset(k - 1, n) ==> Ceil16(Min(k, n)) == Ceil16(Min(k - 1, n))
  {
  }

  /**
   * The elements of an array holding cs[q] at offset 16q for each q, and
   * nothing elsewhere, read in index order: the first ceil(min(k, n)/16).
   */
  lemma {:induction false} PresentBelowOffsets(a: Sparse<nat>, cs: seq<nat>, n: nat, k: nat)
    requires |cs| == Ceil16(n)
    requires forall i: nat :: i in a.elems <==> IsOffset(i, n)
    requires forall q :: 0 <= q < |cs| ==> 16 * q in a.elems && a.elems[16 * q] == cs[q]
    ensures Ceil16(Min(k, n)) <= |cs|
    ensures PresentBelow(a, k) == cs[..Ceil16(Min(k, n))]
  {
    if k > 0 {
      PresentBelowOffsets(a, cs, n, k - 1);
      CeilStep(k, n);
      if IsOffset(k - 1, n) {
        var q := (k - 1) / 16;
        assert 16 * q == k - 1;
        TakeSnoc(cs, q);
      }
    }
  }

  lemma MultipleOf16(q: nat)
    ensures (16 * q) % 16 == 0 && (16 * q) / 16 == q
  {
  }

  lemma ChunkSlotsOffsets(hex: string)
    ensures |HexChunks(hex)| == Ceil16(|hex|)
    ensures forall i: nat :: i in ChunkSlots(hex).elems <==> IsOffset(i, |hex|)
    ensures forall q :: 0 <= q < |HexChunks(hex)| ==>
              16 * q in ChunkSlots(hex).elems && ChunkSlots(hex).elems[16 * q] == HexChunks(hex)[q]
  {
    HexChunksShape(hex);
    var a, cs := ChunkSlots(hex), HexChunks(hex);
    forall q | 0 <= q < |cs|
      ensures 16 * q in a.elems && a.elems[16 * q] == cs[q]
    {
      MultipleOf16(q);
    }
  }

  /**
   * Flattening drops the holes: the array `hexToBNs` returns yields exactly
   * the dense chunks, in offset order, and so exactly ceil(n/16) values.
   */
  lemma DenseChunkSlots(hex: string)
    ensures Dense(ChunkSlots(hex)) == HexChunks(hex)
    ensures |Dense(ChunkSlots(hex))| == Ceil16(|hex|)
  {
    ChunkSlotsOffsets(hex);
    var a := ChunkSlots(hex);
    PresentBelowOffsets(a, HexChunks(hex), |hex|, a.length);
    var n := |hex|;
    if n > 0 {
      assert Ceil16(Min(a.length, n)) == Ceil16(n);
    }
  }

  /**
   * The layout of the array `hexToBNs` returns: a slot at every offset 0, 16,
   * 32, ... below n and nowhere else, every slot below `length`, and a
   * `length` of 16 * (ceil(n/16) - 1) + 1 rather than ceil(n/16) once there
   * are two windows or more.
   */
  lemma ChunkSlotsLayout(hex: string)
    ensures ChunkSlots(hex).Valid()
    ensures forall i: nat :: i in ChunkSlots(hex).elems <==> i < |hex| && i % 16 == 0
    ensures |hex| > 16 ==> ChunkSlots(hex).length > Ceil16(|hex|)
    ensures |hex| <= 16 ==> ChunkSlots(hex).length == Ceil16(|hex|)
  {
    var n := |hex|;
    forall i | i in ChunkSlots(hex).elems
      ensures i < ChunkSlots(hex).length
    {
      OffsetBelowLast(i, n);
    }
  }

  lemma OffsetBelowLast(i: nat, n: nat)
    requires IsOffset(i, n)
    ensures i < SlotsLength(n)
  {
  }

  // ===========================================================================
  // parseArg: one "value:type" literal

  /** The text before the first ':' (`input.split(":")[0]`). */
  function ValueField(input: string): string {
    Split(input, ':')[0]
  }

  /** The text between the first and second ':' (`input.split(":")[1]`); None is `undefined`. */
  function TypeField(input: string): Option<string> {
    var fields := Split(input, ':');
    if |fields| > 1 then Some(fields[1]) else None
  }

  /** `value.slice(2)`. */
  function Drop2(value: string): string {
    if |value| >= 2 then value[2..] else []
  }

  /** `value.slice(0, 2) == "0x"` (lower-case x only). */
  predicate HasHexPrefix(value: string) {
    |value| >= 2 && value[..2] == "0x"
  }

  /**
   * The validation gate: `value.slice(2)` against the hex pattern, or the
   * whole value against the decimal pattern, whatever the prefix is.
   */
  predicate PassesValidation(value: string) {
    IsHexString(Drop2(value)) || IsDecString(value)
  }

  /**
   * A literal that reaches `new BN(value)` with something other than decimal
   * digits ("zz12:i64", "0Xff:i64"); what bn.js returns then depends on its version.
   */
  predicate MalformedDecimal(input: string) {
    var value := ValueField(input);
    PassesValidation(value) && TypeField(input) == Some("i64") && !HasHexPrefix(value) && !IsDecString(value)
  }

  /** `parseArg(input)`: None stands for the `null` it returns on every rejection. */
  function ParseArg(input: string): (r: Option<Sparse<nat>>)
    requires !MalformedDecimal(input)
    ensures r.Some? ==> PassesValidation(ValueField(input))
    ensures r.Some? ==> TypeField(input) in {Some("i64"), Some("bytes"), Some("bytes-packed")}
    ensures r.Some? && TypeField(input) != Some("i64") ==> HasHexPrefix(ValueField(input))
  {
    var value, tag := ValueField(input), TypeField(input);
    if !PassesValidation(value) then None
    else if tag == Some("i64") then
      if HasHexPrefix(value) then Some(Of([HexValue(value[2..])])) else Some(Of([DecValue(value)]))
    else if tag == Some("bytes") || tag == Some("bytes-packed") then
      if !HasHexPrefix(value) then None else Some(ChunkSlots(value[2..]))
    else None
  }

  /**
   * When parseArg accepts: the value passes validation and the type is i64,
   * or it is bytes / bytes-packed with a "0x" prefix. Anything else is null.
   */
  lemma ParseArgAccepts(input: string)
    requires !MalformedDecimal(input)
    ensures var value, tag := ValueField(input), TypeField(input);
      ParseArg(input).Some? <==>
        PassesValidation(value)
        && (tag == Some("i64") || ((tag == Some("bytes") || tag == Some("bytes-packed")) && HasHexPrefix(value)))
  {
  }

  /**
   * An accepted i64 literal gives exactly one number: the hex value of the
   * digits after "0x", or else the decimal value of the whole field.
   */
  lemma ParseArgI64(input: string)
    requires !MalformedDecimal(input)
    requires TypeField(input) == Some("i64") && PassesValidation(ValueField(input))
    ensures var value := ValueField(input);
      && ParseArg(input).Some?
      && (HasHexPrefix(value) ==> IsHexString(value[2..]) && Dense(ParseArg(input).value) == [HexValue(value[2..])])
      && (!HasHexPrefix(value) ==> IsDecString(value) && Dense(ParseArg(input).value) == [DecValue(value)])
  {
    var value := ValueField(input);
    if HasHexPrefix(value) {
      assert value[1] == 'x';
      DenseOf([HexValue(value[2..])]);
    } else {
      DenseOf([DecValue(value)]);
    }
  }

  /**
   * A bytes literal is accepted exactly when its value is "0x" followed by
   * hex digits; its numbers are then the 16-digit chunks of those digits.
   */
  lemma ParseArgBytes(input: string)
    requires TypeField(input) == Some("bytes") || TypeField(input) == Some("bytes-packed")
    ensures var value := ValueField(input);
      && (ParseArg(input).Some? <==> HasHexPrefix(value) && IsHexString(value[2..]))
      && (ParseArg(input).Some? ==> Dense(ParseArg(input).value) == HexChunks(value[2..]))
  {
    var value := ValueField(input);
    if HasHexPrefix(value) {
      assert value[1] == 'x';
      DenseChunkSlots(value[2..]);
    }
  }

  /**
   * Decimal round trip, with no 64-bit range check: the literal
   * "<decimal of n>:i64" parses to the single number n for every n.
   */
  lemma ParseArgDecimalRoundTrip(n: nat)
    ensures !MalformedDecimal(DecString(n) + ":i64")
    ensures ParseArg(DecString(n) + ":i64") == Some(Of([n]))
  {
    var d := DecString(n);
    assert ':' !in d by {
      assert forall i :: 0 <= i < |d| ==> IsDecDigit(d[i]);
    }
    FieldsOf(d, "i64");
    assert d + ":i64" == d + ":" + "i64";
    assert !HasHexPrefix(d) by {
      if |d| >= 2 { assert IsDecDigit(d[1]); }
    }
  }

  /** Hex round trip: "0x<digits>:i64" parses to the single number the digits denote. */
  lemma ParseArgHexRoundTrip(digits: string)
    requires IsHexString(digits)
    ensures !MalformedDecimal("0x" + digits + ":i64")
    ensures ParseArg("0x" + digits + ":i64") == Some(Of([HexValue(digits)]))
  {
    var value := "0x" + digits;
    assert ':' !in value by {
      assert forall i :: 2 <= i < |value| ==> value[i] == digits[i - 2];
    }
    FieldsOf(value, "i64");
    assert "0x" + digits + ":i64" == value + ":" + "i64";
    assert value[2..] == digits && Drop2(value) == digits;
    assert !IsDecDigit(value[1]);
  }

  /** "0x<digits>:bytes" parses to the sparse chunk array of the digits. */
  lemma ParseArgBytesRoundTrip(digits: string, tag: string)
    requires IsHexString(digits)
    requires tag == "bytes" || tag == "bytes-packed"
    ensures !MalformedDecimal("0x" + digits + ":" + tag)
    ensures ParseArg("0x" + digits + ":" + tag) == Some(ChunkSlots(digits))
  {
    var value := "0x" + digits;
    assert ':' !in value by {
      assert forall i :: 2 <= i < |value| ==> value[i] == digits[i - 2];
    }
    assert ':' !in tag;
    FieldsOf(value, tag);
    assert "0x" + digits + ":" + tag == value + ":" + tag;
    assert value[2..] == digits && Drop2(value) == digits;
    assert !IsDecDigit(value[1]);
  }

  lemma FieldsOf(value: string, tag: string)
    requires ':' !in value && ':' !in tag
    ensures ValueField(value + ":" + tag) == value && TypeField(value + ":" + tag) == Some(tag)
  {
    SplitOfJoin([value, tag], ':');
    assert Join([value, tag], ':') == value + ":" + tag;
  }

  /** Fields after the second ':' are ignored. */
  lemma ParseArgIgnoresExtraFields(value: string, tag: string, more: string)
    requires ':' !in value && ':' !in tag
    requires !MalformedDecimal(value + ":" + tag)
    ensures !MalformedDecimal(value + ":" + tag + ":" + more)
    ensures ParseArg(value + ":" + tag + ":" + more) == ParseArg(value + ":" + tag)
  {
    FieldsOf(value, tag);
    var input := value + ":" + tag + ":" + more;
    SplitField(value, ':', tag + ":" + more);
    SplitField(tag, ':', more);
    assert input == value + [':'] + (tag + [':'] + more);
  }

  /**
   * A value of at most two characters is accepted only when it is decimal:
   * its `slice(2)` is empty, so the hex test cannot pass ("ab:i64" is null).
   */
  lemma ShortValueRejected(value: string, tag: string)
    requires |value| <= 2 && !IsDecString(value)
    requires ':' !in value && ':' !in tag
    ensures !MalformedDecimal(value + ":" + tag)
    ensures ParseArg(value + ":" + tag) == None
  {
    FieldsOf(value, tag);
  }

  /** A decimal value passes validation but is no bytes literal: it lacks "0x" ("123:bytes" is null). */
  lemma DecimalBytesRejected(value: string, tag: string)
    requires IsDecString(value)
    requires tag == "bytes" || tag == "bytes-packed"
    ensures PassesValidation(value)
    ensures !MalformedDecimal(value + ":" + tag)
    ensures ParseArg(value + ":" + tag) == None
  {
    assert ':' !in value by {
      assert forall i :: 0 <= i < |value| ==> IsDecDigit(value[i]);
    }
    FieldsOf(value, tag);
    assert !HasHexPrefix(value) by {
      if |value| >= 2 { assert IsDecDigit(value[1]); }
    }
  }

  /**
   * Validation tests `slice(2)` whatever the first two characters are: a
   * value that is not all digits, does not start with "0x", and has hex
   * digits after its first two characters passes, and an i64 literal of that
   * form is handed to bn.js as a decimal that is not one ("bad", "1x12", "9zff").
   */
  lemma ValidationIgnoresPrefix(value: string)
    requires |value| > 2 && IsHexString(value[2..]) && value[..2] != "0x"
    requires ':' !in value && !IsDecString(value)
    ensures PassesValidation(value)
    ensures MalformedDecimal(value + ":i64")
  {
    FieldsOf(value, "i64");
    assert value + ":i64" == value + ":" + "i64";
  }

  /** The literal "bad" meets the conditions of `ValidationIgnoresPrefix`: "d" is a hex digit. */
  lemma BadIsHexAfterSlice()
    ensures var value := "bad";
      && |value| > 2 && IsHexString(value[2..]) && value[..2] != "0x"
      && ':' !in value && !IsDecString(value)
  {
    assert "bad"[2..] == "d";
    assert "bad"[..2][0] == 'b';
  }

  // ===========================================================================
  // parseArgs: a batch of literals, fail-fast, flattened

  /** The message of the error `parseArgs` throws. */
  function InvalidArgs(input: string): string {
    "invalid args in " + input
  }

  /** Every trimmed entry stays clear of the bn.js-dependent decimal case. */
  predicate DecimalsWellFormed(raw: seq<string>) {
    forall i :: 0 <= i < |raw| ==> !MalformedDecimal(Trim(raw[i]))
  }

  /** Prefixes the numbers of a successful outcome; a failure is passed on. */
  function Prepend(prefix: seq<nat>, rest: Result<seq<nat>, string>): Result<seq<nat>, string> {
    match rest
    case Ok(values) => Ok(prefix + values)
    case Err(e) => Err(e)
  }

  /** Runs two steps in order: the first failure wins, otherwise the numbers are concatenated. */
  function AndThen(first: Result<seq<nat>, string>, second: Result<seq<nat>, string>): Result<seq<nat>, string> {
    match first
    case Err(e) => Err(e)
    case Ok(values) => Prepend(values, second)
  }

  /**
   * What one iteration of the `parseArgs` loop contributes: nothing for a
   * blank entry, the thrown message for a rejected one, else the numbers
   * of its array with the holes dropped.
   */
  function Outcome(entry: string): Result<seq<nat>, string>
    requires !MalformedDecimal(Trim(entry))
  {
    var input := Trim(entry);
    if input == "" then Ok([])
    else match ParseArg(input)
      case None => Err(InvalidArgs(input))
      case Some(args) => Ok(Dense(args))
  }

  lemma DecimalsWellFormedTail(raw: seq<string>)
    requires raw != [] && DecimalsWellFormed(raw)
    ensures DecimalsWellFormed(raw[1..])
  {
  }

  lemma DecimalsWellFormedAppend(a: seq<string>, b: seq<string>)
    requires DecimalsWellFormed(a) && DecimalsWellFormed(b)
    ensures DecimalsWellFormed(a + b)
  {
  }

  /** The outcome of each entry, in order. */
  function Outcomes(raw: seq<string>): (outs: seq<Result<seq<nat>, string>>)
    requires DecimalsWellFormed(raw)
    ensures |outs| == |raw|
  {
    if raw == [] then []
    else
      DecimalsWellFormedTail(raw);
      [Outcome(raw[0])] + Outcomes(raw[1..])
  }

  /** Entry i's outcome is the i-th element. */
  lemma {:induction false} OutcomeAt(raw: seq<string>, i: nat)
    requires DecimalsWellFormed(raw) && i < |raw|
    ensures Outcomes(raw)[i] == Outcome(raw[i])
  {
    if i > 0 {
      DecimalsWellFormedTail(raw);
      OutcomeAt(raw[1..], i - 1);
      assert raw[1..][i - 1] == raw[i];
    }
  }

  /** An entry fails exactly when it is a non-blank literal that parseArg rejects, and names it. */
  lemma OutcomeFails(entry: string)
    requires !MalformedDecimal(Trim(entry))
    ensures Outcome(entry).Err? <==> Trim(entry) != "" && ParseArg(Trim(entry)).None?
    ensures Outcome(entry).Err? ==> Outcome(entry).error == InvalidArgs(Trim(entry))
  {
  }


  /** The steps run in order: stop at the first failure, else concatenate. */
  function Collect(outs: seq<Result<seq<nat>, string>>): Result<seq<nat>, string> {
    if outs == [] then Ok([]) else AndThen(outs[0], Collect(outs[1..]))
  }

  /**
   * What `parseArgs(raw)` returns or throws: blank entries are skipped, the
   * first rejected literal aborts with its trimmed text, otherwise the
   * numbers of all literals in order, holes dropped.
   */
  function ParsedArgs(raw: seq<string>): Result<seq<nat>, string>
    requires DecimalsWellFormed(raw)
  {
    Collect(Outcomes(raw))
  }

  /** `parseArgs(raw)`: the loop that pushes each literal's array and throws on the first null. */
  method ParseArgs(raw: seq<string>) returns (r: Result<seq<nat>, string>)
    requires DecimalsWellFormed(raw)
    ensures r == ParsedArgs(raw)
  {
    var parsedInputs: seq<Sparse<nat>> := [];
    var k := 0;
    while k < |raw|
      invariant 0 <= k <= |raw|
      invariant Collect(Outcomes(raw)[..k]) == Ok(Flat(parsedInputs))
    {
      var input := Trim(raw[k]);
      if input != "" {
        var args := ParseArg(input);
        if args.None? {
          ParseStep(raw, k, parsedInputs);
          return Err(InvalidArgs(input));
        }
        ParseStep(raw, k, parsedInputs);
        parsedInputs := parsedInputs + [args.value];
      } else {
        ParseStep(raw, k, parsedInputs);
      }
      k := k + 1;
    }
    TakeAll(Outcomes(raw));
    r := Ok(Flat(parsedInputs));
  }

  /** One pass of the `parseArgs` loop, against the fold that specifies it. */
  lemma ParseStep(raw: seq<string>, k: nat, parsedInputs: seq<Sparse<nat>>)
    requires DecimalsWellFormed(raw) && k < |raw|
    requires Collect(Outcomes(raw)[..k]) == Ok(Flat(parsedInputs))
    ensures var input := Trim(raw[k]);
      && (input == "" ==> Collect(Outcomes(raw)[..k + 1]) == Ok(Flat(parsedInputs)))
      && (input != "" && ParseArg(input).Some? ==>
            Collect(Outcomes(raw)[..k + 1]) == Ok(Flat(parsedInputs + [ParseArg(input).value])))
      && (input != "" && ParseArg(input).None? ==> ParsedArgs(raw) == Err(InvalidArgs(input)))
  {
    var outs := Outcomes(raw);
    CollectStep(outs, k, Flat(parsedInputs));
    OutcomeAt(raw, k);
    var input := Trim(raw[k]);
    if input == "" {
      assert Flat(parsedInputs) + [] == Flat(parsedInputs);
    } else if ParseArg(input).Some? {
      var args := ParseArg(input).value;
      FlatAppend(parsedInputs, [args]);
      assert [args][..0] == [];
    }
  }

  /** One more step: a success extends the numbers so far, a failure decides the whole run. */
  lemma CollectStep(outs: seq<Result<seq<nat>, string>>, k: nat, done: seq<nat>)
    requires k < |outs| && Collect(outs[..k]) == Ok(done)
    ensures outs[k].Ok? ==> Collect(outs[..k + 1]) == Ok(done + outs[k].value)
    ensures outs[k].Err? ==> Collect(outs) == outs[k]
  {
    TakeSnoc(outs, k);
    CollectAppend(outs[..k], [outs[k]]);
    CollectAppend(outs[..k + 1], outs[k + 1..]);
    TakeDrop(outs, k + 1);
    if outs[k].Ok? {
      assert outs[k].value + [] == outs[k].value;
    }
  }

  /** Concatenating step sequences composes their outcomes. */
  lemma {:induction false} CollectAppend(x: seq<Result<seq<nat>, string>>, y: seq<Result<seq<nat>, string>>)
    ensures Collect(x + y) == AndThen(Collect(x), Collect(y))
  {
    if x == [] {
      AppendEmpty(x, y);
      if Collect(y).Ok? {
        assert [] + Collect(y).value == Collect(y).value;
      }
    } else {
      AppendTail(x, y);
      CollectAppend(x[1..], y);
      match x[0]
      case Err(_) =>
      case Ok(v) =>
        match Collect(x[1..])
        case Err(_) =>
        case Ok(w) =>
          if Collect(y).Ok? {
            assert v + (w + Collect(y).value) == (v + w) + Collect(y).value;
          }
    }
  }

  /** A run fails exactly when some step fails, and then with the first failure. */
  lemma {:induction false} CollectFirstFailure(outs: seq<Result<seq<nat>, string>>)
    ensures Collect(outs).Err? <==> exists i :: 0 <= i < |outs| && outs[i].Err?
    ensures forall i :: 0 <= i < |outs| && outs[i].Err? && (forall j :: 0 <= j < i ==> outs[j].Ok?) ==>
              Collect(outs) == outs[i]
  {
    if outs != [] {
      var tail := outs[1..];
      CollectFirstFailure(tail);
      if outs[0].Ok? {
        if exists i :: 0 <= i < |outs| && outs[i].Err? {
          var i :| 0 <= i < |outs| && outs[i].Err?;
          assert tail[i - 1].Err?;
        }
        if exists i :: 0 <= i < |tail| && tail[i].Err? {
          var i :| 0 <= i < |tail| && tail[i].Err?;
          assert outs[i + 1].Err?;
        }
        forall i | 0 <= i < |outs| && outs[i].Err? && (forall j :: 0 <= j < i ==> outs[j].Ok?)
          ensures Collect(outs) == outs[i]
        {
          assert tail[i - 1] == outs[i];
          forall j | 0 <= j < i - 1 ensures tail[j].Ok? {
            assert tail[j] == outs[j + 1];
          }
        }
      }
    }
  }

  lemma {:induction false} OutcomesAppend(a: seq<string>, b: seq<string>)
    requires DecimalsWellFormed(a) && DecimalsWellFormed(b)
    ensures DecimalsWellFormed(a + b)
    ensures Outcomes(a + b) == Outcomes(a) + Outcomes(b)
  {
    DecimalsWellFormedAppend(a, b);
    if a == [] {
      AppendEmpty(a, b);
    } else {
      DecimalsWellFormedTail(a);
      OutcomesAppend(a[1..], b);
      AppendTail(a, b);
      AppendAssoc([Outcome(a[0])], Outcomes(a[1..]), Outcomes(b));
    }
  }

  /** Order is preserved across batches and the first failure wins. */
  lemma ParsedArgsAppend(a: seq<string>, b: seq<string>)
    requires DecimalsWellFormed(a) && DecimalsWellFormed(b)
    ensures DecimalsWellFormed(a + b)
    ensures ParsedArgs(a + b) == AndThen(ParsedArgs(a), ParsedArgs(b))
  {
    OutcomesAppend(a, b);
    CollectAppend(Outcomes(a), Outcomes(b));
  }

  /** A step that succeeds with no numbers changes nothing. */
  lemma CollectSkipsEmpty(x: seq<Result<seq<nat>, string>>, y: seq<Result<seq<nat>, string>>)
    ensures Collect(x + [Ok([])] + y) == Collect(x + y)
  {
    AppendAssoc(x, [Ok([])], y);
    CollectAppend(x, [Ok([])] + y);
    CollectAppend(x, y);
    AppendTail([Ok([])], y);
    if Collect(y).Ok? {
      assert [] + Collect(y).value == Collect(y).value;
    }
  }

  /** A blank (all-whitespace) entry anywhere changes nothing. */
  lemma ParsedArgsSkipsBlank(a: seq<string>, blank: string, b: seq<string>)
    requires DecimalsWellFormed(a) && DecimalsWellFormed(b)
    requires forall i :: 0 <= i < |blank| ==> IsJsWhitespace(blank[i])
    ensures DecimalsWellFormed(a + [blank] + b) && DecimalsWellFormed(a + b)
    ensures ParsedArgs(a + [blank] + b) == ParsedArgs(a + b)
  {
    TrimBlank(blank);
    assert DecimalsWellFormed([blank]);
    assert Outcomes([blank]) == [Ok([])];
    OutcomesAppend(a, [blank]);
    OutcomesAppend(a + [blank], b);
    OutcomesAppend(a, b);
    CollectSkipsEmpty(Outcomes(a), Outcomes(b));
  }

  /** Entry i is a non-blank literal that parseArg rejects. */
  predicate Rejected(raw: seq<string>, i: int)
    requires DecimalsWellFormed(raw)
  {
    0 <= i < |raw| && Trim(raw[i]) != "" && ParseArg(Trim(raw[i])).None?
  }

  /**
   * Fail-fast: the batch fails exactly when some entry is rejected, and the
   * error names the first rejected entry, trimmed.
   */
  lemma ParsedArgsFailFast(raw: seq<string>)
    requires DecimalsWellFormed(raw)
    ensures ParsedArgs(raw).Err? <==> exists i :: Rejected(raw, i)
    ensures forall i :: Rejected(raw, i) && (forall j :: 0 <= j < i ==> !Rejected(raw, j)) ==>
              ParsedArgs(raw) == Err(InvalidArgs(Trim(raw[i])))
  {
    RejectedOutcomes(raw);
    CollectFirstFailure(Outcomes(raw));
  }

  /** The failing outcomes are those of the rejected entries. */
  lemma RejectedOutcomes(raw: seq<string>)
    requires DecimalsWellFormed(raw)
    ensures forall i :: 0 <= i < |raw| ==> (Outcomes(raw)[i].Err? <==> Rejected(raw, i))
    ensures forall i :: Rejected(raw, i) ==> Outcomes(raw)[i] == Err(InvalidArgs(Trim(raw[i])))
  {
    forall i | 0 <= i < |raw|
      ensures Outcomes(raw)[i].Err? <==> Rejected(raw, i)
      ensures Outcomes(raw)[i].Err? ==> Outcomes(raw)[i] == Err(InvalidArgs(Trim(raw[i])))
    {
      OutcomeAt(raw, i);
      OutcomeFails(raw[i]);
    }
  }



  // ===========================================================================
  // bytesToBN: 32-byte little-endian windows

  /** The reference: the bytes cut into consecutive 32-byte windows, each read little-endian. */
  function LeChunks(data: seq<byte>): seq<nat> {
    if |data| == 0 then []
    else if |data| <= 32 then [LeValue(data)]
    else [LeValue(data[..32])] + LeChunks(data[32..])
  }

  /** len bytes give ceil(len/32) chunks; chunk k reads bytes [32k, min(32k+32, len)). */
  lemma {:induction false} LeChunksShape(data: seq<byte>)
    ensures |LeChunks(data)| == Ceil32(|data|)
    ensures forall k :: 0 <= k < Ceil32(|data|) ==>
              32 * k < |data| && LeChunks(data)[k] == LeValue(data[32 * k..Min(32 * k + 32, |data|)])
  {
    var n := |data|;
    if n > 32 {
      var rest := data[32..];
      LeChunksShape(rest);
      assert Ceil32(n) == Ceil32(n - 32) + 1;
      forall k | 0 <= k < Ceil32(n)
        ensures 32 * k < n && LeChunks(data)[k] == LeValue(data[32 * k..Min(32 * k + 32, n)])
      {
        if k > 0 {
          assert LeChunks(data)[k] == LeChunks(rest)[k - 1];
          assert Min(32 * (k - 1) + 32, n - 32) == Min(32 * k + 32, n) - 32;
          SliceShift(data, 32, 32 * k, Min(32 * k + 32, n));
        }
      }
    } else if n > 0 {
      assert Ceil32(n) == 1 && data[0..Min(32, n)] == data;
    }
  }

  /** Every chunk is a uint256: below 2^256. */
  lemma {:induction false} LeChunksFit256(data: seq<byte>)
    ensures forall x :: x in LeChunks(data) ==> x < Pow(2, 256)
  {
    if |data| > 0 {
      var w := if |data| <= 32 then data else data[..32];
      LeValueBound(w);
      PowMonotone(256, |w|, 32);
      WordSizes();
      if |data| > 32 {
        LeChunksFit256(data[32..]);
      }
    }
  }

  /** The inverse of the chunking: each chunk written back as little-endian bytes, the last at the remaining width. */
  function Unchunk(chunks: seq<nat>, n: nat): seq<byte> {
    if chunks == [] || n == 0 then []
    else if n <= 32 then LeBytes(chunks[0], n)
    else LeBytes(chunks[0], 32) + Unchunk(chunks[1..], n - 32)
  }

  /** Chunking loses nothing: writing the chunks back gives the original bytes. */
  lemma {:induction false} UnchunkLeChunks(data: seq<byte>)
    ensures Unchunk(LeChunks(data), |data|) == data
  {
    var n := |data|;
    if 0 < n <= 32 {
      LeBytesOfLeValue(data);
    } else if n > 32 {
      LeBytesOfLeValue(data[..32]);
      UnchunkLeChunks(data[32..]);
      assert data[..32] + data[32..] == data;
    }
  }

  /** And the other way: uint256 words written as 32 bytes each are read back as the same words. */
  lemma {:induction false} LeChunksUnchunk(words: seq<nat>)
    requires forall k :: 0 <= k < |words| ==> words[k] < Pow(256, 32)
    ensures LeChunks(Unchunk(words, 32 * |words|)) == words
  {
    if words != [] {
      LeValueOfLeBytes(words[0], 32);
      if |words| > 1 {
        LeChunksUnchunk(words[1..]);
        var bs := Unchunk(words, 32 * |words|);
        assert bs[..32] == LeBytes(words[0], 32);
        assert bs[32..] == Unchunk(words[1..], 32 * |words[1..]|);
      }
    }
  }

  /** `bytesToBN(data)`: the loop pushing the value of each 32-byte slice. */
  method BytesToBN(data: seq<byte>) returns (bns: seq<nat>)
    ensures bns == LeChunks(data)
  {
    bns := [];
    var i := 0;
    while i < |data|
      invariant i == 32 * |bns| && i <= |data| + 31
      invariant forall k :: 0 <= k < |bns| ==> bns[k] == LeValue(data[32 * k..Min(32 * k + 32, |data|)])
    {
      var chunk := data[i..Min(i + 32, |data|)];
      bns := bns + [LeValue(chunk)];
      i := i + 32;
    }
    LeChunksShape(data);
    assert |bns| == Ceil32(|data|);
  }

  // ===========================================================================
  // createAddImageSignMessage

  /** The fields of the image registration form that are signed. */
  datatype AddImageParams = AddImageParams(
    name: string, image_md5: string, user_address: string,
    description_url: string, avator_url: string, circuit_size: string)

  /** The signing payload: the six fields in fixed order, no delimiter. */
  function SignPayload(p: AddImageParams): string {
    p.name + p.image_md5 + p.user_address + p.description_url + p.avator_url + p.circuit_size
  }

  /** `createAddImageSignMessage(params)`: the message built with `+=`, field by field. */
  method CreateAddImageSignMessage(params: AddImageParams) returns (message: string)
    ensures message == SignPayload(params)
    ensures |message| == |params.name| + |params.image_md5| + |params.user_address|
                       + |params.description_url| + |params.avator_url| + |params.circuit_size|
  {
    message := "";
    message := message + params.name;
    message := message + params.image_md5;
    message := message + params.user_address;
    message := message + params.description_url;
    message := message + params.avator_url;
    message := message + params.circuit_size;
  }

  /** Cuts a payload back into six fields of the given lengths. */
  function CutPayload(message: string, lens: seq<nat>): AddImageParams
    requires |lens| == 6 && lens[0] + lens[1] + lens[2] + lens[3] + lens[4] + lens[5] == |message|
  {
    var e0 := lens[0];
    var e1 := e0 + lens[1];
    var e2 := e1 + lens[2];
    var e3 := e2 + lens[3];
    var e4 := e3 + lens[4];
    AddImageParams(message[..e0], message[e0..e1], message[e1..e2], message[e2..e3], message[e3..e4], message[e4..])
  }

  function FieldLengths(p: AddImageParams): seq<nat> {
    [|p.name|, |p.image_md5|, |p.user_address|, |p.description_url|, |p.avator_url|, |p.circuit_size|]
  }

  /** Knowing the field lengths, the payload gives the fields back: nothing is reordered or dropped. */
  lemma SignPayloadFields(p: AddImageParams)
    ensures CutPayload(SignPayload(p), FieldLengths(p)) == p
  {
  }

  /**
   * Without a delimiter the lengths are not recoverable from the payload:
   * two different forms sign the same message. The fields a, b, c, d, e, 1
   * give "abcde1".
   */
  lemma SignPayloadExamples()
    ensures SignPayload(AddImageParams("a", "b", "c", "d", "e", "1")) == "abcde1"
    ensures SignPayload(AddImageParams("ab", "", "c", "d", "e", "1")) == "abcde1"
  {
  }

  // ===========================================================================
  // verifyProof: the argument tuple handed to the contract's verify()

  /** What verifyProof receives (the aggregate proof, instances and aux are byte buffers). */
  datatype VerifyParams = VerifyParams(
    aggregate_proof: seq<byte>, batch_instances: seq<byte>, aux: seq<byte>, public_inputs: seq<string>)

  /** The four arguments of `verify(proof, verify_instance, aux, target_instance)`. */
  datatype VerifyCall = VerifyCall(
    proof: seq<nat>, verifyInstance: seq<nat>, aux: seq<nat>, targetInstance: seq<seq<string>>)

  /**
   * The public-input argument strings: the decimal rendering of each number,
   * or the single placeholder "0x0" when there are none.
   */
  function TargetArgs(values: seq<nat>): (args: seq<string>)
    ensures values == [] ==> args == ["0x0"]
    ensures values != [] ==> (|args| == |values| &&
              forall i :: 0 <= i < |values| ==> IsDecString(args[i]) && DecValue(args[i]) == values[i])
  {
    var args := seq(|values|, i requires 0 <= i < |values| => DecString(values[i]));
    if |args| == 0 then ["0x0"] else args
  }

  /** `verifyProof`'s argument assembly, up to (not including) the contract call. */
  method VerifyProofArgs(params: VerifyParams) returns (r: Result<VerifyCall, string>)
    requires DecimalsWellFormed(params.public_inputs)
    ensures r.Err? <==> ParsedArgs(params.public_inputs).Err?
    ensures r.Err? ==> r.error == ParsedArgs(params.public_inputs).error
    ensures r.Ok? ==> r.value == VerifyCall(
              LeChunks(params.aggregate_proof), LeChunks(params.batch_instances), LeChunks(params.aux),
              [TargetArgs(ParsedArgs(params.public_inputs).value)])
  {
    var aggregateProof := BytesToBN(params.aggregate_proof);
    var batchInstances := BytesToBN(params.batch_instances);
    var aux := BytesToBN(params.aux);
    var parsed := ParseArgs(params.public_inputs);
    if parsed.Err? {
      return Err(parsed.error);
    }
    var args := seq(|parsed.value|, i requires 0 <= i < |parsed.value| => DecString(parsed.value[i]));
    if |args| == 0 {
      args := ["0x0"];
    }
    r := Ok(VerifyCall(aggregateProof, batchInstances, aux, [args]));
  }

  /** With no public inputs the contract receives [["0x0"]] as its fourth argument. */
  lemma EmptyPublicInputsPlaceholder(params: VerifyParams)
    requires params.public_inputs == []
    ensures DecimalsWellFormed(params.public_inputs)
    ensures ParsedArgs(params.public_inputs) == Ok([])
    ensures [TargetArgs(ParsedArgs(params.public_inputs).value)] == [["0x0"]]
  {
  }
}
