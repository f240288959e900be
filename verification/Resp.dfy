/**
 * The Redis serialization protocol as the queue writes and reads it (`internal/worker/redis_queue.go`;
 * "Arrays", "Bulk strings" and "Integers" in the specification of RESP).
 */
module Resp {
  import opened Values

  newtype Byte = x: int | 0 <= x < 256

  type Bytes = seq<Byte>

  const CR: Byte := 13
  const LF: Byte := 10
  const PLUS: Byte := 43
  const MINUS: Byte := 45
  const COLON: Byte := 58
  const DOLLAR: Byte := 36
  const STAR: Byte := 42
  const MAX_INT: int := 0x7FFF_FFFF_FFFF_FFFF
  const CRLF: Bytes := [CR, LF]

  /** An error the caller gets, or the end of the goroutine. */
  datatype Failure = Failed(message: string) | Panicked

  // Decimal numbers

  predicate IsDigit(b: Byte) {
    48 <= b <= 57
  }

  function Digits(n: nat): Bytes {
    if n < 10 then [(48 + n) as Byte] else Digits(n / 10) + [(48 + n % 10) as Byte]
  }

  function Decimal(i: int): Bytes {
    if i < 0 then [MINUS] + Digits(-i) else Digits(i)
  }

  function DigitsValue(s: Bytes): int {
    if s == [] then 0 else DigitsValue(s[..|s| - 1]) * 10 + (s[|s| - 1] as int - 48)
  }

  predicate AllDigits(s: Bytes) {
    forall i :: 0 <= i < |s| ==> IsDigit(s[i])
  }

  /** strconv.Atoi: an optional sign, then digits, within 64 bits. */
  function Atoi(s: Bytes): Result<int, Failure> {
    var signed := s != [] && (s[0] == MINUS || s[0] == PLUS);
    var digits := if signed then s[1..] else s;
    if digits == [] || !AllDigits(digits) then Err(Failed("invalid syntax"))
    else
      var value := if signed && s[0] == MINUS then -DigitsValue(digits) else DigitsValue(digits);
      if -MAX_INT - 1 <= value <= MAX_INT then Ok(value) else Err(Failed("value out of range"))
  }

  lemma {:induction false} DigitsRoundTrip(n: nat)
    ensures Digits(n) != [] && DigitsValue(Digits(n)) == n
    ensures AllDigits(Digits(n))
  {
    if n < 10 {
      assert DigitsValue([]) == 0;
    } else {
      DigitsRoundTrip(n / 10);
      assert Digits(n)[..|Digits(n)| - 1] == Digits(n / 10);
    }
  }

  lemma AtoiUnsigned(d: Bytes)
    requires d != [] && AllDigits(d) && 0 <= DigitsValue(d) <= MAX_INT
    ensures Atoi(d) == Ok(DigitsValue(d))
  {
    assert d[0] != MINUS && d[0] != PLUS by {
      assert IsDigit(d[0]);
    }
    hide DigitsValue, AllDigits;
  }

  lemma AtoiNegative(d: Bytes)
    requires d != [] && AllDigits(d) && 0 <= DigitsValue(d) <= MAX_INT + 1
    ensures Atoi([MINUS] + d) == Ok(-DigitsValue(d))
  {
    var s := [MINUS] + d;
    assert s[0] == MINUS && s[1..] == d;
    hide DigitsValue, AllDigits;
  }

  /** Every 64-bit integer is read back from its decimal form. */
  lemma DecimalRoundTrip(i: int)
    requires -MAX_INT - 1 <= i <= MAX_INT
    ensures Atoi(Decimal(i)) == Ok(i)
    ensures LF !in Decimal(i) && CR !in Decimal(i)
    ensures i >= 0 ==> IsDigit(Decimal(i)[0])
  {
    var d := Digits(if i < 0 then -i else i);
    DigitsRoundTrip(if i < 0 then -i else i);
    if i < 0 {
      AtoiNegative(d);
    } else {
      AtoiUnsigned(d);
    }
    hide Atoi, Digits, DigitsValue;
    assert forall b :: b in d ==> IsDigit(b);
  }

  function Pow10(n: nat): int {
    if n == 0 then 1 else 10 * Pow10(n - 1)
  }

  /** The number a numeral stands for, most significant digit first, '0' being 48. */
  function Positional(s: Bytes): int {
    if s == [] then 0 else (s[0] as int - 48) * Pow10(|s| - 1) + Positional(s[1..])
  }

  lemma {:induction false} PositionalSnoc(s: Bytes, b: Byte)
    ensures Positional(s + [b]) == 10 * Positional(s) + (b as int - 48)
  {
    if s == [] {
      assert [b][1..] == [] && [] + [b] == [b];
      assert Pow10(0) == 1;
    } else {
      assert (s + [b])[1..] == s[1..] + [b];
      PositionalSnoc(s[1..], b);
      assert Pow10(|s|) == 10 * Pow10(|s| - 1);
      var d, p := s[0] as int - 48, Pow10(|s| - 1);
      assert d * (10 * p) == 10 * (d * p);
    }
  }

  /** A number is written in decimal digits without leading zeros, a negative one after a minus sign. */
  lemma {:induction false} DecimalMeans(n: int)
    requires n >= 0
    ensures Positional(Decimal(n)) == n && Decimal(n) != []
    ensures forall b :: b in Decimal(n) ==> 48 <= b <= 57
    ensures Decimal(n)[0] == 48 <==> n == 0
    ensures n > 0 ==> Decimal(-n) == [45] + Decimal(n)
  {
    if n < 10 {
      assert Pow10(0) == 1 && Decimal(n)[1..] == [];
    } else {
      DecimalMeans(n / 10);
      PositionalSnoc(Decimal(n / 10), (48 + n % 10) as Byte);
    }
  }

  lemma {:induction false} ValueIsPositional(s: Bytes)
    ensures DigitsValue(s) == Positional(s)
  {
    if s != [] {
      var k := |s| - 1;
      ValueIsPositional(s[..k]);
      PositionalSnoc(s[..k], s[k]);
      assert s[..k] + [s[k]] == s;
    }
  }

  /** What is read as a number: one sign or none, then digits and nothing else, of a value that fits 64 bits. */
  lemma AtoiMeans(s: Bytes)
    ensures var digits := if s != [] && (s[0] == 43 || s[0] == 45) then s[1..] else s;
            var value := if s != [] && s[0] == 45 then -Positional(digits) else Positional(digits);
            Atoi(s) == if digits == [] || (exists i :: 0 <= i < |digits| && (digits[i] < 48 || digits[i] > 57)) then
                         Err(Failed("invalid syntax"))
                       else if -0x8000_0000_0000_0000 <= value < 0x8000_0000_0000_0000 then Ok(value)
                       else Err(Failed("value out of range"))
  {
    var digits := if s != [] && (s[0] == 43 || s[0] == 45) then s[1..] else s;
    ValueIsPositional(digits);
    assert AllDigits(digits) <==> !exists i :: 0 <= i < |digits| && (digits[i] < 48 || digits[i] > 57);
    hide AllDigits, DigitsValue, Positional;
  }

  // Encoding

  function EncodeBulk(v: Bytes): Bytes {
    [DOLLAR] + Decimal(|v|) + CRLF + v + CRLF
  }

  function EncodeBulks(values: seq<Bytes>): Bytes {
    if values == [] then [] else EncodeBulk(values[0]) + EncodeBulks(values[1..])
  }

  function EncodeArray(values: seq<Bytes>): Bytes {
    [STAR] + Decimal(|values|) + CRLF + EncodeBulks(values)
  }

  function EncodeInteger(i: int): Bytes {
    [COLON] + Decimal(i) + CRLF
  }

  // Decoding, as a function from the unread bytes to a result and the bytes left unread

  datatype Parsed<T> = Parsed(result: Result<T, Failure>, rest: Bytes)

  /** The position of the first line feed, or the end. */
  function LineEnd(data: Bytes): (k: nat)
    ensures k <= |data|
    ensures k < |data| ==> data[k] == LF
  {
    if data == [] || data[0] == LF then 0 else 1 + LineEnd(data[1..])
  }

  function TrimCR(line: Bytes): Bytes {
    if line != [] && line[|line| - 1] == CR then line[..|line| - 1] else line
  }

  function ParseLine(data: Bytes): Parsed<Bytes> {
    var k := LineEnd(data);
    if k == |data| then Parsed(Err(Failed("read redis line")), []) else Parsed(Ok(TrimCR(data[..k])), data[k + 1..])
  }

  function ParseInteger(data: Bytes): Parsed<int> {
    if data == [] then Parsed(Err(Failed("read redis integer prefix")), [])
    else if data[0] != COLON then Parsed(Err(Failed("unexpected redis integer prefix")), data[1..])
    else
      var line := ParseLine(data[1..]);
      match line.result
      case Err(e) => Parsed(Err(e), line.rest)
      case Ok(text) => Parsed(Atoi(text), line.rest)
  }

  /** One Read into a buffer of `size + 2` bytes that takes what is there; the rest of the buffer stays zero. */
  function TakePayload(data: Bytes, size: nat): Parsed<Option<Bytes>> {
    var n := if size + 2 <= |data| then size + 2 else |data|;
    if n == 0 then Parsed(Err(Failed("read redis bulk string payload")), data)
    else
      var buffer := data[..n] + seq(size + 2 - n, _ => 0 as Byte);
      Parsed(Ok(Some(buffer[..size])), data[n..])
  }

  function ParseBulk(data: Bytes): Parsed<Option<Bytes>> {
    if data == [] then Parsed(Err(Failed("read redis bulk string prefix")), [])
    else if data[0] != DOLLAR then Parsed(Err(Failed("unexpected redis bulk string prefix")), data[1..])
    else
      var line := ParseLine(data[1..]);
      match line.result
      case Err(e) => Parsed(Err(e), line.rest)
      case Ok(text) =>
        if text == [MINUS, 49] then Parsed(Ok(None), line.rest)
        else
          match Atoi(text)
          case Err(e) => Parsed(Err(e), line.rest)
          case Ok(size) => if size < 0 || size + 2 > MAX_INT then Parsed(Err(Panicked), line.rest)
          else TakePayload(line.rest, size)
  }

  function ParseBulks(data: Bytes, count: nat): Parsed<Option<seq<Bytes>>>
    decreases count
  {
    if count == 0 then Parsed(Ok(Some([])), data)
    else
      var first := ParseBulk(data);
      match first.result
      case Err(e) => Parsed(Err(e), first.rest)
      case Ok(None) => Parsed(Ok(None), first.rest)
      case Ok(Some(v)) => Prepend([v], ParseBulks(first.rest, count - 1))
  }

  function Prepend(values: seq<Bytes>, p: Parsed<Option<seq<Bytes>>>): Parsed<Option<seq<Bytes>>> {
    if p.result.Ok? && p.result.value.Some? then Parsed(Ok(Some(values + p.result.value.value)), p.rest) else p
  }

  function ParseArray(data: Bytes): Parsed<Option<seq<Bytes>>> {
    if data == [] then Parsed(Err(Failed("read redis array prefix")), [])
    else if data[0] != STAR then Parsed(Err(Failed("unexpected redis array prefix")), data[1..])
    else
      var line := ParseLine(data[1..]);
      match line.result
      case Err(e) => Parsed(Err(e), line.rest)
      case Ok(text) =>
        if text == [MINUS, 49] then Parsed(Ok(None), line.rest)
        else
          match Atoi(text)
          case Err(e) => Parsed(Err(e), line.rest)
          case Ok(count) => if count < 0 then Parsed(Err(Panicked), line.rest) else ParseBulks(line.rest, count)
  }

  lemma PrependTwice(a: seq<Bytes>, b: seq<Bytes>, p: Parsed<Option<seq<Bytes>>>)
    ensures Prepend(a, Prepend(b, p)) == Prepend(a + b, p)
  {
    if p.result.Ok? && p.result.value.Some? {
      assert a + (b + p.result.value.value) == (a + b) + p.result.value.value;
    }
  }

  lemma PrependNothing(p: Parsed<Option<seq<Bytes>>>)
    ensures Prepend([], p) == p
  {
    if p.result.Ok? && p.result.value.Some? {
      assert [] + p.result.value.value == p.result.value.value;
    }
  }

  lemma {:induction false} EncodeBulksSnoc(a: seq<Bytes>, v: Bytes)
    ensures EncodeBulks(a + [v]) == EncodeBulks(a) + EncodeBulk(v)
  {
    hide EncodeBulk;
    if a == [] {
      assert a + [v] == [v] && [v][1..] == [];
    } else {
      assert (a + [v])[1..] == a[1..] + [v];
      EncodeBulksSnoc(a[1..], v);
    }
  }

  // Round trips

  lemma {:induction false} LineEndAt(line: Bytes, rest: Bytes)
    requires LF !in line
    ensures LineEnd(line + [LF] + rest) == |line|
  {
    var data := line + [LF] + rest;
    if line != [] {
      assert data[0] == line[0] && line[0] in line;
      assert data[1..] == line[1..] + [LF] + rest;
      LineEndAt(line[1..], rest);
    }
  }

  lemma LineRead(text: Bytes, rest: Bytes)
    requires LF !in text
    ensures ParseLine(text + CRLF + rest) == Parsed(Ok(text), rest)
  {
    hide LineEnd;
    var line, data := text + [CR], text + CRLF + rest;
    assert data == line + [LF] + rest;
    LineEndAt(line, rest);
    assert data[..|line|] == line && TrimCR(line) == text;
    assert data[|line| + 1..] == rest;
  }

  /** A number printed on a line of its own is read back, with what follows left unread. */
  lemma NumberLine(i: int, rest: Bytes)
    requires -MAX_INT - 1 <= i <= MAX_INT
    ensures ParseLine(Decimal(i) + CRLF + rest) == Parsed(Ok(Decimal(i)), rest)
  {
    hide Decimal, ParseLine;
    DecimalRoundTrip(i);
    LineRead(Decimal(i), rest);
  }

  lemma IntegerRoundTrip(i: int, rest: Bytes)
    requires -MAX_INT - 1 <= i <= MAX_INT
    ensures ParseInteger(EncodeInteger(i) + rest) == Parsed(Ok(i), rest)
  {
    NumberLine(i, rest);
    DecimalRoundTrip(i);
    assert (EncodeInteger(i) + rest)[1..] == Decimal(i) + CRLF + rest;
  }

  /** A payload may hold anything, line endings included. */
  lemma BulkRoundTrip(v: Bytes, rest: Bytes)
    requires |v| + 2 <= MAX_INT
    ensures ParseBulk(EncodeBulk(v) + rest) == Parsed(Ok(Some(v)), rest)
  {
    var payload := v + CRLF + rest;
    assert (EncodeBulk(v) + rest)[1..] == Decimal(|v|) + CRLF + payload;
    NumberLine(|v|, payload);
    DecimalRoundTrip(|v|);
    var buffer := payload[..|v| + 2] + seq(0, _ => 0 as Byte);
    assert buffer[..|v|] == v && payload[|v| + 2..] == rest;
  }

  /** A payload so long that the length of its read overflows is the only one that does not come back. */
  lemma BulkRoundTripIff(v: Bytes, rest: Bytes)
    requires |v| <= MAX_INT
    ensures ParseBulk(EncodeBulk(v) + rest) == Parsed(Ok(Some(v)), rest) <==> |v| + 2 <= MAX_INT
  {
    if |v| + 2 <= MAX_INT {
      BulkRoundTrip(v, rest);
    } else {
      var payload := v + CRLF + rest;
      assert (EncodeBulk(v) + rest)[1..] == Decimal(|v|) + CRLF + payload;
      NumberLine(|v|, payload);
      DecimalRoundTrip(|v|);
      hide Decimal, ParseLine, Atoi, TakePayload;
    }
  }

  lemma {:induction false} BulksRoundTrip(values: seq<Bytes>, rest: Bytes)
    requires forall v :: v in values ==> |v| + 2 <= MAX_INT
    ensures ParseBulks(EncodeBulks(values) + rest, |values|) == Parsed(Ok(Some(values)), rest)
  {
    hide ParseBulk, EncodeBulk, EncodeBulks;
    BulksSplit(values, rest);
    if values != [] {
      BulkRoundTrip(values[0], EncodeBulks(values[1..]) + rest);
      BulksRoundTrip(values[1..], rest);
    }
  }

  lemma BulksSplit(values: seq<Bytes>, rest: Bytes)
    ensures if values == [] then EncodeBulks(values) + rest == rest
            else EncodeBulks(values) + rest == EncodeBulk(values[0]) + (EncodeBulks(values[1..]) + rest)
                 && [values[0]] + values[1..] == values
  {
    hide EncodeBulk;
  }

  /** The lengths fit Go's int, with room for the line end the reader takes along. */
  ghost predicate Representable(values: seq<Bytes>) {
    |values| <= MAX_INT && forall v :: v in values ==> |v| + 2 <= MAX_INT
  }

  /** Reading what the writer wrote gives the same values and leaves exactly the following bytes. */
  lemma ArrayRoundTrip(values: seq<Bytes>, rest: Bytes)
    requires Representable(values)
    ensures ParseArray(EncodeArray(values) + rest) == Parsed(Ok(Some(values)), rest)
  {
    hide EncodeArray, EncodeBulks, Decimal, ParseLine, ParseBulks, Atoi, IsDigit;
    ArrayHeader(values, rest);
    NumberLine(|values|, EncodeBulks(values) + rest);
    DecimalRoundTrip(|values|);
    DecimalIsNotNil(|values|);
    BulksRoundTrip(values, rest);
  }

  lemma ArrayHeader(values: seq<Bytes>, rest: Bytes)
    ensures var data := EncodeArray(values) + rest;
            && data != [] && data[0] == STAR
            && data[1..] == Decimal(|values|) + CRLF + (EncodeBulks(values) + rest)
  {
    hide Decimal, EncodeBulks;
    HeadOff(STAR, Decimal(|values|), CRLF, EncodeBulks(values), rest);
  }

  lemma HeadOff(head: Byte, a: Bytes, b: Bytes, c: Bytes, d: Bytes)
    ensures var data := [head] + a + b + c + d;
            data[0] == head && data[1..] == a + b + (c + d)
  {
    assert [head] + a + b + c + d == [head] + (a + b + (c + d));
  }

  lemma DecimalIsNotNil(n: nat)
    requires n <= MAX_INT
    ensures Decimal(n) != [MINUS, 49]
  {
    DecimalRoundTrip(n);
    hide Decimal, Atoi;
  }

  function EncodeAll(arrays: seq<seq<Bytes>>): Bytes {
    if arrays == [] then [] else EncodeArray(arrays[0]) + EncodeAll(arrays[1..])
  }

  /** Decode `count` arrays, one after the other. */
  function ParseAll(data: Bytes, count: nat): Parsed<seq<seq<Bytes>>>
    decreases count
  {
    if count == 0 then Parsed(Ok([]), data)
    else
      var first := ParseArray(data);
      match first.result
      case Err(e) => Parsed(Err(e), first.rest)
      case Ok(None) => Parsed(Err(Failed("nil array")), first.rest)
      case Ok(Some(values)) =>
        var others := ParseAll(first.rest, count - 1);
        match others.result
        case Err(e) => others
        case Ok(arrays) => Parsed(Ok([values] + arrays), others.rest)
  }

  /** Arrays written back to back are read in order. */
  lemma {:induction false} StreamRoundTrip(arrays: seq<seq<Bytes>>, rest: Bytes)
    requires forall values :: values in arrays ==> Representable(values)
    ensures ParseAll(EncodeAll(arrays) + rest, |arrays|) == Parsed(Ok(arrays), rest)
  {
    hide ParseArray, EncodeArray;
    if arrays == [] {
      assert EncodeAll(arrays) + rest == rest;
    } else {
      var more := EncodeAll(arrays[1..]) + rest;
      assert EncodeAll(arrays) + rest == EncodeArray(arrays[0]) + more;
      ArrayRoundTrip(arrays[0], more);
      StreamRoundTrip(arrays[1..], rest);
      assert arrays == [arrays[0]] + arrays[1..];
    }
  }

  // Replies that are not arrays of strings

  /** A nil reply is no value, and a line may end in a line feed alone. */
  lemma NilReplies(rest: Bytes)
    ensures ParseBulk([36, 45, 49, 13, 10] + rest) == Parsed(Ok(None), rest)
    ensures ParseArray([42, 45, 49, 13, 10] + rest) == Parsed(Ok(None), rest)
    ensures ParseArray([42, 45, 49, 10] + rest) == Parsed(Ok(None), rest)
  {
    var text: Bytes := [45, 49];
    LineRead(text, rest);
    assert ([36, 45, 49, 13, 10] + rest)[1..] == text + CRLF + rest;
    assert ([42, 45, 49, 13, 10] + rest)[1..] == text + CRLF + rest;
    assert ([42, 45, 49, 10] + rest)[1..] == text + [LF] + rest;
    LineEndAt(text, rest);
    assert (text + [LF] + rest)[..2] == text && (text + [LF] + rest)[3..] == rest;
    hide LineEnd, Atoi, ParseBulks;
  }

  lemma ArrayEncoded(values: seq<Bytes>)
    ensures EncodeArray(values) == [42] + Decimal(|values|) + [13, 10] + EncodeBulks(values)
  {
    hide Decimal, EncodeBulks;
  }

  /** When less than the payload has come, a reader that does not wait fills up with zero bytes. */
  lemma ShortBulk(size: nat, payload: Bytes)
    requires payload != [] && |payload| <= size && size + 2 <= MAX_INT
    ensures ParseBulk([36] + Decimal(size) + CRLF + payload)
         == Parsed(Ok(Some(payload + seq(size - |payload|, _ => 0 as Byte))), [])
  {
    assert ([36] + Decimal(size) + CRLF + payload)[1..] == Decimal(size) + CRLF + payload;
    NumberLine(size, payload);
    DecimalRoundTrip(size);
    DecimalIsNotNil(size);
    hide Decimal, ParseLine, Atoi;
    FilledUp(payload, size);
  }

  lemma FilledUp(payload: Bytes, size: nat)
    requires payload != [] && |payload| <= size
    ensures TakePayload(payload, size) == Parsed(Ok(Some(payload + seq(size - |payload|, _ => 0 as Byte))), [])
  {
    assert (payload[..|payload|] + seq(size + 2 - |payload|, _ => 0 as Byte))[..size]
        == payload + seq(size - |payload|, _ => 0 as Byte);
  }

  /** A string that holds a nil makes the whole array nil, and the strings after it stay unread. */
  lemma NilAmongBulks(count: nat, rest: Bytes)
    requires count > 0
    ensures ParseBulks([36, 45, 49, 13, 10] + rest, count) == Parsed(Ok(None), rest)
  {
    NilReplies(rest);
    hide ParseBulk;
  }

  // The buffered reader and writer

  lemma NoBulks(header: Bytes, values: seq<Bytes>)
    ensures header == header + EncodeBulks(values[..0])
  {}

  lemma OneMoreBulk(header: Bytes, values: seq<Bytes>, i: nat)
    requires i < |values|
    ensures header + EncodeBulks(values[..i]) + EncodeBulk(values[i]) == header + EncodeBulks(values[..i + 1])
  {
    hide EncodeBulk, EncodeBulks;
    assert values[..i + 1] == values[..i] + [values[i]];
    EncodeBulksSnoc(values[..i], values[i]);
  }

  lemma AllBulks(start: Bytes, values: seq<Bytes>)
    ensures start + ([STAR] + Decimal(|values|) + CRLF) + EncodeBulks(values[..|values|]) == start + EncodeArray(values)
  {
    hide Decimal, EncodeBulks;
    assert values[..|values|] == values;
  }

  class Writer {
    var out: Bytes

    constructor ()
      ensures out == []
    {
      out := [];
    }

    method WriteArray(values: seq<Bytes>)
      modifies this
      ensures out == old(out) + EncodeArray(values)
      ensures out == old(out) + ([42] + Decimal(|values|) + [13, 10] + EncodeBulks(values))
    {
      ArrayEncoded(values);
      hide *;
      out := out + ([STAR] + Decimal(|values|) + CRLF);
      ghost var header := out;
      NoBulks(header, values);
      for i := 0 to |values|
        invariant out == header + EncodeBulks(values[..i])
      {
        WriteBulk(values[i]);
        OneMoreBulk(header, values, i);
      }
      AllBulks(old(out), values);
    }

    method WriteBulk(value: Bytes)
      modifies this
      ensures out == old(out) + EncodeBulk(value)
      ensures out == old(out) + ([36] + Decimal(|value|) + [13, 10] + value + [13, 10])
    {
      out := out + ([DOLLAR] + Decimal(|value|) + CRLF + value + CRLF);
    }
  }

  class Reader {
    var data: Bytes

    constructor (data: Bytes)
      ensures this.data == data
    {
      this.data := data;
    }

    method ReadByte() returns (r: Option<Byte>)
      modifies this
      ensures r == if old(data) == [] then None else Some(old(data)[0])
      ensures data == if old(data) == [] then [] else old(data)[1..]
    {
      if |data| == 0 {
        return None;
      }
      r := Some(data[0]);
      data := data[1..];
    }

    /** Read up to the first line feed and drop the line ending. */
    method ReadLine() returns (r: Result<Bytes, Failure>)
      modifies this
      ensures Parsed(r, data) == ParseLine(old(data))
    {
      var k := 0;
      while k < |data| && data[k] != LF
        invariant k <= |data| && data == old(data)
        invariant LineEnd(data) == k + LineEnd(data[k..])
      {
        assert data[k..][1..] == data[k + 1..];
        k := k + 1;
      }
      if k == |data| {
        data := [];
        return Err(Failed("read redis line"));
      }
      var line := data[..k];
      data := data[k + 1..];
      if |line| > 0 && line[|line| - 1] == CR {
        line := line[..|line| - 1];
      }
      return Ok(line);
    }

    method ReadInteger() returns (r: Result<int, Failure>)
      modifies this
      ensures Parsed(r, data) == ParseInteger(old(data))
      ensures old(data) == [] ==> r == Err(Failed("read redis integer prefix"))
      ensures old(data) != [] && old(data)[0] != 58 ==>
                r == Err(Failed("unexpected redis integer prefix")) && data == old(data)[1..]
    {
      var prefix := ReadByte();
      if prefix.None? {
        return Err(Failed("read redis integer prefix"));
      }
      if prefix.value != COLON {
        return Err(Failed("unexpected redis integer prefix"));
      }
      var line := ReadLine();
      if line.Err? {
        return Err(line.error);
      }
      return Atoi(line.value);
    }

    method ReadBulkString() returns (r: Result<Option<Bytes>, Failure>)
      modifies this
      ensures Parsed(r, data) == ParseBulk(old(data))
      ensures old(data) == [] ==> r == Err(Failed("read redis bulk string prefix"))
      ensures old(data) != [] && old(data)[0] != 36 ==>
                r == Err(Failed("unexpected redis bulk string prefix")) && data == old(data)[1..]
    {
      var prefix := ReadByte();
      if prefix.None? {
        return Err(Failed("read redis bulk string prefix"));
      }
      if prefix.value != DOLLAR {
        return Err(Failed("unexpected redis bulk string prefix"));
      }
      var line := ReadLine();
      if line.Err? {
        return Err(line.error);
      }
      if line.value == [MINUS, 49] {
        return Ok(None);
      }
      var size := Atoi(line.value);
      if size.Err? {
        return Err(size.error);
      }
      if size.value < 0 || size.value + 2 > MAX_INT {
        return Err(Panicked);
      }
      var n := if size.value + 2 <= |data| then size.value + 2 else |data|;
      if n == 0 {
        return Err(Failed("read redis bulk string payload"));
      }
      var buffer := data[..n] + seq(size.value + 2 - n, _ => 0 as Byte);
      data := data[n..];
      return Ok(Some(buffer[..size.value]));
    }

    method ReadArray() returns (r: Result<Option<seq<Bytes>>, Failure>)
      modifies this
      ensures Parsed(r, data) == ParseArray(old(data))
      ensures old(data) == [] ==> r == Err(Failed("read redis array prefix"))
      ensures old(data) != [] && old(data)[0] != 42 ==>
                r == Err(Failed("unexpected redis array prefix")) && data == old(data)[1..]
    {
      var prefix := ReadByte();
      if prefix.None? {
        return Err(Failed("read redis array prefix"));
      }
      if prefix.value != STAR {
        return Err(Failed("unexpected redis array prefix"));
      }
      var line := ReadLine();
      if line.Err? {
        return Err(line.error);
      }
      if line.value == [MINUS, 49] {
        return Ok(None);
      }
      var count := Atoi(line.value);
      if count.Err? {
        return Err(count.error);
      }
      if count.value < 0 {
        return Err(Panicked);
      }
      r := ReadBulks(count.value);
    }

    method ReadBulks(count: nat) returns (r: Result<Option<seq<Bytes>>, Failure>)
      modifies this
      ensures Parsed(r, data) == ParseBulks(old(data), count)
    {
      hide ParseBulk;
      var values: seq<Bytes> := [];
      PrependNothing(ParseBulks(data, count));
      for i := 0 to count
        invariant ParseBulks(old(data), count) == Prepend(values, ParseBulks(data, count - i))
      {
        var v := ReadBulkString();
        if v.Err? {
          return Err(v.error);
        }
        if v.value.None? {
          return Ok(None);
        }
        PrependTwice(values, [v.value.value], ParseBulks(data, count - i - 1));
        values := values + [v.value.value];
      }
      assert values + [] == values;
      return Ok(Some(values));
    }
  }
}
