/**
 The bencode scanner that isolates a torrent's raw info dictionary, and the
 grammar it accepts. Values keep the text of integers as written, because the
 scanner lets some non-canonical integers through.
 */
module Bencode {
  import opened Options
  import opened Bytes

  const MaximumDepth := 64
  const LengthLimit := 0x8000_0000

  /******* Values and their encoding *******/

  datatype Value = Int(text: seq<Byte>) | Str(bytes: seq<Byte>) | List(items: Items) | Dict(pairs: Pairs)

  datatype Items = NoItems | Item(head: Value, tail: Items)

  datatype Pairs = NoPairs | Pair(key: seq<Byte>, value: Value, rest: Pairs)

  const LetterI: Byte := 105
  const LetterL: Byte := 108
  const LetterD: Byte := 100
  const LetterE: Byte := 101
  const Colon: Byte := 58
  const Minus: Byte := 45
  const Zero: Byte := 48

  predicate IsDigit(b: Byte) { 48 <= b <= 57 }

  predicate AllDigits(s: seq<Byte>) { forall i | 0 <= i < |s| :: IsDigit(s[i]) }

  function Decimal(n: nat): seq<Byte>
  {
    if n < 10 then [(48 + n) as Byte] else Decimal(n / 10) + [(48 + n % 10) as Byte]
  }

  function EncodeString(bytes: seq<Byte>): seq<Byte> { Decimal(|bytes|) + [Colon] + bytes }

  function Encode(v: Value): seq<Byte>
  {
    match v
    case Int(text) => [LetterI] + text + [LetterE]
    case Str(bytes) => EncodeString(bytes)
    case List(items) => [LetterL] + EncodeItems(items) + [LetterE]
    case Dict(pairs) => [LetterD] + EncodePairs(pairs) + [LetterE]
  }

  function EncodeItems(items: Items): seq<Byte>
  {
    match items
    case NoItems => []
    case Item(head, tail) => Encode(head) + EncodeItems(tail)
  }

  function EncodePairs(pairs: Pairs): seq<Byte>
  {
    match pairs
    case NoPairs => []
    case Pair(key, value, rest) => EncodeString(key) + Encode(value) + EncodePairs(rest)
  }

  function Unsigned(text: seq<Byte>): seq<Byte> { if |text| > 0 && text[0] == Minus then text[1..] else text }

  // Digits with an optional minus; no leading "00" and no "-0".
  predicate ValidInt(text: seq<Byte>)
  {
    && Unsigned(text) != [] && AllDigits(Unsigned(text))
    && !(|text| >= 2 && text[0] == Zero && text[1] == Zero)
    && !(|text| >= 2 && text[0] == Minus && text[1] == Zero)
  }

  // What the scanner accepts at a nesting depth.
  predicate Valid(v: Value, depth: nat)
  {
    && depth <= MaximumDepth
    && match v
       case Int(text) => ValidInt(text)
       case Str(bytes) => |bytes| < LengthLimit
       case List(items) => ValidItems(items, depth + 1)
       case Dict(pairs) => ValidPairs(pairs, depth + 1)
  }

  predicate ValidItems(items: Items, depth: nat)
  {
    match items
    case NoItems => true
    case Item(head, tail) => Valid(head, depth) && ValidItems(tail, depth)
  }

  predicate ValidPairs(pairs: Pairs, depth: nat)
  {
    match pairs
    case NoPairs => true
    case Pair(key, value, rest) => |key| < LengthLimit && Valid(value, depth) && ValidPairs(rest, depth)
  }

  /******* The scanner as functions of payload and offset *******/

  // The end of the run of digits from o.
  function DigitsEnd(s: seq<Byte>, o: nat): (e: nat)
    requires o <= |s|
    ensures o <= e <= |s| && AllDigits(s[o..e]) && (e < |s| ==> !IsDigit(s[e]))
    decreases |s| - o
  {
    if o < |s| && IsDigit(s[o]) then DigitsEnd(s, o + 1) else o
  }

  function NumberOf(text: seq<Byte>): nat
    requires AllDigits(text)
  {
    if text == [] then 0 else 10 * NumberOf(text[..|text| - 1]) + (text[|text| - 1] as int - 48)
  }

  datatype Span = Span(start: nat, end: nat)

  // readBytes: where the string's content lies.
  function ReadString(s: seq<Byte>, o: nat): (r: Option<Span>)
    ensures r.Some? ==> o < r.value.start <= r.value.end <= |s|
  {
    if o > |s| then None
    else
      var e := DigitsEnd(s, o);
      if e == o || e == |s| || s[e] != Colon then None
      else if e - o > 1 && s[o] == Zero then None
      else if NumberOf(s[o..e]) >= LengthLimit || |s| - (e + 1) < NumberOf(s[o..e]) then None
      else Some(Span(e + 1, e + 1 + NumberOf(s[o..e])))
  }

  function SkipInteger(s: seq<Byte>, o: nat): (r: Option<nat>)
    requires o < |s|
    ensures r.Some? ==> o < r.value <= |s|
  {
    var digits := if o + 1 < |s| && s[o + 1] == Minus then o + 2 else o + 1;
    var e := DigitsEnd(s, digits);
    if e == digits || e == |s| || s[e] != LetterE || !ValidInt(s[o + 1..e]) then None else Some(e + 1)
  }

  function Skip(s: seq<Byte>, o: nat, depth: nat): (r: Option<nat>)
    ensures r.Some? ==> o < r.value <= |s|
    decreases |s| - o, 0
  {
    if depth > MaximumDepth || o >= |s| then None
    else if s[o] == LetterI then SkipInteger(s, o)
    else if s[o] == LetterL then SkipItems(s, o + 1, depth + 1)
    else if s[o] == LetterD then SkipPairs(s, o + 1, depth + 1)
    else if !IsDigit(s[o]) then None
    else match ReadString(s, o) case None => None case Some(span) => Some(span.end)
  }

  function SkipItems(s: seq<Byte>, o: nat, depth: nat): (r: Option<nat>)
    ensures r.Some? ==> o < r.value <= |s|
    decreases |s| - o, 1
  {
    if o >= |s| then None
    else if s[o] == LetterE then Some(o + 1)
    else match Skip(s, o, depth)
      case None => None
      case Some(m) => SkipItems(s, m, depth)
  }

  function SkipPairs(s: seq<Byte>, o: nat, depth: nat): (r: Option<nat>)
    ensures r.Some? ==> o < r.value <= |s|
    decreases |s| - o, 1
  {
    if o >= |s| then None
    else if s[o] == LetterE then Some(o + 1)
    else match ReadString(s, o)
      case None => None
      case Some(span) =>
        match Skip(s, span.end, depth)
        case None => None
        case Some(m) => SkipPairs(s, m, depth)
  }

  const InfoKey: seq<Byte> := [105, 110, 102, 111]

  // rawTorrentInfoHash from inside the top dictionary; info is the slice found so far.
  function ScanInfo(s: seq<Byte>, o: nat, info: Option<seq<Byte>>): Option<seq<Byte>>
    decreases |s| - o
  {
    if o >= |s| then None
    else if s[o] == LetterE then (if o + 1 == |s| then info else None)
    else match ReadString(s, o)
      case None => None
      case Some(span) =>
        match Skip(s, span.end, 1)
        case None => None
        case Some(m) =>
          if s[span.start..span.end] != InfoKey then ScanInfo(s, m, info)
          else if info.Some? || s[span.end] != LetterD then None
          else ScanInfo(s, m, Some(s[span.end..m]))
  }

  function RawInfo(s: seq<Byte>): Option<seq<Byte>>
  {
    if |s| == 0 || s[0] != LetterD then None else ScanInfo(s, 1, None)
  }

  /******* The parser object *******/

  class Parser {
    const payload: seq<Byte>
    var offset: nat

    constructor (payload: seq<Byte>)
      ensures this.payload == payload && offset == 0
    {
      this.payload := payload;
      offset := 0;
    }

    function Peek(): Byte
      reads this
    {
      if offset >= |payload| then 0 else payload[offset]
    }

    method Consume(want: Byte) returns (ok: bool)
      modifies this`offset
      ensures ok <==> old(Peek()) == want
      ensures offset == old(offset) + if ok then 1 else 0
    {
      if Peek() != want { return false; }
      offset := offset + 1;
      ok := true;
    }

    method SkipDigits()
      requires offset <= |payload|
      modifies this`offset
      ensures offset == DigitsEnd(payload, old(offset))
    {
      while offset < |payload| && IsDigit(Peek())
        invariant offset <= |payload| && DigitsEnd(payload, old(offset)) == DigitsEnd(payload, offset)
      {
        offset := offset + 1;
      }
    }

    method ReadBytes() returns (r: Option<seq<Byte>>)
      requires offset <= |payload|
      modifies this`offset
      ensures offset <= |payload|
      ensures var read := ReadString(payload, old(offset));
              if read.None? then r.None? else offset == read.value.end && r == Some(payload[read.value.start..read.value.end])
    {
      var start := offset;
      SkipDigits();
      if start == offset { return None; }
      var colon := Consume(Colon);
      if !colon { return None; }
      var lengthText := payload[start..offset - 1];
      if |lengthText| > 1 && lengthText[0] == Zero { return None; }
      var length := NumberOf(lengthText);
      if length >= LengthLimit || |payload| - offset < length { return None; }
      r := Some(payload[offset..offset + length]);
      offset := offset + length;
    }

    method SkipIntegerHere() returns (ok: bool)
      requires offset < |payload|
      modifies this`offset
      ensures offset <= |payload|
      ensures var r := SkipInteger(payload, old(offset)); ok == r.Some? && (ok ==> offset == r.value)
    {
      offset := offset + 1;
      var start := offset;
      if Peek() == Minus { offset := offset + 1; }
      var digits := offset;
      SkipDigits();
      if digits == offset { return false; }
      var end := Consume(LetterE);
      if !end { return false; }
      var number := payload[start..offset - 1];
      assert Unsigned(number) == payload[digits..offset - 1];
      ok := !(|number| >= 2 && number[0] == Zero && number[1] == Zero) && !(|number| >= 2 && number[0] == Minus && number[1] == Zero);
    }

    method SkipValue(depth: nat) returns (ok: bool)
      requires offset <= |payload|
      modifies this`offset
      ensures offset <= |payload|
      ensures var r := Skip(payload, old(offset), depth); ok == r.Some? && (ok ==> offset == r.value)
      decreases |payload| - offset, 1
    {
      if depth > MaximumDepth || offset >= |payload| { return false; }
      var first := Peek();
      if first == LetterI {
        ok := SkipIntegerHere();
      } else if first == LetterL {
        ok := SkipListHere(depth);
      } else if first == LetterD {
        ok := SkipDictHere(depth);
      } else if !IsDigit(first) {
        ok := false;
      } else {
        var r := ReadBytes();
        ok := r.Some?;
      }
    }

    // The list branch of skipValue.
    method SkipListHere(depth: nat) returns (ok: bool)
      requires offset < |payload|
      modifies this`offset
      ensures offset <= |payload|
      ensures var r := SkipItems(payload, old(offset) + 1, depth + 1); ok == r.Some? && (ok ==> offset == r.value)
      decreases |payload| - offset, 0
    {
      offset := offset + 1;
      while offset < |payload| && Peek() != LetterE
        invariant old(offset) < offset <= |payload|
        invariant SkipItems(payload, old(offset) + 1, depth + 1) == SkipItems(payload, offset, depth + 1)
        decreases |payload| - offset
      {
        var item := SkipValue(depth + 1);
        if !item { return false; }
      }
      ok := Consume(LetterE);
    }

    // The dictionary branch of skipValue.
    method SkipDictHere(depth: nat) returns (ok: bool)
      requires offset < |payload|
      modifies this`offset
      ensures offset <= |payload|
      ensures var r := SkipPairs(payload, old(offset) + 1, depth + 1); ok == r.Some? && (ok ==> offset == r.value)
      decreases |payload| - offset, 0
    {
      offset := offset + 1;
      while offset < |payload| && Peek() != LetterE
        invariant old(offset) < offset <= |payload|
        invariant SkipPairs(payload, old(offset) + 1, depth + 1) == SkipPairs(payload, offset, depth + 1)
        decreases |payload| - offset
      {
        var key := ReadBytes();
        if key.None? { return false; }
        var value := SkipValue(depth + 1);
        if !value { return false; }
      }
      ok := Consume(LetterE);
    }
  }

  // The slice whose SHA-1 names the torrent.
  method RawTorrentInfo(payload: seq<Byte>) returns (r: Option<seq<Byte>>)
    ensures r == RawInfo(payload)
  {
    var parser := new Parser(payload);
    var open := parser.Consume(LetterD);
    if !open { return None; }
    var info: Option<seq<Byte>> := None;
    while parser.offset < |payload| && parser.Peek() != LetterE
      invariant parser.payload == payload && parser.offset <= |payload|
      invariant RawInfo(payload) == ScanInfo(payload, parser.offset, info)
      decreases |payload| - parser.offset
    {
      var key := parser.ReadBytes();
      if key.None? { return None; }
      var start := parser.offset;
      var ok := parser.SkipValue(1);
      if !ok { return None; }
      if key.value == InfoKey {
        if info.Some? || payload[start] != LetterD { return None; }
        info := Some(payload[start..parser.offset]);
      }
    }
    var close := parser.Consume(LetterE);
    if !close || parser.offset < |payload| { return None; }
    r := info;
  }

  const MaximumTorrentFileBytes := 4 * 1024 * 1024

  // How an info slice is hashed, and how hashes are compared.
  datatype Hashing = Hashing(sum: seq<Byte> -> string, fold: string -> string)

  // A bounded payload whose info slice hashes to the selected release.
  predicate AcceptedFor(hashing: Hashing, expected: string, payload: seq<Byte>)
  {
    expected != "" && 0 < |payload| <= MaximumTorrentFileBytes && RawInfo(payload).Some? &&
    hashing.fold(hashing.sum(RawInfo(payload).value)) == hashing.fold(expected)
  }

  method NewTorrentFileInput(hashing: Hashing, expected: string, payload: seq<Byte>) returns (ok: bool)
    ensures ok <==> AcceptedFor(hashing, expected, payload)
  {
    if expected == "" || |payload| == 0 || |payload| > MaximumTorrentFileBytes { return false; }
    var info := RawTorrentInfo(payload);
    if info.None? { return false; }
    ok := hashing.fold(hashing.sum(info.value)) == hashing.fold(expected);
  }
}
