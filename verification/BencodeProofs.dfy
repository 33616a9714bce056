/** The scanner accepts exactly the encodings of valid values, and stops exactly at their end. */
module BencodeProofs {
  import opened Options
  import opened Numbers
  import opened Bytes
  import opened Bencode

  /******* Numbers *******/

  lemma {:induction false} DecimalText(n: nat)
    ensures Decimal(n) != [] && AllDigits(Decimal(n)) && NumberOf(Decimal(n)) == n
    ensures Decimal(n)[0] == Zero ==> n == 0 && |Decimal(n)| == 1
  {
    if n >= 10 {
      DecimalText(n / 10);
      assert Decimal(n)[..|Decimal(n)| - 1] == Decimal(n / 10);
    }
  }

  // Digits without a leading zero are the decimal text of their number.
  lemma {:induction false} CanonicalText(text: seq<Byte>)
    requires text != [] && AllDigits(text) && (|text| > 1 ==> text[0] != Zero)
    ensures text == Decimal(NumberOf(text)) && (text[0] != Zero ==> NumberOf(text) > 0)
  {
    if |text| > 1 {
      var head, last := text[..|text| - 1], text[|text| - 1];
      CanonicalText(head);
      assert text == head + [last];
      assert NumberOf(text) / 10 == NumberOf(head) && NumberOf(text) % 10 == last as int - 48;
    }
  }

  lemma {:induction false} DigitsEndAt(s: seq<Byte>, o: nat, e: nat)
    requires o <= e < |s| && AllDigits(s[o..e]) && !IsDigit(s[e])
    ensures DigitsEnd(s, o) == e
    decreases e - o
  {
    if o < e {
      assert s[o] == s[o..e][0];
      assert s[o + 1..e] == s[o..e][1..];
      DigitsEndAt(s, o + 1, e);
    }
  }

  /******* Strings *******/

  // The encoding occurs in s at o.
  ghost predicate At(s: seq<Byte>, o: nat, text: seq<Byte>) { o + |text| <= |s| && s[o..o + |text|] == text }

  lemma AtSplit(s: seq<Byte>, o: nat, a: seq<Byte>, b: seq<Byte>)
    ensures At(s, o, a + b) <==> At(s, o, a) && At(s, o + |a|, b)
  {
    if At(s, o, a + b) {
      assert s[o..o + |a|] == (a + b)[..|a|];
      assert s[o + |a|..o + |a| + |b|] == (a + b)[|a|..];
    }
  }

  lemma FirstAt(s: seq<Byte>, o: nat, text: seq<Byte>)
    requires At(s, o, text) && text != []
    ensures o < |s| && s[o] == text[0]
  {
    assert s[o] == s[o..o + |text|][0];
  }

  lemma Cut(s: seq<Byte>, a: nat, b: nat, c: nat)
    requires a <= b <= c <= |s|
    ensures s[a..c] == s[a..b] + s[b..c]
  {
  }

  lemma ReadEncoded(s: seq<Byte>, o: nat, bytes: seq<Byte>)
    requires |bytes| < LengthLimit && At(s, o, EncodeString(bytes))
    ensures ReadString(s, o) == Some(Span(o + |Decimal(|bytes|)| + 1, o + |EncodeString(bytes)|))
    ensures s[o + |Decimal(|bytes|)| + 1..o + |EncodeString(bytes)|] == bytes && IsDigit(s[o])
  {
    hide Decimal, NumberOf, DigitsEnd;
    var text := Decimal(|bytes|);
    DecimalText(|bytes|);
    AtSplit(s, o, text + [Colon], bytes);
    AtSplit(s, o, text, [Colon]);
    var e := o + |text|;
    assert s[e] == s[e..e + 1][0];
    assert s[o] == s[o..e][0];
    DigitsEndAt(s, o, e);
  }

  lemma ReadSound(s: seq<Byte>, o: nat)
    requires ReadString(s, o).Some?
    ensures var span := ReadString(s, o).value;
            var bytes := s[span.start..span.end];
            |bytes| < LengthLimit && s[o..span.end] == EncodeString(bytes)
  {
    var span := ReadString(s, o).value;
    var e := DigitsEnd(s, o);
    assert s[o] == s[o..e][0];
    CanonicalText(s[o..e]);
    assert s[o..span.end] == s[o..e] + [s[e]] + s[span.start..span.end];
  }

  /******* Completeness: every valid encoding is skipped, whatever follows it *******/

  lemma IntEncoded(s: seq<Byte>, o: nat, text: seq<Byte>)
    requires ValidInt(text) && At(s, o, [LetterI] + text + [LetterE])
    ensures o < |s| && s[o] == LetterI && SkipInteger(s, o) == Some(o + |text| + 2)
  {
    AtSplit(s, o, [LetterI] + text, [LetterE]);
    AtSplit(s, o, [LetterI], text);
    assert s[o] == s[o..o + 1][0];
    var e := o + 1 + |text|;
    assert s[e] == s[e..e + 1][0];
    assert s[o + 1..e] == text;
    assert s[o + 1] == text[0];
    var digits := if s[o + 1] == Minus then o + 2 else o + 1;
    assert s[digits..e] == Unsigned(text);
    DigitsEndAt(s, digits, e);
  }

  // An encoding never starts with the end marker.
  lemma FirstByte(v: Value, depth: nat)
    requires Valid(v, depth)
    ensures Encode(v) != [] && Encode(v)[0] != LetterE
    ensures v.Dict? <==> Encode(v)[0] == LetterD
  {
    if v.Str? { DecimalText(|v.bytes|); }
  }

  lemma {:induction false} SkipEncoded(s: seq<Byte>, o: nat, v: Value, depth: nat)
    requires Valid(v, depth) && At(s, o, Encode(v))
    ensures Skip(s, o, depth) == Some(o + |Encode(v)|)
    decreases v
  {
    hide At, DigitsEnd, NumberOf, ReadString, SkipInteger, ValidInt, EncodeString, ValidItems, ValidPairs, SkipItems, SkipPairs, EncodeItems, EncodePairs;
    FirstByte(v, depth);
    FirstAt(s, o, Encode(v));
    match v
    case Int(text) => IntEncoded(s, o, text);
    case Str(bytes) => ReadEncoded(s, o, bytes);
    case List(items) =>
      AtSplit(s, o, [LetterL], EncodeItems(items) + [LetterE]);
      assert Encode(v) == [LetterL] + (EncodeItems(items) + [LetterE]);
      ItemsEncoded(s, o + 1, items, depth + 1);
    case Dict(pairs) =>
      AtSplit(s, o, [LetterD], EncodePairs(pairs) + [LetterE]);
      assert Encode(v) == [LetterD] + (EncodePairs(pairs) + [LetterE]);
      PairsEncoded(s, o + 1, pairs, depth + 1);
  }

  lemma {:induction false} ItemsEncoded(s: seq<Byte>, o: nat, items: Items, depth: nat)
    requires ValidItems(items, depth) && At(s, o, EncodeItems(items) + [LetterE])
    ensures SkipItems(s, o, depth) == Some(o + |EncodeItems(items)| + 1)
    decreases items
  {
    hide At, Encode, Skip, Valid;
    match items
    case NoItems =>
      assert EncodeItems(items) + [LetterE] == [LetterE];
      FirstAt(s, o, [LetterE]);
    case Item(head, tail) =>
      var rest := EncodeItems(tail) + [LetterE];
      assert EncodeItems(items) + [LetterE] == Encode(head) + rest;
      AtSplit(s, o, Encode(head), rest);
      FirstByte(head, depth);
      FirstAt(s, o, Encode(head));
      SkipEncoded(s, o, head, depth);
      ItemsEncoded(s, o + |Encode(head)|, tail, depth);
  }

  lemma {:induction false} PairsEncoded(s: seq<Byte>, o: nat, pairs: Pairs, depth: nat)
    requires ValidPairs(pairs, depth) && At(s, o, EncodePairs(pairs) + [LetterE])
    ensures SkipPairs(s, o, depth) == Some(o + |EncodePairs(pairs)| + 1)
    decreases pairs
  {
    hide At, Encode, Skip, Valid, ReadString, EncodeString;
    match pairs
    case NoPairs =>
      assert EncodePairs(pairs) + [LetterE] == [LetterE];
      FirstAt(s, o, [LetterE]);
    case Pair(key, value, tail) =>
      var rest := EncodePairs(tail) + [LetterE];
      assert EncodePairs(pairs) + [LetterE] == EncodeString(key) + Encode(value) + rest;
      PairAt(s, o, key, value, rest);
      ReadEncoded(s, o, key);
      SkipEncoded(s, o + |EncodeString(key)|, value, depth);
      PairsEncoded(s, o + |EncodeString(key)| + |Encode(value)|, tail, depth);
  }

  lemma PairAt(s: seq<Byte>, o: nat, key: seq<Byte>, value: Value, rest: seq<Byte>)
    ensures At(s, o, EncodeString(key) + Encode(value) + rest) <==>
            At(s, o, EncodeString(key)) && At(s, o + |EncodeString(key)|, Encode(value)) &&
            At(s, o + |EncodeString(key)| + |Encode(value)|, rest)
  {
    AtSplit(s, o, EncodeString(key) + Encode(value), rest);
    AtSplit(s, o, EncodeString(key), Encode(value));
  }

  /******* Soundness: whatever is skipped is the encoding of a valid value *******/

  lemma IntSound(s: seq<Byte>, o: nat)
    requires o < |s| && s[o] == LetterI && SkipInteger(s, o).Some?
    ensures SkipInteger(s, o).value >= o + 2
    ensures var text := s[o + 1..SkipInteger(s, o).value - 1];
            ValidInt(text) && s[o..SkipInteger(s, o).value] == [LetterI] + text + [LetterE]
  {
    var digits := if o + 1 < |s| && s[o + 1] == Minus then o + 2 else o + 1;
    var e := DigitsEnd(s, digits);
    Cut(s, o, o + 1, e + 1);
    Cut(s, o + 1, e, e + 1);
    assert s[o..o + 1] == [s[o]] && s[e..e + 1] == [s[e]];
  }

  lemma {:induction false} SkipSound(s: seq<Byte>, o: nat, depth: nat) returns (v: Value)
    requires Skip(s, o, depth).Some?
    ensures Valid(v, depth) && Encode(v) == s[o..Skip(s, o, depth).value]
    decreases |s| - o, 0
  {
    hide DigitsEnd, NumberOf, ReadString, SkipInteger, ValidInt, EncodeString, ValidItems, ValidPairs, SkipItems, SkipPairs, EncodeItems, EncodePairs;
    var end := Skip(s, o, depth).value;
    if s[o] == LetterI {
      IntSound(s, o);
      v := Int(s[o + 1..end - 1]);
    } else if s[o] == LetterL {
      var items := ItemsSound(s, o + 1, depth + 1);
      v := List(items);
      assert s[o..end] == [s[o]] + s[o + 1..end];
    } else if s[o] == LetterD {
      var pairs := PairsSound(s, o + 1, depth + 1);
      v := Dict(pairs);
      assert s[o..end] == [s[o]] + s[o + 1..end];
    } else {
      ReadSound(s, o);
      v := Str(s[ReadString(s, o).value.start..end]);
    }
  }

  lemma {:induction false} ItemsSound(s: seq<Byte>, o: nat, depth: nat) returns (items: Items)
    requires SkipItems(s, o, depth).Some?
    ensures ValidItems(items, depth) && EncodeItems(items) + [LetterE] == s[o..SkipItems(s, o, depth).value]
    decreases |s| - o, 1
  {
    hide Skip, Encode, Valid;
    var end := SkipItems(s, o, depth).value;
    if s[o] == LetterE {
      items := NoItems;
    } else {
      var head := SkipSound(s, o, depth);
      var m := Skip(s, o, depth).value;
      var tail := ItemsSound(s, m, depth);
      items := Item(head, tail);
      Cut(s, o, m, end);
    }
  }

  lemma Joined(a: seq<Byte>, b: seq<Byte>, c: seq<Byte>, d: seq<Byte>)
    ensures a + b + c + d == a + b + (c + d)
  {
  }

  lemma {:induction false} PairsSound(s: seq<Byte>, o: nat, depth: nat) returns (pairs: Pairs)
    requires SkipPairs(s, o, depth).Some?
    ensures ValidPairs(pairs, depth) && EncodePairs(pairs) + [LetterE] == s[o..SkipPairs(s, o, depth).value]
    decreases |s| - o, 1
  {
    hide Skip, Encode, Valid, ReadString, EncodeString;
    var end := SkipPairs(s, o, depth).value;
    if s[o] == LetterE {
      pairs := NoPairs;
    } else {
      ReadSound(s, o);
      var span := ReadString(s, o).value;
      var value := SkipSound(s, span.end, depth);
      var m := Skip(s, span.end, depth).value;
      var rest := PairsSound(s, m, depth);
      pairs := Pair(s[span.start..span.end], value, rest);
      Cut(s, o, m, end);
      Cut(s, o, span.end, m);
      Joined(EncodeString(s[span.start..span.end]), Encode(value), EncodePairs(rest), [LetterE]);
    }
  }

  // The scanner stops at e exactly when a valid value's encoding lies between o and e.
  lemma SkipIsGrammar(s: seq<Byte>, o: nat, depth: nat, e: nat)
    ensures Skip(s, o, depth) == Some(e) <==> o <= e <= |s| && exists v :: Valid(v, depth) && Encode(v) == s[o..e]
  {
    if Skip(s, o, depth) == Some(e) { var v := SkipSound(s, o, depth); }
    if o <= e <= |s| && exists v :: Valid(v, depth) && Encode(v) == s[o..e] {
      var v :| Valid(v, depth) && Encode(v) == s[o..e];
      SkipEncoded(s, o, v, depth);
    }
  }

  // No valid encoding is a proper prefix of another.
  lemma UniqueEnd(v: Value, u: Value, depth: nat, more: seq<Byte>)
    requires Valid(v, depth) && Valid(u, depth) && Encode(u) == Encode(v) + more
    ensures more == []
  {
    SkipEncoded(Encode(u), 0, u, depth);
    assert Encode(u)[0..|Encode(v)|] == Encode(v);
    SkipEncoded(Encode(u), 0, v, depth);
  }

  /******* Integers *******/

  ghost predicate CanonicalInt(text: seq<Byte>)
  {
    exists n: nat :: text == Decimal(n) || (n > 0 && text == [Minus] + Decimal(n))
  }

  // One superfluous zero before other digits, as in i01e.
  predicate OneZeroTooMany(text: seq<Byte>)
  {
    |text| >= 2 && AllDigits(text) && text[0] == Zero && text[1] != Zero
  }

  // The scanner accepts canonical integers and, beyond them, exactly those with one superfluous zero.
  lemma AcceptedIntegers(text: seq<Byte>)
    ensures ValidInt(text) <==> CanonicalInt(text) || OneZeroTooMany(text)
  {
    if ValidInt(text) && !OneZeroTooMany(text) {
      var digits := Unsigned(text);
      assert digits != text ==> digits[0] == text[1] && text == [Minus] + digits;
      CanonicalText(digits);
      assert text == Decimal(NumberOf(digits)) || (NumberOf(digits) > 0 && text == [Minus] + Decimal(NumberOf(digits)));
    }
    if CanonicalInt(text) {
      var n: nat :| text == Decimal(n) || (n > 0 && text == [Minus] + Decimal(n));
      DecimalText(n);
      assert text == [Minus] + Decimal(n) ==> text[1..] == Decimal(n);
      if n < 10 { assert |Decimal(n)| == 1; }
    }
  }

  // i01e is accepted, and is no canonical integer.
  lemma LeadingZeroAccepted()
    ensures ValidInt([Zero, Zero + 1]) && !CanonicalInt([Zero, Zero + 1])
  {
    var text := [Zero, Zero + 1];
    forall n: nat ensures text != Decimal(n) && text != [Minus] + Decimal(n) {
      DecimalText(n);
      assert text[0] != ([Minus] + Decimal(n))[0];
    }
  }

  /******* The info dictionary *******/

  function InfoValues(pairs: Pairs): seq<Value>
  {
    match pairs
    case NoPairs => []
    case Pair(key, value, rest) => (if key == InfoKey then [value] else []) + InfoValues(rest)
  }

  // One info entry in all, a dictionary, and text is its encoding; or it was found before.
  ghost predicate OneInfo(pairs: Pairs, before: Option<seq<Byte>>, text: seq<Byte>)
  {
    match before
    case Some(slice) => InfoValues(pairs) == [] && text == slice
    case None => |InfoValues(pairs)| == 1 && InfoValues(pairs)[0].Dict? && text == Encode(InfoValues(pairs)[0])
  }

  lemma {:induction false} ScanSound(s: seq<Byte>, o: nat, info: Option<seq<Byte>>) returns (pairs: Pairs)
    requires ScanInfo(s, o, info).Some?
    ensures ValidPairs(pairs, 1) && EncodePairs(pairs) + [LetterE] == s[o..] && OneInfo(pairs, info, ScanInfo(s, o, info).value)
    decreases |s| - o
  {
    hide Skip, Encode, Valid, ReadString, EncodeString;
    if s[o] == LetterE {
      pairs := NoPairs;
      assert s[o..] == [s[o]];
    } else {
      ReadSound(s, o);
      var span := ReadString(s, o).value;
      var value := SkipSound(s, span.end, 1);
      var m := Skip(s, span.end, 1).value;
      var key := s[span.start..span.end];
      FirstByte(value, 1);
      assert Encode(value)[0] == s[span.end];
      var rest := ScanSound(s, m, if key == InfoKey then Some(s[span.end..m]) else info);
      pairs := Pair(key, value, rest);
      Cut(s, o, m, |s|);
      Cut(s, o, span.end, m);
      Joined(EncodeString(key), Encode(value), EncodePairs(rest), [LetterE]);
      assert s[o..] == s[o..|s|] && s[m..] == s[m..|s|];
    }
  }

  lemma ScanEnd(s: seq<Byte>, o: nat, info: Option<seq<Byte>>)
    requires o <= |s| && s[o..] == [LetterE]
    ensures ScanInfo(s, o, info) == info
  {
    assert s[o] == s[o..][0];
  }

  lemma ScanStep(s: seq<Byte>, o: nat, info: Option<seq<Byte>>)
    requires o < |s| && IsDigit(s[o]) && ReadString(s, o).Some? && Skip(s, ReadString(s, o).value.end, 1).Some?
    ensures var span, m := ReadString(s, o).value, Skip(s, ReadString(s, o).value.end, 1).value;
            && (s[span.start..span.end] != InfoKey ==> ScanInfo(s, o, info) == ScanInfo(s, m, info))
            && (s[span.start..span.end] == InfoKey && info.None? && s[span.end] == LetterD ==>
                  ScanInfo(s, o, info) == ScanInfo(s, m, Some(s[span.end..m])))
  {
    hide Skip, ReadString;
  }

  lemma NoInfo(info: Option<seq<Byte>>, text: seq<Byte>)
    requires OneInfo(NoPairs, info, text)
    ensures info == Some(text)
  {
  }

  lemma OneInfoRest(key: seq<Byte>, value: Value, rest: Pairs, info: Option<seq<Byte>>, text: seq<Byte>)
    requires OneInfo(Pair(key, value, rest), info, text)
    ensures key == InfoKey ==> info.None? && value.Dict? && OneInfo(rest, Some(Encode(value)), text)
    ensures key != InfoKey ==> OneInfo(rest, info, text)
  {
    hide Encode;
  }

  // The rest of s from o is text and then tail.
  lemma RestAt(s: seq<Byte>, o: nat, text: seq<Byte>, tail: seq<Byte>)
    requires o <= |s| && text + tail == s[o..]
    ensures At(s, o, text + tail) && o + |text| <= |s| && s[o + |text|..] == tail
  {
    assert s[o..o + |text + tail|] == s[o..];
    assert s[o + |text|..] == s[o..][|text|..];
  }

  lemma SliceAt(s: seq<Byte>, o: nat, text: seq<Byte>)
    requires At(s, o, text)
    ensures o + |text| <= |s| && s[o..o + |text|] == text
  {
  }

  lemma {:induction false} ScanComplete(s: seq<Byte>, o: nat, info: Option<seq<Byte>>, pairs: Pairs, text: seq<Byte>)
    requires o <= |s| && ValidPairs(pairs, 1) && EncodePairs(pairs) + [LetterE] == s[o..] && OneInfo(pairs, info, text)
    ensures ScanInfo(s, o, info) == Some(text)
    decreases pairs
  {
    hide Skip, Encode, Valid, ReadString, EncodeString, At, OneInfo, ScanInfo;
    match pairs
    case NoPairs =>
      ScanEnd(s, o, info);
      NoInfo(info, text);
    case Pair(key, value, rest) =>
      var tail := EncodePairs(rest) + [LetterE];
      var start := o + |EncodeString(key)|;
      var m := start + |Encode(value)|;
      Joined(EncodeString(key), Encode(value), EncodePairs(rest), [LetterE]);
      RestAt(s, o, EncodeString(key) + Encode(value), tail);
      PairAt(s, o, key, value, tail);
      ReadEncoded(s, o, key);
      FirstByte(value, 1);
      FirstAt(s, start, Encode(value));
      SkipEncoded(s, start, value, 1);
      SliceAt(s, start, Encode(value));
      OneInfoRest(key, value, rest, info, text);
      ScanStep(s, o, info);
      ScanComplete(s, m, if key == InfoKey then Some(Encode(value)) else info, rest, text);
  }

  // The slice that is hashed: the payload is one dictionary, within the depth limit, with exactly one
  // info entry, itself a dictionary, and the slice is that dictionary's encoding.
  lemma InfoIsEncoding(payload: seq<Byte>, text: seq<Byte>)
    ensures RawInfo(payload) == Some(text) <==>
            exists pairs :: Valid(Dict(pairs), 0) && Encode(Dict(pairs)) == payload && OneInfo(pairs, None, text)
  {
    hide EncodePairs, ValidPairs, ScanInfo, OneInfo;
    if RawInfo(payload) == Some(text) {
      var pairs := ScanSound(payload, 1, None);
      assert payload == [payload[0]] + payload[1..];
      assert Encode(Dict(pairs)) == payload && Valid(Dict(pairs), 0);
    }
    if exists pairs :: Valid(Dict(pairs), 0) && Encode(Dict(pairs)) == payload && OneInfo(pairs, None, text) {
      var pairs :| Valid(Dict(pairs), 0) && Encode(Dict(pairs)) == payload && OneInfo(pairs, None, text);
      assert payload[1..] == EncodePairs(pairs) + [LetterE];
      ScanComplete(payload, 1, None, pairs, text);
    }
  }

  // The payload is one dictionary with one info dictionary, whose encoding is the text.
  ghost predicate InfoTextOf(payload: seq<Byte>, text: seq<Byte>)
  {
    exists pairs :: Valid(Dict(pairs), 0) && Encode(Dict(pairs)) == payload && OneInfo(pairs, None, text)
  }

  // A torrent file is accepted for a release exactly when the encoding of its one info dictionary hashes to the
  // release: what is sent to the provider is what was selected.
  lemma TorrentFileMatches(hashing: Hashing, expected: string, payload: seq<Byte>)
    ensures AcceptedFor(hashing, expected, payload) <==>
            && expected != "" && 0 < |payload| <= 4_194_304
            && exists text :: InfoTextOf(payload, text) && hashing.fold(hashing.sum(text)) == hashing.fold(expected)
  {
    hide RawInfo, Valid, Encode, OneInfo;
    if RawInfo(payload).Some? { InfoIsEncoding(payload, RawInfo(payload).value); }
    if text :| InfoTextOf(payload, text) && hashing.fold(hashing.sum(text)) == hashing.fold(expected) {
      InfoIsEncoding(payload, text);
    }
  }

  /******* The grammar, spelled out *******/

  // How deep values are nested inside a value.
  function Height(v: Value): nat
  {
    match v
    case Int(_) => 0
    case Str(_) => 0
    case List(items) => HeightItems(items)
    case Dict(pairs) => HeightPairs(pairs)
  }

  function HeightItems(items: Items): nat
  {
    match items
    case NoItems => 0
    case Item(head, tail) => Max(1 + Height(head), HeightItems(tail))
  }

  function HeightPairs(pairs: Pairs): nat
  {
    match pairs
    case NoPairs => 0
    case Pair(_, value, rest) => Max(1 + Height(value), HeightPairs(rest))
  }

  // Every integer and string in it is acceptable by itself.
  predicate Plain(v: Value)
  {
    match v
    case Int(text) => ValidInt(text)
    case Str(bytes) => |bytes| <= 2_147_483_647
    case List(items) => PlainItems(items)
    case Dict(pairs) => PlainPairs(pairs)
  }

  predicate PlainItems(items: Items) { items.Item? ==> Plain(items.head) && PlainItems(items.tail) }

  predicate PlainPairs(pairs: Pairs) { pairs.Pair? ==> |pairs.key| <= 2_147_483_647 && Plain(pairs.value) && PlainPairs(pairs.rest) }

  // A value is accepted exactly when nothing in it lies more than 64 levels deep and its parts are acceptable.
  lemma {:induction false} DepthExactly(v: Value, depth: nat)
    ensures Valid(v, depth) <==> depth + Height(v) <= 64 && Plain(v)
    decreases v
  {
    match v
    case Int(_) =>
    case Str(_) =>
    case List(items) => DepthItems(items, depth + 1);
    case Dict(pairs) => DepthPairs(pairs, depth + 1);
  }

  lemma {:induction false} DepthItems(items: Items, depth: nat)
    requires depth >= 1
    ensures depth <= 65 ==> (ValidItems(items, depth) <==> depth - 1 + HeightItems(items) <= 64 && PlainItems(items))
    decreases items
  {
    if items.Item? {
      DepthExactly(items.head, depth);
      DepthItems(items.tail, depth);
    }
  }

  lemma {:induction false} DepthPairs(pairs: Pairs, depth: nat)
    requires depth >= 1
    ensures depth <= 65 ==> (ValidPairs(pairs, depth) <==> depth - 1 + HeightPairs(pairs) <= 64 && PlainPairs(pairs))
    decreases pairs
  {
    if pairs.Pair? {
      DepthExactly(pairs.value, depth);
      DepthPairs(pairs.rest, depth);
    }
  }

  // d4:infod4:name1:aee
  const Sample: seq<Byte> := [100, 52, 58, 105, 110, 102, 111] + SampleDict + [101]

  // d4:name1:ae
  const SampleDict: seq<Byte> := [100, 52, 58, 110, 97, 109, 101, 49, 58, 97, 101]

  const SampleName := Dict(Pair([110, 97, 109, 101], Str([97]), NoPairs))

  lemma SampleEncoded()
    ensures Encode(SampleName) == SampleDict
  {
    assert EncodeString([97]) == [49, 58, 97];
    assert EncodeString([110, 97, 109, 101]) == [52, 58, 110, 97, 109, 101];
  }

  // In the format's own letters: what is hashed reaches from the d of the info dictionary to its e.
  lemma SampleInfo()
    ensures RawInfo(Sample) == Some(SampleDict)
  {
    hide RawInfo, ReadString;
    var pairs := Pair(InfoKey, SampleName, NoPairs);
    SampleEncoded();
    assert EncodeString(InfoKey) == [52, 58, 105, 110, 102, 111];
    assert Encode(Dict(pairs)) == Sample;
    assert InfoValues(pairs) == [SampleName];
    InfoIsEncoding(Sample, SampleDict);
  }
}
