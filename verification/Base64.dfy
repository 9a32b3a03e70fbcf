/** The Base64 codec of section 4 of RFC 4648.

    The reference says what an encoded group means: four digits and three bytes denote the
    same 24-bit number.  The methods follow the source: byte buffers of three and four entries
    that are filled and flushed, masks and shifts on single bytes, and a last group completed
    with filler.  They are proved against the reference, and the codec is proved invertible. */
module Base64 {

  type Byte = bv8
  type Digit = d: bv8 | d < 64

  const UPPER_CASE := "ABCDEFGHIJKLMNOPQRSTUVWXYZ"
  const LOWER_CASE := "abcdefghijklmnopqrstuvwxyz"
  const BASE_64_CHARS := UPPER_CASE + LOWER_CASE + "0123456789+/"
  const PAD: Byte := 61            // '='
  const NPOS_BYTE: Byte := 0xFF    // std::string::npos cut down to one byte
  const INT_MAX := 0x7FFF_FFFF
  const UINT_MAX := 0xFFFF_FFFF

  // ---------------------------------------------------------------- the alphabet

  predicate IsBase64(c: Byte) {
    65 <= c <= 90 || 97 <= c <= 122 || 48 <= c <= 57 || c == 43 || c == 47
  }

  /** The letter at a position of the alphabet. */
  function Letter(d: Digit): (c: Byte)
    ensures IsBase64(c)
  {
    if d < 26 then d + 65
    else if d < 52 then d + 71
    else if d < 62 then d - 4
    else if d == 62 then 43
    else 47
  }

  /** The position of a letter in the alphabet, as stored into one byte. */
  function Find(c: Byte): (d: Byte)
    ensures IsBase64(c) ==> d < 64 && Letter(d) == c
    ensures !IsBase64(c) ==> d == NPOS_BYTE
  {
    if 65 <= c <= 90 then c - 65
    else if 97 <= c <= 122 then c - 71
    else if 48 <= c <= 57 then c + 4
    else if c == 43 then 62
    else if c == 47 then 63
    else NPOS_BYTE
  }

  lemma FindLetter(d: Digit)
    ensures Find(Letter(d)) == d
  {
  }

  lemma PadIsNoLetter()
    ensures !IsBase64(PAD)
  {
  }

  /** Letter reads the published alphabet. */
  lemma AlphabetTable(d: Digit)
    ensures |BASE_64_CHARS| == 64
    ensures BASE_64_CHARS[d as int] as int == Letter(d) as int
  {
    var i := d as int;
    if d < 26 {
      assert BASE_64_CHARS[i] == UPPER_CASE[i];
    } else if d < 52 {
      assert BASE_64_CHARS[i] == LOWER_CASE[i - 26];
    } else {
      assert BASE_64_CHARS[i] == "0123456789+/"[i - 52];
    }
  }

  // ---------------------------------------------------------------- one group

  /** Three bytes as one 24-bit number. */
  function Group(b0: Byte, b1: Byte, b2: Byte): bv24 {
    (b0 as bv24 << 16) | (b1 as bv24 << 8) | b2 as bv24
  }

  /** Four digits as one 24-bit number. */
  function DigitGroup(d0: Digit, d1: Digit, d2: Digit, d3: Digit): bv24 {
    (d0 as bv24 << 18) | (d1 as bv24 << 12) | (d2 as bv24 << 6) | d3 as bv24
  }

  // The four digits that the bytes of a group determine ...
  function D0(b0: Byte): Digit { ((Group(b0, 0, 0) >> 18) & 63) as bv8 }
  function D1(b0: Byte, b1: Byte): Digit { ((Group(b0, b1, 0) >> 12) & 63) as bv8 }
  function D2(b1: Byte, b2: Byte): Digit { ((Group(0, b1, b2) >> 6) & 63) as bv8 }
  function D3(b2: Byte): Digit { (Group(0, 0, b2) & 63) as bv8 }

  // ... and the three bytes that the digits of a group determine.
  function B0(d0: Digit, d1: Digit): Byte { ((DigitGroup(d0, d1, 0, 0) >> 16) & 255) as bv8 }
  function B1(d1: Digit, d2: Digit): Byte { ((DigitGroup(0, d1, d2, 0) >> 8) & 255) as bv8 }
  function B2(d2: Digit, d3: Digit): Byte { (DigitGroup(0, 0, d2, d3) & 255) as bv8 }

  /** The digits of a group denote the same 24-bit number, and give its bytes back. */
  lemma GroupRoundTrip(b0: Byte, b1: Byte, b2: Byte)
    ensures DigitGroup(D0(b0), D1(b0, b1), D2(b1, b2), D3(b2)) == Group(b0, b1, b2)
    ensures B0(D0(b0), D1(b0, b1)) == b0
    ensures B1(D1(b0, b1), D2(b1, b2)) == b1
    ensures B2(D2(b1, b2), D3(b2)) == b2
  {
  }

  /** The bytes of a group denote the same 24-bit number, and give its digits back. */
  lemma GroupRoundTripBack(d0: Digit, d1: Digit, d2: Digit, d3: Digit)
    ensures Group(B0(d0, d1), B1(d1, d2), B2(d2, d3)) == DigitGroup(d0, d1, d2, d3)
    ensures D0(B0(d0, d1)) == d0
    ensures D1(B0(d0, d1), B1(d1, d2)) == d1
    ensures D2(B1(d1, d2), B2(d2, d3)) == d2
    ensures D3(B2(d2, d3)) == d3
  {
  }

  // ---------------------------------------------------------------- reference codec

  predicate AllLetters(s: seq<Byte>) {
    forall i :: 0 <= i < |s| ==> IsBase64(s[i])
  }

  /** The letters of one group of at most three bytes; missing bytes count as zero. */
  function GroupLetters(x: seq<Byte>): (s: seq<Byte>)
    requires |x| <= 3
    ensures |s| == if x == [] then 0 else |x| + 1
    ensures AllLetters(s)
  {
    match |x|
    case 0 => []
    case 1 => [Letter(D0(x[0])), Letter(D1(x[0], 0))]
    case 2 => [Letter(D0(x[0])), Letter(D1(x[0], x[1])), Letter(D2(x[1], 0))]
    case _ => [Letter(D0(x[0])), Letter(D1(x[0], x[1])), Letter(D2(x[1], x[2])), Letter(D3(x[2]))]
  }

  /** The letters of the encoding of section 4 of RFC 4648, group by group. */
  function LettersOf(x: seq<Byte>): seq<Byte> {
    if |x| < 3 then GroupLetters(x) else GroupLetters(x[..3]) + LettersOf(x[3..])
  }

  /** The padding that completes the last group of the encoding of n bytes. */
  function Padding(n: nat): seq<Byte> {
    if n % 3 == 1 then [PAD, PAD] else if n % 3 == 2 then [PAD] else []
  }

  function Encoding(x: seq<Byte>): seq<Byte> {
    LettersOf(x) + Padding(|x|)
  }

  lemma PaddingIsPad(n: nat)
    ensures forall i :: 0 <= i < |Padding(n)| ==> Padding(n)[i] == PAD
  {
  }

  /** Full groups need no padding. */
  lemma PaddingOfTail(groups: nat, i: nat)
    requires i < 3
    ensures Padding(3 * groups + i) == Padding(i) && Padding(0) == []
  {
  }

  lemma {:induction false} LettersOfAreLetters(x: seq<Byte>)
    ensures AllLetters(LettersOf(x))
  {
    hide GroupLetters;
    if |x| >= 3 {
      LettersOfAreLetters(x[3..]);
    }
  }

  /** The encoding fills whole groups of four. */
  lemma {:induction false} EncodingLength(x: seq<Byte>)
    ensures |Encoding(x)| == (|x| + 2) / 3 * 4
  {
    hide GroupLetters, AllLetters;
    if |x| >= 3 {
      EncodingLength(x[3..]);
      assert |LettersOf(x)| == 4 + |LettersOf(x[3..])|;
      assert Padding(|x|) == Padding(|x| - 3);
      hide LettersOf, Padding;
      assert (|x| + 2) / 3 == (|x| - 3 + 2) / 3 + 1;
    }
  }

  /** The length of the longest prefix made of alphabet letters only. */
  function LetterCount(s: seq<Byte>): (k: nat)
    ensures k <= |s| && AllLetters(s[..k])
    ensures k < |s| ==> !IsBase64(s[k])
  {
    if s == [] || !IsBase64(s[0]) then 0 else 1 + LetterCount(s[1..])
  }

  /** The bytes that a group of at most four letters determines completely. */
  function GroupBytes(s: seq<Byte>): (x: seq<Byte>)
    requires |s| <= 4 && AllLetters(s)
    ensures |x| == if s == [] then 0 else |s| - 1
  {
    match |s|
    case 0 => []
    case 1 => []
    case 2 => [B0(Find(s[0]), Find(s[1]))]
    case 3 => [B0(Find(s[0]), Find(s[1])), B1(Find(s[1]), Find(s[2]))]
    case _ => [B0(Find(s[0]), Find(s[1])), B1(Find(s[1]), Find(s[2])), B2(Find(s[2]), Find(s[3]))]
  }

  /** What a run of letters decodes to, group by group. */
  function BytesOf(s: seq<Byte>): seq<Byte>
    requires AllLetters(s)
  {
    if |s| < 4 then GroupBytes(s) else GroupBytes(s[..4]) + BytesOf(s[4..])
  }

  function Decoding(s: seq<Byte>): seq<Byte> {
    BytesOf(s[..LetterCount(s)])
  }

  lemma {:induction false} BytesOfLength(s: seq<Byte>)
    requires AllLetters(s)
    ensures |BytesOf(s)| == |s| * 3 / 4
  {
    if |s| >= 4 {
      BytesOfLength(s[4..]);
    }
  }

  // ---------------------------------------------------------------- masks and shifts

  /** The masks and shifts of the encoder select the digits of the group. */
  lemma SplitMasks(c0: Byte, c1: Byte, c2: Byte)
    ensures (c0 & 0xfc) >> 2 == D0(c0)
    ensures ((c0 & 0x03) << 4) + ((c1 & 0xf0) >> 4) == D1(c0, c1)
    ensures ((c1 & 0x0f) << 2) + ((c2 & 0xc0) >> 6) == D2(c1, c2)
    ensures c2 & 0x3f == D3(c2)
  {
  }

  /** The masks and shifts of the decoder select the bytes of the group. */
  lemma JoinMasks(c0: Byte, c1: Byte, c2: Byte, c3: Byte)
    ensures c0 < 64 && c1 < 64 ==> (c0 << 2) + ((c1 & 0x30) >> 4) == B0(c0, c1)
    ensures c1 < 64 && c2 < 64 ==> ((c1 & 0xf) << 4) + ((c2 & 0x3c) >> 2) == B1(c1, c2)
    ensures c2 < 64 && c3 < 64 ==> ((c2 & 0x3) << 6) + c3 == B2(c2, c3)
  {
  }

  // ---------------------------------------------------------------- the encoder

  /** Fills the digit buffer from the byte buffer. */
  method SplitGroup(charArray3: array<Byte>, charArray4: array<Byte>)
    requires charArray3.Length == 3 && charArray4.Length == 4 && charArray3 != charArray4
    modifies charArray4
    ensures charArray4[..] == [D0(charArray3[0]), D1(charArray3[0], charArray3[1]),
                               D2(charArray3[1], charArray3[2]), D3(charArray3[2])]
  {
    hide D0, D1, D2, D3;
    SplitMasks(charArray3[0], charArray3[1], charArray3[2]);
    charArray4[0] := (charArray3[0] & 0xfc) >> 2;
    charArray4[1] := ((charArray3[0] & 0x03) << 4) + ((charArray3[1] & 0xf0) >> 4);
    charArray4[2] := ((charArray3[1] & 0x0f) << 2) + ((charArray3[2] & 0xc0) >> 6);
    charArray4[3] := charArray3[2] & 0x3f;
  }

  function Letters(digits: seq<Byte>): (s: seq<Byte>)
    requires forall k :: 0 <= k < |digits| ==> digits[k] < 64
    ensures |s| == |digits|
  {
    seq(|digits|, k requires 0 <= k < |digits| => Letter(digits[k]))
  }

  /** Appends the letters of the first n digits of the buffer. */
  method AppendLetters(ret: seq<Byte>, charArray4: array<Byte>, n: nat) returns (longer: seq<Byte>)
    requires n <= charArray4.Length
    requires forall k :: 0 <= k < charArray4.Length ==> charArray4[k] < 64
    ensures longer == ret + Letters(charArray4[..n])
  {
    longer := ret;
    for j := 0 to n
      invariant longer == ret + Letters(charArray4[..j])
    {
      longer := longer + [Letter(charArray4[j])];
    }
  }

  lemma Regroup(a: seq<Byte>, b: seq<Byte>, c: seq<Byte>)
    ensures (a + b) + c == a + (b + c)
  {
  }

  /** Flushes a full byte buffer. */
  method EncodeGroup(charArray3: array<Byte>, charArray4: array<Byte>, ret: seq<Byte>)
    returns (longer: seq<Byte>)
    requires charArray3.Length == 3 && charArray4.Length == 4 && charArray3 != charArray4
    modifies charArray4
    ensures longer == ret + GroupLetters(charArray3[..])
  {
    SplitGroup(charArray3, charArray4);
    longer := AppendLetters(ret, charArray4, 4);
    assert charArray4[..4] == charArray4[..];
  }

  /** Flushes a buffer of which only the first i bytes are filled, and pads the text. */
  method EncodeTail(charArray3: array<Byte>, charArray4: array<Byte>, i: nat, ret: seq<Byte>)
    returns (longer: seq<Byte>)
    requires charArray3.Length == 3 && charArray4.Length == 4 && charArray3 != charArray4
    requires 1 <= i <= 2
    modifies charArray3, charArray4
    ensures longer == ret + GroupLetters(old(charArray3[..i])) + Padding(i)
  {
    ghost var tail := charArray3[..i];
    for j := i to 3
      invariant charArray3[..i] == tail
      invariant forall k :: i <= k < j ==> charArray3[k] == 0
    {
      charArray3[j] := 0;
    }
    assert charArray3[0] == tail[0] && (i == 2 ==> charArray3[1] == tail[1]);
    SplitGroup(charArray3, charArray4);
    longer := AppendLetters(ret, charArray4, i + 1);
    assert Letters(charArray4[..i + 1]) == GroupLetters(tail);
    var n := i;
    while n < 3
      invariant i <= n <= 3
      invariant longer == ret + GroupLetters(tail) + Padding(i)[..n - i]
    {
      longer := longer + [PAD];
      n := n + 1;
    }
  }

  /** The letters of a text from position p on. */
  lemma LettersFrom(x: seq<Byte>, p: nat)
    requires p <= |x|
    ensures p + 3 <= |x| ==> LettersOf(x[p..]) == GroupLetters(x[p..p + 3]) + LettersOf(x[p + 3..])
    ensures p + 3 > |x| ==> LettersOf(x[p..]) == GroupLetters(x[p..])
    ensures p == |x| ==> LettersOf(x[p..]) == []
  {
    if p + 3 <= |x| {
      assert x[p..][..3] == x[p..p + 3] && x[p..][3..] == x[p + 3..];
    }
  }

  /** The loop over the bytes: every third byte flushes the buffer; i bytes stay in it. */
  method EncodeFullGroups(toEncode: seq<Byte>, charArray3: array<Byte>, charArray4: array<Byte>)
    returns (ret: seq<Byte>, i: nat, ghost groups: nat)
    requires charArray3.Length == 3 && charArray4.Length == 4 && charArray3 != charArray4
    modifies charArray3, charArray4
    ensures i < 3 && |toEncode| == 3 * groups + i
    ensures charArray3[..i] == toEncode[|toEncode| - i..]
    ensures ret + LettersOf(charArray3[..i]) == LettersOf(toEncode)
  {
    hide GroupLetters, LettersOf;
    ret, i, groups := [], 0, 0;
    var next := 0;
    while next < |toEncode|
      invariant 0 <= i < 3 && next - i == 3 * groups && next <= |toEncode|
      invariant charArray3[..i] == toEncode[next - i..next]
      invariant ret + LettersOf(toEncode[next - i..]) == LettersOf(toEncode)
    {
      ghost var buffered := charArray3[..i];
      assert toEncode[next - i..next + 1] == buffered + [toEncode[next]];
      charArray3[i] := toEncode[next];
      assert charArray3[..i + 1] == buffered + [toEncode[next]];
      i, next := i + 1, next + 1;
      if i == 3 {
        LettersFrom(toEncode, next - 3);
        assert charArray3[..] == toEncode[next - 3..next];
        Regroup(ret, GroupLetters(charArray3[..]), LettersOf(toEncode[next..]));
        ret := EncodeGroup(charArray3, charArray4, ret);
        i, groups := 0, groups + 1;
      }
    }
  }

  method Base64Encode(toEncode: seq<Byte>) returns (ret: seq<Byte>)
    requires |toEncode| <= UINT_MAX
    ensures ret == Encoding(toEncode)
  {
    ret := [];
    if |toEncode| == 0 {
      return;
    }
    var charArray3 := new Byte[3];
    var charArray4 := new Byte[4];
    var i;
    ghost var groups;
    ret, i, groups := EncodeFullGroups(toEncode, charArray3, charArray4);
    PaddingOfTail(groups, i);
    if i > 0 {
      ret := EncodeTail(charArray3, charArray4, i, ret);
    }
  }

  // ---------------------------------------------------------------- the decoder

  /** Fills the byte buffer from four looked-up values.  A byte is the one the reference
      gives as soon as the two values it is made of are digits, whatever the others are. */
  method JoinGroup(charArray4: array<Byte>, charArray3: array<Byte>)
    requires charArray3.Length == 3 && charArray4.Length == 4 && charArray3 != charArray4
    modifies charArray3
    ensures charArray4[0] < 64 && charArray4[1] < 64 ==>
              charArray3[0] == B0(charArray4[0], charArray4[1])
    ensures charArray4[1] < 64 && charArray4[2] < 64 ==>
              charArray3[1] == B1(charArray4[1], charArray4[2])
    ensures charArray4[2] < 64 && charArray4[3] < 64 ==>
              charArray3[2] == B2(charArray4[2], charArray4[3])
  {
    hide B0, B1, B2;
    JoinMasks(charArray4[0], charArray4[1], charArray4[2], charArray4[3]);
    charArray3[0] := (charArray4[0] << 2) + ((charArray4[1] & 0x30) >> 4);
    charArray3[1] := ((charArray4[1] & 0xf) << 4) + ((charArray4[2] & 0x3c) >> 2);
    charArray3[2] := ((charArray4[2] & 0x3) << 6) + charArray4[3];
  }

  /** Replaces every entry of the buffer by its position in the alphabet. */
  method LookUpAll(charArray4: array<Byte>)
    requires charArray4.Length == 4
    modifies charArray4
    ensures forall k :: 0 <= k < 4 ==> charArray4[k] == Find(old(charArray4[k]))
  {
    for i := 0 to 4
      invariant forall k :: 0 <= k < i ==> charArray4[k] == Find(old(charArray4[k]))
      invariant forall k :: i <= k < 4 ==> charArray4[k] == old(charArray4[k])
    {
      charArray4[i] := Find(charArray4[i]);
    }
  }

  /** Flushes a full digit buffer. */
  method DecodeGroup(charArray4: array<Byte>, charArray3: array<Byte>, ret: seq<Byte>)
    returns (longer: seq<Byte>)
    requires charArray3.Length == 3 && charArray4.Length == 4 && charArray3 != charArray4
    requires AllLetters(charArray4[..])
    modifies charArray3, charArray4
    ensures longer == ret + GroupBytes(old(charArray4[..]))
  {
    ghost var group := charArray4[..];
    assert forall k :: 0 <= k < 4 ==> charArray4[k] == group[k];
    LookUpAll(charArray4);
    JoinGroup(charArray4, charArray3);
    assert charArray3[..] == GroupBytes(group);
    longer := ret + charArray3[..];
  }

  /** Flushes a digit buffer of which only the first i entries are filled.  The entries behind
      them hold the cut-down npos and reach no byte that is kept. */
  method DecodeTail(charArray4: array<Byte>, charArray3: array<Byte>, i: nat, ret: seq<Byte>)
    returns (longer: seq<Byte>)
    requires charArray3.Length == 3 && charArray4.Length == 4 && charArray3 != charArray4
    requires 1 <= i <= 3 && AllLetters(charArray4[..i])
    modifies charArray3, charArray4
    ensures longer == ret + GroupBytes(old(charArray4[..i]))
  {
    ghost var tail := charArray4[..i];
    for j := i to 4
      invariant charArray4[..i] == tail
      invariant forall n :: i <= n < j ==> charArray4[n] == 0
    {
      charArray4[j] := 0;
    }
    assert forall n :: 0 <= n < i ==> charArray4[n] == tail[n];
    LookUpAll(charArray4);
    JoinGroup(charArray4, charArray3);
    assert charArray3[..i - 1] == GroupBytes(tail);
    longer := ret + charArray3[..i - 1];
  }

  lemma BytesFrom(s: seq<Byte>, p: nat)
    requires p <= |s| && AllLetters(s)
    ensures p + 4 <= |s| ==> AllLetters(s[p..p + 4]) && AllLetters(s[p + 4..])
    ensures p + 4 <= |s| ==> BytesOf(s[p..]) == GroupBytes(s[p..p + 4]) + BytesOf(s[p + 4..])
    ensures p + 4 > |s| ==> BytesOf(s[p..]) == GroupBytes(s[p..])
    ensures p == |s| ==> BytesOf(s[p..]) == []
  {
    if p + 4 <= |s| {
      assert s[p..][..4] == s[p..p + 4] && s[p..][4..] == s[p + 4..];
    }
  }

  /** The loop over the text: every fourth letter flushes the buffer, and the first character
      outside the alphabet, padding included, ends it; i letters stay in the buffer. */
  method DecodeFullGroups(basicString: seq<Byte>, charArray4: array<Byte>, charArray3: array<Byte>)
    returns (ret: seq<Byte>, i: nat)
    requires charArray3.Length == 3 && charArray4.Length == 4 && charArray3 != charArray4
    modifies charArray3, charArray4
    ensures i < 4 && AllLetters(charArray4[..i])
    ensures ret + BytesOf(charArray4[..i]) == Decoding(basicString)
  {
    PadIsNoLetter();
    hide GroupBytes, IsBase64, BytesOf, LetterCount;
    ghost var letters := basicString[..LetterCount(basicString)];
    ret, i := [], 0;
    var index := 0;
    while index < |basicString| && basicString[index] != PAD && IsBase64(basicString[index])
      invariant 0 <= i < 4 && i <= index <= |letters|
      invariant charArray4[..i] == letters[index - i..index]
      invariant ret + BytesOf(letters[index - i..]) == BytesOf(letters)
    {
      ghost var buffered := charArray4[..i];
      assert letters[index - i..index + 1] == buffered + [basicString[index]];
      charArray4[i] := basicString[index];
      assert charArray4[..i + 1] == buffered + [basicString[index]];
      i, index := i + 1, index + 1;
      if i == 4 {
        BytesFrom(letters, index - 4);
        assert charArray4[..] == letters[index - 4..index];
        Regroup(ret, GroupBytes(charArray4[..]), BytesOf(letters[index..]));
        ret := DecodeGroup(charArray4, charArray3, ret);
        i := 0;
      }
    }
    assert charArray4[..i] == letters[index - i..];
  }

  method Base64Decode(basicString: seq<Byte>) returns (ret: seq<Byte>)
    requires |basicString| <= INT_MAX
    ensures ret == Decoding(basicString)
  {
    ret := [];
    if basicString == [] {
      return;
    }
    var charArray3 := new Byte[3];
    var charArray4 := new Byte[4];
    var i;
    ret, i := DecodeFullGroups(basicString, charArray4, charArray3);
    if i > 0 {
      ret := DecodeTail(charArray4, charArray3, i, ret);
    }
  }

  // ---------------------------------------------------------------- what the codec guarantees

  /** Text behind the first character outside the alphabet is never looked at. */
  lemma {:induction false} LetterCountOfRun(s: seq<Byte>, rest: seq<Byte>)
    requires AllLetters(s)
    requires rest == [] || !IsBase64(rest[0])
    ensures LetterCount(s + rest) == |s|
  {
    if s == [] {
      assert s + rest == rest;
    } else {
      LetterCountOfRun(s[1..], rest);
      assert (s + rest)[1..] == s[1..] + rest;
    }
  }

  lemma DecodingIgnoresRest(s: seq<Byte>, rest: seq<Byte>)
    requires AllLetters(s)
    requires rest == [] || !IsBase64(rest[0])
    ensures Decoding(s + rest) == BytesOf(s)
  {
    LetterCountOfRun(s, rest);
    assert (s + rest)[..|s|] == s;
  }

  lemma GroupLettersRoundTrip(x: seq<Byte>)
    requires |x| <= 3
    ensures GroupBytes(GroupLetters(x)) == x
  {
    hide Letter, Find, IsBase64, D0, D1, D2, D3, B0, B1, B2;
    var b0, b1, b2 := if |x| > 0 then x[0] else 0, if |x| > 1 then x[1] else 0, if |x| > 2 then x[2] else 0;
    GroupRoundTrip(b0, b1, b2);
    FindLetter(D0(b0));
    FindLetter(D1(b0, b1));
    FindLetter(D2(b1, b2));
    FindLetter(D3(b2));
  }

  lemma {:induction false} LettersRoundTrip(x: seq<Byte>)
    ensures AllLetters(LettersOf(x)) && BytesOf(LettersOf(x)) == x
  {
    hide GroupLetters, GroupBytes;
    LettersOfAreLetters(x);
    if |x| < 3 {
      GroupLettersRoundTrip(x);
    } else {
      GroupLettersRoundTrip(x[..3]);
      LettersRoundTrip(x[3..]);
      var s := LettersOf(x);
      assert s[..4] == GroupLetters(x[..3]) && s[4..] == LettersOf(x[3..]);
    }
  }

  /** Decoding an encoding gives the bytes back. */
  lemma RoundTrip(x: seq<Byte>)
    ensures Decoding(Encoding(x)) == x
  {
    LettersRoundTrip(x);
    DecodingIgnoresRest(LettersOf(x), Padding(|x|));
  }

  /** Every text decodes to exactly floor(3k / 4) bytes, k being the length of its letter run. */
  lemma DecodingLength(s: seq<Byte>)
    ensures |Decoding(s)| == LetterCount(s) * 3 / 4
  {
    BytesOfLength(s[..LetterCount(s)]);
  }

  // ---------------------------------------------------------------- canonical texts

  /** The unused bits of the last letter of an incomplete group are zero, and no group ends
      after its first letter (section 3.5 of RFC 4648). */
  predicate CanonicalLetters(s: seq<Byte>)
    requires AllLetters(s)
  {
    var last := if s == [] then 0 else Find(s[|s| - 1]);
    match |s| % 4
    case 0 => true
    case 1 => false
    case 2 => last & 15 == 0
    case _ => last & 3 == 0
  }

  /** A canonical text is a canonical run of letters followed by its padding and nothing else. */
  predicate Canonical(s: seq<Byte>) {
    var k := LetterCount(s);
    CanonicalLetters(s[..k]) && s[k..] == Padding(k * 3 / 4)
  }

  /** The last letter of an incomplete group is rebuilt exactly when its unused bits are zero. */
  lemma LastDigit(d0: Digit, d1: Digit, d2: Digit)
    ensures D1(B0(d0, d1), 0) == d1 <==> d1 & 15 == 0
    ensures D2(B1(d1, d2), 0) == d2 <==> d2 & 3 == 0
  {
  }

  lemma GroupRoundTripBackTail(s: seq<Byte>)
    requires |s| <= 4 && AllLetters(s)
    ensures GroupLetters(GroupBytes(s)) == s <==> CanonicalLetters(s)
  {
    hide Letter, Find, IsBase64, D0, D1, D2, D3, B0, B1, B2;
    if |s| == 2 {
      GroupRoundTripBack(Find(s[0]), Find(s[1]), 0, 0);
      LastDigit(Find(s[0]), Find(s[1]), 0);
      FindLetter(D1(GroupBytes(s)[0], 0));
    } else if |s| == 3 {
      GroupRoundTripBack(Find(s[0]), Find(s[1]), Find(s[2]), 0);
      LastDigit(Find(s[0]), Find(s[1]), Find(s[2]));
      FindLetter(D2(GroupBytes(s)[1], 0));
    } else if |s| == 4 {
      GroupRoundTripBack(Find(s[0]), Find(s[1]), Find(s[2]), Find(s[3]));
    }
  }

  /** Two texts put together make s exactly if they are its two parts. */
  lemma SplitEqual(first: seq<Byte>, second: seq<Byte>, s: seq<Byte>, k: nat)
    requires k <= |s| && (first + second == s ==> |first| == k)
    ensures first + second == s <==> first == s[..k] && second == s[k..]
  {
    assert s == s[..k] + s[k..];
  }

  /** Only the last, incomplete group decides whether a run of letters is canonical. */
  lemma CanonicalTail(s: seq<Byte>)
    requires |s| >= 4 && AllLetters(s)
    ensures CanonicalLetters(s[..4])
    ensures CanonicalLetters(s) <==> CanonicalLetters(s[4..])
  {
    assert |s[4..]| % 4 == |s| % 4;
    assert s[4..] != [] ==> s[4..][|s[4..]| - 1] == s[|s| - 1];
    hide Find, IsBase64;
  }

  lemma {:induction false} LettersRoundTripBack(s: seq<Byte>)
    requires AllLetters(s)
    ensures LettersOf(BytesOf(s)) == s <==> CanonicalLetters(s)
  {
    if |s| < 4 {
      GroupRoundTripBackTail(s);
      hide GroupLetters, GroupBytes, CanonicalLetters, AllLetters;
    } else {
      GroupRoundTripBackTail(s[..4]);
      LettersRoundTripBack(s[4..]);
      FirstGroupBack(s);
      CanonicalTail(s);
      hide LettersOf, BytesOf, GroupLetters, GroupBytes, CanonicalLetters, AllLetters, IsBase64;
      SplitEqual(GroupLetters(GroupBytes(s[..4])), LettersOf(BytesOf(s[4..])), s, 4);
    }
  }

  /** A leading full group is coded on its own. */
  lemma FirstGroupBack(s: seq<Byte>)
    requires |s| >= 4 && AllLetters(s)
    ensures LettersOf(BytesOf(s)) == GroupLetters(GroupBytes(s[..4])) + LettersOf(BytesOf(s[4..]))
    ensures |GroupLetters(GroupBytes(s[..4]))| == 4
  {
    hide GroupLetters, GroupBytes, IsBase64, Find;
    var x := BytesOf(s);
    assert x[..3] == GroupBytes(s[..4]) && x[3..] == BytesOf(s[4..]);
  }

  /** The letter run of an encoding is its letters, without the padding. */
  lemma EncodingStart(x: seq<Byte>)
    ensures LetterCount(Encoding(x)) == |LettersOf(x)|
    ensures Encoding(x)[..|LettersOf(x)|] == LettersOf(x) && Encoding(x)[|LettersOf(x)|..] == Padding(|x|)
  {
    LettersOfAreLetters(x);
    PadIsNoLetter();
    PaddingIsPad(|x|);
    hide LettersOf, Padding, LetterCount, AllLetters;
    LetterCountOfRun(LettersOf(x), Padding(|x|));
  }

  /** Re-encoding the decoded bytes gives the text back exactly when the text is canonical. */
  lemma RoundTripBack(s: seq<Byte>)
    ensures Encoding(Decoding(s)) == s <==> Canonical(s)
  {
    var k, x := LetterCount(s), Decoding(s);
    LettersRoundTripBack(s[..k]);
    BytesOfLength(s[..k]);
    EncodingStart(x);
    hide LettersOf, BytesOf, Padding, CanonicalLetters, LetterCount, AllLetters, IsBase64;
    SplitEqual(LettersOf(x), Padding(|x|), s, k);
  }

  /** The methods together: what was encoded is what is decoded. */
  method EncodeThenDecode(x: seq<Byte>) returns (y: seq<Byte>)
    requires (|x| + 2) / 3 * 4 <= INT_MAX
    ensures y == x
  {
    var s := Base64Encode(x);
    EncodingLength(x);
    y := Base64Decode(s);
    RoundTrip(x);
  }

  // ---------------------------------------------------------------- the bits of a group

  // Section 4 of RFC 4648 in its own words: a group is 24 bits, most significant bit first, cut into
  // three bytes of eight or four digits of six.

  lemma DigitShifts(b0: Byte, b1: Byte, b2: Byte)
    ensures D0(b0) == b0 >> 2
    ensures D1(b0, b1) == ((b0 & 3) << 4) | (b1 >> 4)
    ensures D2(b1, b2) == ((b1 & 15) << 2) | (b2 >> 6)
    ensures D3(b2) == b2 & 63
  {
  }

  lemma ByteShifts(d0: Digit, d1: Digit, d2: Digit, d3: Digit)
    ensures B0(d0, d1) == (d0 << 2) | (d1 >> 4)
    ensures B1(d1, d2) == ((d1 & 15) << 4) | (d2 >> 2)
    ensures B2(d2, d3) == ((d2 & 3) << 6) | d3
  {
  }

  lemma {:induction false} LettersOfConcat(x: seq<Byte>, y: seq<Byte>)
    requires |x| % 3 == 0
    ensures LettersOf(x + y) == LettersOf(x) + LettersOf(y)
    decreases |x|
  {
    hide GroupLetters;
    if x == [] {
      assert x + y == y;
    } else {
      LettersOfConcat(x[3..], y);
      assert (x + y)[..3] == x[..3] && (x + y)[3..] == x[3..] + y;
      Regroup(GroupLetters(x[..3]), LettersOf(x[3..]), LettersOf(y));
    }
  }

  lemma PaddingShifts(groups: nat, n: nat)
    ensures Padding(3 * groups + n) == Padding(n) && Padding(0) == []
  {
    assert (3 * groups + n) % 3 == n % 3;
  }

  lemma UnpaddedFirst(x: seq<Byte>, y: seq<Byte>)
    requires LettersOf(x + y) == LettersOf(x) + LettersOf(y)
    requires Padding(|x|) == [] && Padding(|x + y|) == Padding(|y|)
    ensures Encoding(x + y) == Encoding(x) + Encoding(y)
  {
    hide LettersOf, Padding;
    Regroup(LettersOf(x), LettersOf(y), Padding(|y|));
    assert Encoding(x) == LettersOf(x);
  }

  /** Whole groups are encoded one by one. */
  lemma EncodingConcat(x: seq<Byte>, y: seq<Byte>)
    requires |x| % 3 == 0
    ensures Encoding(x + y) == Encoding(x) + Encoding(y)
  {
    var groups := |x| / 3;
    assert |x| == 3 * groups + 0 && |x + y| == 3 * groups + |y|;
    LettersOfConcat(x, y);
    PaddingShifts(groups, |y|);
    PaddingShifts(groups, 0);
    hide Encoding, LettersOf, Padding;
    UnpaddedFirst(x, y);
  }

  /** The text of one group: the digits its letters stand for are the bits of its bytes, six by six;
      missing bits are zero and missing digits are padding. */
  lemma EncodingBits(b: seq<Byte>)
    requires 1 <= |b| <= 3
    ensures var e := Encoding(b);
            && |e| == 4 && Find(e[0]) == b[0] >> 2
            && (|b| == 1 ==> Find(e[1]) == (b[0] & 3) << 4 && e[2] == PAD && e[3] == PAD)
            && (|b| >= 2 ==> Find(e[1]) == ((b[0] & 3) << 4) | (b[1] >> 4))
            && (|b| == 2 ==> Find(e[2]) == (b[1] & 15) << 2 && e[3] == PAD)
            && (|b| == 3 ==> Find(e[2]) == ((b[1] & 15) << 2) | (b[2] >> 6) && Find(e[3]) == b[2] & 63)
  {
    GroupLettersBits(b);
    assert |b| == 3 ==> b[..3] == b && LettersOf(b[3..]) == [];
    assert LettersOf(b) == GroupLetters(b);
    hide GroupLetters, Find, AllLetters, LettersOf;
  }

  lemma GroupLettersBits(b: seq<Byte>)
    requires 1 <= |b| <= 3
    ensures var l := GroupLetters(b);
            && Find(l[0]) == b[0] >> 2
            && (|b| == 1 ==> Find(l[1]) == (b[0] & 3) << 4)
            && (|b| >= 2 ==> Find(l[1]) == ((b[0] & 3) << 4) | (b[1] >> 4))
            && (|b| == 2 ==> Find(l[2]) == (b[1] & 15) << 2)
            && (|b| == 3 ==> Find(l[2]) == ((b[1] & 15) << 2) | (b[2] >> 6) && Find(l[3]) == b[2] & 63)
  {
    var b1, b2 := if |b| > 1 then b[1] else 0, if |b| > 2 then b[2] else 0;
    DigitShifts(b[0], b1, b2);
    FindLetter(D0(b[0]));
    FindLetter(D1(b[0], b1));
    FindLetter(D2(b1, b2));
    FindLetter(D3(b2));
    hide Find, Letter, D0, D1, D2, D3;
  }

  lemma {:induction false} BytesOfConcat(s: seq<Byte>, t: seq<Byte>)
    requires AllLetters(s) && AllLetters(t) && |s| % 4 == 0
    ensures BytesOf(s + t) == BytesOf(s) + BytesOf(t)
    decreases |s|
  {
    hide GroupBytes, IsBase64;
    if s == [] {
      assert s + t == t;
    } else {
      BytesOfConcat(s[4..], t);
      assert (s + t)[..4] == s[..4] && (s + t)[4..] == s[4..] + t;
      Regroup(GroupBytes(s[..4]), BytesOf(s[4..]), BytesOf(t));
    }
  }

  lemma {:induction false} LetterCountConcat(s: seq<Byte>, t: seq<Byte>)
    requires AllLetters(s)
    ensures LetterCount(s + t) == |s| + LetterCount(t)
    decreases |s|
  {
    hide IsBase64;
    if s == [] {
      assert s + t == t;
    } else {
      LetterCountConcat(s[1..], t);
      assert (s + t)[1..] == s[1..] + t;
    }
  }

  /** Whole groups are decoded one by one. */
  lemma DecodingConcat(s: seq<Byte>, t: seq<Byte>)
    requires AllLetters(s) && |s| % 4 == 0
    ensures Decoding(s + t) == Decoding(s) + Decoding(t)
  {
    LetterCountConcat(s, t);
    LetterCountConcat(s, []);
    assert s + [] == s && LetterCount([]) == 0;
    var n := LetterCount(t);
    assert (s + t)[..|s| + n] == s + t[..n] && s[..|s|] == s;
    hide LetterCount, AllLetters, BytesOf;
    BytesOfConcat(s, t[..n]);
  }

  /** What one group of letters decodes to: the bits of the digits, eight by eight; bits that fill no
      byte are dropped. */
  lemma DecodingBits(l: seq<Byte>)
    requires 1 <= |l| <= 4 && AllLetters(l)
    ensures var y := Decoding(l);
            && |y| == |l| - 1
            && (|l| >= 2 ==> y[0] == (Find(l[0]) << 2) | (Find(l[1]) >> 4))
            && (|l| >= 3 ==> y[1] == ((Find(l[1]) & 15) << 4) | (Find(l[2]) >> 2))
            && (|l| == 4 ==> y[2] == ((Find(l[2]) & 3) << 6) | Find(l[3]))
  {
    LetterCountConcat(l, []);
    assert l + [] == l && LetterCount([]) == 0 && l[..|l|] == l;
    assert |l| == 4 ==> l[..4] == l && BytesOf(l[4..]) == [];
    assert BytesOf(l) == GroupBytes(l);
    hide LetterCount, BytesOf;
    GroupBytesBits(l);
    hide GroupBytes, Find, AllLetters, IsBase64;
  }

  lemma GroupBytesBits(l: seq<Byte>)
    requires 1 <= |l| <= 4 && AllLetters(l)
    ensures var b := GroupBytes(l);
            && (|l| >= 2 ==> b[0] == (Find(l[0]) << 2) | (Find(l[1]) >> 4))
            && (|l| >= 3 ==> b[1] == ((Find(l[1]) & 15) << 4) | (Find(l[2]) >> 2))
            && (|l| == 4 ==> b[2] == ((Find(l[2]) & 3) << 6) | Find(l[3]))
  {
    hide Find, IsBase64, B0, B1, B2;
    if |l| > 1 {
      ByteShifts(Find(l[0]), Find(l[1]), if |l| > 2 then Find(l[2]) else 0, if |l| > 3 then Find(l[3]) else 0);
    }
  }
}
