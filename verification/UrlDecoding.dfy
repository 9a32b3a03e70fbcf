/** Percent-decoding to a fixpoint, and the path check built on it.

    A valid escape is `%` followed by two hexadecimal digits (section 2.1 of RFC 3986).
    Contracting one escape to the character it denotes is one rewriting step; the decoder
    of the source contracts all escapes of a string in one pass and repeats until nothing
    changes.  The module proves the rewriting system confluent and terminating, shows that
    the loops compute its unique normal form, and derives what the path check guarantees
    for every spelling of a path. */
module UrlDecoding {

  const URL_ESCAPE_CHAR := '%'
  const HEX_ESCAPE_LENGTH := 2
  const HEX_DIGIT_INVALID := 0xFFFFFFFF
  const DISTRIBUTED_FILES_PATH := "/data/storage/el2/distributedfiles/"

  // ---------------------------------------------------------------- one escape

  /** The digit a character stands for, or the invalid marker. */
  function HexCharToDigit(c: char): (digit: nat)
    ensures digit < 16 || digit == HEX_DIGIT_INVALID
    ensures digit < 16 ==> c != URL_ESCAPE_CHAR && c != '.'
  {
    if '0' <= c <= '9' then c as int - '0' as int
    else if 'a' <= c <= 'f' then c as int - 'a' as int + 10
    else if 'A' <= c <= 'F' then c as int - 'A' as int + 10
    else HEX_DIGIT_INVALID
  }

  /** A complete, valid escape starts at position i. */
  predicate IsEscape(s: string, i: nat) {
    && i + HEX_ESCAPE_LENGTH < |s|
    && s[i] == URL_ESCAPE_CHAR
    && HexCharToDigit(s[i + 1]) != HEX_DIGIT_INVALID
    && HexCharToDigit(s[i + 2]) != HEX_DIGIT_INVALID
  }

  /** The character denoted by the escape at i. */
  function Denoted(s: string, i: nat): char
    requires IsEscape(s, i)
  {
    (HexCharToDigit(s[i + 1]) * 16 + HexCharToDigit(s[i + 2])) as char
  }

  /** One rewriting step: the escape at i is replaced by the character it denotes. */
  function Contract(s: string, i: nat): (t: string)
    requires IsEscape(s, i)
    ensures |t| == |s| - HEX_ESCAPE_LENGTH
  {
    s[..i] + [Denoted(s, i)] + s[i + 3..]
  }

  ghost predicate Reducible(s: string) {
    exists i: nat :: IsEscape(s, i)
  }

  /** t is obtained from s by contracting escapes one at a time, in some order. */
  ghost predicate Reaches(s: string, t: string)
    decreases |s|
  {
    s == t || exists i: nat :: IsEscape(s, i) && Reaches(Contract(s, i), t)
  }

  /** Contract until nothing is left to contract, choosing escapes arbitrarily. */
  ghost function NormalForm(s: string): (n: string)
    ensures !Reducible(n)
    ensures Reaches(s, n)
    decreases |s|
  {
    if Reducible(s) then
      var i: nat :| IsEscape(s, i);
      NormalForm(Contract(s, i))
    else s
  }

  // ---------------------------------------------------------------- confluence

  /** Escapes never overlap, so two of them can be contracted in either order. */
  lemma Diamond(s: string, i: nat, j: nat)
    requires i < j && IsEscape(s, i) && IsEscape(s, j)
    ensures i + 2 < j && IsEscape(Contract(s, i), j - 2) && IsEscape(Contract(s, j), i)
    ensures Contract(Contract(s, i), j - 2) == Contract(Contract(s, j), i)
  {
    assert i + 2 < j;
    var a, b := Contract(s, i), Contract(s, j);
    assert a[j - 2..j + 1] == s[j..j + 3];
    assert a[j - 2] == s[j] && a[j - 1] == s[j + 1] && a[j] == s[j + 2];
    assert b[i] == s[i] && b[i + 1] == s[i + 1] && b[i + 2] == s[i + 2];
    var mid := s[i + 3..j];
    assert Contract(a, j - 2) == s[..i] + [Denoted(s, i)] + mid + [Denoted(s, j)] + s[j + 3..];
    assert Contract(b, i) == s[..i] + [Denoted(s, i)] + mid + [Denoted(s, j)] + s[j + 3..];
  }

  /** The escape that NormalForm contracts first. */
  lemma FirstContraction(s: string) returns (k: nat)
    requires Reducible(s)
    ensures IsEscape(s, k) && NormalForm(s) == NormalForm(Contract(s, k))
  {
    k :| IsEscape(s, k) && NormalForm(s) == NormalForm(Contract(s, k));
  }

  /** Whichever escape is contracted first, the normal form is the same. */
  lemma {:induction false} ContractKeepsNormalForm(s: string, i: nat)
    requires IsEscape(s, i)
    ensures NormalForm(Contract(s, i)) == NormalForm(s)
    decreases |s|
  {
    hide NormalForm, Reaches, Contract, IsEscape;
    var k := FirstContraction(s);
    if i < k {
      Diamond(s, i, k);
      ContractKeepsNormalForm(Contract(s, i), k - 2);
      ContractKeepsNormalForm(Contract(s, k), i);
    } else if k < i {
      Diamond(s, k, i);
      ContractKeepsNormalForm(Contract(s, i), k);
      ContractKeepsNormalForm(Contract(s, k), i - 2);
    }
  }

  lemma {:induction false} ReachesKeepsNormalForm(s: string, t: string)
    requires Reaches(s, t)
    ensures NormalForm(t) == NormalForm(s)
    decreases |s|
  {
    if s != t {
      var i: nat :| IsEscape(s, i) && Reaches(Contract(s, i), t);
      ReachesKeepsNormalForm(Contract(s, i), t);
      ContractKeepsNormalForm(s, i);
    }
  }

  /** Every order of contraction that runs to its end ends in the same string. */
  lemma NormalFormIsUnique(s: string, t: string)
    ensures Reaches(s, t) && !Reducible(t) <==> t == NormalForm(s)
  {
    if Reaches(s, t) && !Reducible(t) {
      ReachesKeepsNormalForm(s, t);
    }
  }

  /** Church-Rosser: two strings decoded from one another's relatives always meet again. */
  lemma Confluence(s: string, t: string, u: string)
    requires Reaches(s, t) && Reaches(s, u)
    ensures Reaches(t, NormalForm(s)) && Reaches(u, NormalForm(s))
  {
    ReachesKeepsNormalForm(s, t);
    ReachesKeepsNormalForm(s, u);
  }

  lemma {:induction false} ReachesTransitive(s: string, t: string, u: string)
    requires Reaches(s, t) && Reaches(t, u)
    ensures Reaches(s, u)
    decreases |s|
  {
    if s != t {
      var i: nat :| IsEscape(s, i) && Reaches(Contract(s, i), t);
      ReachesTransitive(Contract(s, i), t, u);
    }
  }

  lemma ContractInContext(c: char, s: string, i: nat)
    requires IsEscape(s, i)
    ensures IsEscape([c] + s, i + 1) && Contract([c] + s, i + 1) == [c] + Contract(s, i)
  {
    hide HexCharToDigit;
  }

  /** Decoding the rest of a string is decoding the string. */
  lemma {:induction false} ReachesInContext(c: char, s: string, t: string)
    requires Reaches(s, t)
    ensures Reaches([c] + s, [c] + t)
    decreases |s|
  {
    hide Contract, IsEscape;
    if s != t {
      var i: nat :| IsEscape(s, i) && Reaches(Contract(s, i), t);
      ReachesInContext(c, Contract(s, i), t);
      ContractInContext(c, s, i);
    }
  }

  // ---------------------------------------------------------------- one pass

  /** All escapes of s contracted from left to right, without looking at the output again. */
  function Pass(s: string): (t: string)
    ensures |t| <= |s|
  {
    if s == "" then ""
    else if IsEscape(s, 0) then [Denoted(s, 0)] + Pass(s[3..])
    else [s[0]] + Pass(s[1..])
  }

  lemma {:induction false} PassReaches(s: string)
    ensures Reaches(s, Pass(s))
  {
    if s == "" {
    } else if IsEscape(s, 0) {
      PassReaches(s[3..]);
      ReachesInContext(Denoted(s, 0), s[3..], Pass(s[3..]));
      assert Contract(s, 0) == [Denoted(s, 0)] + s[3..];
    } else {
      PassReaches(s[1..]);
      ReachesInContext(s[0], s[1..], Pass(s[1..]));
      assert s == [s[0]] + s[1..];
    }
  }

  /** A pass is the identity exactly on the strings without a valid escape, and it shortens
      every other string: this is why repeating it terminates. */
  lemma {:induction false} PassProgress(s: string)
    ensures Pass(s) == s <==> !Reducible(s)
    ensures Reducible(s) <==> |Pass(s)| < |s|
  {
    if s == "" {
    } else if IsEscape(s, 0) {
      assert |Pass(s)| <= |s| - 2;
    } else {
      PassProgress(s[1..]);
      if Reducible(s[1..]) {
        var i: nat :| IsEscape(s[1..], i);
        assert IsEscape(s, i + 1);
      }
      if Reducible(s) {
        var i: nat :| IsEscape(s, i);
        assert IsEscape(s[1..], i - 1);
      }
      assert s == [s[0]] + s[1..];
    }
  }

  /** What a pass makes of the text from position i on. */
  lemma PassFrom(s: string, i: nat)
    requires i <= |s|
    ensures i == |s| ==> Pass(s[i..]) == ""
    ensures i < |s| && !IsEscape(s, i) ==> Pass(s[i..]) == [s[i]] + Pass(s[i + 1..])
    ensures IsEscape(s, i) ==> Pass(s[i..]) == [Denoted(s, i)] + Pass(s[i + 3..])
  {
    hide HexCharToDigit;
    if IsEscape(s, i) {
      assert IsEscape(s[i..], 0) && s[i..][3..] == s[i + 3..];
    } else if i < |s| {
      assert !IsEscape(s[i..], 0) && s[i..][1..] == s[i + 1..];
    }
  }

  /** One decoding pass over a string, as an index-skipping loop. */
  method SingleUrlDecode(encoded: string) returns (decoded: string)
    ensures decoded == Pass(encoded)
  {
    hide Pass, HexCharToDigit;
    decoded := "";
    var i := 0;
    while i < |encoded|
      invariant 0 <= i <= |encoded|
      invariant decoded + Pass(encoded[i..]) == Pass(encoded)
    {
      PassFrom(encoded, i);
      var skip := false;
      if encoded[i] == URL_ESCAPE_CHAR && i + HEX_ESCAPE_LENGTH < |encoded| {
        var digit1 := HexCharToDigit(encoded[i + 1]);
        var digit2 := HexCharToDigit(encoded[i + 2]);
        if digit1 != HEX_DIGIT_INVALID && digit2 != HEX_DIGIT_INVALID {
          decoded := decoded + [(digit1 * 16 + digit2) as char];
          i := i + HEX_ESCAPE_LENGTH;
          skip := true;
        }
      }
      if !skip {
        decoded := decoded + [encoded[i]];
      }
      i := i + 1;
    }
    PassFrom(encoded, i);
  }

  /** Passes repeated until the string no longer changes: the unique normal form. */
  method UrlDecode(encoded: string) returns (decoded: string)
    ensures decoded == NormalForm(encoded)
    ensures decoded == encoded <==> !Reducible(encoded)
  {
    decoded := encoded;
    var previous := "";
    var changed := true;
    while changed
      invariant Reaches(encoded, decoded)
      invariant !changed ==> !Reducible(decoded)
      decreases changed, |decoded|
    {
      previous := decoded;
      decoded := SingleUrlDecode(previous);
      changed := decoded != previous;
      PassReaches(previous);
      PassProgress(previous);
      ReachesTransitive(encoded, previous, decoded);
    }
    NormalFormIsUnique(encoded, decoded);
  }

  // ---------------------------------------------------------------- the path check

  predicate ContainsDotDot(s: string) {
    exists k :: 0 <= k < |s| - 1 && s[k] == '.' && s[k + 1] == '.'
  }

  /** That is: `..` occurs somewhere in the string. */
  lemma ContainsDotDotMeans(s: string)
    ensures ContainsDotDot(s) <==> exists a, b :: s == a + ".." + b
  {
    if ContainsDotDot(s) {
      var k :| 0 <= k < |s| - 1 && s[k] == '.' && s[k + 1] == '.';
      assert s == s[..k] + ".." + s[k + 2..];
    }
    if a, b :| s == a + ".." + b {
      assert s[|a|] == '.' && s[|a| + 1] == '.';
    }
  }

  /** The verdict of the path check, in terms of the fully decoded path. */
  ghost predicate Accepts(path: string) {
    DISTRIBUTED_FILES_PATH <= NormalForm(path) && !ContainsDotDot(NormalForm(path))
  }

  lemma AcceptsMeans(path: string)
    ensures Accepts(path) <==> (exists rest :: NormalForm(path) == DISTRIBUTED_FILES_PATH + rest)
                               && !exists a, b :: NormalForm(path) == a + ".." + b
  {
    var n := NormalForm(path);
    ContainsDotDotMeans(n);
    hide NormalForm;
    if DISTRIBUTED_FILES_PATH <= n {
      assert n == DISTRIBUTED_FILES_PATH + n[|DISTRIBUTED_FILES_PATH|..];
    }
  }

  method IsDistributedFile(path: string) returns (ok: bool)
    ensures ok <==> Accepts(path)
    ensures ok <==> (exists rest :: NormalForm(path) == "/data/storage/el2/distributedfiles/" + rest)
                    && !exists a, b :: NormalForm(path) == a + ".." + b
  {
    AcceptsMeans(path);
    var decodedPath := UrlDecode(path);
    if ContainsDotDot(decodedPath) {
      return false;
    }
    if !(DISTRIBUTED_FILES_PATH <= decodedPath) {
      return false;
    }
    return true;
  }

  /** e spells p: each character of p appears literally or as an escape that denotes it. */
  ghost predicate Spells(e: string, p: string) {
    if p == "" then e == ""
    else
      || (e != "" && e[0] == p[0] && Spells(e[1..], p[1..]))
      || (IsEscape(e, 0) && Denoted(e, 0) == p[0] && Spells(e[3..], p[1..]))
  }

  lemma {:induction false} SpellingDecodes(e: string, p: string)
    requires Spells(e, p)
    ensures Reaches(e, p)
  {
    if p != "" {
      assert p == [p[0]] + p[1..];
      if e != "" && e[0] == p[0] && Spells(e[1..], p[1..]) {
        SpellingDecodes(e[1..], p[1..]);
        ReachesInContext(p[0], e[1..], p[1..]);
        assert e == [e[0]] + e[1..];
      } else {
        SpellingDecodes(e[3..], p[1..]);
        ReachesInContext(p[0], e[3..], p[1..]);
        assert Contract(e, 0) == [p[0]] + e[3..];
      }
    }
  }

  // ---------------------------------------------------------------- the inverse direction

  const UPPER_HEX := "0123456789ABCDEF"
  const LOWER_HEX := "0123456789abcdef"

  /** The digit table read backwards: exactly the sixteen digits in either case. */
  lemma HexDigitTable(c: char)
    ensures HexCharToDigit(c) != HEX_DIGIT_INVALID <==> c in UPPER_HEX || c in LOWER_HEX
    ensures HexCharToDigit(c) != HEX_DIGIT_INVALID ==>
              c == UPPER_HEX[HexCharToDigit(c)] || c == LOWER_HEX[HexCharToDigit(c)]
  {
    if c in UPPER_HEX {
      var i :| 0 <= i < |UPPER_HEX| && UPPER_HEX[i] == c;
    } else if c in LOWER_HEX {
      var i :| 0 <= i < |LOWER_HEX| && LOWER_HEX[i] == c;
    }
    if HexCharToDigit(c) < 16 {
      assert c == UPPER_HEX[HexCharToDigit(c)] || c == LOWER_HEX[HexCharToDigit(c)];
    }
  }

  /** What a valid escape is and what it denotes, read off the digit tables. */
  lemma EscapeMeans(s: string, i: nat)
    ensures IsEscape(s, i) <==>
              && i + 2 < |s| && s[i] == '%'
              && (s[i + 1] in UPPER_HEX || s[i + 1] in LOWER_HEX) && (s[i + 2] in UPPER_HEX || s[i + 2] in LOWER_HEX)
    ensures forall hi, lo :: IsEscape(s, i) && 0 <= hi < 16 && 0 <= lo < 16
                             && (s[i + 1] == UPPER_HEX[hi] || s[i + 1] == LOWER_HEX[hi])
                             && (s[i + 2] == UPPER_HEX[lo] || s[i + 2] == LOWER_HEX[lo])
                             ==> Denoted(s, i) as int == 16 * hi + lo
  {
    if i + 2 < |s| {
      HexDigitTable(s[i + 1]);
      HexDigitTable(s[i + 2]);
    }
    assert forall d :: 0 <= d < 16 ==> HexCharToDigit(UPPER_HEX[d]) == d && HexCharToDigit(LOWER_HEX[d]) == d;
  }

  /** A contraction replaces the three characters of the escape by one and touches nothing else. */
  lemma ContractMeans(a: string, e: string, b: string)
    requires |e| == 3 && IsEscape(e, 0)
    ensures IsEscape(a + e + b, |a|) && Contract(a + e + b, |a|) == a + [Denoted(e, 0)] + b
  {
    var s := a + e + b;
    assert s[|a|] == e[0] && s[|a| + 1] == e[1] && s[|a| + 2] == e[2];
    assert s[..|a|] == a && s[|a| + 3..] == b;
  }

  /** The positions at which an escape starts. */
  ghost function Escapes(s: string): set<nat> {
    set i | 0 <= i < |s| && IsEscape(s, i)
  }

  lemma EscapesFrom(s: string, n: nat)
    requires n <= |s| && forall i :: 0 <= i < n ==> !IsEscape(s, i)
    ensures |Escapes(s[n..])| == |Escapes(s)|
    decreases n
  {
    if n == 0 {
      assert s[n..] == s;
    } else {
      var t := s[1..];
      assert forall i :: 0 <= i < |t| ==> (IsEscape(t, i) <==> IsEscape(s, i + 1));
      ShiftedSize(Escapes(t), Escapes(s));
      assert t[n - 1..] == s[n..];
      EscapesFrom(t, n - 1);
    }
  }

  lemma {:induction false} ShiftedSize(a: set<nat>, b: set<nat>)
    requires forall i :: i in a <==> i + 1 in b
    requires 0 !in b
    ensures |a| == |b|
  {
    if a == {} {
      assert b == {} by { assert forall j :: j in b ==> j - 1 in a; }
    } else {
      var i :| i in a;
      ShiftedSize(a - {i}, b - {i + 1});
    }
  }

  /** A pass contracts every escape of its input once: it shortens the string by two per escape. */
  lemma {:induction false} PassLength(s: string)
    ensures |s| - |Pass(s)| == 2 * |Escapes(s)|
  {
    if s == "" {
      assert Escapes(s) == {};
    } else if IsEscape(s, 0) {
      PassLength(s[3..]);
      var rest := s[1..];
      assert forall i :: 0 <= i < |rest| ==> (IsEscape(rest, i) <==> IsEscape(s, i + 1));
      assert !IsEscape(rest, 0) && !IsEscape(rest, 1);
      EscapesFrom(rest, 2);
      assert rest[2..] == s[3..];
      ShiftedSize(Escapes(rest), Escapes(s) - {0});
      assert 0 in Escapes(s);
    } else {
      PassLength(s[1..]);
      EscapesFrom(s, 1);
    }
  }

  /** The escape a sender writes for one byte. */
  function EscapeOf(c: char): string
    requires c as int < 256
  {
    [URL_ESCAPE_CHAR, UPPER_HEX[c as int / 16], UPPER_HEX[c as int % 16]]
  }

  predicate IsByteString(p: string) {
    forall i :: 0 <= i < |p| ==> p[i] as int < 256
  }

  /** Percent-encoding: the bytes of `escaped` become escapes, the others stay literal. */
  function PercentEncode(p: string, escaped: set<char>): string
    requires IsByteString(p)
  {
    if p == "" then ""
    else (if p[0] in escaped then EscapeOf(p[0]) else [p[0]]) + PercentEncode(p[1..], escaped)
  }

  lemma EscapeDenotesItsByte(c: char, rest: string)
    requires c as int < 256
    ensures IsEscape(EscapeOf(c) + rest, 0) && Denoted(EscapeOf(c) + rest, 0) == c
  {
    assert forall d :: 0 <= d < 16 ==> HexCharToDigit(UPPER_HEX[d]) == d;
  }

  /** Whatever set of bytes the sender escapes, the encoding spells the path; and when it
      escapes `%` itself, a single pass already gives the path back. */
  lemma {:induction false} EncodingRoundTrip(p: string, escaped: set<char>)
    requires IsByteString(p)
    ensures Spells(PercentEncode(p, escaped), p)
    ensures URL_ESCAPE_CHAR in escaped ==> Pass(PercentEncode(p, escaped)) == p
  {
    if p != "" {
      EncodingRoundTrip(p[1..], escaped);
      var e, rest := PercentEncode(p, escaped), PercentEncode(p[1..], escaped);
      if p[0] in escaped {
        EscapeDenotesItsByte(p[0], rest);
        assert e[3..] == rest;
      } else {
        assert e[1..] == rest;
      }
    }
  }

  /** Encoding layers applied on top of each other: each string of the chain spells the next. */
  ghost predicate SpellingChain(chain: seq<string>) {
    |chain| > 0 && forall i :: 0 <= i < |chain| - 1 ==> Spells(chain[i], chain[i + 1])
  }

  /** Any number of partial encoding layers decodes away, and the verdict does not see them. */
  lemma {:induction false} VerdictIgnoresEncodingLayers(chain: seq<string>)
    requires SpellingChain(chain)
    ensures NormalForm(chain[0]) == NormalForm(chain[|chain| - 1])
    ensures Accepts(chain[0]) == Accepts(chain[|chain| - 1])
    decreases |chain|
  {
    if |chain| > 1 {
      SpellingDecodes(chain[0], chain[1]);
      ReachesKeepsNormalForm(chain[0], chain[1]);
      VerdictIgnoresEncodingLayers(chain[1..]);
    }
  }

  /** Two paths that can be decoded to a common string always get the same verdict. */
  lemma VerdictIsSpellingIndependent(p: string, q: string, common: string)
    requires Reaches(p, common) && Reaches(q, common)
    ensures Accepts(p) == Accepts(q)
  {
    ReachesKeepsNormalForm(p, common);
    ReachesKeepsNormalForm(q, common);
  }

  lemma ContractKeepsDotDot(s: string, i: nat)
    requires IsEscape(s, i) && ContainsDotDot(s)
    ensures ContainsDotDot(Contract(s, i))
  {
    var k :| 0 <= k < |s| - 1 && s[k] == '.' && s[k + 1] == '.';
    var t := Contract(s, i);
    if k < i {
      assert t[k] == '.' && t[k + 1] == '.';
    } else {
      assert k > i + 2;
      assert t[k - 2] == '.' && t[k - 1] == '.';
    }
  }

  lemma {:induction false} ReachesKeepsDotDot(s: string, t: string)
    requires Reaches(s, t) && ContainsDotDot(s)
    ensures ContainsDotDot(t)
    decreases |s|
  {
    if s != t {
      var i: nat :| IsEscape(s, i) && Reaches(Contract(s, i), t);
      ContractKeepsDotDot(s, i);
      ReachesKeepsDotDot(Contract(s, i), t);
    }
  }

  /** An accepted path shows no `..` at any stage of decoding, whatever order and however
      many decoding passes a later consumer applies to it. */
  lemma AcceptedPathNeverShowsDotDot(path: string, t: string)
    requires Accepts(path) && Reaches(path, t)
    ensures !exists a, b :: t == a + ".." + b
  {
    ContainsDotDotMeans(t);
    if ContainsDotDot(t) {
      ReachesKeepsNormalForm(path, t);
      ReachesKeepsDotDot(t, NormalForm(t));
    }
  }

  lemma {:induction false} ReachesKeepsPlainPrefix(prefix: string, s: string, t: string)
    requires URL_ESCAPE_CHAR !in prefix && prefix <= s && Reaches(s, t)
    ensures prefix <= t
    decreases |s|
  {
    if s != t {
      var i: nat :| IsEscape(s, i) && Reaches(Contract(s, i), t);
      assert forall k :: 0 <= k < |prefix| ==> s[k] == prefix[k];
      ReachesKeepsPlainPrefix(prefix, Contract(s, i), t);
    }
  }

  /** A path that literally starts with the distributed directory is refused only for `..`. */
  lemma PlainPathVerdict(path: string)
    requires DISTRIBUTED_FILES_PATH <= path
    ensures Accepts(path) <==> !exists a, b :: NormalForm(path) == a + ".." + b
  {
    ContainsDotDotMeans(NormalForm(path));
    ReachesKeepsPlainPrefix(DISTRIBUTED_FILES_PATH, path, NormalForm(path));
  }
}
