/** Bounded diagnostics of session.go: identifiers reduced to a safe alphabet, and
    truncation that never splits a character of UTF-8 (RFC 3629, section 3). */
module BoundedText {
  import opened Bytes

  /** A Unicode scalar value. */
  type rune = x: int | 0 <= x < 0xD800 || 0xE000 <= x < 0x110000 witness 0

  type Text = seq<byte>

  const UNDERSCORE: byte := 95

  // ---- UTF-8 ---------------------------------------------------------------

  /** The octet sequences of RFC 3629, section 3. */
  function Encode(r: rune): (e: Text)
    ensures Character(e) && |e| <= 4
  {
    if r < 0x80 then [r as byte]
    else if r < 0x800 then [(0xC0 + r / 64) as byte, (0x80 + r % 64) as byte]
    else if r < 0x10000 then [(0xE0 + r / 4096) as byte, (0x80 + r / 64 % 64) as byte, (0x80 + r % 64) as byte]
    else [(0xF0 + r / 262144) as byte, (0x80 + r / 4096 % 64) as byte, (0x80 + r / 64 % 64) as byte, (0x80 + r % 64) as byte]
  }

  /** The character of an octet sequence, by the table of the same section: the first
      octet says how many follow, and each of those adds six bits. */
  function Decode(e: Text): int {
    if |e| == 1 && e[0] < 0x80 then e[0] as int
    else if |e| == 2 && 0xC2 <= e[0] < 0xE0 then (e[0] as int - 0xC0) * 64 + Tail(e[1])
    else if |e| == 3 && 0xE0 <= e[0] < 0xF0 then (e[0] as int - 0xE0) * 4096 + Tail(e[1]) * 64 + Tail(e[2])
    else if |e| == 4 && 0xF0 <= e[0] < 0xF5
    then (e[0] as int - 0xF0) * 262144 + Tail(e[1]) * 4096 + Tail(e[2]) * 64 + Tail(e[3])
    else -1
  }

  function Tail(b: byte): int {
    b as int - 0x80
  }

  /** The encoding can be read back, so no two characters share one, and it is as long
      as the character needs. */
  lemma EncodingIsReadBack(r: rune)
    ensures Decode(Encode(r)) == r
    ensures |Encode(r)| == if r < 0x80 then 1 else if r < 0x800 then 2 else if r < 0x10000 then 3 else 4
  {
    Digits(r);
    Digits(r / 64);
    Digits(r / 4096);
    assert r / 64 / 64 == r / 4096 && r / 4096 / 64 == r / 262144;
    if r < 0x80 {
    } else if r < 0x800 {
      assert 2 <= r / 64 < 32;
    } else if r < 0x10000 {
      assert r / 4096 < 16;
    } else {
      assert r / 262144 < 5;
    }
  }

  /** Six bits at a time. */
  lemma Digits(n: int)
    requires n >= 0
    ensures n == n / 64 * 64 + n % 64 && 0 <= n % 64 < 64
  {
  }

  /** An octet 10xxxxxx, which never starts a character. */
  predicate Continuation(b: byte) {
    0x80 <= b < 0xC0
  }

  /** The octets of one character: a first one and continuations. */
  predicate Character(c: Text) {
    c != [] && !Continuation(c[0]) && forall i :: 1 <= i < |c| ==> Continuation(c[i])
  }

  function Joined(chars: seq<Text>): Text {
    if chars == [] then [] else chars[0] + Joined(chars[1..])
  }

  function Encodings(s: seq<rune>): seq<Text> {
    seq(|s|, i requires 0 <= i < |s| => Encode(s[i]))
  }

  function Utf8(s: seq<rune>): Text {
    Joined(Encodings(s))
  }

  /** Where truncation cuts: back from end over continuation octets. */
  function CutPoint(value: Text, end: nat): (n: nat)
    requires end < |value|
    ensures n <= end && (n == 0 || !Continuation(value[n]))
    ensures forall i :: n < i <= end ==> Continuation(value[i])
  {
    if end == 0 || !Continuation(value[end]) then end else CutPoint(value, end - 1)
  }

  function Truncated(value: Text, maxBytes: nat): Text {
    if |value| <= maxBytes then value else value[..CutPoint(value, maxBytes)]
  }

  /** truncateCompatibilityUTF8 */
  method TruncateUTF8(value: Text, maxBytes: nat) returns (r: Text)
    ensures r == Truncated(value, maxBytes)
    ensures |r| <= maxBytes && r <= value
  {
    if |value| <= maxBytes {
      return value;
    }
    var end: nat := maxBytes;
    while end > 0 && Continuation(value[end])
      invariant 0 <= end <= maxBytes
      invariant CutPoint(value, end) == CutPoint(value, maxBytes)
    {
      end := end - 1;
    }
    r := value[..end];
  }

  lemma {:induction false} UniqueCut(value: Text, end: nat, n: nat)
    requires n <= end < |value| && !Continuation(value[n])
    requires forall i :: n < i <= end ==> Continuation(value[i])
    ensures CutPoint(value, end) == n
  {
  }

  /** A first character that does not fit leaves nothing. */
  lemma {:induction false} CutInFirst(first: Text, rest: Text, maxBytes: nat)
    requires Character(first) && maxBytes < |first|
    ensures CutPoint(first + rest, maxBytes) == 0
  {
    UniqueCut(first + rest, maxBytes, 0);
  }

  /** A cut beyond the first character is a cut in the rest. */
  lemma {:induction false} CutAfter(first: Text, rest: Text, maxBytes: nat)
    requires |first| <= maxBytes < |first| + |rest| && !Continuation(rest[0])
    ensures CutPoint(first + rest, maxBytes) == |first| + CutPoint(rest, maxBytes - |first|)
  {
    var m := CutPoint(rest, maxBytes - |first|);
    forall i | |first| + m < i <= maxBytes ensures Continuation((first + rest)[i]) {
      assert (first + rest)[i] == rest[i - |first|];
    }
    UniqueCut(first + rest, maxBytes, |first| + m);
  }

  /** How many of the characters fit whole. */
  function WholeCharacters(chars: seq<Text>, maxBytes: nat): (k: nat)
    requires |Joined(chars)| > maxBytes
    ensures k < |chars|
  {
    if |chars[0]| > maxBytes then 0 else 1 + WholeCharacters(chars[1..], maxBytes - |chars[0]|)
  }

  lemma {:induction false} JoinedPrefix(chars: seq<Text>, k: nat)
    requires 0 < k <= |chars|
    ensures Joined(chars[..k]) == chars[0] + Joined(chars[1..][..k - 1])
  {
    assert chars[..k][1..] == chars[1..][..k - 1];
  }

  lemma {:induction false} CutIsWhole(chars: seq<Text>, k: nat, maxBytes: nat)
    requires forall c :: c in chars ==> Character(c)
    requires |Joined(chars)| > maxBytes && k == WholeCharacters(chars, maxBytes)
    ensures Truncated(Joined(chars), maxBytes) == Joined(chars[..k])
    ensures |Joined(chars[..k])| <= maxBytes < |Joined(chars[..k + 1])|
    decreases |chars|
  {
    JoinedPrefix(chars, k + 1);
    assert Character(chars[0]);
    var rest := Joined(chars[1..]);
    if k == 0 {
      assert chars[1..][..0] == [];
      CutInFirst(chars[0], rest, maxBytes);
    } else {
      CutIsWhole(chars[1..], k - 1, maxBytes - |chars[0]|);
      assert chars[1] in chars && !Continuation(rest[0]);
      CutAfter(chars[0], rest, maxBytes);
      JoinedPrefix(chars, k);
    }
  }

  /** Of a valid UTF-8 text, truncation keeps the longest prefix of whole
      characters that fits. */
  lemma {:induction false} TruncationKeepsWholeCharacters(s: seq<rune>, maxBytes: nat) returns (k: nat)
    ensures k <= |s| && Truncated(Utf8(s), maxBytes) == Utf8(s[..k])
    ensures |Utf8(s[..k])| <= maxBytes
    ensures k < |s| ==> |Utf8(s[..k + 1])| > maxBytes
  {
    var chars := Encodings(s);
    if |Joined(chars)| <= maxBytes {
      k := |s|;
      assert s[..k] == s;
    } else {
      k := WholeCharacters(chars, maxBytes);
      assert forall c :: c in chars ==> Character(c);
      CutIsWhole(chars, k, maxBytes);
      assert Encodings(s[..k]) == chars[..k] && Encodings(s[..k + 1]) == chars[..k + 1];
    }
  }

  // ---- identifiers ---------------------------------------------------------

  const MAX_IDENTIFIER: nat := 96
  const MAX_DIAGNOSTIC: nat := 256

  predicate SafeRune(r: int) {
    || 97 <= r <= 122 || 65 <= r <= 90 || 48 <= r <= 57
    || r == 95 || r == 45 || r == 46
  }

  /** The safe characters, spelled out. */
  lemma SafeRunesAre(r: rune)
    ensures SafeRune(r) <==>
              || 'a' as int <= r <= 'z' as int || 'A' as int <= r <= 'Z' as int || '0' as int <= r <= '9' as int
              || r == '_' as int || r == '-' as int || r == '.' as int
  {
  }

  function Keep(r: rune): (b: byte)
    ensures b as int == r || b as int == '_' as int
    ensures b as int == r <==> SafeRune(r)
  {
    if SafeRune(r) then r as byte else UNDERSCORE
  }

  function Kept(raw: seq<rune>): Text {
    seq(|raw|, i requires 0 <= i < |raw| => Keep(raw[i]))
  }

  predicate Blank(value: Text) {
    forall b :: b in value ==> b == UNDERSCORE
  }

  /** A fallback name: safe, not blank, and short. */
  predicate Fallback(f: Text) {
    (forall b :: b in f ==> SafeRune(b as int)) && !Blank(f) && |f| <= MAX_IDENTIFIER
  }

  /** Not empty, and of the safe alphabet only. */
  predicate SafeName(t: Text) {
    t != [] && forall b :: b in t ==> SafeRune(b as int)
  }

  function Sanitized(raw: seq<rune>, fallback: Text): Text {
    var value := Kept(raw);
    Truncated(if Blank(value) then fallback else value, MAX_IDENTIFIER)
  }

  /** sanitizeCompatibilityIdentifier */
  method Sanitize(raw: seq<rune>, fallback: Text) returns (r: Text)
    ensures r == Sanitized(raw, fallback)
    ensures |r| <= 96
    ensures Fallback(fallback) ==> SafeName(r)
  {
    var value: Text := [];
    var i := 0;
    while i < |raw|
      invariant i <= |raw| && value == Kept(raw)[..i]
    {
      if SafeRune(raw[i]) {
        value := value + [raw[i] as byte];
      } else {
        value := value + [UNDERSCORE];
      }
      i := i + 1;
    }
    assert value == Kept(raw);
    if value == [] || Blank(value) {
      value := fallback;
    }
    r := TruncateUTF8(value, MAX_IDENTIFIER);
    SanitizedIsCut(raw, fallback);
  }

  /** On safe text, which is ASCII, truncation is just taking bytes. */
  lemma {:induction false} SafeTextIsCutAnywhere(value: Text, maxBytes: nat)
    requires forall b :: b in value ==> SafeRune(b as int)
    ensures Truncated(value, maxBytes) == if |value| <= maxBytes then value else value[..maxBytes]
  {
    if |value| > maxBytes {
      assert value[maxBytes] in value;
    }
  }

  lemma {:induction false} SanitizedIsCut(raw: seq<rune>, fallback: Text)
    ensures Fallback(fallback) ==>
              var value := Kept(raw);
              && (forall b :: b in value ==> SafeRune(b as int))
              && Sanitized(raw, fallback) ==
                   (if Blank(value) then fallback else if |value| <= MAX_IDENTIFIER then value else value[..MAX_IDENTIFIER])
              && Sanitized(raw, fallback) != []
              && (forall b :: b in Sanitized(raw, fallback) ==> SafeRune(b as int))
              && |Sanitized(raw, fallback)| <= MAX_IDENTIFIER
  {
    if Fallback(fallback) {
      SafeTextIsCutAnywhere(Kept(raw), MAX_IDENTIFIER);
      SafeTextIsCutAnywhere(fallback, MAX_IDENTIFIER);
    }
  }

  /** A sanitized identifier, read again as a string. */
  function Runes(t: Text): seq<rune>
    requires forall b :: b in t ==> SafeRune(b as int)
  {
    seq(|t|, i requires 0 <= i < |t| => t[i] as int)
  }

  /** The identifiers that change when they are sanitized a second time: only
      underscores are left of the part that is kept, but not of the whole. */
  predicate BlankHead(raw: seq<rune>) {
    |raw| > MAX_IDENTIFIER && Blank(Kept(raw)[..MAX_IDENTIFIER]) && !Blank(Kept(raw))
  }

  /** Sanitizing twice is sanitizing once, exactly for all other identifiers. */
  lemma {:induction false} SanitizingAgain(raw: seq<rune>, fallback: Text)
    requires Fallback(fallback)
    ensures forall b :: b in Sanitized(raw, fallback) ==> SafeRune(b as int)
    ensures Sanitized(Runes(Sanitized(raw, fallback)), fallback) == Sanitized(raw, fallback) <==> !BlankHead(raw)
  {
    SanitizedIsCut(raw, fallback);
    var once := Sanitized(raw, fallback);
    SanitizedIsCut(Runes(once), fallback);
    assert forall i :: 0 <= i < |once| ==> once[i] in once;
    assert Kept(Runes(once)) == once;
  }

  /** A string for which sanitizing twice does make a difference. */
  lemma {:induction false} SanitizingAgainCanDiffer() returns (raw: seq<rune>)
    ensures BlankHead(raw)
  {
    raw := seq(MAX_IDENTIFIER, _ => 95) + [97];
    assert Kept(raw)[MAX_IDENTIFIER] == 97 && Kept(raw)[MAX_IDENTIFIER] in Kept(raw);
  }

  // ---- diagnostics ---------------------------------------------------------

  /** "unsupported_typed_event: kind=" and " type=" */
  const KIND_LABEL: Text := [117, 110, 115, 117, 112, 112, 111, 114, 116, 101, 100, 95, 116, 121, 112, 101, 100, 95, 101, 118, 101, 110, 116, 58, 32, 107, 105, 110, 100, 61]
  const TYPE_LABEL: Text := [32, 116, 121, 112, 101, 61]

  /** "unknown_kind" and "unknown_type" */
  const UNKNOWN_KIND: Text := [117, 110, 107, 110, 111, 119, 110, 95, 107, 105, 110, 100]
  const UNKNOWN_TYPE: Text := [117, 110, 107, 110, 111, 119, 110, 95, 116, 121, 112, 101]

  function Octets(s: string): Text {
    seq(|s|, i requires 0 <= i < |s| => if s[i] < 128 as char then s[i] as int as byte else 0)
  }

  /** The texts of a diagnostic. */
  lemma TheTextsAre()
    ensures KIND_LABEL == Octets("unsupported_typed_event: kind=") && TYPE_LABEL == Octets(" type=")
    ensures UNKNOWN_KIND == Octets("unknown_kind") && UNKNOWN_TYPE == Octets("unknown_type")
  {
  }

  lemma FallbacksAreFallbacks()
    ensures Fallback(UNKNOWN_KIND) && Fallback(UNKNOWN_TYPE)
  {
    assert UNKNOWN_KIND[0] in UNKNOWN_KIND && UNKNOWN_TYPE[0] in UNKNOWN_TYPE;
  }

  /** boundedCompatibilityMessage. Every diagnostic is within the limit and carries
      both identifiers whole: the outer truncation never cuts. Both are safe names,
      whatever they were made of. */
  method BoundedMessage(kind: seq<rune>, eventType: seq<rune>) returns (r: Text)
    ensures r == KIND_LABEL + Sanitized(kind, UNKNOWN_KIND) + TYPE_LABEL + Sanitized(eventType, UNKNOWN_TYPE)
    ensures |r| <= 256
    ensures SafeName(Sanitized(kind, UNKNOWN_KIND)) && SafeName(Sanitized(eventType, UNKNOWN_TYPE))
  {
    FallbacksAreFallbacks();
    var k := Sanitize(kind, UNKNOWN_KIND);
    var t := Sanitize(eventType, UNKNOWN_TYPE);
    r := TruncateUTF8(KIND_LABEL + k + TYPE_LABEL + t, MAX_DIAGNOSTIC);
  }
}
