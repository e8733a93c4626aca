/** The base64url codec of the passkey login page, over the browser's `btoa` and `atob`. */
module Base64Url {
  import opened Options

  type Byte = x: int | 0 <= x < 256
  type Sextet = x: int | 0 <= x < 64

  // ---------------------------------------------------------------------------------------------- the alphabet

  /** The alphabet of section 4 of RFC 4648. */
  function Letter(x: Sextet): char {
    if x < 26 then 'A' + x as char
    else if x < 52 then 'a' + (x - 26) as char
    else if x < 62 then '0' + (x - 52) as char
    else if x == 62 then '+'
    else '/'
  }

  function Index(c: char): Option<Sextet> {
    if 'A' <= c <= 'Z' then Some((c - 'A') as int)
    else if 'a' <= c <= 'z' then Some((c - 'a') as int + 26)
    else if '0' <= c <= '9' then Some((c - '0') as int + 52)
    else if c == '+' then Some(62)
    else if c == '/' then Some(63)
    else None
  }

  /** The alphabet of section 5 of RFC 4648. */
  predicate UrlSafe(c: char) {
    'A' <= c <= 'Z' || 'a' <= c <= 'z' || '0' <= c <= '9' || c == '-' || c == '_'
  }

  function ToUrl(c: char): char {
    if c == '+' then '-' else if c == '/' then '_' else c
  }

  function FromUrl(c: char): char {
    if c == '-' then '+' else if c == '_' then '/' else c
  }

  function Map<A, B>(f: A -> B, s: seq<A>): (r: seq<B>)
    ensures |r| == |s| && forall i :: 0 <= i < |s| ==> r[i] == f(s[i])
  {
    seq(|s|, i requires 0 <= i < |s| => f(s[i]))
  }

  lemma IndexOfLetter(x: Sextet)
    ensures Index(Letter(x)) == Some(x) && Index(FromUrl(ToUrl(Letter(x)))) == Some(x)
    ensures FromUrl(ToUrl(Letter(x))) == Letter(x) && UrlSafe(ToUrl(Letter(x)))
    ensures Letter(x) != '=' && ToUrl(Letter(x)) != '=' && !Space(Letter(x))
  {
  }

  // ---------------------------------------------------------------------------------------------- btoa and atob

  /** Bytes as groups of six bits; a last group is filled up with zero bits. */
  function Sextets(bytes: seq<Byte>): seq<Sextet> {
    if |bytes| == 0 then []
    else if |bytes| == 1 then [bytes[0] / 4, bytes[0] % 4 * 16]
    else if |bytes| == 2 then [bytes[0] / 4, bytes[0] % 4 * 16 + bytes[1] / 16, bytes[1] % 16 * 4]
    else [bytes[0] / 4, bytes[0] % 4 * 16 + bytes[1] / 16, bytes[1] % 16 * 4 + bytes[2] / 64, bytes[2] % 64]
         + Sextets(bytes[3..])
  }

  function First(a: Sextet, b: Sextet): Byte {
    var x: int, y: int := a, b;
    x * 4 + y / 16
  }

  function Second(b: Sextet, c: Sextet): Byte {
    var x: int, y: int := b, c;
    x % 16 * 16 + y / 4
  }

  function Third(c: Sextet, d: Sextet): Byte {
    var x: int, y: int := c, d;
    x % 4 * 64 + y
  }

  /** Whole bytes out of groups of six bits; what is left over is dropped. */
  function Octets(groups: seq<Sextet>): seq<Byte> {
    if |groups| <= 1 then []
    else if |groups| == 2 then [First(groups[0], groups[1])]
    else if |groups| == 3 then [First(groups[0], groups[1]), Second(groups[1], groups[2])]
    else [First(groups[0], groups[1]), Second(groups[1], groups[2]), Third(groups[2], groups[3])] + Octets(groups[4..])
  }

  /** Padding to a multiple of four characters. */
  function Padding(length: nat): string {
    if length % 4 == 2 then "==" else if length % 4 == 3 then "=" else ""
  }

  function Btoa(bytes: seq<Byte>): string {
    Map(Letter, Sextets(bytes)) + Padding(|Sextets(bytes)|)
  }

  predicate Space(c: char) {
    c == ' ' || c == '\t' || c == '\n' || c == '\r' || c == 12 as char
  }

  function WithoutSpaces(s: string): string {
    if s == "" then "" else (if Space(s[0]) then "" else [s[0]]) + WithoutSpaces(s[1..])
  }

  /** Up to two trailing "=" of a text whose length is a multiple of four. */
  function WithoutPadding(s: string): string {
    if |s| % 4 != 0 || |s| == 0 || s[|s| - 1] != '=' then s
    else if s[|s| - 2] != '=' then s[..|s| - 1]
    else s[..|s| - 2]
  }

  /** `atob`: None where it throws. */
  function Atob(s: string): Option<seq<Byte>> {
    var text := WithoutPadding(WithoutSpaces(s));
    if |text| % 4 == 1 || exists i :: 0 <= i < |text| && Index(text[i]).None? then None
    else Some(Octets(Indices(text)))
  }

  function Indices(text: string): seq<Sextet>
    requires forall i :: 0 <= i < |text| ==> Index(text[i]).Some?
  {
    seq(|text|, i requires 0 <= i < |text| => Index(text[i]).value)
  }

  // ---------------------------------------------------------------------------------------------- the codec

  /** `.replace(/=+$/, "")`. */
  function Stripped(s: string): string {
    if s != "" && s[|s| - 1] == '=' then Stripped(s[..|s| - 1]) else s
  }

  /** `bufferToB64url`. */
  function Encode(bytes: seq<Byte>): string {
    Stripped(Map(ToUrl, Btoa(bytes)))
  }

  /** The padding `b64urlToBuffer` adds; after a remainder of one it would be three characters. */
  function Recomputed(length: nat): string {
    if length % 4 == 0 then "" else seq(4 - length % 4, _ => '=')
  }

  /** `b64urlToBuffer`. */
  function Decode(text: string): Option<seq<Byte>> {
    Atob(Map(FromUrl, text) + Recomputed(|text|))
  }

  /** The bytes of `buf` as a binary string, then its base64url text. */
  method BufferToB64url(buf: array<Byte>) returns (text: string)
    ensures text == Encode(buf[..])
  {
    var bin: seq<char> := "";
    for i := 0 to buf.Length
      invariant |bin| == i && forall k :: 0 <= k < i ==> bin[k] as int == buf[k]
    {
      bin := bin + [buf[i] as char];
    }
    var bytes := seq(|bin|, i requires 0 <= i < |bin| => bin[i] as Byte);
    assert bytes == buf[..];
    text := Stripped(Map(ToUrl, Btoa(bytes)));
  }

  /** The bytes of the decoded text, one by one into a new buffer; None where `atob` throws. */
  method B64urlToBuffer(b64url: string) returns (buf: Option<array<Byte>>)
    ensures buf.None? <==> Decode(b64url).None?
    ensures buf.Some? ==> buf.value[..] == Decode(b64url).value
  {
    var b64 := Map(FromUrl, b64url);
    var pad: string := if |b64| % 4 == 0 then "" else seq(4 - |b64| % 4, _ => '=');
    var bin := Atob(b64 + pad);
    if bin.None? { return None; }
    var bytes := new Byte[|bin.value|];
    for i := 0 to |bin.value|
      invariant bytes[..i] == bin.value[..i]
    {
      bytes[i] := bin.value[i];
    }
    assert bytes[..] == bytes[..|bin.value|];
    buf := Some(bytes);
  }

  // ---------------------------------------------------------------------------------------------- the round trip

  lemma GroupsJoin(a: Byte, b: Byte, c: Byte)
    ensures First(a / 4, a % 4 * 16 + b / 16) == a && First(a / 4, a % 4 * 16) == a
    ensures Second(a % 4 * 16 + b / 16, b % 16 * 4 + c / 64) == b && Second(a % 4 * 16 + b / 16, b % 16 * 4) == b
    ensures Third(b % 16 * 4 + c / 64, c % 64) == c
  {
  }

  /** One group of four comes off in front. */
  lemma OctetsOfGroup(p: Sextet, q: Sextet, r: Sextet, t: Sextet, rest: seq<Sextet>)
    ensures Octets([p, q, r, t] + rest) == [First(p, q), Second(q, r), Third(r, t)] + Octets(rest)
  {
    hide First, Second, Third;
    assert ([p, q, r, t] + rest)[4..] == rest;
  }

  lemma NoBytesLeft(bytes: seq<Byte>)
    requires |bytes| == 0
    ensures Octets(Sextets(bytes)) == bytes && |Sextets(bytes)| == 0
  {
  }

  lemma OneByteLeft(bytes: seq<Byte>)
    requires |bytes| == 1
    ensures Octets(Sextets(bytes)) == bytes && |Sextets(bytes)| == 2
  {
    GroupsJoin(bytes[0], 0, 0);
    hide First;
  }

  lemma TwoBytesLeft(bytes: seq<Byte>)
    requires |bytes| == 2
    ensures Octets(Sextets(bytes)) == bytes && |Sextets(bytes)| == 3
  {
    GroupsJoin(bytes[0], bytes[1], 0);
    hide First, Second;
  }

  lemma ThreeBytes(bytes: seq<Byte>)
    requires |bytes| >= 3
    ensures Octets(Sextets(bytes)) == bytes[..3] + Octets(Sextets(bytes[3..]))
    ensures |Sextets(bytes)| == 4 + |Sextets(bytes[3..])|
  {
    var a, b, c, rest := bytes[0], bytes[1], bytes[2], Sextets(bytes[3..]);
    GroupsJoin(a, b, c);
    hide First, Second, Third, Octets;
    OctetsOfGroup(a / 4, a % 4 * 16 + b / 16, b % 16 * 4 + c / 64, c % 64, rest);
    assert bytes[..3] == [a, b, c];
  }

  lemma {:induction false} OctetsOfSextets(bytes: seq<Byte>)
    ensures Octets(Sextets(bytes)) == bytes
    ensures |Sextets(bytes)| % 4 != 1
    decreases |bytes|
  {
    hide Octets, Sextets;
    if |bytes| == 0 {
      NoBytesLeft(bytes);
    } else if |bytes| == 1 {
      OneByteLeft(bytes);
    } else if |bytes| == 2 {
      TwoBytesLeft(bytes);
    } else {
      OctetsOfSextets(bytes[3..]);
      ThreeBytes(bytes);
      assert bytes == bytes[..3] + bytes[3..];
    }
  }

  lemma {:induction false} StrippedOf(letters: string, pad: string)
    requires forall i :: 0 <= i < |letters| ==> letters[i] != '='
    requires forall i :: 0 <= i < |pad| ==> pad[i] == '='
    ensures Stripped(letters + pad) == letters
    decreases |pad|
  {
    if pad == "" {
      assert letters + pad == letters;
    } else {
      var s := letters + pad;
      assert s[|s| - 1] == pad[|pad| - 1];
      assert s[..|s| - 1] == letters + pad[..|pad| - 1];
      StrippedOf(letters, pad[..|pad| - 1]);
    }
  }

  /** What the encoder does: the letters of the six-bit groups in the URL alphabet, without padding. */
  lemma EncodeIs(bytes: seq<Byte>)
    ensures Encode(bytes) == Map(ToUrl, Map(Letter, Sextets(bytes)))
  {
    var groups := Sextets(bytes);
    var letters := Map(Letter, groups);
    forall x: Sextet ensures Letter(x) != '=' && ToUrl(Letter(x)) != '=' { IndexOfLetter(x); }
    assert Map(ToUrl, letters + Padding(|groups|)) == Map(ToUrl, letters) + Padding(|groups|);
    StrippedOf(Map(ToUrl, letters), Padding(|groups|));
  }

  /** The text has only the alphabet of section 5 of RFC 4648, no padding, and the padding the decoder recomputes is
      what the encoder stripped: putting it back gives the standard base64 text. */
  lemma EncodedText(bytes: seq<Byte>)
    ensures forall c :: c in Encode(bytes) ==> UrlSafe(c) && c != '='
    ensures Map(FromUrl, Encode(bytes)) + Recomputed(|Encode(bytes)|) == Btoa(bytes)
    ensures Map(ToUrl, Btoa(bytes)) == Encode(bytes) + Recomputed(|Encode(bytes)|)
  {
    EncodeIs(bytes);
    OctetsOfSextets(bytes);
    forall x: Sextet ensures UrlSafe(ToUrl(Letter(x))) && FromUrl(ToUrl(Letter(x))) == Letter(x) { IndexOfLetter(x); }
    var groups := Sextets(bytes);
    assert Map(FromUrl, Encode(bytes)) == Map(Letter, groups);
    assert Recomputed(|groups|) == Padding(|groups|);
    assert Map(ToUrl, Map(Letter, groups) + Padding(|groups|)) == Map(ToUrl, Map(Letter, groups)) + Padding(|groups|);
  }

  lemma {:induction false} NoSpaces(s: string)
    requires forall c :: c in s ==> !Space(c)
    ensures WithoutSpaces(s) == s
  {
    if s != "" {
      assert s[0] in s;
      NoSpaces(s[1..]);
    }
  }

  lemma PaddingComesOff(letters: string)
    requires |letters| % 4 != 1 && forall i :: 0 <= i < |letters| ==> letters[i] != '='
    ensures WithoutPadding(letters + Padding(|letters|)) == letters
  {
    var s := letters + Padding(|letters|);
    if |letters| % 4 == 0 { assert s == letters; }
    else if |letters| % 4 == 2 { assert s[..|s| - 2] == letters; }
    else { assert s[..|s| - 1] == letters; }
  }

  lemma IndicesOfLetters(groups: seq<Sextet>)
    ensures var letters := Map(Letter, groups);
            && (forall i :: 0 <= i < |letters| ==> Index(letters[i]).Some? && letters[i] != '=' && !Space(letters[i]))
            && Indices(letters) == groups
  {
    forall i | 0 <= i < |groups|
      ensures Index(Map(Letter, groups)[i]) == Some(groups[i]) && Map(Letter, groups)[i] != '='
              && !Space(Map(Letter, groups)[i])
    {
      IndexOfLetter(groups[i]);
    }
    hide Index, Letter;
  }

  lemma AtobOfBtoa(bytes: seq<Byte>)
    ensures Atob(Btoa(bytes)) == Some(bytes)
  {
    var groups := Sextets(bytes);
    OctetsOfSextets(bytes);
    IndicesOfLetters(groups);
    forall c | c in Btoa(bytes) ensures !Space(c) { hide Index, Letter; }
    hide Index, Letter, Sextets, Octets, WithoutPadding;
    NoSpaces(Btoa(bytes));
    PaddingComesOff(Map(Letter, groups));
  }

  /** For every byte sequence: what the encoder makes of it the decoder turns back into it. */
  lemma RoundTrip(bytes: seq<Byte>)
    ensures Decode(Encode(bytes)) == Some(bytes)
  {
    EncodedText(bytes);
    AtobOfBtoa(bytes);
  }

  // ---------------------------------------------------------------------------------------------- the standard

  /** Letter number `x` of the alphabet of section 5 of RFC 4648. */
  function Digit(x: Sextet): char {
    ToUrl(Letter(x))
  }

  /** The alphabet in its order: A to Z, a to z, 0 to 9, and the two letters that are safe in a URL. */
  lemma AlphabetIs()
    ensures Digit(0) == 'A' && Digit(25) == 'Z' && Digit(26) == 'a' && Digit(51) == 'z' && Digit(52) == '0'
            && Digit(61) == '9' && Digit(62) == '-' && Digit(63) == '_'
    ensures forall x: Sextet :: x < 61 && x != 25 && x != 51 ==> Digit(x + 1) == Digit(x) + 1 as char
  {
  }

  /** Item `i`, and zero after the end. */
  function ItemOr0(s: seq<int>, i: nat): int {
    if i < |s| then s[i] else 0
  }

  /** The number of a group: its items as digits, the first the highest. */
  function Number(s: seq<int>, from: nat, size: nat, base: nat): int {
    if size == 0 then 0 else Number(s, from, size - 1, base) * base + ItemOr0(s, from + size - 1)
  }

  lemma ThreeBytesNumber(s: seq<int>, from: nat)
    ensures Number(s, from, 3, 256)
            == (ItemOr0(s, from) * 256 + ItemOr0(s, from + 1)) * 256 + ItemOr0(s, from + 2)
  {
    assert Number(s, from, 1, 256) == ItemOr0(s, from);
    assert Number(s, from, 2, 256) == ItemOr0(s, from) * 256 + ItemOr0(s, from + 1);
  }

  lemma FourSextetsNumber(s: seq<int>, from: nat)
    ensures Number(s, from, 4, 64)
            == ((ItemOr0(s, from) * 64 + ItemOr0(s, from + 1)) * 64 + ItemOr0(s, from + 2)) * 64 + ItemOr0(s, from + 3)
  {
    assert Number(s, from, 1, 64) == ItemOr0(s, from);
    assert Number(s, from, 2, 64) == ItemOr0(s, from) * 64 + ItemOr0(s, from + 1);
    assert Number(s, from, 3, 64)
           == (ItemOr0(s, from) * 64 + ItemOr0(s, from + 1)) * 64 + ItemOr0(s, from + 2);
  }

  lemma FirstGroup(bytes: seq<Byte>)
    requires bytes != []
    ensures Number(Sextets(bytes), 0, 4, 64) == Number(bytes, 0, 3, 256)
  {
    ThreeBytesNumber(bytes, 0);
    FourSextetsNumber(Sextets(bytes), 0);
    hide Number;
  }

  lemma LaterGroups(s: seq<int>, head: seq<int>, rest: seq<int>, from: nat, size: nat, base: nat)
    requires s == head + rest
    ensures Number(s, |head| + from, size, base) == Number(rest, from, size, base)
  {
    if size > 0 { LaterGroups(s, head, rest, from, size - 1, base); }
  }

  lemma {:induction false} GroupsAreNumbers(bytes: seq<Byte>, k: nat)
    requires 3 * k < |bytes|
    ensures Number(Sextets(bytes), 4 * k, 4, 64) == Number(bytes, 3 * k, 3, 256)
    decreases k
  {
    if k == 0 {
      FirstGroup(bytes);
    } else {
      var groups, rest := Sextets(bytes), Sextets(bytes[3..]);
      assert groups == groups[..4] + rest && bytes == bytes[..3] + bytes[3..];
      hide Number, Sextets;
      GroupsAreNumbers(bytes[3..], k - 1);
      LaterGroups(groups, groups[..4], rest, 4 * (k - 1), 4, 64);
      LaterGroups(bytes, bytes[..3], bytes[3..], 3 * (k - 1), 3, 256);
    }
  }

  lemma {:induction false} HowMany(bytes: seq<Byte>)
    ensures |Sextets(bytes)| == (4 * |bytes| + 2) / 3
    decreases |bytes|
  {
    if |bytes| >= 3 { HowMany(bytes[3..]); }
  }

  /** The encoded text is the base64url text of the standard: every three bytes, read as one number, are the four
      letters read as digits of the alphabet; a last group is filled up with zeros, and only as many letters are kept as
      it needs. */
  lemma EncodesTheStandard(bytes: seq<Byte>)
    ensures |Encode(bytes)| == |Sextets(bytes)| == (4 * |bytes| + 2) / 3
    ensures forall i :: 0 <= i < |Encode(bytes)| ==> Encode(bytes)[i] == Digit(Sextets(bytes)[i])
    ensures forall k: nat :: 3 * k < |bytes| ==>
              Number(Sextets(bytes), 4 * k, 4, 64) == Number(bytes, 3 * k, 3, 256)
  {
    EncodeIs(bytes);
    HowMany(bytes);
    forall k: nat | 3 * k < |bytes| ensures Number(Sextets(bytes), 4 * k, 4, 64) == Number(bytes, 3 * k, 3, 256) {
      GroupsAreNumbers(bytes, k);
    }
    hide Encode, Sextets, Number;
  }
}
