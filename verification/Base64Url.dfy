/**
  Unpadded base64url (RFC 4648, sections 3.2, 4 and 5) as BoBeMacUI/BoBe/Services/PairingExchange.swift
  builds it from the padded standard alphabet, and the `SET` line of WB12OnboardingService.swift.
 */
module Base64Url {
  import opened Common

  // ---------------------------------------------------------------- the padded standard form

  type sextet = x: int | 0 <= x < 64

  function Symbol(v: sextet): char {
    if v < 26 then 'A' + v as char
    else if v < 52 then 'a' + (v - 26) as char
    else if v < 62 then '0' + (v - 52) as char
    else if v == 62 then '+' else '/'
  }

  function Value(c: char): Option<sextet> {
    if 'A' <= c <= 'Z' then Some(c as int - 'A' as int)
    else if 'a' <= c <= 'z' then Some(c as int - 'a' as int + 26)
    else if '0' <= c <= '9' then Some(c as int - '0' as int + 52)
    else if c == '+' then Some(62)
    else if c == '/' then Some(63)
    else None
  }

  /** Three bytes as the 24-bit group of section 4. */
  function Group(a: byte, b: byte, c: byte): (n: int)
    ensures 0 <= n < 16777216
  {
    a as int * 65536 + b as int * 256 + c as int
  }

  /** The `k`-th of the four sextets of a group. */
  function Sextet(n: int, k: nat): sextet
    requires 0 <= n < 16777216 && k < 4
  {
    if k == 0 then n / 262144 else if k == 1 then n / 4096 % 64 else if k == 2 then n / 64 % 64 else n % 64
  }

  function Symbols(n: int): (s: string)
    requires 0 <= n < 16777216
    ensures |s| == 4
  {
    [Symbol(Sextet(n, 0)), Symbol(Sextet(n, 1)), Symbol(Sextet(n, 2)), Symbol(Sextet(n, 3))]
  }

  /** The symbols that carry data, before padding. */
  function Body(data: seq<byte>): string {
    if |data| == 0 then ""
    else if |data| == 1 then Symbols(Group(data[0], 0, 0))[..2]
    else if |data| == 2 then Symbols(Group(data[0], data[1], 0))[..3]
    else Symbols(Group(data[0], data[1], data[2])) + Body(data[3..])
  }

  function Padding(n: nat): (s: string)
    ensures |s| == n && forall i :: 0 <= i < n ==> s[i] == '='
  {
    seq(n, _ => '=')
  }

  /** The characters missing from the last group of an encoding of `n` bytes. */
  function Missing(n: nat): nat {
    if n >= 3 then Missing(n - 3) else if n == 0 then 0 else 3 - n
  }

  /** `base64EncodedString()`: the last group is padded. */
  function Encode(data: seq<byte>): string {
    Body(data) + Padding(Missing(|data|))
  }

  function Byte(n: int, k: nat): byte
    requires 0 <= n < 16777216 && k < 3
  {
    (if k == 0 then n / 65536 else if k == 1 then n / 256 % 256 else n % 256) as byte
  }

  /** The value of up to four symbols, as a group with zeros in the places left out. */
  function Join(a: sextet, b: sextet, c: sextet, d: sextet): (n: int)
    ensures 0 <= n < 16777216
  {
    a * 262144 + b * 4096 + c * 64 + d
  }

  /** The last four characters, which may be padded. */
  function DecodeLast(s: string): Option<seq<byte>>
    requires |s| == 4
  {
    var a, b := Value(s[0]), Value(s[1]);
    if a == None || b == None then None
    else if s[2] == '=' && s[3] == '=' then Some([Byte(Join(a.value, b.value, 0, 0), 0)])
    else
      var c := Value(s[2]);
      if c == None then None
      else if s[3] == '=' then var n := Join(a.value, b.value, c.value, 0); Some([Byte(n, 0), Byte(n, 1)])
      else
        var d := Value(s[3]);
        if d == None then None
        else var n := Join(a.value, b.value, c.value, d.value); Some([Byte(n, 0), Byte(n, 1), Byte(n, 2)])
  }

  /** `Data(base64Encoded:)`: whole groups of four, padding in the last only. */
  function Decode(s: string): Option<seq<byte>> {
    if s == "" then Some([])
    else if |s| < 4 then None
    else if |s| == 4 then DecodeLast(s)
    else if s[3] == '=' then None
    else
      var head := DecodeLast(s[..4]);
      var rest := Decode(s[4..]);
      if head == None || rest == None then None else Some(head.value + rest.value)
  }

  // ---------------------------------------------------------------- the unpadded form

  /** `replacingOccurrences` of one character by another. */
  function Replacing(s: string, from: char, to: char): (r: string)
    ensures |r| == |s| && forall i :: 0 <= i < |s| ==> r[i] == if s[i] == from then to else s[i]
  {
    seq(|s|, i requires 0 <= i < |s| => if s[i] == from then to else s[i])
  }

  /** `replacingOccurrences` of one character by nothing. */
  function Removing(s: string, c: char): string {
    if s == "" then "" else (if s[0] == c then "" else [s[0]]) + Removing(s[1..], c)
  }

  function UrlEncode(data: seq<byte>): string {
    Removing(Replacing(Replacing(Encode(data), '+', '-'), '/', '_'), '=')
  }

  function Padded(value: string): string {
    value + Padding((4 - |value| % 4) % 4)
  }

  function Standard(value: string): string {
    Replacing(Replacing(value, '-', '+'), '_', '/')
  }

  function UrlDecode(value: string): Option<seq<byte>> {
    Decode(Padded(Standard(value)))
  }

  // ---------------------------------------------------------------- groups

  lemma {:induction false} ValueOfSymbol(v: sextet)
    ensures Value(Symbol(v)) == Some(v)
    ensures Symbol(v) != '=' && Symbol(v) != '-' && Symbol(v) != '_' && Symbol(v) != ' ' && Symbol(v) != '\n'
  {
  }

  lemma {:induction false} JoinSextets(n: int)
    requires 0 <= n < 16777216
    ensures Join(Sextet(n, 0), Sextet(n, 1), Sextet(n, 2), Sextet(n, 3)) == n
  {
    assert n / 262144 == n / 4096 / 64;
    assert n / 4096 == n / 64 / 64;
  }

  lemma {:induction false} Halves(q: int, r: int)
    requires 0 <= r < 256
    ensures (q * 256 + r) / 256 == q && (q * 256 + r) % 256 == r
  {
  }

  lemma {:induction false} BytesOfGroup(a: byte, b: byte, c: byte)
    ensures Byte(Group(a, b, c), 0) == a && Byte(Group(a, b, c), 1) == b && Byte(Group(a, b, c), 2) == c
  {
    var n := Group(a, b, c);
    Halves(a as int * 256 + b as int, c as int);
    Halves(a as int, b as int);
    assert n == (a as int * 256 + b as int) * 256 + c as int;
    assert n / 65536 == n / 256 / 256;
  }

  /** A group short of bytes has zero in the sextets that padding stands for. */
  lemma {:induction false} ShortGroups(a: byte, b: byte)
    ensures Sextet(Group(a, 0, 0), 2) == 0 && Sextet(Group(a, 0, 0), 3) == 0
    ensures Sextet(Group(a, b, 0), 3) == 0
  {
    assert Group(a, 0, 0) == 4096 * (16 * a as int);
    assert Group(a, 0, 0) / 64 == 64 * (16 * a as int);
    assert Group(a, b, 0) == 64 * (1024 * a as int + 4 * b as int);
  }

  lemma {:induction false} DecodeGroup(a: byte, b: byte, c: byte)
    ensures DecodeLast(Symbols(Group(a, b, c))) == Some([a, b, c])
  {
    var n := Group(a, b, c);
    ValueOfSymbol(Sextet(n, 0));
    ValueOfSymbol(Sextet(n, 1));
    ValueOfSymbol(Sextet(n, 2));
    ValueOfSymbol(Sextet(n, 3));
    JoinSextets(n);
    BytesOfGroup(a, b, c);
  }

  lemma {:induction false} DecodeOne(a: byte)
    ensures DecodeLast(Symbols(Group(a, 0, 0))[..2] + Padding(2)) == Some([a])
  {
    var n := Group(a, 0, 0);
    ValueOfSymbol(Sextet(n, 0));
    ValueOfSymbol(Sextet(n, 1));
    JoinSextets(n);
    ShortGroups(a, 0);
    BytesOfGroup(a, 0, 0);
  }

  lemma {:induction false} DecodeTwo(a: byte, b: byte)
    ensures DecodeLast(Symbols(Group(a, b, 0))[..3] + Padding(1)) == Some([a, b])
  {
    var n := Group(a, b, 0);
    ValueOfSymbol(Sextet(n, 0));
    ValueOfSymbol(Sextet(n, 1));
    ValueOfSymbol(Sextet(n, 2));
    JoinSextets(n);
    ShortGroups(a, b);
    BytesOfGroup(a, b, 0);
  }

  // ---------------------------------------------------------------- round trips

  predicate Plain(c: char) {
    c != '=' && c != '-' && c != '_' && c != ' ' && c != '\n'
  }

  lemma {:induction false} BodyPlain(data: seq<byte>)
    ensures forall i :: 0 <= i < |Body(data)| ==> Plain(Body(data)[i])
    decreases |data|
  {
    if |data| > 0 {
      var n := Group(data[0], if |data| > 1 then data[1] else 0, if |data| > 2 then data[2] else 0);
      ValueOfSymbol(Sextet(n, 0));
      ValueOfSymbol(Sextet(n, 1));
      ValueOfSymbol(Sextet(n, 2));
      ValueOfSymbol(Sextet(n, 3));
      if |data| > 2 {
        BodyPlain(data[3..]);
      }
    }
  }

  /** What is missing to a multiple of four. */
  function Filler(n: nat): nat {
    if n >= 4 then Filler(n - 4) else if n == 0 then 0 else 4 - n
  }

  /** The padding arithmetic of the decoder. */
  lemma {:induction false} FillerIsPadding(n: nat)
    ensures (4 - n % 4) % 4 == Filler(n)
  {
    if n >= 4 {
      FillerIsPadding(n - 4);
      assert n % 4 == (n - 4) % 4;
    }
  }

  lemma {:induction false} BodyLength(data: seq<byte>)
    ensures |Body(data)| == if |data| >= 3 then 4 + |Body(data[3..])| else if |data| == 0 then 0 else |data| + 1
  {
  }

  /** The padding the decoder restores is the padding the encoder dropped. */
  lemma {:induction false} PaddingRestored(data: seq<byte>)
    ensures Filler(|Body(data)|) == Missing(|data|)
    decreases |data|
  {
    BodyLength(data);
    if |data| >= 3 {
      PaddingRestored(data[3..]);
    }
  }

  lemma {:induction false} EncodeDecodes(data: seq<byte>)
    ensures Decode(Encode(data)) == Some(data)
    decreases |data|
  {
    if |data| == 0 {
      assert Encode(data) == "";
    } else if |data| == 1 {
      DecodeOne(data[0]);
      assert data == [data[0]];
    } else if |data| == 2 {
      DecodeTwo(data[0], data[1]);
      assert data == [data[0], data[1]];
    } else {
      EncodeDecodes(data[3..]);
      EncodeDecodesMore(data);
    }
  }

  lemma {:induction false} EncodeDecodesMore(data: seq<byte>)
    requires |data| >= 3 && Decode(Encode(data[3..])) == Some(data[3..])
    ensures Decode(Encode(data)) == Some(data)
  {
    var head := Symbols(Group(data[0], data[1], data[2]));
    assert Encode(data) == head + Encode(data[3..]);
    DecodeGroup(data[0], data[1], data[2]);
    ValueOfSymbol(Sextet(Group(data[0], data[1], data[2]), 3));
    DecodeJoin(head, Encode(data[3..]), [data[0], data[1], data[2]]);
    assert data == [data[0], data[1], data[2]] + data[3..];
  }

  /** A whole group is decoded in front of whatever follows it. */
  lemma {:induction false} DecodeJoin(head: string, rest: string, bytes: seq<byte>)
    requires |head| == 4 && head[3] != '=' && DecodeLast(head) == Some(bytes) && Decode(rest) != None
    ensures Decode(head + rest) == Some(bytes + Decode(rest).value)
  {
    if rest == "" {
      assert head + rest == head;
      assert bytes + [] == bytes;
    } else {
      assert (head + rest)[..4] == head && (head + rest)[4..] == rest;
    }
  }

  lemma {:induction false} RemovingFrom(s: string, n: nat, c: char)
    requires forall i :: 0 <= i < |s| ==> s[i] != c
    ensures Removing(s + seq(n, _ => c), c) == s
  {
    var t := s + seq(n, _ => c);
    if s != "" {
      assert t[1..] == s[1..] + seq(n, _ => c);
      RemovingFrom(s[1..], n, c);
    } else if n > 0 {
      assert t[1..] == "" + seq(n - 1, _ => c);
      RemovingFrom("", n - 1, c);
    }
  }

  /** The unpadded form is the body with `+` and `/` exchanged for `-` and `_`. */
  lemma {:induction false} UrlEncodeIsBody(data: seq<byte>)
    ensures UrlEncode(data) == Replacing(Replacing(Body(data), '+', '-'), '/', '_')
  {
    BodyPlain(data);
    var s := Replacing(Replacing(Body(data), '+', '-'), '/', '_');
    var n := Missing(|data|);
    assert Replacing(Replacing(Encode(data), '+', '-'), '/', '_') == s + seq(n, _ => '=');
    RemovingFrom(s, n, '=');
  }

  lemma {:induction false} ReplacingBack(s: string)
    requires forall i :: 0 <= i < |s| ==> Plain(s[i])
    ensures Replacing(Replacing(Replacing(Replacing(s, '+', '-'), '/', '_'), '-', '+'), '_', '/') == s
  {
  }

  lemma {:induction false} StandardBody(data: seq<byte>)
    ensures Standard(UrlEncode(data)) == Body(data)
  {
    UrlEncodeIsBody(data);
    BodyPlain(data);
    ReplacingBack(Body(data));
  }

  lemma {:induction false} PaddedBody(data: seq<byte>)
    ensures Padded(Body(data)) == Encode(data)
  {
    PaddingRestored(data);
    FillerIsPadding(|Body(data)|);
  }

  /** Decoding inverts encoding for every byte string. */
  lemma {:induction false} RoundTrip(data: seq<byte>)
    ensures UrlDecode(UrlEncode(data)) == Some(data)
  {
    StandardBody(data);
    PaddedBody(data);
    EncodeDecodes(data);
  }

  /** The encoding uses no padding and none of the characters a field or a line is split at. */
  lemma {:induction false} UrlAlphabet(data: seq<byte>, i: nat)
    requires i < |UrlEncode(data)|
    ensures UrlEncode(data)[i] !in ['=', '+', '/', ' ', '\n']
  {
    UrlEncodeIsBody(data);
    BodyPlain(data);
  }

  // ---------------------------------------------------------------- what is not decoded

  /** The characters of Table 1 of RFC 4648, section 4. */
  predicate InAlphabet(c: char) {
    'A' <= c <= 'Z' || 'a' <= c <= 'z' || '0' <= c <= '9' || c == '+' || c == '/'
  }

  lemma {:induction false} ValuesAreLetters(c: char)
    ensures Value(c).Some? <==> InAlphabet(c)
  {
  }

  lemma {:induction false} LastGroup(s: string)
    requires |s| == 4 && DecodeLast(s).Some?
    ensures InAlphabet(s[0]) && InAlphabet(s[1]) && (InAlphabet(s[2]) || s[2] == '=')
    ensures InAlphabet(s[3]) || s[3] == '='
    ensures s[2] == '=' ==> s[3] == '='
  {
    ValuesAreLetters(s[0]);
    ValuesAreLetters(s[1]);
    ValuesAreLetters(s[2]);
    ValuesAreLetters(s[3]);
  }

  lemma {:induction false} DecodeSplits(s: string)
    requires Decode(s).Some? && |s| > 4
    ensures DecodeLast(s[..4]).Some? && s[3] != '=' && Decode(s[4..]).Some?
  {
  }

  /** Only whole groups are decoded, of letters of the alphabet, with padding in the last two places alone. */
  lemma {:induction false} DecodesOnlyGroups(s: string)
    requires Decode(s).Some?
    ensures |s| % 4 == 0
    ensures forall i :: 0 <= i < |s| ==> InAlphabet(s[i]) || (i >= |s| - 2 && s[i] == '=' && s[|s| - 1] == '=')
  {
    if |s| == 4 {
      LastGroup(s);
    } else if |s| > 4 {
      DecodeSplits(s);
      LastGroup(s[..4]);
      DecodesOnlyGroups(s[4..]);
      GroupsJoin(s);
    }
  }

  lemma {:induction false} GroupsJoin(s: string)
    requires |s| > 4 && |s[4..]| % 4 == 0
    requires forall i :: 0 <= i < 4 ==> InAlphabet(s[..4][i])
    requires forall i :: 0 <= i < |s[4..]| ==>
      InAlphabet(s[4..][i]) || (i >= |s[4..]| - 2 && s[4..][i] == '=' && s[4..][|s[4..]| - 1] == '=')
    ensures |s| % 4 == 0
    ensures forall i :: 0 <= i < |s| ==> InAlphabet(s[i]) || (i >= |s| - 2 && s[i] == '=' && s[|s| - 1] == '=')
  {
    forall i | 0 <= i < |s| ensures InAlphabet(s[i]) || (i >= |s| - 2 && s[i] == '=' && s[|s| - 1] == '=') {
      if i < 4 { assert s[i] == s[..4][i]; } else { assert s[i] == s[4..][i - 4]; }
    }
  }

  // ---------------------------------------------------------------- which bits a character carries

  /** Bits `6 * k` to `6 * k + 5` of the data, with zeros behind its end. */
  function BitsAt(data: seq<byte>, k: nat): int
    requires 6 * k < 8 * |data|
  {
    var i := 6 * k / 8;
    var pair := data[i] as int * 256 + if i + 1 < |data| then data[i + 1] as int else 0;
    match 6 * k % 8
    case 0 => pair / 1024
    case 6 => pair / 16 % 64
    case 4 => pair / 64 % 64
    case _ => pair / 256 % 64
  }

  /** The character stands for the value in Table 2 of RFC 4648, section 5; letters and digits by their ASCII codes. */
  predicate Writes(c: char, value: int) {
    || (0 <= value < 26 && c as int == 65 + value)
    || (26 <= value < 52 && c as int == 71 + value)
    || (52 <= value < 62 && c as int == value - 4)
    || (value == 62 && c == '-')
    || (value == 63 && c == '_')
  }

  /** The four sextets of a group, from the halves of its bytes. */
  lemma {:induction false} SextetsOf(a: int, x: int, b: int, y: int, c: int, z: int)
    requires 0 <= a < 64 && 0 <= x < 4 && 0 <= b < 16 && 0 <= y < 16 && 0 <= c < 4 && 0 <= z < 64
    ensures var n := (a * 4 + x) * 65536 + (b * 16 + y) * 256 + (c * 64 + z);
      0 <= n < 16777216 &&
      Sextet(n, 0) == a && Sextet(n, 1) == x * 16 + b && Sextet(n, 2) == y * 4 + c && Sextet(n, 3) == z
  {
    var n := (a * 4 + x) * 65536 + (b * 16 + y) * 256 + (c * 64 + z);
    Divided(a, n - a * 262144, 262144);
    Divided(a * 64 + x * 16 + b, n - (a * 64 + x * 16 + b) * 4096, 4096);
    Divided(a, x * 16 + b, 64);
    Divided(n / 64, z, 64);
    Divided((a * 64 + x * 16 + b) * 64 + y * 4 + c, z, 64);
    Divided(a * 64 + x * 16 + b, y * 4 + c, 64);
  }

  /** The same six bits, taken from two neighbouring bytes. */
  lemma {:induction false} PairsOf(a: int, x: int, b: int, y: int, low: int)
    requires 0 <= a < 64 && 0 <= x < 4 && 0 <= b < 16 && 0 <= y < 16 && 0 <= low < 256
    ensures ((a * 4 + x) * 256 + (b * 16 + y)) / 1024 == a
    ensures ((a * 4 + x) * 256 + (b * 16 + y)) / 16 % 64 == x * 16 + b
  {
    Divided(a, x * 256 + b * 16 + y, 1024);
    Divided(a * 64 + x * 16 + b, y, 16);
    Divided(a, x * 16 + b, 64);
  }

  lemma {:induction false} LowPairsOf(b: int, y: int, c: int, z: int, low: int)
    requires 0 <= b < 16 && 0 <= y < 16 && 0 <= c < 4 && 0 <= z < 64 && 0 <= low < 256
    ensures ((b * 16 + y) * 256 + (c * 64 + z)) / 64 % 64 == y * 4 + c
    ensures ((c * 64 + z) * 256 + low) / 256 % 64 == z
  {
    Divided(b * 64 + y * 4 + c, z, 64);
    Divided(b, y * 4 + c, 64);
    Divided(c * 64 + z, low, 256);
    Divided(c, z, 64);
  }

  lemma {:induction false} GroupBits(a: byte, b: byte, c: byte, low: byte)
    ensures var n := Group(a, b, c);
      && Sextet(n, 0) == (a as int * 256 + b as int) / 1024
      && Sextet(n, 1) == (a as int * 256 + b as int) / 16 % 64
      && Sextet(n, 2) == (b as int * 256 + c as int) / 64 % 64
      && Sextet(n, 3) == (c as int * 256 + low as int) / 256 % 64
  {
    var p, q, r := a as int, b as int, c as int;
    SextetsOf(p / 4, p % 4, q / 16, q % 16, r / 64, r % 64);
    PairsOf(p / 4, p % 4, q / 16, q % 16, low as int);
    LowPairsOf(q / 16, q % 16, r / 64, r % 64, low as int);
  }

  /** A symbol behind the first group is the symbol of the same place behind the first three bytes. */
  lemma {:induction false} LaterBits(data: seq<byte>, k: nat)
    requires |data| >= 3 && k >= 4 && 6 * (k - 4) < 8 * |data[3..]|
    ensures 6 * k < 8 * |data| && BitsAt(data, k) == BitsAt(data[3..], k - 4)
  {
    assert 6 * k / 8 == 6 * (k - 4) / 8 + 3 && 6 * k % 8 == 6 * (k - 4) % 8;
  }

  lemma {:induction false} FirstBits(data: seq<byte>, k: nat)
    requires k < 4 && k < |Body(data)| && data != []
    ensures 6 * k < 8 * |data| && 0 <= BitsAt(data, k) < 64 && Body(data)[k] == Symbol(BitsAt(data, k))
  {
    var b := if |data| > 1 then data[1] else 0;
    var c := if |data| > 2 then data[2] else 0;
    FirstSymbols(data, k, b, c);
    FirstSextets(data, k, b, c);
  }

  lemma {:induction false} FirstSextets(data: seq<byte>, k: nat, b: byte, c: byte)
    requires k < 4 && 6 * k < 8 * |data|
    requires b == (if |data| > 1 then data[1] else 0) && c == if |data| > 2 then data[2] else 0
    ensures BitsAt(data, k) == Sextet(Group(data[0], b, c), k)
  {
    GroupBits(data[0], b, c, if |data| > 3 then data[3] else 0);
    if k == 0 {
      assert 6 * k / 8 == 0 && 6 * k % 8 == 0;
    } else if k == 1 {
      assert 6 * k / 8 == 0 && 6 * k % 8 == 6;
    } else if k == 2 {
      assert 6 * k / 8 == 1 && 6 * k % 8 == 4;
    } else {
      assert 6 * k / 8 == 2 && 6 * k % 8 == 2;
    }
  }

  lemma {:induction false} FirstSymbols(data: seq<byte>, k: nat, b: byte, c: byte)
    requires k < 4 && k < |Body(data)| && data != []
    requires b == (if |data| > 1 then data[1] else 0) && c == if |data| > 2 then data[2] else 0
    ensures Body(data)[k] == Symbol(Sextet(Group(data[0], b, c), k)) && 6 * k < 8 * |data|
  {
  }

  lemma {:induction false} BodyBits(data: seq<byte>, k: nat)
    requires k < |Body(data)|
    ensures 6 * k < 8 * |data| && 0 <= BitsAt(data, k) < 64 && Body(data)[k] == Symbol(BitsAt(data, k))
    decreases |data|
  {
    if |data| >= 3 && k >= 4 {
      BodyBits(data[3..], k - 4);
      LaterBits(data, k);
    } else {
      FirstBits(data, k);
    }
  }

  /** Character `k` of the encoding stands for the `k`-th six bits of the data, and there is one for every six begun. */
  lemma {:induction false} CharactersCarryBits(data: seq<byte>, k: nat)
    ensures k < |UrlEncode(data)| <==> 6 * k < 8 * |data|
    ensures k < |UrlEncode(data)| ==> Writes(UrlEncode(data)[k], BitsAt(data, k))
  {
    UrlEncodeIsBody(data);
    BodyCovers(data);
    if k < |Body(data)| { BodyBits(data, k); }
  }

  lemma {:induction false} BodyCovers(data: seq<byte>)
    ensures 8 * |data| <= 6 * |Body(data)| < 8 * |data| + 6
  {
    if |data| >= 3 { BodyCovers(data[3..]); }
  }

  // ---------------------------------------------------------------- the `SET` line

  const SET: string := "@BOBE-WIFI/1 SET "

  /** An open network has `-` for its password. */
  function PasswordField(password: seq<byte>): string {
    if password == [] then "-" else UrlEncode(password)
  }

  function SetFields(nonce: string, ssid: seq<byte>, password: seq<byte>): string {
    nonce + " " + (UrlEncode(ssid) + " " + (PasswordField(password) + "\n" + ""))
  }

  function SetLine(nonce: string, ssid: seq<byte>, password: seq<byte>): string {
    SET + SetFields(nonce, ssid, password)
  }

  /** The text up to the first `c`, which must be there, and the text after it. */
  function Field(s: string, c: char): Option<(string, string)> {
    if s == "" then None
    else if s[0] == c then Some(("", s[1..]))
    else
      var rest := Field(s[1..], c);
      if rest == None then None else Some(([s[0]] + rest.value.0, rest.value.1))
  }

  function ReadPassword(field: string): Option<seq<byte>> {
    if field == "-" then Some([]) else UrlDecode(field)
  }

  datatype Request = Request(nonce: string, ssid: seq<byte>, password: seq<byte>)

  /** The device's reading of the fields after `SET `. */
  function ReadFields(s: string): Option<Request> {
    var nonce := Field(s, ' ');
    if nonce == None then None
    else
      var ssid := Field(nonce.value.1, ' ');
      if ssid == None then None
      else
        var password := Field(ssid.value.1, '\n');
        if password == None || password.value.1 != "" then None
        else
          var name, secret := UrlDecode(ssid.value.0), ReadPassword(password.value.0);
          if name == None || secret == None then None
          else Some(Request(nonce.value.0, name.value, secret.value))
  }

  function ReadLine(s: string): Option<Request> {
    if SET <= s then ReadFields(s[|SET|..]) else None
  }

  lemma {:induction false} FieldSplits(a: string, c: char, rest: string)
    requires forall i :: 0 <= i < |a| ==> a[i] != c
    ensures Field(a + [c] + rest, c) == Some((a, rest))
  {
    var s := a + [c] + rest;
    if a != "" {
      assert s[1..] == a[1..] + [c] + rest;
      FieldSplits(a[1..], c, rest);
      assert [s[0]] + a[1..] == a;
    } else {
      assert s[1..] == rest;
    }
  }

  /** A password that is not empty is never encoded as `-`. */
  lemma {:induction false} DashIsNoPassword(password: seq<byte>)
    ensures password != [] ==> |UrlEncode(password)| >= 2
    ensures ReadPassword(PasswordField(password)) == Some(password)
    ensures forall i :: 0 <= i < |PasswordField(password)| ==> PasswordField(password)[i] != '\n'
  {
    RoundTrip(password);
    UrlEncodeIsBody(password);
    BodyPlain(password);
  }

  lemma {:induction false} FieldsRead(nonce: string, ssid: seq<byte>, password: seq<byte>)
    requires forall i :: 0 <= i < |nonce| ==> nonce[i] != ' '
    ensures ReadFields(SetFields(nonce, ssid, password)) == Some(Request(nonce, ssid, password))
  {
    RoundTrip(ssid);
    DashIsNoPassword(password);
    forall i: nat | i < |UrlEncode(ssid)| ensures UrlEncode(ssid)[i] != ' ' {
      UrlAlphabet(ssid, i);
    }
    FieldSplits(PasswordField(password), '\n', "");
    FieldSplits(UrlEncode(ssid), ' ', PasswordField(password) + "\n" + "");
    FieldSplits(nonce, ' ', UrlEncode(ssid) + " " + (PasswordField(password) + "\n" + ""));
  }

  /**
    The line determines nonce, network name and password, for every name and password and every nonce without a
    space.
   */
  lemma {:induction false} SetLineRead(nonce: string, ssid: seq<byte>, password: seq<byte>)
    requires forall i :: 0 <= i < |nonce| ==> nonce[i] != ' '
    ensures ReadLine(SetLine(nonce, ssid, password)) == Some(Request(nonce, ssid, password))
  {
    FieldsRead(nonce, ssid, password);
    Behind(SET, SetFields(nonce, ssid, password));
  }

  lemma {:induction false} Behind(a: string, b: string)
    ensures a <= a + b && (a + b)[|a|..] == b
  {
  }

  /** The line on the wire: the fields one space apart, and `-` in the place of the password of an open network. */
  lemma {:induction false} SetLineOnTheWire(nonce: string, ssid: seq<byte>, password: seq<byte>)
    ensures SetLine(nonce, ssid, []) == "@BOBE-WIFI/1 SET " + (nonce + " " + (UrlEncode(ssid) + " -\n"))
    ensures password != [] ==>
      SetLine(nonce, ssid, password) ==
        "@BOBE-WIFI/1 SET " + (nonce + " " + (UrlEncode(ssid) + " " + (UrlEncode(password) + "\n")))
  {
    assert " " + ("-" + "\n" + "") == " -\n";
    assert UrlEncode(ssid) + " " + ("-" + "\n" + "") == UrlEncode(ssid) + " -\n";
    assert UrlEncode(password) + "\n" + "" == UrlEncode(password) + "\n";
  }
}
