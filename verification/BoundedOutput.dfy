/** `boundedOutput` of BoBeAgent/src/delegation.ts over the UTF-8 bytes of a text (RFC 3629, sections 3 and 4). */
module BoundedOutput {
  import opened Common

  const LIMIT: nat := 50 * 1024

  predicate Continuation(b: byte) {
    0x80 <= b <= 0xBF
  }

  /** The length of the character a lead byte announces, or 0 where no character can begin. */
  function Announced(b: byte): (n: nat)
    ensures n <= 4
  {
    if b <= 0x7F then 1 else if 0xC2 <= b <= 0xDF then 2
      else if 0xE0 <= b <= 0xEF then 3 else if 0xF0 <= b <= 0xF4 then 4 else 0
  }

  /** The second byte's range excludes overlong forms, surrogates and what lies above U+10FFFF. */
  predicate SecondOk(lead: byte, b: byte) {
    && Continuation(b)
    && (lead == 0xE0 ==> b >= 0xA0) && (lead == 0xED ==> b <= 0x9F)
    && (lead == 0xF0 ==> b >= 0x90) && (lead == 0xF4 ==> b <= 0x8F)
  }

  /** The text begins with a whole character of `n` bytes. */
  predicate Begins(s: seq<byte>, n: nat) {
    && 0 < n <= |s| && Announced(s[0]) == n
    && (n >= 2 ==> SecondOk(s[0], s[1]))
    && forall i :: 2 <= i < n ==> Continuation(s[i])
  }

  predicate Valid(s: seq<byte>) {
    s == [] || (Begins(s, Announced(s[0])) && Valid(s[Announced(s[0])..]))
  }

  /** Cutting here splits no character. */
  predicate Boundary(s: seq<byte>, k: nat) {
    k <= |s| && Valid(s[..k]) && Valid(s[k..])
  }

  datatype Output = Output(kept: seq<byte>, truncated: bool)

  /**
    The text is returned whole, or cut at the last character boundary within the limit; the cut is never more than
    three bytes below it.
   */
  method Bound(bytes: seq<byte>) returns (r: Output)
    requires Valid(bytes)
    ensures r.truncated <==> |bytes| > 50 * 1024
    ensures !r.truncated ==> r.kept == bytes
    ensures r.kept <= bytes && Valid(r.kept) && Valid(bytes[|r.kept|..])
    ensures r.truncated ==> 50 * 1024 - 3 <= |r.kept| <= 50 * 1024
    ensures forall k :: |r.kept| < k <= 50 * 1024 && k <= |bytes| ==> !Boundary(bytes, k)
  {
    if |bytes| <= LIMIT {
      assert bytes[|bytes|..] == [];
      return Output(bytes, false);
    }
    var end := LIMIT;
    while end > 0 && Continuation(bytes[end])
      invariant 0 <= end <= LIMIT < |bytes|
      invariant forall k :: end < k <= LIMIT ==> Continuation(bytes[k])
    {
      end := end - 1;
    }
    BoundaryAt(bytes, end);
    forall k | end < k <= LIMIT ensures !Boundary(bytes, k) {
      BoundaryAt(bytes, k);
    }
    NearBoundary(bytes, LIMIT);
    return Output(bytes[..end], true);
  }

  /** In valid text the boundaries are exactly the places where no continuation byte stands. */
  lemma {:induction false} BoundaryAt(s: seq<byte>, k: nat)
    requires Valid(s) && k < |s|
    ensures Boundary(s, k) <==> !Continuation(s[k])
  {
    var n := Announced(s[0]);
    if k == 0 {
      assert s[0..] == s && s[..0] == [];
    } else if k < n {
      assert s[k..][0] == s[k];
    } else {
      BoundaryAt(s[n..], k - n);
      assert s[n..][k - n] == s[k];
      assert s[n..][k - n..] == s[k..];
      PrefixValid(s, n, k);
    }
  }

  lemma {:induction false} PrefixValid(s: seq<byte>, n: nat, k: nat)
    requires n <= k <= |s| && Begins(s, n)
    ensures Valid(s[..k]) <==> Valid(s[n..][..k - n])
  {
    assert Begins(s[..k], n);
    assert s[..k][n..] == s[n..][..k - n];
  }

  /** Within any four places of a valid text one is a boundary. */
  lemma {:induction false} NearBoundary(s: seq<byte>, k: nat)
    requires Valid(s) && k < |s|
    ensures exists j :: k - 3 <= j <= k && 0 <= j && !Continuation(s[j])
  {
    var n := Announced(s[0]);
    if k < n {
      assert !Continuation(s[0]);
    } else {
      NearBoundary(s[n..], k - n);
      var j :| k - n - 3 <= j <= k - n && 0 <= j && !Continuation(s[n..][j]);
      assert !Continuation(s[j + n]);
    }
  }

  lemma {:induction false} ValidJoin(a: seq<byte>, b: seq<byte>)
    requires Valid(a) && Valid(b)
    ensures Valid(a + b)
  {
    if a == [] {
      assert a + b == b;
    } else {
      var n := Announced(a[0]);
      assert Begins(a + b, n);
      assert (a + b)[n..] == a[n..] + b;
      ValidJoin(a[n..], b);
    }
  }

  const TRUNCATED: string := "\n[Delegated output truncated; "
  const ADVICE: string := "narrow the task for more detail.]"
  const NOTICE: string := TRUNCATED + ADVICE

  predicate Ascii(text: string) {
    forall i :: 0 <= i < |text| ==> text[i] <= '\U{7F}'
  }

  lemma {:induction false} AsciiJoin(a: string, b: string)
    requires Ascii(a) && Ascii(b)
    ensures Ascii(a + b)
  {
  }

  lemma {:induction false} TruncatedIsAscii()
    ensures Ascii(TRUNCATED)
  {
  }

  lemma {:induction false} AdviceIsAscii()
    ensures Ascii(ADVICE)
  {
  }

  lemma {:induction false} NoticeIsAscii()
    ensures Ascii(NOTICE)
  {
    TruncatedIsAscii();
    AdviceIsAscii();
    AsciiJoin(TRUNCATED, ADVICE);
  }

  function Bytes(text: string): (r: seq<byte>)
    requires Ascii(text)
    ensures |r| == |text|
  {
    if text == "" then [] else [text[0] as int as byte] + Bytes(text[1..])
  }

  /** What the parent reads: the kept text, and a notice when some was cut off. */
  function Text(o: Output): seq<byte> {
    NoticeIsAscii();
    if o.truncated then o.kept + Bytes(NOTICE) else o.kept
  }

  lemma {:induction false} AsciiValid(text: string)
    requires Ascii(text)
    ensures Valid(Bytes(text))
  {
    if text != "" {
      AsciiValid(text[1..]);
      assert Begins(Bytes(text), 1);
      assert Bytes(text)[1..] == Bytes(text[1..]);
    }
  }

  lemma {:induction false} BytesAt(text: string, i: nat)
    requires Ascii(text) && i < |text|
    ensures Bytes(text)[i] as int == text[i] as int
  {
    if i > 0 { BytesAt(text[1..], i - 1); }
  }

  /** What is appended to a cut text, character by character. */
  lemma {:induction false} NoticeSays(o: Output)
    ensures Ascii("\n[Delegated output truncated; ") && Ascii("narrow the task for more detail.]")
    ensures o.truncated ==>
      Text(o) ==
        o.kept + (Bytes("\n[Delegated output truncated; ") + Bytes("narrow the task for more detail.]"))
    ensures !o.truncated ==> Text(o) == o.kept
  {
    NoticeIsAscii();
    TruncatedIsAscii();
    AdviceIsAscii();
    BytesJoin(TRUNCATED, ADVICE);
  }

  lemma {:induction false} BytesJoin(a: string, b: string)
    requires Ascii(a) && Ascii(b)
    ensures Ascii(a + b) && Bytes(a + b) == Bytes(a) + Bytes(b)
  {
    if a == "" {
      assert a + b == b;
    } else {
      assert (a + b)[1..] == a[1..] + b;
      BytesJoin(a[1..], b);
    }
  }

  /** The notice does not disturb the text it follows: both together are valid UTF-8. */
  lemma {:induction false} TextValid(o: Output)
    requires Valid(o.kept)
    ensures Valid(Text(o))
  {
    NoticeIsAscii();
    AsciiValid(NOTICE);
    ValidJoin(o.kept, Bytes(NOTICE));
  }

  // ---------------------------------------------------------------- the encoding itself

  /** A place of Unicode that is no surrogate. */
  predicate Scalar(v: int) {
    0 <= v <= 0x10FFFF && !(0xD800 <= v <= 0xDFFF)
  }

  /** The bytes of one character: the leading bits give its length, six bits go into each byte behind. */
  function Utf8(v: int): (s: seq<byte>)
    requires Scalar(v)
    ensures 1 <= |s| <= 4
  {
    if v < 0x80 then [v as byte]
    else if v < 0x800 then [(0xC0 + v / 64) as byte, (0x80 + v % 64) as byte]
    else if v < 0x10000 then [(0xE0 + v / 4096) as byte, (0x80 + v / 64 % 64) as byte, (0x80 + v % 64) as byte]
    else
      [(0xF0 + v / 262144) as byte, (0x80 + v / 4096 % 64) as byte,
       (0x80 + v / 64 % 64) as byte, (0x80 + v % 64) as byte]
  }

  /** What the bytes of one character stand for. */
  function Decoded(s: seq<byte>): int
    requires 1 <= |s| <= 4
  {
    match |s|
    case 1 => s[0] as int
    case 2 => (s[0] as int - 0xC0) * 64 + (s[1] as int - 0x80)
    case 3 => ((s[0] as int - 0xE0) * 64 + (s[1] as int - 0x80)) * 64 + (s[2] as int - 0x80)
    case _ =>
      (((s[0] as int - 0xF0) * 64 + (s[1] as int - 0x80)) * 64 + (s[2] as int - 0x80)) * 64 + (s[3] as int - 0x80)
  }

  lemma {:induction false} EncodedBegins(v: int)
    requires Scalar(v)
    ensures Begins(Utf8(v), |Utf8(v)|)
  {
  }

  lemma {:induction false} DecodedTwo(s: seq<byte>)
    requires |s| == 2 && Begins(s, 2)
    ensures Scalar(Decoded(s)) && Utf8(Decoded(s)) == s
  {
    Divided(s[0] as int - 0xC0, s[1] as int - 0x80, 64);
  }

  lemma {:induction false} DecodedThree(s: seq<byte>)
    requires |s| == 3 && Begins(s, 3)
    ensures Scalar(Decoded(s)) && Utf8(Decoded(s)) == s
  {
    var a, b, c := s[0] as int - 0xE0, s[1] as int - 0x80, s[2] as int - 0x80;
    Divided(a * 64 + b, c, 64);
    Divided(a, b, 64);
    Divided(a, b * 64 + c, 4096);
  }

  lemma {:induction false} DecodedFour(s: seq<byte>)
    requires |s| == 4 && Begins(s, 4)
    ensures Scalar(Decoded(s)) && Utf8(Decoded(s)) == s
  {
    var a, b, c, d := s[0] as int - 0xF0, s[1] as int - 0x80, s[2] as int - 0x80, s[3] as int - 0x80;
    Divided((a * 64 + b) * 64 + c, d, 64);
    Divided(a * 64 + b, c, 64);
    Divided(a * 64 + b, c * 64 + d, 4096);
    Divided(a, b, 64);
    Divided(a, (b * 64 + c) * 64 + d, 262144);
  }

  /** A text begins with a whole character of `n` bytes exactly when these are the encoding of a place of Unicode. */
  lemma {:induction false} BeginsExactly(s: seq<byte>, n: nat)
    requires n <= |s|
    ensures Begins(s, n) <==> exists v :: Scalar(v) && Utf8(v) == s[..n]
  {
    if Begins(s, n) {
      assert Begins(s[..n], n);
      DecodedScalar(s[..n]);
    }
    if v :| Scalar(v) && Utf8(v) == s[..n] {
      EncodedBegins(v);
      assert Begins(s[..n], n);
    }
  }

  lemma {:induction false} DecodedScalar(s: seq<byte>)
    requires Begins(s, |s|)
    ensures Scalar(Decoded(s)) && Utf8(Decoded(s)) == s
  {
    match |s|
    case 1 =>
    case 2 => DecodedTwo(s);
    case 3 => DecodedThree(s);
    case _ => DecodedFour(s);
  }

  /** What a mask with `0xC0` tells: the bytes inside a character, and no others, have the leading bits `10`. */
  lemma {:induction false} ContinuationMasks(b: byte)
    ensures Continuation(b) <==> b as int / 64 == 2
  {
  }
}
