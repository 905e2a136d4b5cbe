/**
 * Shared vocabulary of the client model: Go strings and byte slices as byte
 * sequences, Go's nil-or-present slices, the `error` values the client
 * returns, and Go's `%d` formatting of a 64-bit integer.
 */
module Base {

  /** One octet. Go strings are byte sequences, so every Go `string` and
      `[]byte` of the client is a `seq<byte>` here. */
  type byte = x: int | 0 <= x < 256

  /** Go's `int64`. */
  type Int64 = x: int | -0x8000_0000_0000_0000 <= x < 0x8000_0000_0000_0000

  /** A 20-byte SHA-1 digest (Go's `[20]byte`). */
  type Digest = s: seq<byte> | |s| == 20
    witness [0, 0, 0, 0, 0, 0, 0, 0, 0, 0, 0, 0, 0, 0, 0, 0, 0, 0, 0, 0]

  /** A Go slice that may be nil: `Nil` and `Slice([])` are both of length
      zero but compare differently under `== nil` and `reflect.DeepEqual`. */
  datatype Slice<T> = Nil | Slice(elems: seq<T>) {
    function Items(): (s: seq<T>)
      ensures Nil? ==> s == []
    {
      if Nil? then [] else elems
    }
  }

  datatype Option<T> = None | Some(value: T)

  /** The `error` values the client produces, one constructor per message. */
  datatype Error =
    // metainfo decoding and validation (client/metainfo.go)
    | DecodeFailed
    | MarshalFailed
    | UnmarshalFailed
    | NoAnnounceUrl
    | NoInfo
    | NoName
    | NoPieceInfo
    | NoFilesOrLength
    // one announce (client/tracker.go)
    | UnsupportedTransport
    | TrackerUnreachable
    | UndecodableResponse
    | TrackerRejected(reason: seq<byte>)
    | MalformedPeer
    | NoPeersFound
    // construction (client/torrent.go)
    | OpenFailed
    | InvalidInput
    | RandomFailed
    // registry (client/client.go)
    | AlreadyExists(name: seq<byte>)
    | NoPrefixMatch(prefix: seq<byte>)

  /** A Go `(value, error)` pair where exactly one side is meaningful. */
  datatype Result<T> = Ok(value: T) | Err(error: Error)

  /** The bytes of an ASCII string literal. */
  function Ascii(s: string): (r: seq<byte>)
    ensures |r| == |s|
    ensures forall i :: 0 <= i < |s| && s[i] < 128 as char ==> r[i] == s[i] as int
  {
    seq(|s|, i requires 0 <= i < |s| => (s[i] as int) % 256)
  }

  /** Go's `strings.HasPrefix`. */
  predicate HasPrefix(s: seq<byte>, prefix: seq<byte>) {
    |prefix| <= |s| && s[..|prefix|] == prefix
  }

  /** A concatenation starts with its first part. */
  lemma PrefixOfConcat(a: seq<byte>, b: seq<byte>)
    ensures HasPrefix(a + b, a)
  {
    assert (a + b)[..|a|] == a;
  }

  /** A concatenation ends with its second part. */
  lemma SuffixOfConcat(a: seq<byte>, b: seq<byte>)
    ensures (a + b)[|a|..] == b
  {
  }

  /** A sequence that ends with `a + b` ends with `b`. */
  lemma SuffixOfSuffix(r: seq<byte>, a: seq<byte>, b: seq<byte>)
    requires |a + b| <= |r| && r[|r| - |a + b|..] == a + b
    ensures |b| <= |r| && r[|r| - |b|..] == b
  {
    assert r[|r| - |b|..] == r[|r| - |a + b|..][|a|..];
  }

  /** The three parts of a concatenation sit at their positions. */
  lemma ConcatParts(a: seq<byte>, b: seq<byte>, c: seq<byte>)
    ensures |a + b + c| == |a| + |b| + |c|
    ensures HasPrefix(a + b + c, a)
    ensures (a + b + c)[|a|..|a| + |b|] == b
    ensures (a + b + c)[|a| + |b|..] == c
  {
    assert a + b + c == a + (b + c);
    PrefixOfConcat(a, b + c);
    SuffixOfConcat(a + b, c);
  }

  /** The elements of a sequence, as a set. */
  function Elems<T(!new)>(s: seq<T>): (r: set<T>)
    ensures forall x :: x in r <==> x in s
  {
    set x | x in s
  }

  // ---------------------------------------------------------------------
  // Decimal formatting (`fmt` verb %d) and its inverse

  const Minus: byte := 45
  const Zero: byte := 48

  /** Every byte is one of the ASCII digits '0' to '9'. */
  predicate AllDigits(s: seq<byte>) {
    forall i :: 0 <= i < |s| ==> Zero <= s[i] < Zero + 10
  }

  /** The decimal digits of a natural number, most significant first. */
  function Digits(n: nat): (r: seq<byte>)
    ensures |r| > 0
    ensures AllDigits(r)
    ensures r[0] == Zero ==> n == 0
    decreases n
  {
    if n < 10 then [Zero + n] else Digits(n / 10) + [Zero + n % 10]
  }

  /** `fmt.Sprintf("%d", n)`: a minus sign for negative numbers, then digits. */
  function Decimal(n: int): (r: seq<byte>)
    ensures |r| > (if n < 0 then 1 else 0)
    ensures r[0] == Minus <==> n < 0
    ensures AllDigits(r[if n < 0 then 1 else 0..])
    ensures n != 0 ==> r[if n < 0 then 1 else 0] != Zero
    ensures n == 0 ==> r == [Zero]
  {
    if n < 0 then [Minus] + Digits(-n) else Digits(n)
  }

  /** The value of a sequence of decimal digits. */
  function DigitsValue(s: seq<byte>): int
  {
    if s == [] then 0 else DigitsValue(s[..|s| - 1]) * 10 + (s[|s| - 1] - Zero)
  }

  /** Reads back what `Decimal` wrote. */
  function ParseDecimal(s: seq<byte>): int
  {
    if |s| > 0 && s[0] == Minus then -DigitsValue(s[1..]) else DigitsValue(s)
  }

  lemma {:induction false} DigitsRoundTrip(n: nat)
    ensures DigitsValue(Digits(n)) == n
    decreases n
  {
    if n >= 10 {
      var init := Digits(n / 10);
      var s := init + [Zero + n % 10];
      assert s[..|s| - 1] == init;
      DigitsRoundTrip(n / 10);
    }
  }

  /** Formatting a number in decimal loses nothing: parsing gives it back. */
  lemma DecimalRoundTrip(n: int)
    ensures ParseDecimal(Decimal(n)) == n
  {
    if n < 0 {
      assert Decimal(n)[1..] == Digits(-n);
      DigitsRoundTrip(-n);
    } else {
      DigitsRoundTrip(n);
    }
  }
}
