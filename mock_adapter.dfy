/**
 * The helpers of the mock FHEVM adapter (`MockFhevmAdapter`) that carry logic of their own:
 * the byte-to-hex encoder `toHexString`, the mapping of an encryption result, and the choice
 * of the allowed public-parameter size closest to a request.
 */
module MockAdapter {
  import opened Common
  import opened JsString

  /** `Uint8Array | string`. */
  datatype Binary = Chars(text: string) | Bytes(data: seq<byte>)

  // ---------------------------------------------------------------------------
  // toHexString

  /** `s.padStart(n, c)` with a one-character pad. */
  function PadStart(s: string, n: nat, c: char): (r: string)
    ensures |r| == if |s| < n then n else |s|
    ensures r[|r| - |s|..] == s
    ensures forall i :: 0 <= i < |r| - |s| ==> r[i] == c
  {
    if |s| >= n then s else seq(n - |s|, _ => c) + s
  }

  predicate IsLowerHexDigit(c: char) {
    ('0' <= c <= '9') || ('a' <= c <= 'f')
  }

  /** The two lower-case hexadecimal digits of a byte, high digit first. */
  function ByteHex(b: byte): (r: string)
    ensures |r| == 2 && IsLowerHexDigit(r[0]) && IsLowerHexDigit(r[1])
    ensures DigitOf(r[0]) * 16 + DigitOf(r[1]) == b as int
  {
    [DigitChar(b as nat / 16), DigitChar(b as nat % 16)]
  }

  /** `ByteHex` is `b.toString(16).padStart(2, '0')`. */
  lemma ByteHexIsPaddedToString(b: byte)
    ensures ByteHex(b) == PadStart(NatToString(b as nat, 16), 2, '0')
  {
    var n := b as nat;
    var hi, lo := n / 16, n % 16;
    var digits := NatToString(n, 16);
    if n < 16 {
      assert digits == [DigitChar(lo)];
    } else {
      assert NatToString(hi, 16) == [DigitChar(hi)];
      assert digits == [DigitChar(hi), DigitChar(lo)];
    }
  }

  /** `Array.from(data).map(b => b.toString(16).padStart(2, '0'))`. */
  function ByteHexes(data: seq<byte>): (r: seq<string>)
    ensures |r| == |data| && forall i :: 0 <= i < |data| ==> r[i] == ByteHex(data[i])
  {
    seq(|data|, i requires 0 <= i < |data| => ByteHex(data[i]))
  }

  /** `toHexString(data)`: a string is returned as it is; bytes become "0x" and two digits per byte. */
  function ToHexString(data: Binary): (r: string)
    ensures data.Chars? ==> r == data.text
  {
    match data
    case Chars(text) => text
    case Bytes(bytes) => "0x" + Join(ByteHexes(bytes), "")
  }

  /** Two lower-case hexadecimal digits per byte, packed without separators. */
  function PackedHex(data: seq<byte>): (r: string)
    ensures |r| == 2 * |data| && AllLowerHex(r)
  {
    if data == [] then ""
    else
      var x, t := ByteHex(data[0]), PackedHex(data[1..]);
      LowerHexConcat(x, t);
      x + t
  }

  predicate AllLowerHex(s: string) {
    forall i :: 0 <= i < |s| ==> IsLowerHexDigit(s[i])
  }

  lemma LowerHexConcat(x: string, t: string)
    requires AllLowerHex(x) && AllLowerHex(t)
    ensures AllLowerHex(x + t)
  {
    forall i | 0 <= i < |x + t| ensures IsLowerHexDigit((x + t)[i]) {
      if i >= |x| {
        assert (x + t)[i] == t[i - |x|];
      }
    }
  }

  lemma {:induction false} JoinIsPacked(data: seq<byte>)
    ensures Join(ByteHexes(data), "") == PackedHex(data)
  {
    if |data| > 1 {
      assert ByteHexes(data)[1..] == ByteHexes(data[1..]);
      JoinIsPacked(data[1..]);
    } else if |data| == 1 {
      assert data[1..] == [];
    }
  }

  /** The encoding of `n` bytes is "0x" followed by `2n` lower-case hexadecimal digits. */
  lemma ToHexStringShape(data: seq<byte>)
    ensures var r := ToHexString(Bytes(data));
            |r| == 2 + 2 * |data| && r[..2] == "0x" && AllLowerHex(r[2..])
  {
    JoinIsPacked(data);
  }

  /** Reads back two hexadecimal digits per byte; `None` for an odd length or a non-digit. */
  function UnpackHex(h: string): Option<seq<byte>> {
    if h == [] then Some([])
    else if |h| == 1 || !IsHexDigit(h[0]) || !IsHexDigit(h[1]) then None
    else match UnpackHex(h[2..])
      case None => None
      case Some(rest) => Some([(DigitOf(h[0]) * 16 + DigitOf(h[1])) as byte] + rest)
  }

  /** Decodes a `0x`-prefixed hexadecimal string. */
  function FromHex(s: string): Option<seq<byte>> {
    if |s| >= 2 && s[..2] == "0x" then UnpackHex(s[2..]) else None
  }

  lemma {:induction false} UnpackPacked(data: seq<byte>)
    ensures UnpackHex(PackedHex(data)) == Some(data)
  {
    if data != [] {
      var x, t := ByteHex(data[0]), PackedHex(data[1..]);
      assert PackedHex(data) == x + t;
      var h := x + t;
      assert h[0] == x[0] && h[1] == x[1] && h[2..] == t;
      UnpackPacked(data[1..]);
      assert data == [data[0]] + data[1..];
    }
  }

  /** The fixed two-digit padding makes the encoding decodable: bytes survive the round trip. */
  lemma HexRoundTrip(data: seq<byte>)
    ensures FromHex(ToHexString(Bytes(data))) == Some(data)
  {
    JoinIsPacked(data);
    var s := ToHexString(Bytes(data));
    assert s[2..] == PackedHex(data);
    UnpackPacked(data);
  }

  /** Different byte strings get different encodings. */
  lemma ToHexStringInjective(a: seq<byte>, b: seq<byte>)
    requires ToHexString(Bytes(a)) == ToHexString(Bytes(b))
    ensures a == b
  {
    HexRoundTrip(a);
    HexRoundTrip(b);
  }

  // ---------------------------------------------------------------------------
  // encrypt

  /** What the mock's `encrypt` resolves to, and what the adapter hands on. */
  datatype MockEncryption = MockEncryption(handles: seq<Binary>, inputProof: Binary)
  datatype Encryption = Encryption(handles: seq<string>, inputProof: string)

  /** `{ handles: result.handles.map(toHexString), inputProof: toHexString(result.inputProof) }`. */
  function EncryptResult(result: MockEncryption): (e: Encryption)
    ensures |e.handles| == |result.handles|
    ensures forall i :: 0 <= i < |result.handles| ==> e.handles[i] == ToHexString(result.handles[i])
    ensures e.inputProof == ToHexString(result.inputProof)
  {
    Encryption(seq(|result.handles|, i requires 0 <= i < |result.handles| => ToHexString(result.handles[i])),
               ToHexString(result.inputProof))
  }

  /** Every byte handle and a byte proof can be recovered from what the adapter returns, position by position. */
  lemma EncryptResultDecodes(result: MockEncryption, i: nat)
    requires i < |result.handles| && result.handles[i].Bytes?
    ensures FromHex(EncryptResult(result).handles[i]) == Some(result.handles[i].data)
    ensures result.inputProof.Bytes? ==> FromHex(EncryptResult(result).inputProof) == Some(result.inputProof.data)
  {
    HexRoundTrip(result.handles[i].data);
    if result.inputProof.Bytes? {
      HexRoundTrip(result.inputProof.data);
    }
  }

  // ---------------------------------------------------------------------------
  // getPublicParams

  const AllowedSizes: seq<int> := [1, 8, 16, 32, 64, 128, 160, 256, 512, 1024, 2048]

  function Abs(x: int): nat {
    if x < 0 then -x else x
  }

  /**
   * `sizes.reduce((prev, curr) => Math.abs(curr - size) < Math.abs(prev - size) ? curr : prev)`:
   * an element nearest to `size`.
   */
  function ReduceClosest(sizes: seq<int>, size: int): (r: int)
    requires |sizes| > 0
    ensures r in sizes
    ensures forall j :: 0 <= j < |sizes| ==> Abs(r - size) <= Abs(sizes[j] - size)
  {
    if |sizes| == 1 then sizes[0]
    else
      var init := sizes[..|sizes| - 1];
      var prev := ReduceClosest(init, size);
      var curr := sizes[|sizes| - 1];
      assert forall j :: 0 <= j < |sizes| - 1 ==> sizes[j] == init[j];
      if Abs(curr - size) < Abs(prev - size) then curr else prev
  }

  /**
   * The reduce switches only on a strict improvement, so the element it keeps is the earliest
   * of the nearest ones: every element before it is strictly farther from `size`.
   */
  lemma {:induction false} ReduceClosestEarliest(sizes: seq<int>, size: int) returns (k: nat)
    requires |sizes| > 0
    ensures k < |sizes| && sizes[k] == ReduceClosest(sizes, size)
    ensures forall j :: 0 <= j < k ==> Abs(sizes[j] - size) > Abs(sizes[k] - size)
  {
    if |sizes| == 1 {
      return 0;
    }
    var init := sizes[..|sizes| - 1];
    var prev := ReduceClosest(init, size);
    var curr := sizes[|sizes| - 1];
    assert forall j :: 0 <= j < |sizes| - 1 ==> sizes[j] == init[j];
    if Abs(curr - size) < Abs(prev - size) {
      k := |sizes| - 1;
    } else {
      k := ReduceClosestEarliest(init, size);
    }
  }

  /** The size `getPublicParams(size)` asks the mock for. */
  function ClosestAllowedSize(size: int): (r: int)
    ensures r in AllowedSizes
    ensures forall s :: s in AllowedSizes ==> Abs(r - size) <= Abs(s - size)
  {
    ReduceClosest(AllowedSizes, size)
  }

  predicate Increasing(s: seq<int>) {
    forall i, j :: 0 <= i < j < |s| ==> s[i] < s[j]
  }

  /** On a list in increasing order a tie goes to the smaller of the two nearest sizes. */
  lemma ReduceClosestTie(sizes: seq<int>, size: int, s: int)
    requires |sizes| > 0 && Increasing(sizes)
    requires s in sizes && Abs(s - size) == Abs(ReduceClosest(sizes, size) - size)
    ensures ReduceClosest(sizes, size) <= s
  {
    var k := ReduceClosestEarliest(sizes, size);
    var m :| 0 <= m < |sizes| && sizes[m] == s;
    if m < k {
      assert Abs(sizes[m] - size) > Abs(sizes[k] - size);
    }
  }

  lemma AllowedSizesIncreasing()
    ensures Increasing(AllowedSizes)
  {
  }

  /** A request of 12 lies midway between 8 and 16 and gets 8; one of 24 gets 16; anything above 2048 gets 2048. */
  lemma ClosestAllowedSizeExamples(midway: int, above: int, big: int)
    requires midway == 12 && above == 24 && big >= 2048
    ensures ClosestAllowedSize(midway) == 8 && ClosestAllowedSize(above) == 16 && ClosestAllowedSize(big) == 2048
  {
    AllowedSizesIncreasing();
    ClosestOnTie(midway, 8, 16);
    ClosestOnTie(above, 16, 32);
    ClosestAbove(big);
  }

  /** A request equally far from two neighbouring sizes, and nearer to them than to any other, gets the smaller. */
  lemma ClosestOnTie(size: int, low: int, high: int)
    requires Increasing(AllowedSizes)
    requires low in AllowedSizes && high in AllowedSizes && low < size < high && size - low == high - size
    requires forall s :: s in AllowedSizes ==> s <= low || s >= high
    ensures ClosestAllowedSize(size) == low
  {
    var r := ClosestAllowedSize(size);
    assert Abs(r - size) <= Abs(low - size);
    ReduceClosestTie(AllowedSizes, size, low);
  }

  lemma ClosestAbove(size: int)
    requires size >= 2048
    ensures ClosestAllowedSize(size) == 2048
  {
    var r := ClosestAllowedSize(size);
    assert Abs(r - size) <= Abs(2048 - size);
  }

  /**
   * `getPublicParams(size)`: the public parameters of the closest allowed size, hex-encoded,
   * or "" when the mock has none for it. `params` is the mock's `getPublicParams`.
   */
  function GetPublicParams(size: int, params: int -> Option<seq<byte>>): (r: string)
    ensures r == "" <==> params(ClosestAllowedSize(size)).None?
    ensures r != "" ==> FromHex(r) == Some(params(ClosestAllowedSize(size)).value)
  {
    var closest := ClosestAllowedSize(size);
    var result := params(closest);
    if result.None? then ""
    else
      HexRoundTrip(result.value);
      ToHexString(Bytes(result.value))
  }
}
