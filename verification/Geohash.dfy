/** The geohash encoder that names surge demand cells: longitude and latitude are
    bisected in turn, five answers per base-32 character. Coordinates are exact reals. */
module Geohash {

  const BASE32: string := "0123456789bcdefghjkmnpqrstuvwxyz"

  /** A rectangle of the grid: longitude range, then latitude range. */
  datatype Cell = Cell(west: real, east: real, south: real, north: real)

  const WORLD := Cell(-180.0, 180.0, -90.0, 90.0)

  /** Half-open membership; a cell on the rim of the world owns everything beyond it. */
  ghost predicate Within(x: real, lo: real, hi: real, min: real, max: real) {
    (lo == min || lo <= x) && (hi == max || x < hi)
  }

  ghost predicate Contains(c: Cell, lat: real, lng: real) {
    Within(lng, c.west, c.east, -180.0, 180.0) && Within(lat, c.south, c.north, -90.0, 90.0)
  }

  /** The half of a cell that one bit selects: eastern or western, northern or southern. */
  function Half(c: Cell, splitLng: bool, upper: bool): Cell {
    if splitLng then
      var mid := (c.west + c.east) / 2.0;
      if upper then c.(west := mid) else c.(east := mid)
    else
      var mid := (c.south + c.north) / 2.0;
      if upper then c.(south := mid) else c.(north := mid)
  }

  /** Which half of the cell holds the point. */
  predicate Upper(c: Cell, splitLng: bool, lat: real, lng: real) {
    if splitLng then lng >= (c.west + c.east) / 2.0 else lat >= (c.south + c.north) / 2.0
  }

  /** Parity, by counting: the encoder toggles a flag. */
  predicate Even(n: nat) {
    n == 0 || !Even(n - 1)
  }

  /** The cell a bit path leads to: even positions split longitude, odd ones latitude. */
  function CellOf(bits: seq<bool>): Cell {
    if bits == [] then WORLD
    else
      var n := |bits| - 1;
      Half(CellOf(bits[..n]), Even(n), bits[n])
  }

  /** How a point answers the next question, given the answers so far. */
  function Answers(lat: real, lng: real): seq<bool> -> bool {
    bits => Upper(CellOf(bits), Even(|bits|), lat, lng)
  }

  /** The first n answers. */
  function Path(answer: seq<bool> -> bool, n: nat): (bits: seq<bool>)
    ensures |bits| == n
  {
    if n == 0 then []
    else
      var prefix := Path(answer, n - 1);
      prefix + [answer(prefix)]
  }

  function Bit(b: bool): nat {
    if b then 1 else 0
  }

  /** How many values k bits have. */
  function Range(k: nat): (r: nat)
    ensures r >= 1
  {
    if k == 0 then 1 else 2 * Range(k - 1)
  }

  /** The number that bits spell, most significant first. */
  function Value(bits: seq<bool>): (v: nat)
    ensures v < Range(|bits|)
  {
    if bits == [] then 0
    else
      var n := |bits| - 1;
      2 * Value(bits[..n]) + Bit(bits[n])
  }

  /** The k bits that spell v. */
  function Unpack(v: nat, k: nat): (bits: seq<bool>)
    requires v < Range(k)
    ensures |bits| == k
  {
    if k == 0 then [] else Unpack(v / 2, k - 1) + [v % 2 == 1]
  }

  lemma {:induction false} UnpackValue(bits: seq<bool>)
    ensures Unpack(Value(bits), |bits|) == bits
  {
    if bits != [] {
      var n := |bits| - 1;
      UnpackValue(bits[..n]);
      assert bits == bits[..n] + [bits[n]];
    }
  }

  /** Five bits are a number below 32. */
  function Digit(group: seq<bool>): (v: nat)
    requires |group| == 5
    ensures v < 32 && v == Value(group)
  {
    FiveBits();
    Value(group)
  }

  /** The letter of a digit value; LetterTable shows that it is the BASE32 entry. */
  function Letter(v: nat): char
    requires v < 32
  {
    if v < 10 then (48 + v) as char          // '0' to '9'
    else if v < 17 then (98 + v - 10) as char   // 'b' to 'h'
    else if v < 19 then (106 + v - 17) as char  // 'j', 'k'
    else if v < 21 then (109 + v - 19) as char  // 'm', 'n'
    else (112 + v - 21) as char                 // 'p' to 'z'
  }

  lemma LetterTable(v: nat)
    requires v < 32
    ensures |BASE32| == 32 && BASE32[v] == Letter(v)
  {
  }

  /** The characters of `count` five-bit groups. */
  function Text(bits: seq<bool>, count: nat): (s: string)
    requires |bits| == 5 * count
    ensures |s| == count
  {
    if count == 0 then []
    else Text(bits[..5 * (count - 1)], count - 1) + [Letter(Digit(bits[5 * (count - 1)..]))]
  }

  function Hash(lat: real, lng: real, precision: nat): (s: string)
    ensures |s| == precision
  {
    Text(Path(Answers(lat, lng), 5 * precision), precision)
  }

  // ---- the encoder ----

  /** What the loop knows: `path` are the answers so far, of which the first groups
      are printed in `out` and the rest, `group`, are the bits of ch. */
  ghost predicate Encoding(answer: seq<bool> -> bool, path: seq<bool>, group: seq<bool>,
                           out: string, ch: nat)
  {
    && |path| == 5 * |out| + |group|
    && path == Path(answer, |path|)
    && path[5 * |out|..] == group
    && out == Text(path[..5 * |out|], |out|)
    && |group| <= 5 && ch == Value(group)
  }

  method Encode(lat: real, lng: real, precision: nat) returns (out: string)
    ensures out == Hash(lat, lng, precision)
  {
    hide Encoding, Path, Text, Value, Half, CellOf, Upper;
    var cell := WORLD;
    out := [];
    var bit: nat, ch: nat := 0, 0;
    var evenBit := true;
    ghost var answer := Answers(lat, lng);
    ghost var path: seq<bool>, group: seq<bool> := [], [];
    NothingEncoded(answer);
    while |out| < precision
      invariant |out| <= precision && 0 <= bit < 5 && |group| == bit
      invariant |out| == precision ==> bit == 0
      invariant Encoding(answer, path, group, out, ch)
      invariant evenBit == Even(|path|) && cell == CellOf(path)
      decreases precision - |out|, 5 - bit
    {
      ghost var upper := answer(path);
      Advance(answer, path, group, out, ch);
      CellSnoc(path, upper);
      cell, ch := Bisect(lat, lng, cell, evenBit, ch);
      evenBit := !evenBit;
      path, group := path + [upper], group + [upper];
      Print(answer, path, group, out, ch);
      out, bit, ch := Flush(out, bit + 1, ch, group);
      group := if |group| == 5 then [] else group;
    }
    Finished(lat, lng, path, out, ch);
  }

  /** After five answers, write the letter and start the next one. */
  method Flush(out: string, bit: nat, ch: nat, ghost group: seq<bool>)
    returns (out': string, bit': nat, ch': nat)
    requires |group| == bit <= 5 && ch == Value(group)
    ensures bit == 5 ==> out' == out + [Letter(Digit(group))] && bit' == ch' == 0
    ensures bit < 5 ==> out' == out && bit' == bit && ch' == ch
  {
    out', bit', ch' := out, bit, ch;
    if bit == 5 {
      LetterTable(Digit(group));
      out' := out + [BASE32[ch]];
      bit', ch' := 0, 0;
    }
  }

  lemma ValueSnoc(bits: seq<bool>, b: bool)
    ensures Value(bits + [b]) == 2 * Value(bits) + Bit(b)
  {
  }

  /** One comparison: shrink the range it tests and shift the answer into ch. */
  method Bisect(lat: real, lng: real, cell: Cell, evenBit: bool, ch: nat) returns (cell': Cell, ch': nat)
    ensures cell' == Half(cell, evenBit, Upper(cell, evenBit, lat, lng))
    ensures ch' == 2 * ch + Bit(Upper(cell, evenBit, lat, lng))
  {
    cell', ch' := cell, ch * 2;
    if evenBit {
      var mid := (cell.west + cell.east) / 2.0;
      if lng >= mid {
        cell', ch' := cell.(west := mid), ch' + 1;
      } else {
        cell' := cell.(east := mid);
      }
    } else {
      var mid := (cell.south + cell.north) / 2.0;
      if lat >= mid {
        cell', ch' := cell.(south := mid), ch' + 1;
      } else {
        cell' := cell.(north := mid);
      }
    }
  }

  lemma NothingEncoded(answer: seq<bool> -> bool)
    ensures Encoding(answer, [], [], [], 0) && CellOf([]) == WORLD
  {
  }

  /** One more answer extends the path by one bit. */
  lemma Advance(answer: seq<bool> -> bool, path: seq<bool>, group: seq<bool>, out: string, ch: nat)
    requires Encoding(answer, path, group, out, ch) && |group| <= 4
    ensures Encoding(answer, path + [answer(path)], group + [answer(path)],
                     out, 2 * ch + Bit(answer(path)))
  {
    SliceSnoc(path, answer(path), 5 * |out|);
    ValueSnoc(group, answer(path));
  }

  lemma CellSnoc(path: seq<bool>, upper: bool)
    ensures CellOf(path + [upper]) == Half(CellOf(path), Even(|path|), upper)
    ensures Even(|path + [upper]|) == !Even(|path|)
  {
  }

  lemma SliceSnoc(bits: seq<bool>, b: bool, k: nat)
    requires k <= |bits|
    ensures (bits + [b])[..k] == bits[..k] && (bits + [b])[k..] == bits[k..] + [b]
  {
  }

  /** A full group becomes one letter. */
  lemma Print(answer: seq<bool> -> bool, path: seq<bool>, group: seq<bool>, out: string, ch: nat)
    requires Encoding(answer, path, group, out, ch)
    ensures ch == Value(group)
    ensures |group| == 5 ==> Encoding(answer, path, [], out + [Letter(Digit(group))], 0)
  {
    if |group| == 5 {
      assert path[..5 * (|out| + 1)] == path;
      assert path[..5 * |out|] == path[..5 * (|out| + 1)][..5 * |out|];
    }
  }

  lemma Finished(lat: real, lng: real, path: seq<bool>, out: string, ch: nat)
    requires Encoding(Answers(lat, lng), path, [], out, ch)
    ensures out == Hash(lat, lng, |out|)
  {
    assert path[..5 * |out|] == path;
  }

  // ---- cells ----

  /** Of the points of a cell, one half holds those that give its answer. */
  lemma HalfHoldsItsPoints(c: Cell, splitLng: bool, upper: bool, lat: real, lng: real)
    requires -180.0 <= c.west < c.east <= 180.0 && -90.0 <= c.south < c.north <= 90.0
    ensures Contains(Half(c, splitLng, upper), lat, lng)
      <==> Contains(c, lat, lng) && Upper(c, splitLng, lat, lng) == upper
  {
  }

  /** A cell at depth n contains exactly the points whose first n bits lead to it:
      the cells of one depth partition the plane. */
  lemma {:induction false} CellHoldsItsPoints(bits: seq<bool>, lat: real, lng: real)
    ensures Contains(CellOf(bits), lat, lng) <==> Path(Answers(lat, lng), |bits|) == bits
  {
    if bits != [] {
      var n := |bits| - 1;
      CellHoldsItsPoints(bits[..n], lat, lng);
      CellInWorld(bits[..n]);
      HalfHoldsItsPoints(CellOf(bits[..n]), Even(n), bits[n], lat, lng);
      PathLast(Answers(lat, lng), bits);
    }
  }

  lemma PathLast(answer: seq<bool> -> bool, bits: seq<bool>)
    requires bits != []
    ensures var n := |bits| - 1;
      Path(answer, n + 1) == bits <==> Path(answer, n) == bits[..n] && answer(bits[..n]) == bits[n]
  {
  }

  /** Every cell is a proper rectangle inside the world. */
  lemma {:induction false} CellInWorld(bits: seq<bool>)
    ensures var c := CellOf(bits);
      -180.0 <= c.west < c.east <= 180.0 && -90.0 <= c.south < c.north <= 90.0
  {
    if bits != [] {
      CellInWorld(bits[..|bits| - 1]);
    }
  }

  function Pow2(k: nat): (p: real)
    ensures p > 0.0
  {
    if k == 0 then 1.0 else 2.0 * Pow2(k - 1)
  }

  lemma {:induction false} EvenIsMod(n: nat)
    ensures Even(n) <==> n % 2 == 0
  {
    if n > 0 { EvenIsMod(n - 1); }
  }

  /** After n bits a cell spans 360 degrees over 2^ceil(n/2) by 180 over 2^floor(n/2). */
  lemma {:induction false} CellSize(bits: seq<bool>)
    ensures CellOf(bits).east - CellOf(bits).west == 360.0 / Pow2((|bits| + 1) / 2)
    ensures CellOf(bits).north - CellOf(bits).south == 180.0 / Pow2(|bits| / 2)
  {
    if bits != [] {
      var n := |bits| - 1;
      CellSize(bits[..n]);
      EvenIsMod(n);
      if Even(n) {
        assert (n + 2) / 2 == (n + 1) / 2 + 1;
        HalveQuotient(360.0, (n + 1) / 2);
      } else {
        assert (n + 1) / 2 == n / 2 + 1 && (n + 2) / 2 == (n + 1) / 2;
        HalveQuotient(180.0, n / 2);
      }
    }
  }

  lemma HalveQuotient(x: real, k: nat)
    ensures x / Pow2(k + 1) == x / Pow2(k) / 2.0
  {
  }

  /** The bits at the even positions, or at the odd ones. */
  function Every(bits: seq<bool>, odd: nat): (half: seq<bool>)
  {
    if bits == [] then []
    else
      var n := |bits| - 1;
      Every(bits[..n], odd) + if n % 2 == odd then [bits[n]] else []
  }

  lemma {:induction false} EverySize(bits: seq<bool>)
    ensures |Every(bits, 0)| == (|bits| + 1) / 2 && |Every(bits, 1)| == |bits| / 2
  {
    if bits != [] { EverySize(bits[..|bits| - 1]); }
  }

  lemma EverySnoc(bits: seq<bool>)
    requires bits != []
    ensures var n := |bits| - 1;
      && Every(bits, n % 2) == Every(bits[..n], n % 2) + [bits[n]]
      && Every(bits, 1 - n % 2) == Every(bits[..n], 1 - n % 2)
  {
  }

  /** The western edge is the number that the even bits spell, in units of the cell's width
      from the date line; the southern edge that of the odd bits, from the south pole. */
  lemma {:induction false} CellIsExpansion(bits: seq<bool>)
    ensures CellOf(bits).west == -180.0 + Steps(360.0, Value(Every(bits, 0)), (|bits| + 1) / 2)
    ensures CellOf(bits).south == -90.0 + Steps(180.0, Value(Every(bits, 1)), |bits| / 2)
  {
    hide Value, Pow2, Steps, Every;
    if bits == [] {
      NoSteps();
      assert Every(bits, 0) == [] && Every(bits, 1) == [] by { EverySize(bits); }
    } else {
      var n := |bits| - 1;
      var before := bits[..n];
      CellIsExpansion(before);
      CellSize(before);
      EverySnoc(bits);
      EvenIsMod(n);
      ValueSnoc(Every(before, n % 2), bits[n]);
      var v := Value(Every(before, n % 2));
      if n % 2 == 0 {
        assert (n + 2) / 2 == (n + 1) / 2 + 1;
        StepOn(360.0, v, (n + 1) / 2, bits[n]);
      } else {
        assert (n + 1) / 2 == n / 2 + 1 && (n + 2) / 2 == (n + 1) / 2;
        StepOn(180.0, v, n / 2, bits[n]);
      }
    }
  }

  /** v of the 2^k equal steps that make up a span. */
  function Steps(span: real, v: nat, k: nat): real {
    v as real * (span / Pow2(k))
  }

  lemma NoSteps()
    ensures Value([]) == 0 && Steps(360.0, 0, 0) == 0.0 && Steps(180.0, 0, 0) == 0.0
  {
  }

  lemma StepOn(span: real, v: nat, k: nat, b: bool)
    ensures Steps(span, 2 * v + Bit(b), k + 1) == Steps(span, v, k) + if b then span / Pow2(k) / 2.0 else 0.0
    ensures Steps(span, v + 1, k) == Steps(span, v, k) + span / Pow2(k)
  {
    HalveQuotient(span, k);
    hide Pow2;
    var w := span / Pow2(k);
    Multiples(v, Bit(b), w);
  }

  lemma Multiples(v: nat, b: nat, w: real)
    ensures (2 * v + b) as real * (w / 2.0) == v as real * w + b as real * (w / 2.0)
    ensures (v + 1) as real * w == v as real * w + w
  {
    assert (2 * v + b) as real == 2.0 * v as real + b as real;
    assert (v + 1) as real == v as real + 1.0;
  }

  // ---- reading a hash back ----

  predicate IsLetter(c: char) {
    '0' <= c <= '9' || 'b' <= c <= 'h' || 'j' <= c <= 'k' || 'm' <= c <= 'n' || 'p' <= c <= 'z'
  }

  function LetterValue(c: char): (v: nat)
    requires IsLetter(c)
    ensures v < 32
  {
    if c <= '9' then c as int - 48
    else if c <= 'h' then c as int - 88
    else if c <= 'k' then c as int - 89
    else if c <= 'n' then c as int - 90
    else c as int - 91
  }

  predicate IsHash(s: string) {
    forall i | 0 <= i < |s| :: IsLetter(s[i])
  }

  lemma FiveBits()
    ensures Range(5) == 32
  {
  }

  /** Decoding, character by character and independent of any point. */
  function DecodeBits(s: string): (bits: seq<bool>)
    requires IsHash(s)
    ensures |bits| == 5 * |s|
  {
    if s == [] then []
    else
      var n := |s| - 1;
      FiveBits();
      DecodeBits(s[..n]) + Unpack(LetterValue(s[n]), 5)
  }

  function Decode(s: string): Cell
    requires IsHash(s)
  {
    CellOf(DecodeBits(s))
  }

  /** Distinct digit values have distinct letters. */
  lemma LetterRoundTrip(v: nat)
    requires v < 32
    ensures IsLetter(Letter(v)) && LetterValue(Letter(v)) == v
  {
  }

  lemma GroupRoundTrip(group: seq<bool>)
    requires |group| == 5
    ensures IsLetter(Letter(Digit(group)))
    ensures LetterValue(Letter(Digit(group))) == Value(group) && Value(group) < Range(5)
    ensures Unpack(Value(group), 5) == group
  {
    LetterRoundTrip(Digit(group));
    UnpackValue(group);
  }

  /** Decoding inverts the printing of bit groups. */
  lemma {:induction false} DecodeText(bits: seq<bool>, count: nat)
    requires |bits| == 5 * count
    ensures IsHash(Text(bits, count)) && DecodeBits(Text(bits, count)) == bits
  {
    hide Value, Unpack, Range, Digit, Letter, LetterValue, IsLetter;
    if count > 0 {
      var m := 5 * (count - 1);
      DecodeText(bits[..m], count - 1);
      var s := Text(bits, count);
      assert s[..count - 1] == Text(bits[..m], count - 1);
      GroupRoundTrip(bits[m..]);
      assert bits == bits[..m] + bits[m..];
    }
  }

  // ---- theorems ----

  /** The decoded cell of a hash has the advertised size and contains a point exactly
      when that point has this hash; the encoded point is one of them. */
  lemma HashNamesItsCell(lat: real, lng: real, precision: nat)
    ensures IsHash(Hash(lat, lng, precision))
    ensures var c := Decode(Hash(lat, lng, precision));
      && c.east - c.west == 360.0 / Pow2((5 * precision + 1) / 2)
      && c.north - c.south == 180.0 / Pow2(5 * precision / 2)
      && Contains(c, lat, lng)
      && forall lat', lng' :: Contains(c, lat', lng') <==> Hash(lat', lng', precision) == Hash(lat, lng, precision)
  {
    hide Path, Text, CellOf, DecodeBits, IsHash, Contains, Pow2, Answers;
    var path := Path(Answers(lat, lng), 5 * precision);
    DecodeText(path, precision);
    CellSize(path);
    CellHoldsItsPoints(path, lat, lng);
    forall lat', lng'
      ensures Contains(CellOf(path), lat', lng') <==> Hash(lat', lng', precision) == Hash(lat, lng, precision)
    {
      CellHoldsItsPoints(path, lat', lng');
      DecodeText(Path(Answers(lat', lng'), 5 * precision), precision);
    }
  }

  /** For a coordinate pair on the globe the cell contains the point in the plain sense. */
  lemma CellBracketsPoint(lat: real, lng: real, precision: nat)
    requires -90.0 <= lat <= 90.0 && -180.0 <= lng <= 180.0
    ensures IsHash(Hash(lat, lng, precision))
    ensures var c := Decode(Hash(lat, lng, precision));
      && c.west <= lng <= c.east && (lng == c.east ==> lng == 180.0)
      && c.south <= lat <= c.north && (lat == c.north ==> lat == 90.0)
  {
    HashNamesItsCell(lat, lng, precision);
    CellInWorld(DecodeBits(Hash(lat, lng, precision)));
  }

  /** Each letter of a hash is the base-32 digit that five bits of the path spell. */
  lemma {:induction false} HashLetters(bits: seq<bool>, count: nat, n: nat)
    requires |bits| == 5 * count && n < count
    ensures Value(bits[5 * n..5 * n + 5]) < 32
    ensures Text(bits, count)[n] == "0123456789bcdefghjkmnpqrstuvwxyz"[Value(bits[5 * n..5 * n + 5])]
  {
    hide Value, Letter;
    var m := 5 * (count - 1);
    if n == count - 1 {
      assert bits[5 * n..5 * n + 5] == bits[m..];
      LetterTable(Digit(bits[m..]));
    } else {
      HashLetters(bits[..m], count - 1, n);
      assert bits[..m][5 * n..5 * n + 5] == bits[5 * n..5 * n + 5];
    }
  }

  /** The letters of a hash spell, five bits each, the interleaved binary expansions of the
      coordinates: the even bits in which of the equal steps from the date line the longitude
      lies, the odd ones in which step from the south pole the latitude does. */
  lemma HashIsExpansion(lat: real, lng: real, precision: nat)
    requires -90.0 <= lat < 90.0 && -180.0 <= lng < 180.0
    ensures var bits, n := Path(Answers(lat, lng), 5 * precision), 5 * precision;
      var (x, y) := (Value(Every(bits, 0)), Value(Every(bits, 1)));
      && Steps(360.0, x, (n + 1) / 2) <= lng + 180.0 < Steps(360.0, x + 1, (n + 1) / 2)
      && Steps(180.0, y, n / 2) <= lat + 90.0 < Steps(180.0, y + 1, n / 2)
    ensures forall n | 0 <= n < precision ::
      && Value(Path(Answers(lat, lng), 5 * precision)[5 * n..5 * n + 5]) < 32
      && Hash(lat, lng, precision)[n] ==
           "0123456789bcdefghjkmnpqrstuvwxyz"[Value(Path(Answers(lat, lng), 5 * precision)[5 * n..5 * n + 5])]
  {
    hide Value, Every, Steps, Pow2, Path, Text, CellOf, DecodeBits, IsHash;
    var bits := Path(Answers(lat, lng), 5 * precision);
    DecodeText(bits, precision);
    CellBracketsPoint(lat, lng, precision);
    CellIsExpansion(bits);
    CellSize(bits);
    CellInWorld(bits);
    StepOn(360.0, Value(Every(bits, 0)), (5 * precision + 1) / 2, false);
    StepOn(180.0, Value(Every(bits, 1)), 5 * precision / 2, false);
    forall n | 0 <= n < precision
      ensures Value(bits[5 * n..5 * n + 5]) < 32
      ensures Hash(lat, lng, precision)[n] == "0123456789bcdefghjkmnpqrstuvwxyz"[Value(bits[5 * n..5 * n + 5])]
    {
      HashLetters(bits, precision, n);
    }
  }

  /** Shortening a hash gives the hash of the same point at the lower precision. */
  lemma HashPrefix(lat: real, lng: real, precision: nat, shorter: nat)
    requires shorter <= precision
    ensures Hash(lat, lng, precision)[..shorter] == Hash(lat, lng, shorter)
  {
    PathPrefix(Answers(lat, lng), 5 * precision, 5 * shorter);
    TextPrefix(Path(Answers(lat, lng), 5 * precision), precision, shorter);
  }

  lemma {:induction false} TextPrefix(bits: seq<bool>, count: nat, shorter: nat)
    requires |bits| == 5 * count && shorter <= count
    ensures Text(bits, count)[..shorter] == Text(bits[..5 * shorter], shorter)
  {
    if shorter == count {
      assert bits[..5 * shorter] == bits;
    } else {
      var rest := bits[..5 * (count - 1)];
      TextPrefix(rest, count - 1, shorter);
      assert rest[..5 * shorter] == bits[..5 * shorter];
      assert Text(bits, count)[..shorter] == Text(rest, count - 1)[..shorter];
    }
  }

  lemma {:induction false} PathPrefix(answer: seq<bool> -> bool, n: nat, m: nat)
    requires m <= n
    ensures Path(answer, n)[..m] == Path(answer, m)
    decreases n
  {
    if m < n {
      PathPrefix(answer, n - 1, m);
      assert Path(answer, n)[..m] == Path(answer, n - 1)[..m];
    }
  }

}
