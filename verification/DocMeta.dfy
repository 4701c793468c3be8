/**
 The document metadata codec (server/metadata.h): a legacy form of exactly 30
 bytes and a compact form with varints and optional fields, told apart by length
 alone. Fixed-width fields are little-endian, as on every platform the server
 builds for; the varint is unsigned LEB128, section 7.6 of DWARF 5.
 */
module DocMetas {
  import opened Arithmetic
  import opened Octets
  import opened Options

  const TWO_32: nat := 0x1_0000_0000
  const TWO_64: nat := 0x1_0000_0000_0000_0000
  const LEGACY_SIZE: nat := 30
  const MAX_COMPACT_SIZE: nat := 1 + 10 + 8 + 10 + 4 + 4 + 1 + 1
  const VERSION_BITS: Byte := 32 // version 1 in bits 5-7

  datatype DocMeta = DocMeta(seqno: nat, cas: nat, valueSize: nat, flags: nat, expiry: nat, deleted: Byte, dataType: Byte)

  /** Every field fits its width in the packed struct. */
  predicate InRange(m: DocMeta) {
    m.seqno < TWO_64 && m.cas < TWO_64 && m.valueSize < TWO_32 && m.flags < TWO_32 && m.expiry < TWO_32
  }

  // ---- Encoding ----

  function Varint(v: nat): (r: Bytes)
    ensures 1 <= |r|
  {
    if v < 128 then [v] else [v % 128 + 128] + Varint(v / 128)
  }

  function Fixed(v: nat, n: nat): (r: Bytes)
    ensures |r| == n
  {
    if n == 0 then [] else [v % 256] + Fixed(v / 256, n - 1)
  }

  function Optional(v: nat, n: nat): Bytes {
    if v == 0 then [] else Fixed(v, n)
  }

  function Bit(v: nat, weight: nat): nat {
    if v == 0 then 0 else weight
  }

  function Header(m: DocMeta): Byte {
    VERSION_BITS + Bit(m.flags, 1) + Bit(m.expiry, 2) + Bit(m.deleted, 4) + Bit(m.dataType, 8)
  }

  /** The compact form before padding. */
  function Unpadded(m: DocMeta): Bytes {
    [Header(m)] + Varint(m.seqno) + Fixed(m.cas, 8) + Varint(m.valueSize)
    + Optional(m.flags, 4) + Optional(m.expiry, 4) + Optional(m.dataType, 1)
  }

  function Compact(m: DocMeta): Bytes {
    if |Unpadded(m)| == LEGACY_SIZE then Unpadded(m) + [0] else Unpadded(m)
  }

  function Legacy(m: DocMeta): (r: Bytes)
    ensures |r| == LEGACY_SIZE
  {
    Fixed(m.seqno, 8) + Fixed(m.cas, 8) + Fixed(m.valueSize, 4) + Fixed(m.flags, 4) + Fixed(m.expiry, 4)
    + [m.deleted] + [m.dataType]
  }

  /** The values n bytes hold. */
  function Width(n: nat): (r: nat)
    ensures r >= 1
  {
    if n == 0 then 1 else 256 * Width(n - 1)
  }

  /** The values n groups of seven bits hold. */
  function Groups(n: nat): (r: nat)
    ensures r >= 1
  {
    if n == 0 then 1 else 128 * Groups(n - 1)
  }

  // ---- Decoding: a read at position p gives a value and the position after it ----

  datatype Read = Read(value: nat, next: nat)

  /** Seven bits per byte into a 64-bit word; bits shifted past it are lost. */
  function TakeVarint(s: Bytes, p: nat, shift: nat, r: nat): (o: Option<Read>)
    ensures o.Some? ==> p < o.value.next <= |s|
    decreases |s| - p
  {
    if shift >= 64 || p >= |s| then None
    else
      var r' := r + Shl(s[p] % 128, shift) % TWO_64;
      if s[p] < 128 then Some(Read(r', p + 1)) else TakeVarint(s, p + 1, shift + 7, r')
  }

  function LoadFixed(s: Bytes, p: nat, n: nat): nat
    requires p + n <= |s|
    decreases |s| - p
  {
    if n == 0 then 0 else s[p] + 256 * LoadFixed(s, p + 1, n - 1)
  }

  function TakeFixed(s: Bytes, p: nat, n: nat): (o: Option<Read>)
    ensures o.Some? ==> o.value.next == p + n <= |s|
  {
    if p + n <= |s| then Some(Read(LoadFixed(s, p, n), p + n)) else None
  }

  function TakeOptional(s: Bytes, p: nat, n: nat, present: bool): (o: Option<Read>)
    ensures o.Some? ==> p <= o.value.next && (o.value.next <= |s| || !present)
  {
    if present then TakeFixed(s, p, n) else Some(Read(0, p))
  }

  function DecodeLegacy(s: Bytes): DocMeta
    requires |s| == LEGACY_SIZE
  {
    DocMeta(LoadFixed(s, 0, 8), LoadFixed(s, 8, 8), LoadFixed(s, 16, 4), LoadFixed(s, 20, 4), LoadFixed(s, 24, 4), s[28], s[29])
  }

  function DecodeTail(s: Bytes, hdr: Byte, seqno: nat, cas: nat, size: nat, p: nat): Option<DocMeta> {
    match TakeOptional(s, p, 4, hdr % 2 == 1)
    case None => None
    case Some(f) =>
      match TakeOptional(s, f.next, 4, hdr / 2 % 2 == 1)
      case None => None
      case Some(e) =>
        match TakeOptional(s, e.next, 1, hdr / 8 % 2 == 1)
        case None => None
        case Some(d) =>
          Some(DocMeta(seqno, cas, size, f.value, e.value, if hdr / 4 % 2 == 1 then 1 else 0, d.value % 256))
  }

  function DecodeCompact(s: Bytes): Option<DocMeta> {
    if s == [] || s[0] / 32 != 1 then None
    else
      match TakeVarint(s, 1, 0, 0)
      case None => None
      case Some(q) =>
        match TakeFixed(s, q.next, 8)
        case None => None
        case Some(c) =>
          match TakeVarint(s, c.next, 0, 0)
          case None => None
          case Some(z) => if z.value >= TWO_32 then None else DecodeTail(s, s[0], q.value, c.value, z.value, z.next)
  }

  function Decode(s: Bytes): Option<DocMeta> {
    if |s| == LEGACY_SIZE then Some(DecodeLegacy(s)) else DecodeCompact(s)
  }

  // ---- Reads of what was written ----

  /** s and e agree as far as both go: s is e cut short, or e with more bytes after it. */
  ghost predicate Agree(s: Bytes, e: Bytes) {
    forall i | 0 <= i < |s| && i < |e| :: s[i] == e[i]
  }

  ghost predicate HoldsAt(e: Bytes, p: nat, b: Bytes) {
    p + |b| <= |e| && forall i | 0 <= i < |b| :: e[p + i] == b[i]
  }

  lemma HoldsTail(e: Bytes, p: nat, x: Byte, b: Bytes)
    requires HoldsAt(e, p, [x] + b)
    ensures e[p] == x && HoldsAt(e, p + 1, b)
  {
    assert ([x] + b)[0] == x;
    forall i | 0 <= i < |b| ensures e[p + 1 + i] == b[i] {
      assert ([x] + b)[i + 1] == b[i];
    }
  }

  lemma ShlGroup(x: nat, n: nat)
    ensures Shl(128 * x, n) == Shl(x, n + 7)
  {
    ShlDouble(64 * x, n);
    ShlDouble(32 * x, n + 1);
    ShlDouble(16 * x, n + 2);
    ShlDouble(8 * x, n + 3);
    ShlDouble(4 * x, n + 4);
    ShlDouble(2 * x, n + 5);
    ShlDouble(x, n + 6);
  }

  lemma {:induction false} WidthIs(n: nat)
    ensures Width(n) == Pow2(8 * n)
  {
    if n > 0 {
      WidthIs(n - 1);
      Pow2Byte(8 * (n - 1));
    }
  }

  lemma WordWidths()
    ensures Width(1) == 256 && Width(4) == TWO_32 && Width(8) == TWO_64
  {}

  /** One varint group: what it holds and what the rest holds add up, and the rest still fits the word. */
  lemma VarintStep(w: nat, shift: nat)
    requires shift < 64 && Shl(w, shift) < TWO_64
    ensures Shl(w % 128, shift) + Shl(w / 128, shift + 7) == Shl(w, shift)
    ensures w >= 128 ==> shift + 7 < 64
  {
    ShlAdds(w % 128, 128 * (w / 128), shift);
    ShlGroup(w / 128, shift);
    if w >= 128 && shift + 7 >= 64 {
      ShlGrows(1, w / 128, 64, shift + 7);
      ShlOne(64);
      WidthIs(8);
      WordWidths();
    }
  }

  lemma TakeGroup(s: Bytes, p: nat, shift: nat, r: nat, g: nat)
    requires p < |s| && shift < 64 && g == Shl(s[p] % 128, shift) && g < TWO_64
    ensures TakeVarint(s, p, shift, r) == if s[p] < 128 then Some(Read(r + g, p + 1)) else TakeVarint(s, p + 1, shift + 7, r + g)
  {}

  lemma WrittenGroup(e: Bytes, p: nat, w: nat)
    requires HoldsAt(e, p, Varint(w))
    ensures e[p] % 128 == w % 128 && (e[p] < 128 <==> w < 128)
    ensures w >= 128 ==> HoldsAt(e, p + 1, Varint(w / 128)) && |Varint(w)| == 1 + |Varint(w / 128)|
    ensures w < 128 ==> |Varint(w)| == 1
  {
    if w >= 128 {
      HoldsTail(e, p, w % 128 + 128, Varint(w / 128));
    } else {
      assert [w][0] == w;
    }
  }

  /** Reading where a varint was written gives its value, unless the input ends inside it. */
  lemma {:induction false} TakeWrittenVarint(s: Bytes, e: Bytes, p: nat, w: nat, shift: nat, r: nat, v: nat)
    requires Agree(s, e) && HoldsAt(e, p, Varint(w)) && shift < 64 && v == Shl(w, shift) && v < TWO_64
    ensures TakeVarint(s, p, shift, r) == if p + |Varint(w)| <= |s| then Some(Read(r + v, p + |Varint(w)|)) else None
    decreases w
  {
    VarintStep(w, shift);
    WrittenGroup(e, p, w);
    if p < |s| {
      var g := Shl(w % 128, shift);
      TakeGroup(s, p, shift, r, g);
      if w >= 128 {
        TakeWrittenVarint(s, e, p + 1, w / 128, shift + 7, r + g, v - g);
      }
    }
  }

  lemma {:induction false} LoadWritten(s: Bytes, p: nat, v: nat, n: nat)
    requires HoldsAt(s, p, Fixed(v, n)) && v < Width(n)
    ensures LoadFixed(s, p, n) == v
    decreases n
  {
    if n == 0 {
    } else {
      HoldsTail(s, p, v % 256, Fixed(v / 256, n - 1));
      LoadWritten(s, p + 1, v / 256, n - 1);
    }
  }

  lemma TakeWrittenFixed(s: Bytes, e: Bytes, p: nat, v: nat, n: nat)
    requires Agree(s, e) && HoldsAt(e, p, Fixed(v, n)) && v < Width(n)
    ensures TakeFixed(s, p, n) == if p + n <= |s| then Some(Read(v, p + n)) else None
  {
    if p + n <= |s| {
      assert HoldsAt(s, p, Fixed(v, n));
      LoadWritten(s, p, v, n);
    }
  }

  lemma TakeWrittenOptional(s: Bytes, e: Bytes, p: nat, v: nat, n: nat)
    requires Agree(s, e) && HoldsAt(e, p, Optional(v, n)) && v < Width(n) && p <= |s|
    ensures TakeOptional(s, p, n, v != 0)
      == if p + |Optional(v, n)| <= |s| then Some(Read(v, p + |Optional(v, n)|)) else None
  {
    if v != 0 {
      TakeWrittenFixed(s, e, p, v, n);
    }
  }

  // ---- The compact form ----

  function AtCas(m: DocMeta): nat { 1 + |Varint(m.seqno)| }
  function AtSize(m: DocMeta): nat { AtCas(m) + 8 }
  function AtFlags(m: DocMeta): nat { AtSize(m) + |Varint(m.valueSize)| }
  function AtExpiry(m: DocMeta): nat { AtFlags(m) + |Optional(m.flags, 4)| }
  function AtDataType(m: DocMeta): nat { AtExpiry(m) + |Optional(m.expiry, 4)| }
  function AtEnd(m: DocMeta): nat { AtDataType(m) + |Optional(m.dataType, 1)| }

  lemma HoldsInMiddle(e: Bytes, a: Bytes, b: Bytes, c: Bytes)
    requires e == a + b + c
    ensures HoldsAt(e, |a|, b)
  {}

  lemma PartsHoldFront(h: Bytes, q: Bytes, c: Bytes, z: Bytes, t: Bytes)
    ensures var e := h + q + c + z + t;
      HoldsAt(e, |h|, q) && HoldsAt(e, |h| + |q|, c) && HoldsAt(e, |h| + |q| + |c|, z)
  {
    var e := h + q + c + z + t;
    HoldsInMiddle(e, h, q, c + z + t);
    HoldsInMiddle(e, h + q, c, z + t);
    HoldsInMiddle(e, h + q + c, z, t);
  }

  lemma PartsHoldBack(b: Bytes, f: Bytes, x: Bytes, d: Bytes)
    ensures var e := b + f + x + d;
      HoldsAt(e, |b|, f) && HoldsAt(e, |b| + |f|, x) && HoldsAt(e, |b| + |f| + |x|, d)
  {
    var e := b + f + x + d;
    HoldsInMiddle(e, b, f, x + d);
    HoldsInMiddle(e, b + f, x, d);
    HoldsInMiddle(e, b + f + x, d, []);
  }

  /** e holds the fields of m where the compact form puts them. */
  ghost predicate LaidOut(m: DocMeta, e: Bytes) {
    && HoldsAt(e, 1, Varint(m.seqno)) && HoldsAt(e, AtCas(m), Fixed(m.cas, 8)) && HoldsAt(e, AtSize(m), Varint(m.valueSize))
    && HoldsAt(e, AtFlags(m), Optional(m.flags, 4)) && HoldsAt(e, AtExpiry(m), Optional(m.expiry, 4))
    && HoldsAt(e, AtDataType(m), Optional(m.dataType, 1))
    && |e| == AtEnd(m) && e[0] == Header(m)
  }

  lemma LayoutFront(m: DocMeta)
    ensures var e := Unpadded(m);
      && HoldsAt(e, 1, Varint(m.seqno)) && HoldsAt(e, AtCas(m), Fixed(m.cas, 8))
      && HoldsAt(e, AtSize(m), Varint(m.valueSize)) && e[0] == Header(m)
  {
    var f, x, d := Optional(m.flags, 4), Optional(m.expiry, 4), Optional(m.dataType, 1);
    var b := [Header(m)] + Varint(m.seqno) + Fixed(m.cas, 8) + Varint(m.valueSize);
    PartsHoldFront([Header(m)], Varint(m.seqno), Fixed(m.cas, 8), Varint(m.valueSize), f + x + d);
    assert Unpadded(m) == b + (f + x + d);
  }

  lemma LayoutBack(m: DocMeta)
    ensures var e := Unpadded(m);
      && HoldsAt(e, AtFlags(m), Optional(m.flags, 4)) && HoldsAt(e, AtExpiry(m), Optional(m.expiry, 4))
      && HoldsAt(e, AtDataType(m), Optional(m.dataType, 1))
  {
    var b := [Header(m)] + Varint(m.seqno) + Fixed(m.cas, 8) + Varint(m.valueSize);
    PartsHoldBack(b, Optional(m.flags, 4), Optional(m.expiry, 4), Optional(m.dataType, 1));
  }

  lemma Layout(m: DocMeta)
    ensures LaidOut(m, Unpadded(m))
  {
    LayoutFront(m);
    LayoutBack(m);
    SizeOf(m);
  }

  lemma HeaderBits(m: DocMeta)
    ensures var h := Header(m);
      && h / 32 == 1 && (h % 2 == 1 <==> m.flags != 0) && (h / 2 % 2 == 1 <==> m.expiry != 0)
      && (h / 4 % 2 == 1 <==> m.deleted != 0) && (h / 8 % 2 == 1 <==> m.dataType != 0)
  {}

  /** The meta a decoder can give back: deleted is a single bit on disk. */
  function Normal(m: DocMeta): DocMeta {
    m.(deleted := if m.deleted == 0 then 0 else 1)
  }

  lemma SizeOf(m: DocMeta)
    ensures |Unpadded(m)| == AtEnd(m)
    ensures AtFlags(m) <= AtExpiry(m) <= AtDataType(m)
  {}

  // One lemma per field: what the decoder reads where the encoder wrote it.

  lemma TakeWholeVarint(s: Bytes, e: Bytes, p: nat, v: nat)
    requires Agree(s, e) && HoldsAt(e, p, Varint(v)) && v < TWO_64
    ensures TakeVarint(s, p, 0, 0) == if p + |Varint(v)| <= |s| then Some(Read(v, p + |Varint(v)|)) else None
  {
    TakeWrittenVarint(s, e, p, v, 0, 0, v);
  }

  lemma SeqnoField(m: DocMeta, s: Bytes, e: Bytes)
    requires InRange(m) && Agree(s, e) && HoldsAt(e, 1, Varint(m.seqno))
    ensures TakeVarint(s, 1, 0, 0) == if AtCas(m) <= |s| then Some(Read(m.seqno, AtCas(m))) else None
  {
    TakeWholeVarint(s, e, 1, m.seqno);
  }

  lemma CasField(m: DocMeta, s: Bytes, e: Bytes)
    requires InRange(m) && Agree(s, e) && HoldsAt(e, AtCas(m), Fixed(m.cas, 8))
    ensures TakeFixed(s, AtCas(m), 8) == if AtSize(m) <= |s| then Some(Read(m.cas, AtSize(m))) else None
  {
    WordWidths();
    TakeWrittenFixed(s, e, AtCas(m), m.cas, 8);
  }

  lemma SizeField(m: DocMeta, s: Bytes, e: Bytes)
    requires InRange(m) && Agree(s, e) && HoldsAt(e, AtSize(m), Varint(m.valueSize))
    ensures TakeVarint(s, AtSize(m), 0, 0) == if AtFlags(m) <= |s| then Some(Read(m.valueSize, AtFlags(m))) else None
  {
    TakeWholeVarint(s, e, AtSize(m), m.valueSize);
  }

  lemma FlagsField(m: DocMeta, s: Bytes, e: Bytes)
    requires InRange(m) && Agree(s, e) && HoldsAt(e, AtFlags(m), Optional(m.flags, 4)) && AtFlags(m) <= |s|
    ensures TakeOptional(s, AtFlags(m), 4, m.flags != 0) == if AtExpiry(m) <= |s| then Some(Read(m.flags, AtExpiry(m))) else None
  {
    WordWidths();
    TakeWrittenOptional(s, e, AtFlags(m), m.flags, 4);
  }

  lemma ExpiryField(m: DocMeta, s: Bytes, e: Bytes)
    requires InRange(m) && Agree(s, e) && HoldsAt(e, AtExpiry(m), Optional(m.expiry, 4)) && AtExpiry(m) <= |s|
    ensures TakeOptional(s, AtExpiry(m), 4, m.expiry != 0)
      == if AtDataType(m) <= |s| then Some(Read(m.expiry, AtDataType(m))) else None
  {
    WordWidths();
    TakeWrittenOptional(s, e, AtExpiry(m), m.expiry, 4);
  }

  lemma DataTypeField(m: DocMeta, s: Bytes, e: Bytes)
    requires InRange(m) && Agree(s, e) && HoldsAt(e, AtDataType(m), Optional(m.dataType, 1)) && AtDataType(m) <= |s|
    ensures TakeOptional(s, AtDataType(m), 1, m.dataType != 0)
      == if AtEnd(m) <= |s| then Some(Read(m.dataType, AtEnd(m))) else None
  {
    WordWidths();
    TakeWrittenOptional(s, e, AtDataType(m), m.dataType, 1);
  }

  lemma TailAgreeing(m: DocMeta, s: Bytes, e: Bytes)
    requires InRange(m) && Agree(s, e) && LaidOut(m, e) && AtFlags(m) <= |s|
    ensures DecodeTail(s, Header(m), m.seqno, m.cas, m.valueSize, AtFlags(m))
      == if |e| <= |s| then Some(Normal(m)) else None
  {
    HeaderBits(m);
    FlagsField(m, s, e);
    if AtExpiry(m) <= |s| {
      ExpiryField(m, s, e);
      if AtDataType(m) <= |s| {
        DataTypeField(m, s, e);
      }
    }
  }

  lemma HeaderFirst(m: DocMeta, s: Bytes, e: Bytes)
    requires Agree(s, e) && LaidOut(m, e) && s != []
    ensures s[0] == Header(m) && s[0] / 32 == 1
  {
    HeaderBits(m);
  }

  lemma DecodeLaidOut(m: DocMeta, s: Bytes, e: Bytes)
    requires InRange(m) && Agree(s, e) && LaidOut(m, e)
    ensures DecodeCompact(s) == if |e| <= |s| then Some(Normal(m)) else None
  {
    if s != [] {
      HeaderFirst(m, s, e);
      SeqnoField(m, s, e);
      if AtCas(m) <= |s| {
        CasField(m, s, e);
        if AtSize(m) <= |s| {
          SizeField(m, s, e);
          if AtFlags(m) <= |s| {
            TailAgreeing(m, s, e);
          }
        }
      }
    }
  }

  /**
   Any input that agrees with a compact encoding and is not 30 bytes long: the meta if the
   whole encoding is there, whatever follows it, and a refusal if any byte of it is missing.
   */
  lemma DecodeAgreeing(m: DocMeta, s: Bytes)
    requires InRange(m) && Agree(s, Unpadded(m)) && |s| != LEGACY_SIZE
    ensures Decode(s) == if |Unpadded(m)| <= |s| then Some(Normal(m)) else None
  {
    Layout(m);
    DecodeLaidOut(m, s, Unpadded(m));
  }

  /** n bytes of 7 bits hold anything below 2^(7n). */
  lemma {:induction false} VarintLength(v: nat, n: nat)
    requires 1 <= n && v < Groups(n)
    ensures |Varint(v)| <= n
    decreases n
  {
    if v >= 128 {
      assert n > 1 by { assert Groups(1) == 128; }
      VarintLength(v / 128, n - 1);
    }
  }

  lemma GroupBounds()
    ensures Groups(9) < TWO_64 <= Groups(10) && Groups(4) < TWO_32 <= Groups(5)
  {}

  lemma UnpaddedSize(m: DocMeta)
    requires InRange(m)
    ensures |Unpadded(m)| <= 33
  {
    WordWidths();
    GroupBounds();
    VarintLength(m.seqno, 10);
    VarintLength(m.valueSize, 5);
  }

  /** The encoder's output is never taken for a legacy meta, fits its buffer, and decodes to what was encoded. */
  lemma CompactRoundTrip(m: DocMeta)
    requires InRange(m)
    ensures |Compact(m)| != LEGACY_SIZE && |Compact(m)| <= MAX_COMPACT_SIZE
    ensures Decode(Compact(m)) == Some(Normal(m))
    ensures m.deleted <= 1 ==> Decode(Compact(m)) == Some(m)
  {
    UnpaddedSize(m);
    DecodeAgreeing(m, Compact(m));
  }

  /** A strict prefix of the unpadded encoding is refused exactly when its length is not the legacy one. */
  lemma TruncationRejected(m: DocMeta, k: nat)
    requires InRange(m) && k < |Unpadded(m)|
    ensures Decode(Unpadded(m)[..k]).None? <==> k != LEGACY_SIZE
  {
    if k != LEGACY_SIZE {
      DecodeAgreeing(m, Unpadded(m)[..k]);
    }
  }

  /** n bytes of 7 bits are needed from 2^(7(n-1)) on. */
  lemma {:induction false} VarintNeeds(v: nat, n: nat)
    requires 1 <= n && Groups(n - 1) <= v
    ensures |Varint(v)| >= n
    decreases n
  {
    if n > 1 {
      VarintNeeds(v / 128, n - 1);
    }
  }

  /** A meta with every field set: wide seqnos and sizes take ten and five bytes. */
  function LargeMeta(cas: nat): DocMeta {
    DocMeta(TWO_64 - 1, cas, TWO_32 - 1, 1, 1, 0, 1)
  }

  /** So there are metas whose encoding cut at 30 bytes is taken for a legacy one. */
  lemma TruncationAccepted(cas: nat)
    requires cas < TWO_64
    ensures var m := LargeMeta(cas);
      InRange(m) && |Unpadded(m)| == 33 && Decode(Unpadded(m)[..LEGACY_SIZE]) == Some(DecodeLegacy(Unpadded(m)[..LEGACY_SIZE]))
  {
    var m := LargeMeta(cas);
    WordWidths();
    GroupBounds();
    VarintNeeds(m.seqno, 10);
    VarintNeeds(m.valueSize, 5);
    UnpaddedSize(m);
    SizeOf(m);
  }

  /** Later optional fields: unknown bytes after the encoding are ignored. */
  lemma TrailingIgnored(m: DocMeta, more: Bytes)
    requires InRange(m) && |Unpadded(m)| + |more| != LEGACY_SIZE
    ensures Decode(Unpadded(m) + more) == Some(Normal(m))
  {
    DecodeAgreeing(m, Unpadded(m) + more);
  }

  lemma LegacyLayout(a: Bytes, b: Bytes, c: Bytes, d: Bytes, e: Bytes, t: Bytes)
    ensures var s := a + b + c + d + e + t;
      && HoldsAt(s, 0, a) && HoldsAt(s, |a|, b) && HoldsAt(s, |a| + |b|, c)
      && HoldsAt(s, |a| + |b| + |c|, d) && HoldsAt(s, |a| + |b| + |c| + |d|, e)
      && HoldsAt(s, |a| + |b| + |c| + |d| + |e|, t)
  {
    var s := a + b + c + d + e + t;
    HoldsInMiddle(s, [], a, b + c + d + e + t);
    PartsHoldFront(a, b, c, d, e + t);
    assert s == a + b + c + d + (e + t);
    HoldsInMiddle(s, a + b + c + d, e, t);
    HoldsInMiddle(s, a + b + c + d + e, t, []);
  }

  ghost predicate LegacyLaid(m: DocMeta, s: Bytes) {
    && |s| == LEGACY_SIZE
    && HoldsAt(s, 0, Fixed(m.seqno, 8)) && HoldsAt(s, 8, Fixed(m.cas, 8)) && HoldsAt(s, 16, Fixed(m.valueSize, 4))
    && HoldsAt(s, 20, Fixed(m.flags, 4)) && HoldsAt(s, 24, Fixed(m.expiry, 4))
    && s[28] == m.deleted && s[29] == m.dataType
  }

  lemma LegacyLaysOut(m: DocMeta)
    ensures LegacyLaid(m, Legacy(m))
  {
    var t := [m.deleted] + [m.dataType];
    LegacyLayout(Fixed(m.seqno, 8), Fixed(m.cas, 8), Fixed(m.valueSize, 4), Fixed(m.flags, 4), Fixed(m.expiry, 4), t);
    assert Legacy(m) == Fixed(m.seqno, 8) + Fixed(m.cas, 8) + Fixed(m.valueSize, 4) + Fixed(m.flags, 4) + Fixed(m.expiry, 4) + t;
    assert t[0] == m.deleted && t[1] == m.dataType;
  }

  lemma LegacyRoundTrip(m: DocMeta)
    requires InRange(m)
    ensures Decode(Legacy(m)) == Some(m)
  {
    var s := Legacy(m);
    LegacyLaysOut(m);
    WordWidths();
    LoadWritten(s, 0, m.seqno, 8);
    LoadWritten(s, 8, m.cas, 8);
    LoadWritten(s, 16, m.valueSize, 4);
    LoadWritten(s, 20, m.flags, 4);
    LoadWritten(s, 24, m.expiry, 4);
  }

  // ---- The buffer the encoder fills and the loop the decoder runs ----

  method PutVarint(out: array<Byte>, at: nat, v: nat) returns (n: nat)
    requires at + |Varint(v)| <= out.Length
    modifies out
    ensures n == at + |Varint(v)| && out[..n] == old(out[..at]) + Varint(v)
  {
    var w: nat := v;
    n := at;
    while w >= 128
      invariant at <= n && n + |Varint(w)| == at + |Varint(v)|
      invariant out[..n] + Varint(w) == old(out[..at]) + Varint(v)
    {
      ghost var before := out[..n];
      out[n] := w % 128 + 128;
      assert out[..n + 1] == before + [w % 128 + 128];
      w := w / 128;
      n := n + 1;
    }
    ghost var before := out[..n];
    out[n] := w;
    assert out[..n + 1] == before + [w];
    n := n + 1;
  }

  method PutBytes(out: array<Byte>, at: nat, b: Bytes) returns (n: nat)
    requires at + |b| <= out.Length
    modifies out
    ensures n == at + |b| && out[..n] == old(out[..at]) + b
  {
    forall i | 0 <= i < |b| {
      out[at + i] := b[i];
    }
    n := at + |b|;
  }

  method EncodeFront(m: DocMeta, out: array<Byte>) returns (n: nat)
    requires AtFlags(m) <= out.Length
    modifies out
    ensures n == AtFlags(m)
    ensures out[..n] == [Header(m)] + Varint(m.seqno) + Fixed(m.cas, 8) + Varint(m.valueSize)
  {
    n := PutBytes(out, 0, [Header(m)]);
    n := PutVarint(out, n, m.seqno);
    n := PutBytes(out, n, Fixed(m.cas, 8));
    n := PutVarint(out, n, m.valueSize);
  }

  method EncodeUnpadded(m: DocMeta, out: array<Byte>) returns (n: nat)
    requires |Unpadded(m)| <= out.Length
    modifies out
    ensures n == |Unpadded(m)| && out[..n] == Unpadded(m)
  {
    n := EncodeFront(m, out);
    n := PutBytes(out, n, Optional(m.flags, 4));
    n := PutBytes(out, n, Optional(m.expiry, 4));
    n := PutBytes(out, n, Optional(m.dataType, 1));
  }

  /** The buffer holds the compact form, which CompactRoundTrip says fits and decodes. */
  method EncodeCompact(m: DocMeta, out: array<Byte>) returns (n: nat)
    requires InRange(m) && MAX_COMPACT_SIZE <= out.Length
    modifies out
    ensures n <= MAX_COMPACT_SIZE && out[..n] == Compact(m)
  {
    UnpaddedSize(m);
    n := EncodeUnpadded(m, out);
    if n == LEGACY_SIZE {
      n := PutBytes(out, n, [0]);
    }
  }

  method GetVarint(s: Bytes, from: nat) returns (o: Option<Read>)
    requires from <= |s|
    ensures o == TakeVarint(s, from, 0, 0)
  {
    var r: nat, shift: nat, p: nat := 0, 0, from;
    while shift < 64 && p < |s|
      invariant TakeVarint(s, p, shift, r) == TakeVarint(s, from, 0, 0)
      decreases 64 - shift
    {
      var b := s[p];
      p := p + 1;
      r := r + Shl(b % 128, shift) % TWO_64;
      if b < 128 {
        return Some(Read(r, p));
      }
      shift := shift + 7;
    }
    return None;
  }
}
