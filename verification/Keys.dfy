/** The byte strings under which records are stored: their order is the order of the fields, and scans select what
 * they are meant to. */
module Keys {
  import opened Operations
  import opened OrderedIndex
  import opened Worklist
  import opened Seeking
  import opened Postings
  import opened Checkpoints

  type Bytes = seq<nat>

  /** The order of the column families. */
  predicate LexLess(a: Bytes, b: Bytes) {
    if b == [] then false
    else if a == [] then true
    else a[0] < b[0] || (a[0] == b[0] && LexLess(a[1..], b[1..]))
  }

  function Limit(width: nat): (limit: nat)
    ensures limit > 0
  {
    if width == 0 then 1 else 256 * Limit(width - 1)
  }

  function BigEndian(n: nat, width: nat): (s: Bytes)
    ensures |s| == width
  {
    if width == 0 then [] else BigEndian(n / 256, width - 1) + [n % 256]
  }

  function FromBigEndian(s: Bytes): nat {
    if s == [] then 0 else 256 * FromBigEndian(s[..|s| - 1]) + s[|s| - 1]
  }

  /** A field of fixed width, followed by the rest of the key. */
  function Field(n: nat, width: nat, rest: Bytes): Bytes {
    BigEndian(n, width) + rest
  }

  lemma {:induction false} LexAppend(a: Bytes, b: Bytes, c: Bytes, d: Bytes)
    requires |a| == |b|
    ensures LexLess(a + c, b + d) <==> LexLess(a, b) || (a == b && LexLess(c, d))
    ensures a + c == b + d <==> a == b && c == d
  {
    if a == [] {
      assert a + c == c && b + d == d;
    } else {
      assert (a + c)[1..] == a[1..] + c && (b + d)[1..] == b[1..] + d;
      LexAppend(a[1..], b[1..], c, d);
      assert a == [a[0]] + a[1..] && b == [b[0]] + b[1..];
      assert (a + c)[..|a|] == a && (b + d)[..|b|] == b && (a + c)[|a|..] == c && (b + d)[|b|..] == d;
    }
  }

  /** Big-endian bytes compare as their numbers. */
  lemma {:induction false} BigEndianOrder(m: nat, n: nat, width: nat)
    requires m < Limit(width) && n < Limit(width)
    ensures LexLess(BigEndian(m, width), BigEndian(n, width)) <==> m < n
    ensures BigEndian(m, width) == BigEndian(n, width) <==> m == n
  {
    if width > 0 {
      BigEndianOrder(m / 256, n / 256, width - 1);
      LexAppend(BigEndian(m / 256, width - 1), BigEndian(n / 256, width - 1), [m % 256], [n % 256]);
      assert LexLess([m % 256], [n % 256]) <==> m % 256 < n % 256;
    }
  }

  lemma {:induction false} BigEndianRoundTrip(n: nat, width: nat)
    requires n < Limit(width)
    ensures FromBigEndian(BigEndian(n, width)) == n
  {
    if width > 0 {
      BigEndianRoundTrip(n / 256, width - 1);
      assert BigEndian(n, width)[..width - 1] == BigEndian(n / 256, width - 1);
    }
  }

  lemma FieldOrder(m: nat, n: nat, width: nat, a: Bytes, b: Bytes)
    requires m < Limit(width) && n < Limit(width)
    ensures LexLess(Field(m, width, a), Field(n, width, b)) <==> m < n || (m == n && LexLess(a, b))
    ensures Field(m, width, a) == Field(n, width, b) <==> m == n && a == b
  {
    BigEndianOrder(m, n, width);
    LexAppend(BigEndian(m, width), BigEndian(n, width), a, b);
  }

  // ---- the layouts ----

  predicate FitsUuid(id: Uuid) {
    id < Limit(16)
  }

  predicate FitsTime(date: Time) {
    date < Limit(8)
  }

  /** Every field fits its width. */
  predicate Fits(k: OpKey) {
    && FitsUuid(k.store) && FitsUuid(k.goods) && FitsUuid(k.id)
    && FitsTime(k.date) && k.order < Limit(1)
    && FitsUuid(k.batch.id) && FitsTime(k.batch.date)
  }

  function Flag(dependent: bool): nat {
    if dependent then 1 else 0
  }

  function BatchBytes(goods: Goods, batch: Batch, rest: Bytes): Bytes {
    Field(goods, 16, Field(batch.date, 8, Field(batch.id, 16, rest)))
  }

  function IdBytes(k: OpKey): Bytes {
    Field(k.id, 16, Field(Flag(k.dependent), 1, []))
  }

  function PositionBytes(k: OpKey): Bytes {
    Field(k.date, 8, Field(k.order, 1, IdBytes(k)))
  }

  function PrimaryBytes(k: OpKey): Bytes {
    Field(k.store, 16, BatchBytes(k.goods, k.batch, PositionBytes(k)))
  }

  /** The front and the index by date have the same layout. */
  function FrontBytes(k: OpKey): Bytes {
    Field(k.date, 8, Field(k.order, 1, Field(k.store, 16, BatchBytes(k.goods, k.batch, IdBytes(k)))))
  }

  function StoreDateBytes(k: OpKey): Bytes {
    Field(k.store, 16, Field(k.date, 8, Field(k.order, 1, BatchBytes(k.goods, k.batch, IdBytes(k)))))
  }

  function StoreGoodsBytes(k: OpKey): Bytes {
    Field(k.store, 16, Field(k.goods, 16, Field(k.date, 8, Field(k.order, 1,
      Field(k.id, 16, Field(Flag(k.dependent), 1, BatchBytes(k.goods, k.batch, [])))))))
  }

  function CheckpointBytes(k: CheckpointKey): Bytes {
    Field(k.date, 8, Field(k.account.store, 16, BatchBytes(k.account.goods, k.account.batch, [])))
  }

  lemma BatchOrder(g: Goods, a: Batch, h: Goods, b: Batch, c: Bytes, d: Bytes)
    requires FitsUuid(g) && FitsUuid(h) && FitsUuid(a.id) && FitsUuid(b.id) && FitsTime(a.date) && FitsTime(b.date)
    ensures LexLess(BatchBytes(g, a, c), BatchBytes(h, b, d)) <==>
      if g != h then g < h
      else if a.date != b.date then a.date < b.date
      else if a.id != b.id then a.id < b.id
      else LexLess(c, d)
    ensures BatchBytes(g, a, c) == BatchBytes(h, b, d) <==> g == h && a == b && c == d
  {
    hide LexLess, Field, Limit;
    FieldOrder(a.id, b.id, 16, c, d);
    FieldOrder(a.date, b.date, 8, Field(a.id, 16, c), Field(b.id, 16, d));
    FieldOrder(g, h, 16, Field(a.date, 8, Field(a.id, 16, c)), Field(b.date, 8, Field(b.id, 16, d)));
  }

  lemma IdOrder(a: OpKey, b: OpKey)
    requires Fits(a) && Fits(b)
    ensures LexLess(IdBytes(a), IdBytes(b)) <==> if a.id != b.id then a.id < b.id else !a.dependent && b.dependent
    ensures IdBytes(a) == IdBytes(b) <==> a.id == b.id && a.dependent == b.dependent
  {
    assert Limit(1) == 256;
    FieldOrder(Flag(a.dependent), Flag(b.dependent), 1, [], []);
    FieldOrder(a.id, b.id, 16, Field(Flag(a.dependent), 1, []), Field(Flag(b.dependent), 1, []));
  }

  lemma PositionOrder(a: OpKey, b: OpKey)
    requires Fits(a) && Fits(b)
    ensures LexLess(PositionBytes(a), PositionBytes(b)) <==> PositionLess(a, b)
    ensures PositionBytes(a) == PositionBytes(b) <==>
      a.date == b.date && a.order == b.order && a.id == b.id && a.dependent == b.dependent
  {
    hide LexLess, Field, Limit;
    IdOrder(a, b);
    FieldOrder(a.order, b.order, 1, IdBytes(a), IdBytes(b));
    FieldOrder(a.date, b.date, 8, Field(a.order, 1, IdBytes(a)), Field(b.order, 1, IdBytes(b)));
  }

  /** The primary index is sorted by chain and position, and no two keys share a string. */
  lemma PrimaryOrder(a: OpKey, b: OpKey)
    requires Fits(a) && Fits(b)
    ensures LexLess(PrimaryBytes(a), PrimaryBytes(b)) <==> PrimaryLess(a, b)
    ensures PrimaryBytes(a) == PrimaryBytes(b) <==> a == b
  {
    hide LexLess, Field, Limit;
    PositionOrder(a, b);
    BatchOrder(a.goods, a.batch, b.goods, b.batch, PositionBytes(a), PositionBytes(b));
    FieldOrder(a.store, b.store, 16, BatchBytes(a.goods, a.batch, PositionBytes(a)),
      BatchBytes(b.goods, b.batch, PositionBytes(b)));
  }

  /** The front is sorted by date and type first. */
  lemma FrontOrder(a: OpKey, b: OpKey)
    requires Fits(a) && Fits(b)
    ensures LexLess(FrontBytes(a), FrontBytes(b)) <==> FrontLess(a, b)
    ensures FrontBytes(a) == FrontBytes(b) <==> a == b
  {
    hide LexLess, Field, Limit;
    IdOrder(a, b);
    var x, y := BatchBytes(a.goods, a.batch, IdBytes(a)), BatchBytes(b.goods, b.batch, IdBytes(b));
    BatchOrder(a.goods, a.batch, b.goods, b.batch, IdBytes(a), IdBytes(b));
    FieldOrder(a.store, b.store, 16, x, y);
    FieldOrder(a.order, b.order, 1, Field(a.store, 16, x), Field(b.store, 16, y));
    FieldOrder(a.date, b.date, 8, Field(a.order, 1, Field(a.store, 16, x)), Field(b.order, 1, Field(b.store, 16, y)));
  }

  /** The index by store and date is sorted by store, date and type first. */
  lemma StoreDateOrder(a: OpKey, b: OpKey)
    requires Fits(a) && Fits(b)
    ensures LexLess(StoreDateBytes(a), StoreDateBytes(b)) <==>
      if a.store != b.store then a.store < b.store else FrontLess(a, b)
    ensures StoreDateBytes(a) == StoreDateBytes(b) <==> a == b
  {
    hide LexLess, Field, Limit;
    IdOrder(a, b);
    var x, y := BatchBytes(a.goods, a.batch, IdBytes(a)), BatchBytes(b.goods, b.batch, IdBytes(b));
    BatchOrder(a.goods, a.batch, b.goods, b.batch, IdBytes(a), IdBytes(b));
    FieldOrder(a.order, b.order, 1, x, y);
    FieldOrder(a.date, b.date, 8, Field(a.order, 1, x), Field(b.order, 1, y));
    FieldOrder(a.store, b.store, 16, Field(a.date, 8, Field(a.order, 1, x)), Field(b.date, 8, Field(b.order, 1, y)));
  }

  /** At one instant counts come first, then receives, then issues: in the front, and within a chain. */
  lemma ReceivesBeforeIssues(a: Op, b: Op)
    requires a.date == b.date && ((b.op.Issue? && !a.op.Issue?) || (b.op.Receive? && a.op.Inventory?))
    ensures FrontLess(a.Key(), b.Key()) && PositionLess(a.Key(), b.Key())
  {
  }

  /** The empty chain comes first among the chains of its goods. */
  lemma EmptyChainIsFirst(a: OpKey, b: OpKey)
    requires Fits(a) && Fits(b) && a.store == b.store && a.goods == b.goods
    requires a.batch == NO_BATCH && b.batch != NO_BATCH
    ensures LexLess(PrimaryBytes(a), PrimaryBytes(b))
  {
    hide LexLess, PrimaryBytes;
    PrimaryOrder(a, b);
  }

  /** Every key has its size, whatever it holds. */
  lemma KeySizes(k: OpKey, c: CheckpointKey)
    ensures |PrimaryBytes(k)| == 82 && |FrontBytes(k)| == 82 && |StoreDateBytes(k)| == 82 && |StoreGoodsBytes(k)| == 98
    ensures |CheckpointBytes(c)| == 64 && |LATEST_KEY| == 64
  {
    hide BigEndian;
    assert |BatchBytes(k.goods, k.batch, [])| == 40;
    assert |Field(k.id, 16, Field(Flag(k.dependent), 1, BatchBytes(k.goods, k.batch, [])))| == 57;
  }

  /** Within one chain the front's order is the chain's own: what follows in the chain comes later in the front. */
  lemma ChainAgreesWithFront(a: OpKey, b: OpKey)
    requires Fits(a) && Fits(b) && SameChain(a, b)
    ensures LexLess(FrontBytes(a), FrontBytes(b)) <==> LexLess(PrimaryBytes(a), PrimaryBytes(b))
  {
    hide LexLess;
    FrontOrder(a, b);
    PrimaryOrder(a, b);
  }

  /** A report sorts its items by the bytes of their account. */
  function AccountBytes(a: Account): Bytes {
    Field(a.store, 16, BatchBytes(a.goods, a.batch, []))
  }

  lemma AccountOrder(a: Account, b: Account)
    requires FitsUuid(a.store) && FitsUuid(a.goods) && FitsUuid(a.batch.id) && FitsTime(a.batch.date)
    requires FitsUuid(b.store) && FitsUuid(b.goods) && FitsUuid(b.batch.id) && FitsTime(b.batch.date)
    ensures LexLess(AccountBytes(a), AccountBytes(b)) <==> AccountLess(a, b)
    ensures AccountBytes(a) == AccountBytes(b) <==> a == b
  {
    hide LexLess, Field, Limit;
    assert !LexLess([], []) by {
      NothingLess();
    }
    BatchOrder(a.goods, a.batch, b.goods, b.batch, [], []);
    FieldOrder(a.store, b.store, 16, BatchBytes(a.goods, a.batch, []), BatchBytes(b.goods, b.batch, []));
  }

  lemma NothingLess()
    ensures !LexLess([], [])
  {
  }

  // ---- scans: from the lower bound up to, but not including, the upper one ----

  predicate InRange(key: Bytes, from: Bytes, till: Bytes) {
    !LexLess(key, from) && LexLess(key, till)
  }

  function Zeros(n: nat): (s: Bytes)
    ensures |s| == n
  {
    if n == 0 then [] else [0] + Zeros(n - 1)
  }

  lemma {:induction false} NothingBelowZeros(s: Bytes, n: nat)
    requires |s| >= n
    ensures !LexLess(s, Zeros(n))
  {
    if n > 0 {
      NothingBelowZeros(s[1..], n - 1);
    }
  }

  /** The scan by date takes exactly the records dated from `from` up to and including `till`; its bounds are shorter
   * than the keys. */
  lemma DateScan(k: OpKey, from: Time, till: Time, rest: Bytes)
    requires Fits(k) && FitsTime(from) && FitsTime(till) && k.order < 255
    ensures InRange(FrontBytes(k), Field(from, 8, Zeros(73)), Field(till, 8, Field(255, 1, rest))) <==>
      from <= k.date <= till
  {
    hide LexLess, Field;
    var tail := Field(k.store, 16, BatchBytes(k.goods, k.batch, IdBytes(k)));
    FieldLength(k.order, 1, tail);
    TailLength(k);
    NothingBelowZeros(Field(k.order, 1, tail), 73);
    FieldOrder(k.date, from, 8, Field(k.order, 1, tail), Zeros(73));
    OneByte();
    FieldOrder(k.order, 255, 1, tail, rest);
    FieldOrder(k.date, till, 8, Field(k.order, 1, tail), Field(255, 1, rest));
  }

  lemma OneByte()
    ensures Limit(1) == 256
  {
  }

  lemma FieldLength(n: nat, width: nat, rest: Bytes)
    ensures |Field(n, width, rest)| == width + |rest|
  {
  }

  lemma TailLength(k: OpKey)
    ensures |Field(k.store, 16, BatchBytes(k.goods, k.batch, IdBytes(k)))| == 73
  {
  }

  lemma NothingBelowEmpty(s: Bytes)
    ensures !LexLess(s, [])
  {
  }

  /** The scan by store takes exactly the store's records dated from `from` up to and including `till`. */
  lemma StorageScan(k: OpKey, store: Store, from: Time, till: Time)
    requires Fits(k) && FitsUuid(store) && FitsTime(from) && FitsTime(till) && k.order < 255
    ensures InRange(StoreDateBytes(k), Field(store, 16, Field(from, 8, Field(0, 1, []))),
      Field(store, 16, Field(till, 8, Field(255, 1, [])))) <==>
      k.store == store && from <= k.date <= till
  {
    hide LexLess, Field;
    var tail := BatchBytes(k.goods, k.batch, IdBytes(k));
    var order, low, high := Field(k.order, 1, tail), Field(0, 1, []), Field(255, 1, []);
    OneByte();
    NothingBelowEmpty(tail);
    FieldOrder(k.order, 0, 1, tail, []);
    FieldOrder(k.order, 255, 1, tail, []);
    FieldOrder(k.date, from, 8, order, low);
    FieldOrder(k.date, till, 8, order, high);
    FieldOrder(k.store, store, 16, Field(k.date, 8, order), Field(from, 8, low));
    FieldOrder(k.store, store, 16, Field(k.date, 8, order), Field(till, 8, high));
  }

  lemma StoreGoodsOrder(a: OpKey, b: OpKey)
    requires Fits(a) && Fits(b)
    ensures LexLess(StoreGoodsBytes(a), StoreGoodsBytes(b)) <==>
      if a.store != b.store then a.store < b.store
      else if a.goods != b.goods then a.goods < b.goods
      else if PositionLess(a, b) || PositionLess(b, a) then PositionLess(a, b)
      else if a.batch.date != b.batch.date then a.batch.date < b.batch.date
      else a.batch.id < b.batch.id
    ensures StoreGoodsBytes(a) == StoreGoodsBytes(b) <==> a == b
  {
    hide LexLess, Field, Limit;
    OneByteFlags(a, b);
    NothingBelowEmpty([]);
    var a1, b1 := BatchBytes(a.goods, a.batch, []), BatchBytes(b.goods, b.batch, []);
    BatchOrder(a.goods, a.batch, b.goods, b.batch, [], []);
    var a2, b2 := Field(Flag(a.dependent), 1, a1), Field(Flag(b.dependent), 1, b1);
    FieldOrder(Flag(a.dependent), Flag(b.dependent), 1, a1, b1);
    var a3, b3 := Field(a.id, 16, a2), Field(b.id, 16, b2);
    FieldOrder(a.id, b.id, 16, a2, b2);
    var a4, b4 := Field(a.order, 1, a3), Field(b.order, 1, b3);
    FieldOrder(a.order, b.order, 1, a3, b3);
    var a5, b5 := Field(a.date, 8, a4), Field(b.date, 8, b4);
    FieldOrder(a.date, b.date, 8, a4, b4);
    FieldOrder(a.goods, b.goods, 16, a5, b5);
    FieldOrder(a.store, b.store, 16, Field(a.goods, 16, a5), Field(b.goods, 16, b5));
  }

  lemma OneByteFlags(a: OpKey, b: OpKey)
    ensures Flag(a.dependent) < Limit(1) && Flag(b.dependent) < Limit(1)
  {
  }

  /** The scan before an operation takes exactly the records of its store and goods, in whatever batch, from the
   * checkpoint up to its position. */
  lemma GoodsScan(k: OpKey, till: OpKey, from: Time)
    requires Fits(k) && Fits(till) && FitsTime(from) && k.batch.date < till.batch.date
    ensures InRange(StoreGoodsBytes(k),
      StoreGoodsBytes(OpKey(till.store, till.goods, NO_BATCH, from, 0, UUID_NIL, false)), StoreGoodsBytes(till)) <==>
      k.store == till.store && k.goods == till.goods && from <= k.date && !PositionLess(till, k)
  {
    hide LexLess, StoreGoodsBytes, Limit;
    NilFits();
    StoreGoodsOrder(k, OpKey(till.store, till.goods, NO_BATCH, from, 0, UUID_NIL, false));
    StoreGoodsOrder(k, till);
  }

  lemma NilFits()
    ensures FitsUuid(UUID_NIL) && FitsTime(0) && 0 < Limit(1)
  {
  }

  // ---- checkpoint keys ----

  predicate FitsCheckpoint(k: CheckpointKey) {
    FitsTime(k.date) && FitsUuid(k.account.store) && FitsUuid(k.account.goods) && FitsUuid(k.account.batch.id)
      && FitsTime(k.account.batch.date)
  }

  /** The fields read back from a checkpoint key. */
  function KeyToData(s: Bytes): CheckpointKey
    requires |s| == 64
  {
    CheckpointKey(FromBigEndian(s[0..8]),
      Account(FromBigEndian(s[8..24]), FromBigEndian(s[24..40]),
        Batch(FromBigEndian(s[48..64]), FromBigEndian(s[40..48]))))
  }

  /** Where the latest checkpoint date itself is kept. */
  const LATEST_KEY := Zeros(64)

  lemma FieldReads(n: nat, width: nat, rest: Bytes)
    requires n < Limit(width)
    ensures |Field(n, width, rest)| == width + |rest|
    ensures FromBigEndian(Field(n, width, rest)[..width]) == n && Field(n, width, rest)[width..] == rest
  {
    BigEndianRoundTrip(n, width);
    assert Field(n, width, rest)[..width] == BigEndian(n, width);
  }

  /** The fields can be read back from the key. */
  lemma CheckpointKeyRoundTrip(k: CheckpointKey)
    requires FitsCheckpoint(k)
    ensures |CheckpointBytes(k)| == 64 && KeyToData(CheckpointBytes(k)) == k
  {
    hide Field, FromBigEndian, Limit;
    var a := k.account;
    var s4 := Field(a.batch.id, 16, []);
    var s3 := Field(a.batch.date, 8, s4);
    var s2 := Field(a.goods, 16, s3);
    var s1 := Field(a.store, 16, s2);
    var s := Field(k.date, 8, s1);
    FieldReads(a.batch.id, 16, []);
    FieldReads(a.batch.date, 8, s4);
    FieldReads(a.goods, 16, s3);
    FieldReads(a.store, 16, s2);
    FieldReads(k.date, 8, s1);
    assert s[8..24] == s1[..16] && s[24..40] == s2[..16] && s[40..48] == s3[..8] && s[48..64] == s4[..16];
    assert s[0..8] == s[..8];
  }

  lemma CheckpointOrder(a: CheckpointKey, b: CheckpointKey)
    requires FitsCheckpoint(a) && FitsCheckpoint(b)
    ensures LexLess(CheckpointBytes(a), CheckpointBytes(b)) <==>
      if a.date != b.date then a.date < b.date
      else if a.account.store != b.account.store then a.account.store < b.account.store
      else if a.account.goods != b.account.goods then a.account.goods < b.account.goods
      else if a.account.batch.date != b.account.batch.date then a.account.batch.date < b.account.batch.date
      else a.account.batch.id < b.account.batch.id
    ensures CheckpointBytes(a) == CheckpointBytes(b) <==> a == b
  {
    hide LexLess, Field, Limit;
    NothingBelowEmpty([]);
    var x, y := BatchBytes(a.account.goods, a.account.batch, []), BatchBytes(b.account.goods, b.account.batch, []);
    BatchOrder(a.account.goods, a.account.batch, b.account.goods, b.account.batch, [], []);
    FieldOrder(a.account.store, b.account.store, 16, x, y);
    FieldOrder(a.date, b.date, 8, Field(a.account.store, 16, x), Field(b.account.store, 16, y));
  }

  function LowestOf(date: Time, store: Store): CheckpointKey {
    CheckpointKey(date, Account(store, UUID_NIL, NO_BATCH))
  }

  function HighestOf(date: Time, store: Store): CheckpointKey {
    CheckpointKey(date, Account(store, Limit(16) - 1, Batch(Limit(16) - 1, Limit(8) - 1)))
  }

  /** A checkpoint scan takes exactly one date's entries of the stores in between, all but the very last key. */
  lemma CheckpointScan(k: CheckpointKey, date: Time, low: Store, high: Store)
    requires FitsCheckpoint(k) && FitsTime(date) && FitsUuid(low) && FitsUuid(high) && low <= high
    requires k != HighestOf(date, high)
    ensures InRange(CheckpointBytes(k), CheckpointBytes(LowestOf(date, low)),
      CheckpointBytes(HighestOf(date, high))) <==>
      k.date == date && low <= k.account.store <= high
  {
    hide LexLess, CheckpointBytes;
    NilFits();
    CheckpointOrder(k, LowestOf(date, low));
    CheckpointOrder(k, HighestOf(date, high));
  }

  lemma {:induction false} ZeroBytes(width: nat)
    ensures BigEndian(0, width) == Zeros(width)
  {
    if width > 0 {
      ZeroBytes(width - 1);
      ZerosAppend(width - 1);
    }
  }

  lemma {:induction false} ZerosAppend(n: nat)
    ensures Zeros(n) + [0] == Zeros(n + 1)
  {
    if n > 0 {
      ZerosAppend(n - 1);
    }
  }

  lemma {:induction false} ZeroField(width: nat, n: nat)
    ensures Field(0, width, Zeros(n)) == Zeros(width + n)
    decreases width
  {
    ZeroBytes(width);
    ZerosConcat(width, n);
  }

  lemma {:induction false} ZerosConcat(m: nat, n: nat)
    ensures Zeros(m) + Zeros(n) == Zeros(m + n)
  {
    if m > 0 {
      ZerosConcat(m - 1, n);
    } else {
      assert Zeros(0) + Zeros(n) == Zeros(n);
    }
  }

  /** The key of the latest date is the lowest entry at date zero: only scans of that date, over the zero store, meet
   * it. */
  lemma LatestKeyIsMet(date: Time, low: Store, high: Store)
    requires FitsTime(date) && FitsUuid(low) && FitsUuid(high) && low <= high
    ensures LATEST_KEY == CheckpointBytes(LowestOf(0, UUID_NIL))
    ensures InRange(LATEST_KEY, CheckpointBytes(LowestOf(date, low)), CheckpointBytes(HighestOf(date, high))) <==>
      date == 0 && low == UUID_NIL
  {
    hide LexLess, Field, Limit, Zeros;
    ZeroField(16, 0);
    ZeroField(8, 16);
    ZeroField(16, 24);
    ZeroField(16, 40);
    ZeroField(8, 56);
    NoZeros();
    NilFits();
    LimitsDiffer();
    CheckpointScan(LowestOf(0, UUID_NIL), date, low, high);
  }

  lemma NoZeros()
    ensures Zeros(0) == []
  {
  }

  lemma LimitsDiffer()
    ensures Limit(16) - 1 > 0 && Limit(8) - 1 > 0
  {
  }
}
