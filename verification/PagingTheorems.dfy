/**
Properties of the translation that hold for every memory content, address and length.
*/
module PagingTheorems {

  import opened Bits
  import opened Division
  import opened Paging

  // ---------------------------------------------------------------------------------------------
  // Reads
  // ---------------------------------------------------------------------------------------------

  /** The address space below one entry of a level: a page, and 512 times as much for each level above. */
  function Reach(level: nat): (n: nat)
    requires 1 <= level <= 5
    ensures n > 0 && n == Span(level)
  {
    if level == 1 then 0x1000 else 512 * Reach(level - 1)
  }

  /** The read is of this level, inside its table and where nine bits of the address say. */
  predicate Placed(x: Read, va: Word, level: nat) {
    && 1 <= level <= 5 && x.level == level
    && x.table <= x.address <= x.table + SIZE_4K - 8 && x.address == x.table + va / Reach(level) % 512 * 8
  }

  lemma EntryPlaced(table: Table, va: Word, level: nat)
    requires 1 <= level <= 5
    ensures Placed(Read(level, table, EntryAddress(table, va, level)), va, level)
  {
  }

  /** Every entry lies inside its table's page; there are at most as many reads as paging levels. */
  lemma {:induction false} ReadsStayInTables(mem: Memory, table: Table, level: nat, va: Word)
    requires 1 <= level <= 5
    ensures var trail := Reads(mem, table, level, va);
            1 <= |trail| <= level && forall k | 0 <= k < |trail| :: Placed(trail[k], va, level - k)
    decreases level
  {
    hide TableBase, Accepted, IsLeaf, EntryAddress, Placed;
    EntryPlaced(table, va, level);
    match mem(EntryAddress(table, va, level))
    case Failure(_) =>
    case Value(entry) =>
      LeafLevels(entry, level);
      if Accepted(entry, level) && !IsLeaf(entry, level) {
        ReadsStayInTables(mem, TableBase(entry), level - 1, va);
      }
  }

  /** The entry read first points to the table of the entry read next. */
  predicate Points(mem: Memory, first: Read, next: Read) {
    mem(first.address).Value? && next.table == TableBase(mem(first.address).word)
  }

  /** The walk descends: each table after the first is the one that the entry read before it points to. */
  lemma {:induction false} ReadsDescend(mem: Memory, table: Table, level: nat, va: Word)
    requires 1 <= level <= 5
    ensures var trail := Reads(mem, table, level, va);
            |trail| > 0 && trail[0].table == table && forall k | 0 < k < |trail| :: Points(mem, trail[k - 1], trail[k])
    decreases level
  {
    hide EntryAddress, TableBase, Accepted, PageSizeBit;
    match mem(EntryAddress(table, va, level))
    case Failure(_) =>
    case Value(entry) =>
      if Accepted(entry, level) && !IsLeaf(entry, level) {
        ReadsDescend(mem, TableBase(entry), level - 1, va);
      }
  }

  /** A successful walk ends with the read of the leaf that maps the address. */
  lemma {:induction false} LastReadIsLeaf(mem: Memory, table: Table, level: nat, va: Word)
    requires 1 <= level <= 5 && Walk(mem, table, level, va).Mapped?
    ensures var o, trail := Walk(mem, table, level, va), Reads(mem, table, level, va);
            && |trail| == level - o.level + 1
            && trail[|trail| - 1].level == o.level && mem(trail[|trail| - 1].address) == Value(o.entry)
    decreases level
  {
    hide EntryAddress, TableBase, Accepted, PageSizeBit;
    match mem(EntryAddress(table, va, level))
    case Value(entry) =>
      if IsLeaf(entry, level) {
      } else {
        LastReadIsLeaf(mem, TableBase(entry), level - 1, va);
      }
  }

  /** An entry that the walk cannot use: absent, or with a bit set that is reserved at its level. */
  predicate Broken(entry: Word, level: nat) {
    || entry % 2 == 0
    || (entry / 0x80 % 2 == 1 && (|| level >= 4
                                  || (level == 3 && entry / 0x2000 % 0x2_0000 != 0)
                                  || (level == 2 && entry / 0x2000 % 0x100 != 0)))
  }

  /** An entry that points to a table of the next level. */
  predicate Directs(entry: Word, level: nat) {
    level > 1 && entry % 2 == 1 && entry / 0x80 % 2 == 0
  }

  predicate Continues(mem: Memory, x: Read, level: nat) {
    mem(x.address).Value? && Directs(mem(x.address).word, level)
  }

  /** The last read decides: it fails, or its entry is broken or a leaf. */
  predicate Ends(mem: Memory, x: Read, o: Outcome) {
    match mem(x.address)
    case Failure(code) => o == Unreadable(code)
    case Value(entry) =>
      !Directs(entry, x.level) && o == if Broken(entry, x.level) then Fault else Mapped(x.level, entry)
  }

  /** The walk reads on exactly as long as it is directed, and its outcome is that of the last entry. */
  lemma {:induction false} WalkEndsWithReads(mem: Memory, table: Table, level: nat, va: Word)
    requires 1 <= level <= 5
    ensures var trail, o := Reads(mem, table, level, va), Walk(mem, table, level, va);
            var last := trail[|trail| - 1];
            && 1 <= |trail| <= level && last.level == level - |trail| + 1
            && (forall k | 0 <= k < |trail| - 1 :: Continues(mem, trail[k], level - k))
            && Ends(mem, last, o)
    decreases level
  {
    hide EntryAddress, TableBase, Accepted, IsLeaf, Broken, Directs;
    match mem(EntryAddress(table, va, level))
    case Failure(_) =>
    case Value(entry) =>
      EntryKinds(entry, level);
      LeafLevels(entry, level);
      if Accepted(entry, level) && !IsLeaf(entry, level) {
        var x := Read(level, table, EntryAddress(table, va, level));
        assert Continues(mem, x, level);
        hide Continues, Ends;
        WalkEndsWithReads(mem, TableBase(entry), level - 1, va);
      }
  }

  lemma LeafLevels(entry: Word, level: nat)
    ensures !IsLeaf(entry, level) ==> level != 1
  {
  }

  lemma EntryKinds(entry: Word, level: nat)
    requires 1 <= level <= 5
    ensures Broken(entry, level) <==> !Accepted(entry, level)
    ensures Directs(entry, level) && !Broken(entry, level) <==> Accepted(entry, level) && !IsLeaf(entry, level)
    ensures Broken(entry, level) ==> !Directs(entry, level)
  {
  }

  // ---------------------------------------------------------------------------------------------
  // Reserved bits
  // ---------------------------------------------------------------------------------------------

  const HIGH_ATTRIBUTES: Word := 0xfff0_0000_0000_0000
  const PAT: Word := 0x1000

  function BaseMask(level: nat): Word
    requires 1 <= level <= 3
  {
    if level == 1 then BASE_4K else if level == 2 then BASE_2M else BASE_1G
  }

  /** What an accepted leaf may hold: its base, its attributes and, in a large leaf, the PAT bit. */
  function Kept(entry: Word, level: nat): nat
    requires 1 <= level <= 3
  {
    And(entry, HIGH_ATTRIBUTES) + And(entry, BaseMask(level)) + (if level == 1 then 0 else And(entry, PAT))
    + And(entry, PAGE_OFFSET_MASK)
  }

  lemma HighMask(x: Word)
    ensures And(x, HIGH_ATTRIBUTES) == x / PHYSICAL_LIMIT * PHYSICAL_LIMIT
  {
    Powers();
    hide Up, And;
    FieldMask(x, HIGH_ATTRIBUTES, 12, 52, 0x1000, PHYSICAL_LIMIT);
    assert x / PHYSICAL_LIMIT < 0x1000;
  }

  lemma PatMask(x: Word)
    ensures And(x, PAT) == x / SIZE_4K % 2 * SIZE_4K
  {
    Powers();
    hide Up, And;
    FieldMask(x, PAT, 1, 12, 2, SIZE_4K);
  }

  /** An entry is put together from its fields: high attributes, base, and what lies below the base. */
  lemma SplitEntry(entry: Word, level: nat)
    requires 1 <= level <= 3
    ensures entry == entry / PHYSICAL_LIMIT * PHYSICAL_LIMIT + Base(entry, level) + entry % Span(level)
  {
    match level
    case 1 => SplitRemainder(entry, SIZE_4K, 0x100_0000_0000);
    case 2 => SplitRemainder(entry, SIZE_2M, 0x8000_0000);
    case 3 => SplitRemainder(entry, SIZE_1G, 0x40_0000);
  }

  /** What lies below the base of a large page: the reserved field, the PAT bit and the low attributes. */
  lemma LowBits(entry: Word, level: nat)
    requires level == 2 || level == 3
    ensures entry % Span(level) ==
            ReservedField(entry, level) * 0x2000 + entry / SIZE_4K % 2 * SIZE_4K + entry % SIZE_4K
  {
    SplitRemainder(entry, SIZE_4K, 2);
    if level == 2 {
      SplitRemainder(entry, 0x2000, 0x100);
    } else {
      SplitRemainder(entry, 0x2000, 0x2_0000);
    }
  }

  /**
  The reserved-bit check is exact: a present entry that is a leaf of its level is accepted if and only if the base
  mask drops nothing but attribute bits and, in a large leaf, the PAT bit.
  */
  lemma LeafMaskDropsOnlyAttributes(entry: Word, level: nat)
    requires 1 <= level <= 3 && And(entry, PRESENT) != 0 && (level > 1 ==> And(entry, LARGE_PAGE) != 0)
    ensures PresentPagingEntryValid(entry, level) <==> entry == Kept(entry, level)
  {
    PresentMask(entry);
    EntryCheckFields(entry, level);
    HighMask(entry);
    PatMask(entry);
    OffsetMask4K(entry);
    BaseMask4K(entry);
    BaseMask2M(entry);
    BaseMask1G(entry);
    SplitEntry(entry, level);
    if level > 1 {
      LowBits(entry, level);
    }
    hide And, Base, ReservedField;
  }

  // ---------------------------------------------------------------------------------------------
  // Linearity
  // ---------------------------------------------------------------------------------------------

  /** Both addresses lie in the same aligned block of the size that one entry of this level maps. */
  predicate SameBlock(va: Word, vb: Word, level: nat)
    requires 1 <= level <= 5
  {
    va / Span(level) == vb / Span(level)
  }

  lemma BlocksNest(va: Word, vb: Word, inner: nat, outer: nat)
    requires 1 <= inner <= outer <= 5 && SameBlock(va, vb, inner)
    ensures SameBlock(va, vb, outer)
    decreases outer - inner
  {
    if inner == outer {
    } else {
      SplitRemainder(va, Span(inner), 512);
      SplitRemainder(vb, Span(inner), 512);
      BlocksNest(va, vb, inner + 1, outer);
    }
  }

  /** The block numbers that canonical addresses have at the highest level follow from nine bits. */
  lemma TopBlock(va: Word, la57: bool)
    requires IsCanonicalAddress(va, la57)
    ensures var top := if la57 then 5 else 4; var i := Index(va, top);
            va / Span(top) == (if i < 256 then i else WORD_LIMIT / Span(top) - 512 + i)
  {
    CanonicalIsSignExtended(va, la57);
    hide IsCanonicalAddress;
    var span := if la57 then 0x1_0000_0000_0000 else 0x80_0000_0000;
    var blocks := WORD_LIMIT / span;
    var q := va / span;
    if va < HalfSpace(la57) {
      assert q < 256;
    } else {
      assert blocks - 256 <= q < blocks;
      DivUnique(q, 512, blocks / 512 - 1, q - (blocks - 512));
    }
  }

  /**
  The walk tells pages apart: canonical addresses with the same indices from the highest level down to some level
  lie in the same block of that level.
  */
  lemma {:induction false} IndicesDetermineBlock(va: Word, vb: Word, la57: bool, level: nat)
    requires IsCanonicalAddress(va, la57) && IsCanonicalAddress(vb, la57)
    requires 1 <= level <= (if la57 then 5 else 4)
    requires forall j | level <= j <= (if la57 then 5 else 4) :: Index(va, j) == Index(vb, j)
    ensures SameBlock(va, vb, level)
    decreases 5 - level
  {
    var top := if la57 then 5 else 4;
    if level == top {
      TopBlock(va, la57);
      TopBlock(vb, la57);
    } else {
      IndicesDetermineBlock(va, vb, la57, level + 1);
      SplitRemainder(va, Span(level), 512);
      SplitRemainder(vb, Span(level), 512);
      hide IsCanonicalAddress;
      Rejoined(va, level);
      Rejoined(vb, level);
    }
  }

  lemma Rejoined(va: Word, level: nat)
    requires 1 <= level <= 4
    ensures va / Span(level) == va / Span(level + 1) * 512 + Index(va, level)
  {
    SplitRemainder(va, Span(level), 512);
    assert Span(level + 1) == Span(level) * 512;
  }

  lemma SameEntry(table: Table, va: Word, vb: Word, level: nat)
    requires 1 <= level <= 5 && SameBlock(va, vb, level)
    ensures EntryAddress(table, va, level) == EntryAddress(table, vb, level)
  {
    hide Span;
  }

  lemma SameStep(table: Table, va: Word, vb: Word, low: nat, level: nat)
    requires 1 <= low <= level <= 5 && SameBlock(va, vb, low)
    ensures EntryAddress(table, va, level) == EntryAddress(table, vb, level)
  {
    hide *;
    BlocksNest(va, vb, low, level);
    SameEntry(table, va, vb, level);
  }

  /** Addresses in the block of a leaf are mapped by that leaf. */
  lemma {:induction false} WalkSame(mem: Memory, table: Table, level: nat, va: Word, vb: Word)
    requires 1 <= level <= 5 && Walk(mem, table, level, va).Mapped?
    requires SameBlock(va, vb, Walk(mem, table, level, va).level)
    ensures Walk(mem, table, level, vb) == Walk(mem, table, level, va)
    decreases level
  {
    hide EntryAddress, TableBase, Accepted, PageSizeBit, SameBlock, Span, Base, IsLeaf;
    SameStep(table, va, vb, Walk(mem, table, level, va).level, level);
    match mem(EntryAddress(table, va, level))
    case Value(entry) =>
      if IsLeaf(entry, level) {
      } else {
        WalkSame(mem, TableBase(entry), level - 1, va, vb);
      }
  }

  lemma CanonicalBlock(va: Word, vb: Word, la57: bool, level: nat)
    requires 1 <= level <= 3 && IsCanonicalAddress(va, la57) && SameBlock(va, vb, level)
    ensures IsCanonicalAddress(vb, la57)
  {
    BlocksNest(va, vb, level, 3);
    SplitRemainder(va, SIZE_1G, 0x2_0000);
    SplitRemainder(vb, SIZE_1G, 0x2_0000);
    CanonicalTop(va, vb, la57);
  }

  lemma CanonicalTop(va: Word, vb: Word, la57: bool)
    requires IsCanonicalAddress(va, la57) && va / 0x8000_0000_0000 == vb / 0x8000_0000_0000
    ensures IsCanonicalAddress(vb, la57)
  {
    CanonicalIsSignExtended(va, la57);
    CanonicalIsSignExtended(vb, la57);
    hide IsCanonicalAddress;
  }

  /** Inside one page the offset grows with the address and the block stays. */
  lemma InsidePage(va: Word, k: nat, level: nat)
    requires 1 <= level <= 3 && k < Span(level) - va % Span(level)
    ensures va + k < WORD_LIMIT && SameBlock(va, va + k, level) && (va + k) % Span(level) == va % Span(level) + k
  {
    var size, q, r := Span(level), va / Span(level), va % Span(level);
    DivUnique(va + k, size, q, r + k);
    BlockCount(va, level);
    var blocks := BlocksOf(level);
    assert (q + 1) * size <= blocks * size;
  }

  function BlocksOf(level: nat): nat
    requires 1 <= level <= 3
  {
    match level case 1 => 0x10_0000_0000_0000 case 2 => 0x800_0000_0000 case _ => 0x4_0000_0000
  }

  lemma BlockCount(va: Word, level: nat)
    requires 1 <= level <= 3
    ensures va / Span(level) < BlocksOf(level) && BlocksOf(level) * Span(level) == WORD_LIMIT
  {
  }

  /** The span that a translation returns does not wrap around the address space. */
  lemma SpanFits(mem: Memory, directoryTableBase: Word, cr3: Word, la57: bool, va: Word, length: Word, k: nat)
    requires var t := Translate(mem, directoryTableBase, cr3, la57, va, length); t.Translated? && k < t.length
    ensures k < length && va + k < WORD_LIMIT
  {
    hide IsCanonicalAddress, Walk;
  }

  /** An address in the page of a mapped one is as canonical, and is walked to the same leaf. */
  lemma LinearWalk(mem: Memory, base: Table, la57: bool, va: Word, k: nat)
    requires IsCanonicalAddress(va, la57)
    requires var o := Walk(mem, base, if la57 then 5 else 4, va); o.Mapped? && k < Span(o.level) - va % Span(o.level)
    ensures va + k < WORD_LIMIT && IsCanonicalAddress(va + k, la57)
    ensures var o := Walk(mem, base, if la57 then 5 else 4, va);
            && Walk(mem, base, if la57 then 5 else 4, va + k) == o
            && (va + k) % Span(o.level) == va % Span(o.level) + k
  {
    hide IsCanonicalAddress, Walk, SameBlock, Base, Span;
    var level := Walk(mem, base, if la57 then 5 else 4, va).level;
    InsidePage(va, k, level);
    WalkSame(mem, base, if la57 then 5 else 4, va, va + k);
    CanonicalBlock(va, va + k, la57, level);
  }

  /**
  Translation is linear over the span it returns: k bytes further on the same tables give the physical address
  k bytes further on, in a page of the same size, and the rest of the span.
  */
  lemma TranslationIsLinear(mem: Memory, directoryTableBase: Word, cr3: Word, la57: bool, va: Word, length: Word,
                            k: nat)
    requires k < length && va + k < WORD_LIMIT
    requires var t := Translate(mem, directoryTableBase, cr3, la57, va, length); t.Translated? && k < t.length
    ensures var t := Translate(mem, directoryTableBase, cr3, la57, va, length);
            Translate(mem, directoryTableBase, cr3, la57, va + k, length - k) ==
            Translated(t.pageSize, t.physical + k, t.length - k)
  {
    var base := TableBase(if directoryTableBase == 0 then cr3 else directoryTableBase);
    LinearWalk(mem, base, la57, va, k);
    hide IsCanonicalAddress, Walk, SameBlock, Base, Span, TableBase;
  }

  /**
  The span is not empty, lies in one page at the offset of the address, below 2^52, and is the whole request or reaches
  the end of the page.
  */
  lemma TranslationIsBounded(mem: Memory, directoryTableBase: Word, cr3: Word, la57: bool, va: Word, length: Word)
    requires Translate(mem, directoryTableBase, cr3, la57, va, length).Translated?
    ensures var t := Translate(mem, directoryTableBase, cr3, la57, va, length);
            && t.pageSize in {SIZE_4K, SIZE_2M, SIZE_1G}
            && t.physical % t.pageSize == va % t.pageSize
            && 0 < t.length <= length && va % t.pageSize + t.length <= t.pageSize
            && (t.length == length || va % t.pageSize + t.length == t.pageSize)
            && t.physical + t.length <= PHYSICAL_LIMIT
  {
    var base := TableBase(if directoryTableBase == 0 then cr3 else directoryTableBase);
    var o := Walk(mem, base, if la57 then 5 else 4, va);
    LeafBounds(o.entry, va, o.level);
    hide IsCanonicalAddress, Walk, Base;
  }

  lemma LeafBounds(entry: Word, va: Word, level: nat)
    requires 1 <= level <= 3
    ensures Base(entry, level) + Span(level) <= PHYSICAL_LIMIT
    ensures (Base(entry, level) + va % Span(level)) % Span(level) == va % Span(level)
  {
    match level
    case 1 => DivUnique(Base(entry, 1) + va % SIZE_4K, SIZE_4K, entry / SIZE_4K % 0x100_0000_0000, va % SIZE_4K);
    case 2 => DivUnique(Base(entry, 2) + va % SIZE_2M, SIZE_2M, entry / SIZE_2M % 0x8000_0000, va % SIZE_2M);
    case 3 => DivUnique(Base(entry, 3) + va % SIZE_1G, SIZE_1G, entry / SIZE_1G % 0x40_0000, va % SIZE_1G);
  }

  lemma BaseOf(entry: Word, level: nat)
    requires 1 <= level <= 3
    ensures Base(entry, level) == entry % PHYSICAL_LIMIT / Reach(level) * Reach(level)
  {
    SplitEntry(entry, level);
    LeafBounds(entry, 0, level);
    var rest := Base(entry, level) + entry % Span(level);
    DivUnique(entry, PHYSICAL_LIMIT, entry / PHYSICAL_LIMIT, rest);
    DivUnique(rest, Span(level), Base(entry, level) / Span(level), entry % Span(level));
  }

  /**
  What a translation answers for every input: the checks of the request in order, then the last entry of the walk.
  */
  lemma TranslationDecision(mem: Memory, directoryTableBase: Word, cr3: Word, la57: bool, va: Word, length: Word)
    ensures var t := Translate(mem, directoryTableBase, cr3, la57, va, length);
            var given := if directoryTableBase == 0 then cr3 else directoryTableBase;
            var root := given % 0x10_0000_0000_0000 / 0x1000 * 0x1000;
            var half := if la57 then 0x100_0000_0000_0000 else 0x8000_0000_0000;
            if length == 0 || length > 0x10_0000 then t == Failed(InvalidBufferSize)
            else if va + length > WORD_LIMIT || half <= va < WORD_LIMIT - half then t == Failed(AccessViolation)
            else if root == 0 then t == Failed(InvalidParameter)
            else
              var trail := Reads(mem, root, if la57 then 5 else 4, va);
              var last := trail[|trail| - 1];
              match mem(last.address)
              case Failure(code) => t == Failed(ReadError(code))
              case Value(entry) =>
                if Broken(entry, last.level) then t == Failed(AccessViolation)
                else
                  && t.Translated? && last.level <= 3 && t.pageSize == Reach(last.level)
                  && t.physical == entry % 0x10_0000_0000_0000 / t.pageSize * t.pageSize + va % t.pageSize
                  && (t.length == length || t.length == t.pageSize - va % t.pageSize)
                  && t.length <= length && t.length <= t.pageSize - va % t.pageSize
  {
    var given := if directoryTableBase == 0 then cr3 else directoryTableBase;
    BaseOf(given, 1);
    CanonicalIsSignExtended(va, la57);
    WalkEndsWithReads(mem, TableBase(given), if la57 then 5 else 4, va);
    var o := Walk(mem, TableBase(given), if la57 then 5 else 4, va);
    if o.Mapped? {
      BaseOf(o.entry, o.level);
    }
    hide IsCanonicalAddress, Walk, Reads, Base, Broken, Directs, Reach;
  }
}
