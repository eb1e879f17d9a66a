/**
Translation of a virtual address by the driver: an unrolled walk of the paging structures of the Intel SDM,
volume 3A, section 4.5. The walk is compared with a recursive walk of a radix tree.

A word is a natural number below 2^64, so every sum and difference below is shown not to wrap. The driver's code
masks with `And`; the recursive walk is stated with the fields that the architecture defines, as quotients and
remainders, and the lemmas about masks relate the two.
*/
module Paging {

  import opened Bits

  const SIZE_4K: Word := 0x1000
  const SIZE_2M: Word := 0x20_0000
  const SIZE_1G: Word := 0x4000_0000
  const MAX_TRANSFER_SIZE: Word := 0x10_0000
  const PHYSICAL_LIMIT: Word := 0x10_0000_0000_0000

  // The driver's masks.
  const PRESENT: Word := 1
  const LARGE_PAGE: Word := 0x80
  const PAGE_OFFSET_MASK: Word := 0xfff
  const INDEX_MASK: Word := 0x1ff
  const BASE_4K: Word := 0x000f_ffff_ffff_f000
  const BASE_2M: Word := 0x000f_ffff_ffe0_0000
  const BASE_1G: Word := 0x000f_ffff_c000_0000
  const RESERVED_1G: Word := 0x3FFF_E000
  const RESERVED_2M: Word := 0x1F_E000

  datatype Status = Success | InvalidBufferSize | AccessViolation | InvalidParameter | ReadError(code: nat)

  datatype ReadResult = Value(word: Word) | Failure(code: nat)

  /** Reading eight bytes of physical memory, or the status of the failed read. */
  type Memory = Word -> ReadResult

  // ---------------------------------------------------------------------------------------------
  // Fields and checks
  // ---------------------------------------------------------------------------------------------

  /**
  The physical address field of a leaf of this level, or of a table entry: the bits below 2^52 and above the
  page.
  */
  function Base(entry: Word, level: nat): (base: Word)
    requires 1 <= level <= 3
    ensures base < PHYSICAL_LIMIT
  {
    match level
    case 1 => entry / SIZE_4K % 0x100_0000_0000 * SIZE_4K
    case 2 => entry / SIZE_2M % 0x8000_0000 * SIZE_2M
    case _ => entry / SIZE_1G % 0x40_0000 * SIZE_1G
  }

  /** A table is a page of 512 entries of eight bytes. */
  type Table = t: Word | t % SIZE_4K == 0 && t < PHYSICAL_LIMIT

  function TableBase(entry: Word): Table {
    Base(entry, 1)
  }

  predicate Present(entry: Word) {
    entry % 2 == 1
  }

  predicate PageSizeBit(entry: Word) {
    entry / 0x80 % 2 == 1
  }

  /** The bits between the PAT bit and the base of a large page, which must be zero. */
  function ReservedField(entry: Word, level: nat): nat {
    match level
    case 2 => entry / 0x2000 % 0x100
    case 3 => entry / 0x2000 % 0x2_0000
    case _ => 0
  }

  /** Present, with the bits that are reserved at its level clear. */
  predicate Accepted(entry: Word, level: nat) {
    && 1 <= level <= 5 && Present(entry)
    && (PageSizeBit(entry) ==> level <= 3 && ReservedField(entry, level) == 0)
  }

  /** The check of the shared header, with its masks. */
  predicate PresentPagingEntryValid(entry: Word, level: nat) {
    && 1 <= level <= 5
    && And(entry, PRESENT) != 0
    && !(level >= 4 && And(entry, LARGE_PAGE) != 0)
    && !(level == 3 && And(entry, LARGE_PAGE) != 0 && And(entry, RESERVED_1G) != 0)
    && !(level == 2 && And(entry, LARGE_PAGE) != 0 && And(entry, RESERVED_2M) != 0)
  }

  lemma PresentMask(x: Word)
    ensures And(x, PRESENT) == x % 2
  {
    Powers();
    hide Up, And;
    LowMask(x, PRESENT, 1, 2);
  }

  lemma LargePageMask(x: Word)
    ensures And(x, LARGE_PAGE) == x / 0x80 % 2 * 0x80
  {
    Powers();
    hide Up, And;
    FieldMask(x, LARGE_PAGE, 1, 7, 2, 0x80);
  }

  lemma ReservedMask1G(x: Word)
    ensures And(x, RESERVED_1G) == x / 0x2000 % 0x2_0000 * 0x2000
  {
    Powers();
    hide Up, And;
    FieldMask(x, RESERVED_1G, 17, 13, 0x2_0000, 0x2000);
  }

  lemma ReservedMask2M(x: Word)
    ensures And(x, RESERVED_2M) == x / 0x2000 % 0x100 * 0x2000
  {
    Powers();
    hide Up, And;
    FieldMask(x, RESERVED_2M, 8, 13, 0x100, 0x2000);
  }

  lemma IndexMask(x: Word)
    ensures And(x, INDEX_MASK) == x % 512
  {
    Powers();
    hide Up, And;
    LowMask(x, INDEX_MASK, 9, 512);
  }

  lemma OffsetMask4K(x: Word)
    ensures And(x, PAGE_OFFSET_MASK) == x % SIZE_4K
  {
    Powers();
    hide Up, And;
    LowMask(x, PAGE_OFFSET_MASK, 12, SIZE_4K);
  }

  lemma OffsetMask2M(x: Word)
    ensures And(x, SIZE_2M - 1) == x % SIZE_2M
  {
    Powers();
    hide Up, And;
    LowMask(x, SIZE_2M - 1, 21, SIZE_2M);
  }

  lemma OffsetMask1G(x: Word)
    ensures And(x, SIZE_1G - 1) == x % SIZE_1G
  {
    Powers();
    hide Up, And;
    LowMask(x, SIZE_1G - 1, 30, SIZE_1G);
  }

  lemma BaseMask4K(x: Word)
    ensures And(x, BASE_4K) == TableBase(x)
  {
    Powers();
    hide Up, And;
    FieldMask(x, BASE_4K, 40, 12, 0x100_0000_0000, SIZE_4K);
  }

  lemma BaseMask2M(x: Word)
    ensures And(x, BASE_2M) == Base(x, 2)
  {
    Powers();
    hide Up, And;
    FieldMask(x, BASE_2M, 31, 21, 0x8000_0000, SIZE_2M);
  }

  lemma BaseMask1G(x: Word)
    ensures And(x, BASE_1G) == Base(x, 3)
  {
    Powers();
    hide Up, And;
    FieldMask(x, BASE_1G, 22, 30, 0x40_0000, SIZE_1G);
  }

  /** The masks of the entry check test exactly the fields that the architecture reserves. */
  lemma EntryCheckFields(entry: Word, level: nat)
    ensures PresentPagingEntryValid(entry, level) <==> Accepted(entry, level)
    ensures And(entry, LARGE_PAGE) != 0 <==> PageSizeBit(entry)
  {
    PresentMask(entry);
    LargePageMask(entry);
    ReservedMask1G(entry);
    ReservedMask2M(entry);
    hide And;
  }

  predicate RangeOverflows(address: Word, length: Word): (overflows: bool)
    ensures overflows <==> length == 0 || address + length > WORD_LIMIT
  {
    length == 0 || address > WORD_LIMIT - 1 - (length - 1)
  }

  predicate IsCanonicalAddress(va: Word, la57: bool) {
    var high := if la57 then va / 0x200_0000_0000_0000 else va / 0x1_0000_0000_0000;
    var sign := And(if la57 then va / 0x100_0000_0000_0000 else va / 0x8000_0000_0000, 1);
    if sign == 0 then high == 0 else high == (if la57 then 0x7f else 0xffff)
  }

  /** The number of addresses below the canonical hole. */
  function HalfSpace(la57: bool): Word {
    if la57 then 0x100_0000_0000_0000 else 0x8000_0000_0000
  }

  /** Canonical means sign-extended: in the lowest or the highest half-space. */
  lemma CanonicalIsSignExtended(va: Word, la57: bool)
    ensures IsCanonicalAddress(va, la57) <==> va < HalfSpace(la57) || va >= WORD_LIMIT - HalfSpace(la57)
  {
    hide And;
    if la57 {
      PresentMask(va / 0x100_0000_0000_0000);
      assert va / 0x100_0000_0000_0000 == 2 * (va / 0x200_0000_0000_0000) + va / 0x100_0000_0000_0000 % 2;
    } else {
      PresentMask(va / 0x8000_0000_0000);
      assert va / 0x8000_0000_0000 == 2 * (va / 0x1_0000_0000_0000) + va / 0x8000_0000_0000 % 2;
    }
  }

  function MinSize(a: Word, b: Word): Word {
    if a < b then a else b
  }

  // ---------------------------------------------------------------------------------------------
  // The recursive walk
  // ---------------------------------------------------------------------------------------------

  /** The bytes of address space that one entry of this level maps. */
  function Span(level: nat): (n: Word)
    requires 1 <= level <= 5
    ensures n > 0
  {
    match level
    case 1 => 0x1000
    case 2 => 0x20_0000
    case 3 => 0x4000_0000
    case 4 => 0x80_0000_0000
    case _ => 0x1_0000_0000_0000
  }

  function Index(va: Word, level: nat): (i: Word)
    requires 1 <= level <= 5
    ensures i < 512
  {
    va / Span(level) % 512
  }

  function EntryAddress(table: Table, va: Word, level: nat): (a: Word)
    requires 1 <= level <= 5
    ensures table <= a <= table + SIZE_4K - 8 && a % 8 == 0
  {
    table + Index(va, level) * 8
  }

  predicate IsLeaf(entry: Word, level: nat) {
    level == 1 || (level <= 3 && PageSizeBit(entry))
  }

  datatype Outcome = Mapped(level: nat, entry: Word) | Fault | Unreadable(code: nat)

  /** The radix tree below `table`, followed along `va`. */
  function Walk(mem: Memory, table: Table, level: nat, va: Word): (o: Outcome)
    requires 1 <= level <= 5
    ensures o.Mapped? ==> 1 <= o.level <= 3 && o.level <= level
                          && Accepted(o.entry, o.level) && IsLeaf(o.entry, o.level)
    decreases level
  {
    match mem(EntryAddress(table, va, level))
    case Failure(code) => Unreadable(code)
    case Value(entry) =>
      if !Accepted(entry, level) then Fault
      else if IsLeaf(entry, level) then Mapped(level, entry)
      else Walk(mem, TableBase(entry), level - 1, va)
  }

  datatype Read = Read(level: nat, table: Table, address: Word)

  /** The reads that the walk performs, in order. */
  function Reads(mem: Memory, table: Table, level: nat, va: Word): seq<Read>
    requires 1 <= level <= 5
    decreases level
  {
    var address := EntryAddress(table, va, level);
    [Read(level, table, address)] +
    match mem(address)
    case Failure(_) => []
    case Value(entry) =>
      if !Accepted(entry, level) || IsLeaf(entry, level) then []
      else Reads(mem, TableBase(entry), level - 1, va)
  }

  datatype Translation = Translated(pageSize: Word, physical: Word, length: Word) | Failed(status: Status)

  /** What a translation request is meant to answer. */
  function Translate(mem: Memory, directoryTableBase: Word, cr3: Word, la57: bool, va: Word,
                     length: Word): Translation {
    var base := TableBase(if directoryTableBase == 0 then cr3 else directoryTableBase);
    if length == 0 || length > MAX_TRANSFER_SIZE then Failed(InvalidBufferSize)
    else if RangeOverflows(va, length) || !IsCanonicalAddress(va, la57) then Failed(AccessViolation)
    else if base == 0 then Failed(InvalidParameter)
    else
      match Walk(mem, base, if la57 then 5 else 4, va)
      case Fault => Failed(AccessViolation)
      case Unreadable(code) => Failed(ReadError(code))
      case Mapped(level, entry) =>
        var size := Span(level);
        var offset := va % size;
        Translated(size, Base(entry, level) + offset, MinSize(length, size - offset))
  }

  // ---------------------------------------------------------------------------------------------
  // The unrolled walk of the driver
  // ---------------------------------------------------------------------------------------------

  /** Levels 5 to 1 of `entries` and `addresses` are Pml5e, Pml4e, Pdpte, Pde and Pte of the driver's record. */
  datatype Response = Response(
    currentCr3: bool,
    largePage: bool,
    la57Active: bool,
    directoryTableBase: Word,
    virtualAddress: Word,
    requestedLength: Word,
    pagingLevels: nat,
    pml5e: Word,
    pml4e: Word,
    pdpte: Word,
    pde: Word,
    pte: Word,
    pml5eAddress: Word,
    pml4eAddress: Word,
    pdpteAddress: Word,
    pdeAddress: Word,
    pteAddress: Word,
    pageSize: Word,
    pageOffset: Word,
    pageBytes: Word,
    physicalAddress: Word,
    translatedLength: Word)
  {
    function AddressAt(level: nat): Word {
      match level
      case 5 => pml5eAddress
      case 4 => pml4eAddress
      case 3 => pdpteAddress
      case 2 => pdeAddress
      case _ => pteAddress
    }

    function EntryAt(level: nat): Word {
      match level
      case 5 => pml5e
      case 4 => pml4e
      case 3 => pdpte
      case 2 => pde
      case _ => pte
    }
  }

  const ZERO := Response(false, false, false, 0, 0, 0, 0, 0, 0, 0, 0, 0, 0, 0, 0, 0, 0, 0, 0, 0, 0, 0)

  /** The request's own fields are as they were set before the walk. */
  predicate SameHeader(r: Response, s: Response) {
    && s.directoryTableBase == r.directoryTableBase && s.virtualAddress == r.virtualAddress
    && s.requestedLength == r.requestedLength && s.pagingLevels == r.pagingLevels
    && s.currentCr3 == r.currentCr3 && s.la57Active == r.la57Active
  }

  /** A walk that set out with record `r` ended with this status and record, as its outcome demands. */
  predicate Fills(o: Outcome, va: Word, length: Word, r: Response, status: Status, s: Response)
    requires o.Mapped? ==> 1 <= o.level <= 3
  {
    match o
    case Fault => status == AccessViolation
    case Unreadable(code) => status == ReadError(code)
    case Mapped(level, entry) =>
      && status == Success && SameHeader(r, s)
      && s.largePage == (r.largePage || level != 1)
      && s.pageSize == Span(level) && s.pageOffset == va % Span(level)
      && s.pageBytes == Span(level) - s.pageOffset
      && s.physicalAddress == Base(entry, level) + s.pageOffset
      && s.translatedLength == MinSize(length, s.pageBytes)
  }

  /** The record shows this read: its address and, unless it failed, the entry. */
  predicate Recorded(mem: Memory, s: Response, x: Read) {
    s.AddressAt(x.level) == x.address && (mem(x.address).Value? ==> s.EntryAt(x.level) == mem(x.address).word)
  }

  /** The record shows every read, and nothing changed above `level`. */
  predicate Shows(mem: Memory, r: Response, s: Response, level: nat, trail: seq<Read>) {
    && (forall x | x in trail :: x.level <= level && Recorded(mem, s, x))
    && (forall l | level < l <= 5 :: s.AddressAt(l) == r.AddressAt(l) && s.EntryAt(l) == r.EntryAt(l))
  }

  method WalkPt(mem: Memory, table: Table, va: Word, length: Word, initial: Response)
    returns (status: Status, response: Response, ghost trail: seq<Read>)
    ensures Fills(Walk(mem, table, 1, va), va, length, initial, status, response)
    ensures trail == Reads(mem, table, 1, va) && Shows(mem, initial, response, 1, trail)
  {
    hide And, Base, MinSize, Present, PageSizeBit, ReservedField, PresentPagingEntryValid;
    IndexMask(va / SIZE_4K);
    var pteAddress := table + And(va / SIZE_4K, INDEX_MASK) * 8;
    response := initial.(pteAddress := pteAddress);
    trail := [Read(1, table, pteAddress)];
    match mem(pteAddress) {
      case Failure(code) => return ReadError(code), response, trail;
      case Value(entry) => response := response.(pte := entry);
    }
    EntryCheckFields(response.pte, 1);
    if !PresentPagingEntryValid(response.pte, 1) {
      return AccessViolation, response, trail;
    }
    BaseMask4K(response.pte);
    OffsetMask4K(va);
    var pageOffset := And(va, PAGE_OFFSET_MASK);
    var pageBytes := SIZE_4K - pageOffset;
    response := response.(pageSize := SIZE_4K, pageOffset := pageOffset, pageBytes := pageBytes,
                          physicalAddress := And(response.pte, BASE_4K) + pageOffset,
                          translatedLength := MinSize(length, pageBytes));
    status := Success;
  }

  method WalkPd(mem: Memory, table: Table, va: Word, length: Word, initial: Response)
    returns (status: Status, response: Response, ghost trail: seq<Read>)
    ensures Fills(Walk(mem, table, 2, va), va, length, initial, status, response)
    ensures trail == Reads(mem, table, 2, va) && Shows(mem, initial, response, 2, trail)
  {
    hide And, Base, MinSize, Present, PageSizeBit, ReservedField, PresentPagingEntryValid;
    IndexMask(va / SIZE_2M);
    var pdeAddress := table + And(va / SIZE_2M, INDEX_MASK) * 8;
    response := initial.(pdeAddress := pdeAddress);
    trail := [Read(2, table, pdeAddress)];
    match mem(pdeAddress) {
      case Failure(code) => return ReadError(code), response, trail;
      case Value(entry) => response := response.(pde := entry);
    }
    EntryCheckFields(response.pde, 2);
    if !PresentPagingEntryValid(response.pde, 2) {
      return AccessViolation, response, trail;
    }
    BaseMask4K(response.pde);
    BaseMask2M(response.pde);
    OffsetMask2M(va);
    if And(response.pde, LARGE_PAGE) != 0 {
      var pageOffset := And(va, SIZE_2M - 1);
      var pageBytes := SIZE_2M - pageOffset;
      response := response.(largePage := true, pageSize := SIZE_2M, pageOffset := pageOffset,
                            pageBytes := pageBytes, physicalAddress := And(response.pde, BASE_2M) + pageOffset,
                            translatedLength := MinSize(length, pageBytes));
      return Success, response, trail;
    }
    ghost var below;
    status, response, below := WalkPt(mem, And(response.pde, BASE_4K), va, length, response);
    trail := trail + below;
  }

  method WalkPdpt(mem: Memory, table: Table, va: Word, length: Word, initial: Response)
    returns (status: Status, response: Response, ghost trail: seq<Read>)
    ensures Fills(Walk(mem, table, 3, va), va, length, initial, status, response)
    ensures trail == Reads(mem, table, 3, va) && Shows(mem, initial, response, 3, trail)
  {
    hide And, Base, MinSize, Present, PageSizeBit, ReservedField, PresentPagingEntryValid;
    IndexMask(va / SIZE_1G);
    var pdpteAddress := table + And(va / SIZE_1G, INDEX_MASK) * 8;
    response := initial.(pdpteAddress := pdpteAddress);
    trail := [Read(3, table, pdpteAddress)];
    match mem(pdpteAddress) {
      case Failure(code) => return ReadError(code), response, trail;
      case Value(entry) => response := response.(pdpte := entry);
    }
    EntryCheckFields(response.pdpte, 3);
    if !PresentPagingEntryValid(response.pdpte, 3) {
      return AccessViolation, response, trail;
    }
    BaseMask4K(response.pdpte);
    BaseMask1G(response.pdpte);
    OffsetMask1G(va);
    if And(response.pdpte, LARGE_PAGE) != 0 {
      var pageOffset := And(va, SIZE_1G - 1);
      var pageBytes := SIZE_1G - pageOffset;
      response := response.(largePage := true, pageSize := SIZE_1G, pageOffset := pageOffset,
                            pageBytes := pageBytes, physicalAddress := And(response.pdpte, BASE_1G) + pageOffset,
                            translatedLength := MinSize(length, pageBytes));
      return Success, response, trail;
    }
    ghost var below;
    status, response, below := WalkPd(mem, And(response.pdpte, BASE_4K), va, length, response);
    trail := trail + below;
  }

  method WalkPml4(mem: Memory, table: Table, va: Word, length: Word, initial: Response)
    returns (status: Status, response: Response, ghost trail: seq<Read>)
    ensures Fills(Walk(mem, table, 4, va), va, length, initial, status, response)
    ensures trail == Reads(mem, table, 4, va) && Shows(mem, initial, response, 4, trail)
  {
    hide And, Base, MinSize, Present, PageSizeBit, ReservedField, PresentPagingEntryValid;
    IndexMask(va / 0x80_0000_0000);
    var pml4eAddress := table + And(va / 0x80_0000_0000, INDEX_MASK) * 8;
    response := initial.(pml4eAddress := pml4eAddress);
    trail := [Read(4, table, pml4eAddress)];
    match mem(pml4eAddress) {
      case Failure(code) => return ReadError(code), response, trail;
      case Value(entry) => response := response.(pml4e := entry);
    }
    EntryCheckFields(response.pml4e, 4);
    if !PresentPagingEntryValid(response.pml4e, 4) {
      return AccessViolation, response, trail;
    }
    BaseMask4K(response.pml4e);
    ghost var below;
    status, response, below := WalkPdpt(mem, And(response.pml4e, BASE_4K), va, length, response);
    trail := trail + below;
  }

  method WalkPml5(mem: Memory, table: Table, va: Word, length: Word, initial: Response)
    returns (status: Status, response: Response, ghost trail: seq<Read>)
    ensures Fills(Walk(mem, table, 5, va), va, length, initial, status, response)
    ensures trail == Reads(mem, table, 5, va) && Shows(mem, initial, response, 5, trail)
  {
    hide And, Base, MinSize, Present, PageSizeBit, ReservedField, PresentPagingEntryValid;
    IndexMask(va / 0x1_0000_0000_0000);
    var pml5eAddress := table + And(va / 0x1_0000_0000_0000, INDEX_MASK) * 8;
    response := initial.(pml5eAddress := pml5eAddress);
    trail := [Read(5, table, pml5eAddress)];
    match mem(pml5eAddress) {
      case Failure(code) => return ReadError(code), response, trail;
      case Value(entry) => response := response.(pml5e := entry);
    }
    EntryCheckFields(response.pml5e, 5);
    if !PresentPagingEntryValid(response.pml5e, 5) {
      return AccessViolation, response, trail;
    }
    BaseMask4K(response.pml5e);
    ghost var below;
    status, response, below := WalkPml4(mem, And(response.pml5e, BASE_4K), va, length, response);
    trail := trail + below;
  }

  /** The driver's translation, from its argument checks to the filled record. */
  method TranslateVirtualAddress(mem: Memory, directoryTableBase: Word, cr3: Word, la57: bool, va: Word, length: Word)
    returns (status: Status, response: Response, ghost trail: seq<Read>)
    ensures match Translate(mem, directoryTableBase, cr3, la57, va, length)
            case Failed(s) => status == s
            case Translated(size, physical, n) =>
              && status == Success
              && response.pageSize == size && response.physicalAddress == physical && response.translatedLength == n
              && response.pageOffset == va % size && response.pageBytes == size - response.pageOffset
              && 0 < n <= length && response.pageOffset + n <= size
              && (n == length || response.pageOffset + n == size)
    ensures status == Success ==>
              && response.directoryTableBase == TableBase(if directoryTableBase == 0 then cr3 else directoryTableBase)
              && response.virtualAddress == va && response.requestedLength == length
              && response.pagingLevels == (if la57 then 5 else 4)
              && response.currentCr3 == (directoryTableBase == 0) && response.la57Active == la57
              && response.largePage == (response.pageSize != SIZE_4K)
              && trail == Reads(mem, response.directoryTableBase, if la57 then 5 else 4, va)
    ensures forall r | r in trail :: Recorded(mem, response, r)
  {
    hide Walk, Reads, And, Base, IsCanonicalAddress, RangeOverflows;
    response, trail := ZERO, [];
    if length == 0 || length > MAX_TRANSFER_SIZE {
      return InvalidBufferSize, response, trail;
    }
    if RangeOverflows(va, length) || !IsCanonicalAddress(va, la57) {
      return AccessViolation, response, trail;
    }
    var base := directoryTableBase;
    if base == 0 {
      base := cr3;
    }
    BaseMask4K(base);
    var root := And(base, BASE_4K);
    if root == 0 {
      return InvalidParameter, response, trail;
    }
    response := ZERO.(currentCr3 := directoryTableBase == 0, directoryTableBase := root, virtualAddress := va,
                      requestedLength := length,
                      pagingLevels := if la57 then 5 else 4);
    if la57 {
      response := response.(la57Active := true);
      status, response, trail := WalkPml5(mem, root, va, length, response);
    } else {
      status, response, trail := WalkPml4(mem, root, va, length, response);
    }
  }
}
