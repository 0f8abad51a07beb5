/** Copying between wired virtual ranges through physical pages. */
module PhysicalCopy {

  type Byte = n: nat | n < 256

  const PAGE_SIZE := 4096

  /** The frame number of each virtual page; 0 when it is not mapped. */
  type Mapping = nat -> nat

  /** The physical address of a virtual one, in the frame of its page; 0 when it is not mapped. */
  function VirtToPhys(frame: Mapping, addr: nat): (pa: nat)
    ensures pa == 0 <==> frame(addr / PAGE_SIZE) == 0
    ensures pa != 0 ==> pa / PAGE_SIZE == frame(addr / PAGE_SIZE) && pa % PAGE_SIZE == addr % PAGE_SIZE
  {
    var base := frame(addr / PAGE_SIZE) * PAGE_SIZE;
    if base != 0 then base + addr % PAGE_SIZE else 0
  }

  predicate Mapped(frame: Mapping, addr: nat) {
    VirtToPhys(frame, addr) != 0
  }

  /** count bytes from addr lie side by side from pa. */
  ghost predicate Contiguous(frame: Mapping, addr: nat, pa: nat, count: nat) {
    pa > 0 && forall a: nat :: addr <= a < addr + count ==> VirtToPhys(frame, a) == pa + a - addr
  }

  /** Within a page, physical addresses advance with virtual ones. */
  lemma PageIsContiguous(frame: Mapping, addr: nat, count: nat)
    requires Mapped(frame, addr) && addr % PAGE_SIZE + count <= PAGE_SIZE
    ensures Contiguous(frame, addr, VirtToPhys(frame, addr), count)
  {
    forall a: nat | addr <= a < addr + count ensures VirtToPhys(frame, a) == VirtToPhys(frame, addr) + a - addr {
      assert a / PAGE_SIZE == addr / PAGE_SIZE && a % PAGE_SIZE == addr % PAGE_SIZE + (a - addr);
    }
  }

  /** Every mapped page lies in memory. */
  ghost predicate Backed(frame: Mapping, size: nat) {
    forall addr: nat :: VirtToPhys(frame, addr) < size
  }

  /** The memory after n bytes have been copied one at a time. */
  ghost function Copied(m: seq<Byte>, frame: Mapping, src: nat, dst: nat, n: nat): (r: seq<Byte>)
    requires Backed(frame, |m|)
    ensures |r| == |m|
  {
    if n == 0 then m
    else
      var p := Copied(m, frame, src, dst, n - 1);
      p[VirtToPhys(frame, dst + n - 1) := p[VirtToPhys(frame, src + n - 1)]]
  }

  /** No byte of the source is a byte of the destination. */
  ghost predicate Apart(frame: Mapping, src: nat, dst: nat, len: nat) {
    forall a: nat, b: nat | src <= a < src + len && dst <= b < dst + len && Mapped(frame, a) && Mapped(frame, b) ::
      VirtToPhys(frame, a) != VirtToPhys(frame, b)
  }

  ghost predicate AllMapped(frame: Mapping, addr: nat, n: nat) {
    forall a: nat :: addr <= a < addr + n ==> Mapped(frame, a)
  }

  /** count bytes at from, copied to to. */
  ghost function Block(m: seq<Byte>, from: nat, to: nat, count: nat): (r: seq<Byte>)
    requires from + count <= |m| && to + count <= |m|
    ensures |r| == |m|
    ensures forall k :: 0 <= k < |m| ==> r[k] == if to <= k < to + count then m[from + k - to] else m[k]
  {
    m[..to] + m[from..from + count] + m[to + count..]
  }

  /** bcopy_phys, within one page on either side. */
  method CopyPhysical(ram: array<Byte>, from: nat, to: nat, count: nat)
    requires from + count <= ram.Length && to + count <= ram.Length
    requires from % PAGE_SIZE + count <= PAGE_SIZE && to % PAGE_SIZE + count <= PAGE_SIZE
    modifies ram
    ensures ram[..] == Block(old(ram[..]), from, to, count)
  {
    forall k | 0 <= k < count {
      ram[to + k] := ram[from + k];
    }
  }

  /** The source bytes stay as they were while they are copied. */
  lemma {:induction false} SourceStays(m: seq<Byte>, frame: Mapping, src: nat, dst: nat, n: nat, len: nat, a: nat)
    requires Backed(frame, |m|) && Apart(frame, src, dst, len) && n <= len && AllMapped(frame, dst, n)
    requires src <= a < src + len && Mapped(frame, a)
    ensures Copied(m, frame, src, dst, n)[VirtToPhys(frame, a)] == m[VirtToPhys(frame, a)]
  {
    if n > 0 {
      SourceStays(m, frame, src, dst, n - 1, len, a);
      assert Mapped(frame, dst + n - 1);
    }
  }

  lemma BlockGrows(m: seq<Byte>, from: nat, to: nat, k: nat)
    requires 0 < k && from + k <= |m| && to + k <= |m|
    ensures Block(m, from, to, k) == Block(m, from, to, k - 1)[to + k - 1 := m[from + k - 1]]
  {
  }

  /** One chunk copied at once is its bytes copied one at a time. */
  lemma {:induction false} ChunkIsBytes(m: seq<Byte>, frame: Mapping, src: nat, dst: nat, done: nat, k: nat, len: nat)
    requires Backed(frame, |m|) && Apart(frame, src, dst, len) && done + k <= len && AllMapped(frame, dst, done)
    requires Contiguous(frame, src + done, VirtToPhys(frame, src + done), k)
    requires Contiguous(frame, dst + done, VirtToPhys(frame, dst + done), k)
    ensures AllMapped(frame, dst, done + k)
    ensures var from, to := VirtToPhys(frame, src + done), VirtToPhys(frame, dst + done);
            && (k > 0 ==> from + k <= |m| && to + k <= |m|)
            && Copied(m, frame, src, dst, done + k)
               == if k > 0 then Block(Copied(m, frame, src, dst, done), from, to, k) else Copied(m, frame, src, dst, done)
    decreases k
  {
    hide VirtToPhys, Copied, Block, Apart, AllMapped, Contiguous, Backed, Mapped;
    var p := Copied(m, frame, src, dst, done);
    var from, to := VirtToPhys(frame, src + done), VirtToPhys(frame, dst + done);
    MappedOn(frame, dst, done, to, k);
    if k > 0 {
      var i := done + k - 1;
      Reaches(frame, src + done, from, k, |m|);
      Reaches(frame, dst + done, to, k, |m|);
      ChunkIsBytes(m, frame, src, dst, done, k - 1, len);
      SourceStays(m, frame, src, dst, i, len, src + i);
      SourceStays(m, frame, src, dst, done, len, src + i);
      CopiedOne(m, frame, src, dst, i);
      BlockGrows(p, from, to, k);
      NoBlock(p, from, to);
    }
  }

  /** The last byte of a contiguous range, and the range without it. */
  lemma Reaches(frame: Mapping, addr: nat, pa: nat, k: nat, size: nat)
    requires Contiguous(frame, addr, pa, k) && k > 0 && Backed(frame, size)
    ensures Mapped(frame, addr + k - 1) && VirtToPhys(frame, addr + k - 1) == pa + k - 1 < size
    ensures Contiguous(frame, addr, pa, k - 1)
  {
    hide VirtToPhys;
  }

  lemma NoBlock(m: seq<Byte>, from: nat, to: nat)
    requires from <= |m| && to <= |m|
    ensures Block(m, from, to, 0) == m
  {
  }

  lemma CopiedOne(m: seq<Byte>, frame: Mapping, src: nat, dst: nat, n: nat)
    requires Backed(frame, |m|)
    ensures var p := Copied(m, frame, src, dst, n);
            Copied(m, frame, src, dst, n + 1) == p[VirtToPhys(frame, dst + n) := p[VirtToPhys(frame, src + n)]]
  {
  }

  /** As many bytes as possible without crossing a page on either side. */
  method ChunkSize(physSrc: nat, physDst: nat, resid: nat) returns (count: nat)
    requires resid > 0
    ensures 0 < count <= resid
    ensures physSrc % PAGE_SIZE + count <= PAGE_SIZE && physDst % PAGE_SIZE + count <= PAGE_SIZE
    ensures count == resid || physSrc % PAGE_SIZE + count == PAGE_SIZE || physDst % PAGE_SIZE + count == PAGE_SIZE
    ensures count == ChunkAt(physSrc, physDst, resid)
  {
    var countSrc := PAGE_SIZE - physSrc % PAGE_SIZE;
    var countDst := PAGE_SIZE - physDst % PAGE_SIZE;
    count := if countSrc > countDst then countDst else countSrc;
    if count > resid {
      count := resid;
    }
  }

  /** The memory after copying chunk by chunk, each read before it is written, up to the first page not mapped. */
  ghost function Chunked(m: seq<Byte>, frame: Mapping, src: nat, dst: nat, len: nat): (r: seq<Byte>)
    requires Backed(frame, |m|)
    ensures |r| == |m|
    decreases len
  {
    if len == 0 || !Mapped(frame, dst) || !Mapped(frame, src) then m
    else
      var from, to := VirtToPhys(frame, src), VirtToPhys(frame, dst);
      var count := ChunkAt(from, to, len);
      InMemory(frame, src, count, |m|);
      InMemory(frame, dst, count, |m|);
      Chunked(Block(m, from, to, count), frame, src + count, dst + count, len - count)
  }

  /** The longest chunk that crosses no page on either side. */
  function ChunkAt(from: nat, to: nat, len: nat): (count: nat)
    requires len > 0
    ensures 0 < count <= len && from % PAGE_SIZE + count <= PAGE_SIZE && to % PAGE_SIZE + count <= PAGE_SIZE
  {
    var a, b := PAGE_SIZE - from % PAGE_SIZE, PAGE_SIZE - to % PAGE_SIZE;
    if len <= a && len <= b then len else if a <= b then a else b
  }

  lemma InMemory(frame: Mapping, addr: nat, count: nat, size: nat)
    requires Mapped(frame, addr) && Backed(frame, size) && addr % PAGE_SIZE + count <= PAGE_SIZE
    ensures VirtToPhys(frame, addr) % PAGE_SIZE == addr % PAGE_SIZE && VirtToPhys(frame, addr) + count <= size
  {
    PageIsContiguous(frame, addr, count);
    if count > 0 {
      Reaches(frame, addr, VirtToPhys(frame, addr), count, size);
    }
  }

  /** What one chunk does, done bytes into the range. */
  lemma OneChunk(was: seq<Byte>, m: seq<Byte>, frame: Mapping, src: nat, dst: nat, len: nat, done: nat)
    requires Backed(frame, |m|) && |was| == |m| && done < len && Mapped(frame, src + done) && Mapped(frame, dst + done)
    requires AllMapped(frame, src, done) && AllMapped(frame, dst, done)
    ensures var from, to := VirtToPhys(frame, src + done), VirtToPhys(frame, dst + done);
            var count := ChunkAt(from, to, len - done);
            && from + count <= |m| && to + count <= |m|
            && AllMapped(frame, src, done + count) && AllMapped(frame, dst, done + count)
            && Chunked(m, frame, src + done, dst + done, len - done)
               == Chunked(Block(m, from, to, count), frame, src + (done + count), dst + (done + count), len - (done + count))
            && (Apart(frame, src, dst, len) && m == Copied(was, frame, src, dst, done) ==>
                  Block(m, from, to, count) == Copied(was, frame, src, dst, done + count))
  {
    hide VirtToPhys, Block, Copied, Apart, ChunkAt, AllMapped, Contiguous, Mapped, Backed;
    var from, to := VirtToPhys(frame, src + done), VirtToPhys(frame, dst + done);
    var count := ChunkAt(from, to, len - done);
    IsMapped(frame, src + done);
    IsMapped(frame, dst + done);
    InMemory(frame, src + done, count, |m|);
    InMemory(frame, dst + done, count, |m|);
    PageIsContiguous(frame, src + done, count);
    PageIsContiguous(frame, dst + done, count);
    MappedOn(frame, src, done, from, count);
    MappedOn(frame, dst, done, to, count);
    if Apart(frame, src, dst, len) {
      ChunkIsBytes(was, frame, src, dst, done, count, len);
    }
  }

  lemma StopsHere(m: seq<Byte>, frame: Mapping, src: nat, dst: nat, len: nat)
    requires Backed(frame, |m|)
    ensures len == 0 || !Mapped(frame, dst) || !Mapped(frame, src) ==> Chunked(m, frame, src, dst, len) == m
  {
  }

  lemma IsMapped(frame: Mapping, addr: nat)
    ensures Mapped(frame, addr) <==> VirtToPhys(frame, addr) != 0
  {
  }

  lemma Starts(m: seq<Byte>, frame: Mapping, src: nat, dst: nat)
    requires Backed(frame, |m|)
    ensures AllMapped(frame, src, 0) && AllMapped(frame, dst, 0) && Copied(m, frame, src, dst, 0) == m
  {
  }

  /** Copies what it can: all of it, or up to the first byte that is not mapped on one side. If no byte of the source is a
      byte of the destination, this is copying one byte at a time. */
  method WriteWired(ram: array<Byte>, frame: Mapping, src: nat, dst: nat, len: nat) returns (n: nat)
    requires Backed(frame, ram.Length)
    modifies ram
    ensures n <= len && AllMapped(frame, src, n) && AllMapped(frame, dst, n)
    ensures n < len ==> !Mapped(frame, src + n) || !Mapped(frame, dst + n)
    ensures ram[..] == Chunked(old(ram[..]), frame, src, dst, len)
    ensures Apart(frame, src, dst, len) ==> ram[..] == Copied(old(ram[..]), frame, src, dst, n)
  {
    hide *;
    var resid, curSrc, curDst := len, src, dst;
    ghost var was := ram[..];
    Starts(was, frame, src, dst);
    while resid != 0
      invariant 0 <= resid <= len && curSrc == src + (len - resid) && curDst == dst + (len - resid)
      invariant AllMapped(frame, src, len - resid) && AllMapped(frame, dst, len - resid)
      invariant Chunked(ram[..], frame, curSrc, curDst, resid) == Chunked(was, frame, src, dst, len)
      invariant Apart(frame, src, dst, len) ==> ram[..] == Copied(was, frame, src, dst, len - resid)
      decreases resid
    {
      IsMapped(frame, curDst);
      IsMapped(frame, curSrc);
      var physDst := VirtToPhys(frame, curDst);
      if physDst == 0 {
        break;
      }
      var physSrc := VirtToPhys(frame, curSrc);
      if physSrc == 0 {
        break;
      }
      var count := ChunkSize(physSrc, physDst, resid);
      OneChunk(was, ram[..], frame, src, dst, len, len - resid);
      CopyPhysical(ram, physSrc, physDst, count);
      curSrc := curSrc + count;
      curDst := curDst + count;
      resid := resid - count;
    }
    StopsHere(ram[..], frame, curSrc, curDst, resid);
    n := len - resid;
  }

  lemma MappedOn(frame: Mapping, addr: nat, n: nat, pa: nat, count: nat)
    requires AllMapped(frame, addr, n) && Contiguous(frame, addr + n, pa, count)
    ensures AllMapped(frame, addr, n + count)
  {
    hide VirtToPhys;
  }

  // ----- what a bytewise copy is, by frame and offset -----

  /** Offset a % PAGE_SIZE of the frame that the page of a is mapped to. */
  function InFrame(frame: Mapping, a: nat): nat {
    frame(a / PAGE_SIZE) * PAGE_SIZE + a % PAGE_SIZE
  }

  lemma MappedInFrame(frame: Mapping, a: nat)
    requires Mapped(frame, a)
    ensures VirtToPhys(frame, a) == InFrame(frame, a) && frame(a / PAGE_SIZE) != 0
  {
    var pa := VirtToPhys(frame, a);
    assert pa == pa / PAGE_SIZE * PAGE_SIZE + pa % PAGE_SIZE;
  }

  /** Different destination addresses are in different pages' frames or at different offsets. */
  ghost predicate OneToOne(frame: Mapping, dst: nat, n: nat) {
    forall a: nat, b: nat | dst <= a < b < dst + n :: InFrame(frame, a) != InFrame(frame, b)
  }

  lemma {:induction false} OthersKept(m: seq<Byte>, frame: Mapping, src: nat, dst: nat, n: nat, x: nat)
    requires Backed(frame, |m|) && x < |m| && forall a: nat | dst <= a < dst + n :: VirtToPhys(frame, a) != x
    ensures Copied(m, frame, src, dst, n)[x] == m[x]
  {
    if n > 0 {
      OthersKept(m, frame, src, dst, n - 1, x);
    }
  }

  /** Bytes that are no destination stay as they were, so those of all other frames do. */
  lemma OthersStay(m: seq<Byte>, frame: Mapping, src: nat, dst: nat, n: nat, x: nat)
    requires Backed(frame, |m|) && x < |m| && AllMapped(frame, dst, n)
    requires forall a: nat | dst <= a < dst + n :: x / PAGE_SIZE != frame(a / PAGE_SIZE) || x % PAGE_SIZE != a % PAGE_SIZE
    ensures Copied(m, frame, src, dst, n)[x] == m[x]
  {
    hide Copied, VirtToPhys;
    forall a: nat | dst <= a < dst + n ensures VirtToPhys(frame, a) != x {
      assert Mapped(frame, a);
    }
    OthersKept(m, frame, src, dst, n, x);
  }

  ghost predicate AddressesDiffer(frame: Mapping, dst: nat, n: nat) {
    forall a: nat, b: nat | dst <= a < b < dst + n :: VirtToPhys(frame, a) != VirtToPhys(frame, b)
  }

  lemma FewerDiffer(frame: Mapping, dst: nat, n: nat, i: nat)
    requires AddressesDiffer(frame, dst, n) && i < n - 1
    ensures AddressesDiffer(frame, dst, n - 1) && VirtToPhys(frame, dst + i) != VirtToPhys(frame, dst + (n - 1))
  {
    hide VirtToPhys;
  }

  lemma {:induction false} CopiedByAddress(m: seq<Byte>, frame: Mapping, src: nat, dst: nat, n: nat, len: nat, i: nat)
    requires Backed(frame, |m|) && Apart(frame, src, dst, len) && i < n <= len
    requires AllMapped(frame, src, n) && AllMapped(frame, dst, n) && AddressesDiffer(frame, dst, n)
    ensures Copied(m, frame, src, dst, n)[VirtToPhys(frame, dst + i)] == m[VirtToPhys(frame, src + i)]
  {
    hide VirtToPhys, Apart, AddressesDiffer, Copied;
    CopiedOne(m, frame, src, dst, n - 1);
    if i == n - 1 {
      SourceStays(m, frame, src, dst, n - 1, len, src + i);
    } else {
      FewerDiffer(frame, dst, n, i);
      CopiedByAddress(m, frame, src, dst, n - 1, len, i);
    }
  }

  lemma AllDiffer(frame: Mapping, dst: nat, n: nat)
    requires AllMapped(frame, dst, n) && OneToOne(frame, dst, n)
    ensures AddressesDiffer(frame, dst, n)
  {
    hide VirtToPhys, InFrame;
    forall a: nat, b: nat | dst <= a < b < dst + n ensures VirtToPhys(frame, a) != VirtToPhys(frame, b) {
      MappedInFrame(frame, a);
      MappedInFrame(frame, b);
    }
  }

  /** Every destination byte, at its offset in the frame of its page, gets what was at the source byte's offset in the frame
      of its own page. */
  lemma CopiedExactly(m: seq<Byte>, frame: Mapping, src: nat, dst: nat, n: nat, len: nat, i: nat)
    requires Backed(frame, |m|) && Apart(frame, src, dst, len) && i < n <= len
    requires AllMapped(frame, src, n) && AllMapped(frame, dst, n) && OneToOne(frame, dst, n)
    ensures var d, s := dst + i, src + i;
            var to, from := frame(d / PAGE_SIZE) * PAGE_SIZE + d % PAGE_SIZE, frame(s / PAGE_SIZE) * PAGE_SIZE + s % PAGE_SIZE;
            to < |m| && from < |m| && Copied(m, frame, src, dst, n)[to] == m[from]
  {
    hide VirtToPhys, Copied, Mapped, Apart, OneToOne, AddressesDiffer;
    AllDiffer(frame, dst, n);
    MappedInFrame(frame, dst + i);
    MappedInFrame(frame, src + i);
    CopiedByAddress(m, frame, src, dst, n, len, i);
  }
}
