/**
 * Files as blocks: balloc, bfree, bmap, itrunc, readi and writei of kernel/fs.c over a disk of
 * raw blocks.  The bitmap, the indirect blocks and file data are all bytes of those blocks.
 *
 * `disk` is what bread returns; the log and the buffer cache are below it.
 */
module Fs {

  const BSIZE: nat := 1024
  const NDIRECT: nat := 12
  const NINDIRECT: nat := 256
  const MAXFILE: nat := 268
  const BPB: nat := 8192
  const IPB: nat := 16
  const MAXOPBLOCKS: nat := 10
  const UINT: nat := 0x1_0000_0000

  type Block = seq<nat>       // bytes

  datatype Super = Super(size: nat, inodestart: nat, bmapstart: nat, datastart: nat)

  datatype Inode = Inode(addrs: seq<nat>, size: nat)

  // ---------------------------------------------------------------- bytes, bits and words

  /** (x & (1 << k)) != 0 */
  predicate Bit(x: nat, k: nat) {
    if k == 0 then x % 2 == 1 else Bit(x / 2, k - 1)
  }

  /** x | (1 << k) */
  function SetBit(x: nat, k: nat): nat {
    if k == 0 then x / 2 * 2 + 1 else SetBit(x / 2, k - 1) * 2 + x % 2
  }

  /** x & ~(1 << k) */
  function ClearBit(x: nat, k: nat): nat {
    if k == 0 then x / 2 * 2 else ClearBit(x / 2, k - 1) * 2 + x % 2
  }

  lemma {:induction false} Halves(h: nat, r: nat)
    requires r < 2
    ensures (h * 2 + r) / 2 == h && (h * 2 + r) % 2 == r
  {
  }

  lemma {:induction false} BitSet(x: nat, k: nat, l: nat)
    ensures Bit(SetBit(x, k), l) <==> l == k || Bit(x, l)
  {
    if k == 0 {
      Halves(x / 2, 1);
    } else {
      Halves(SetBit(x / 2, k - 1), x % 2);
      if l > 0 { BitSet(x / 2, k - 1, l - 1); }
    }
  }

  lemma {:induction false} BitCleared(x: nat, k: nat, l: nat)
    ensures Bit(ClearBit(x, k), l) <==> l != k && Bit(x, l)
  {
    if k == 0 {
      Halves(x / 2, 0);
    } else {
      Halves(ClearBit(x / 2, k - 1), x % 2);
      if l > 0 { BitCleared(x / 2, k - 1, l - 1); }
    }
  }

  /** 1 << k */
  function Weight(k: nat): nat
    requires k < 8
  {
    [1, 2, 4, 8, 16, 32, 64, 128][k]
  }

  /** Bit k of a byte is the one that counts for 1 << k. */
  lemma {:induction false} BitWeight(x: nat, k: nat)
    requires k < 8
    ensures Bit(x, k) <==> x / Weight(k) % 2 == 1
    ensures SetBit(x, k) == if Bit(x, k) then x else x + Weight(k)
    ensures ClearBit(x, k) == if Bit(x, k) then x - Weight(k) else x
    decreases k
  {
    if k > 0 {
      BitWeight(x / 2, k - 1);
      hide Bit, SetBit, ClearBit;
      assert x / 2 / Weight(k - 1) == x / Weight(k);
    }
  }

  /** The j-th little-endian uint of a block. */
  function Word(b: Block, j: nat): nat
    requires |b| == BSIZE && j < NINDIRECT
  {
    b[4 * j] + 256 * b[4 * j + 1] + 65536 * b[4 * j + 2] + 16777216 * b[4 * j + 3]
  }

  function SetWord(b: Block, j: nat, v: nat): (r: Block)
    requires |b| == BSIZE && j < NINDIRECT
    ensures |r| == BSIZE
  {
    b[4 * j := v % 256][4 * j + 1 := v / 256 % 256][4 * j + 2 := v / 65536 % 256][4 * j + 3 := v / 16777216 % 256]
  }

  lemma {:induction false} Digits(v: nat)
    requires v < UINT
    ensures v % 256 + 256 * (v / 256 % 256) + 65536 * (v / 65536 % 256) + 16777216 * (v / 16777216 % 256) == v
  {
    assert v / 16777216 < 256;
    assert v / 65536 == 256 * (v / 16777216) + v / 65536 % 256;
    assert v / 256 == 256 * (v / 65536) + v / 256 % 256;
  }

  lemma {:induction false} WordSet(b: Block, j: nat, v: nat, l: nat)
    requires |b| == BSIZE && j < NINDIRECT && l < NINDIRECT && v < UINT
    ensures Word(SetWord(b, j, v), l) == if l == j then v else Word(b, l)
  {
    Digits(v);
    var r := SetWord(b, j, v);
    if l != j {
      assert r[4 * l] == b[4 * l] && r[4 * l + 1] == b[4 * l + 1] && r[4 * l + 2] == b[4 * l + 2]
             && r[4 * l + 3] == b[4 * l + 3];
    }
  }

  /** The bytes of a word, the lowest first. */
  lemma {:induction false} WordBytes(b: Block, j: nat, i: nat)
    requires |b| == BSIZE && j < NINDIRECT && i < 4 && forall k :: 0 <= k < |b| ==> b[k] < 256
    ensures b[4 * j + i] == Word(b, j) / [1, 256, 65536, 16777216][i] % 256
  {
    FourBytes(b[4 * j], b[4 * j + 1], b[4 * j + 2], b[4 * j + 3]);
  }

  lemma {:induction false} FourBytes(b0: nat, b1: nat, b2: nat, b3: nat)
    requires b0 < 256 && b1 < 256 && b2 < 256 && b3 < 256
    ensures var w := b0 + 256 * b1 + 65536 * b2 + 16777216 * b3;
            w / 1 % 256 == b0 && w / 256 % 256 == b1 && w / 65536 % 256 == b2 && w / 16777216 % 256 == b3
  {
    var w := b0 + 256 * b1 + 65536 * b2 + 16777216 * b3;
    assert w / 256 == b1 + 256 * (b2 + 256 * b3);
    assert w / 65536 == b2 + 256 * b3;
    assert w / 16777216 == b3;
  }

  // ---------------------------------------------------------------- the free map

  /** mkfs lays out size / BPB + 1 bitmap blocks and then the data blocks. */
  ghost predicate LayoutOk(sb: Super) {
    0 < sb.bmapstart && sb.bmapstart + sb.size / BPB < sb.datastart <= sb.size < UINT
  }

  /** BBLOCK(b, sb) */
  function BBlock(sb: Super, b: nat): nat {
    b / BPB + sb.bmapstart
  }

  function ByteOf(b: nat): (i: nat)
    ensures i < BSIZE
  {
    b % BPB / 8
  }

  function BitIn(b: nat): (k: nat)
    ensures k < 8
  {
    b % BPB % 8
  }

  lemma {:induction false} BitPlace(sb: Super, b: nat, c: nat)
    ensures BBlock(sb, b) == BBlock(sb, c) && ByteOf(b) == ByteOf(c) && BitIn(b) == BitIn(c) <==> b == c
  {
    assert b == b / BPB * BPB + b % BPB && c == c / BPB * BPB + c % BPB;
    assert b % BPB == 8 * ByteOf(b) + BitIn(b) && c % BPB == 8 * ByteOf(c) + BitIn(c);
  }

  lemma {:induction false} BBlockLow(sb: Super, b: nat)
    requires LayoutOk(sb) && b < sb.size
    ensures BBlock(sb, b) < sb.datastart <= sb.size
  {
    assert b / BPB <= sb.size / BPB;
  }

  ghost predicate DiskOk(sb: Super, disk: seq<Block>) {
    |disk| == sb.size && forall b :: 0 <= b < |disk| ==> |disk[b]| == BSIZE
  }

  predicate BitOf(sb: Super, disk: seq<Block>, b: nat)
    requires BBlock(sb, b) < |disk| && |disk[BBlock(sb, b)]| == BSIZE
  {
    Bit(disk[BBlock(sb, b)][ByteOf(b)], BitIn(b))
  }

  ghost predicate Used(sb: Super, disk: seq<Block>, b: nat) {
    BBlock(sb, b) < |disk| && |disk[BBlock(sb, b)]| == BSIZE && BitOf(sb, disk, b)
  }

  function BitPut(blk: Block, i: nat, k: nat, v: bool): (r: Block)
    requires i < |blk|
    ensures |r| == |blk|
  {
    blk[i := if v then SetBit(blk[i], k) else ClearBit(blk[i], k)]
  }

  ghost function PutBit(sb: Super, disk: seq<Block>, b: nat, v: bool): (r: seq<Block>)
    requires BBlock(sb, b) < |disk| && |disk[BBlock(sb, b)]| == BSIZE
    ensures |r| == |disk| && forall c :: 0 <= c < |disk| ==>
              |r[c]| == |disk[c]| && (c != BBlock(sb, b) ==> r[c] == disk[c])
  {
    var blk := disk[BBlock(sb, b)];
    disk[BBlock(sb, b) := BitPut(blk, ByteOf(b), BitIn(b), v)]
  }

  lemma {:induction false} PutBitAt(sb: Super, disk: seq<Block>, b: nat, v: bool, c: nat)
    requires LayoutOk(sb) && DiskOk(sb, disk) && b < sb.size && c < sb.size && BBlock(sb, b) < |disk|
    ensures Used(sb, PutBit(sb, disk, b, v), c) <==> if c == b then v else Used(sb, disk, c)
  {
    BBlockLow(sb, b);
    BBlockLow(sb, c);
    BitPlace(sb, b, c);
    hide BBlock, ByteOf, BitIn, Bit, SetBit, ClearBit;
    BitSet(disk[BBlock(sb, b)][ByteOf(b)], BitIn(b), BitIn(c));
    BitCleared(disk[BBlock(sb, b)][ByteOf(b)], BitIn(b), BitIn(c));
  }

  /** The bitmap blocks, one after the other, are one string of bits, and block b's is number b. */
  lemma {:induction false} BitmapPlace(sb: Super, b: nat)
    ensures BBlock(sb, b) >= sb.bmapstart && ByteOf(b) < BSIZE && BitIn(b) < 8
    ensures ((BBlock(sb, b) - sb.bmapstart) * BSIZE + ByteOf(b)) * 8 + BitIn(b) == b
  {
  }

  /** Sixteen inodes of 64 bytes to a block, in order. */
  lemma {:induction false} InodePlace(sb: Super, ino: nat)
    ensures IBlock(sb, ino) >= sb.inodestart
    ensures 0 <= ino * 64 - (IBlock(sb, ino) - sb.inodestart) * BSIZE < BSIZE
  {
  }

  // ---------------------------------------------------------------- who owns which block

  /** Where a block number is kept: for block bn of a file, or for its indirect block. */
  datatype Slot = D(ino: nat, bn: nat) | I(ino: nat)

  ghost predicate SlotIn(n: nat, s: Slot) {
    s.ino < n && (s.D? ==> s.bn < MAXFILE)
  }

  ghost predicate InodesOk(inodes: seq<Inode>) {
    forall i :: 0 <= i < |inodes| ==> |inodes[i].addrs| == NDIRECT + 1
  }

  /** The uint at position j of block a, 0 if there is no block. */
  ghost function Entry(disk: seq<Block>, a: nat, j: nat): nat {
    if 0 < a < |disk| && |disk[a]| == BSIZE && j < NINDIRECT then Word(disk[a], j) else 0
  }

  /** The block number in a slot; 0 if none. */
  ghost function Ptr(disk: seq<Block>, inodes: seq<Inode>, s: Slot): nat
    requires SlotIn(|inodes|, s) && InodesOk(inodes)
  {
    match s
    case I(ino) => inodes[ino].addrs[NDIRECT]
    case D(ino, bn) =>
      if bn < NDIRECT then inodes[ino].addrs[bn] else Entry(disk, inodes[ino].addrs[NDIRECT], bn - NDIRECT)
  }

  ghost predicate SlotOk(disk: seq<Block>, inodes: seq<Inode>, own: map<nat, Slot>, s: Slot)
    requires SlotIn(|inodes|, s) && InodesOk(inodes)
  {
    var b := Ptr(disk, inodes, s);
    b != 0 ==> b in own && own[b] == s
  }

  ghost predicate OwnerOk(sb: Super, disk: seq<Block>, inodes: seq<Inode>, own: map<nat, Slot>, b: nat)
    requires b in own && InodesOk(inodes)
  {
    SlotIn(|inodes|, own[b]) && Ptr(disk, inodes, own[b]) == b && sb.datastart <= b < sb.size
  }

  /** Every block in use is in exactly one slot. */
  ghost predicate Own(sb: Super, disk: seq<Block>, inodes: seq<Inode>, own: map<nat, Slot>) {
    && InodesOk(inodes)
    && (forall s :: SlotIn(|inodes|, s) ==> SlotOk(disk, inodes, own, s))
    && (forall b :: b in own ==> OwnerOk(sb, disk, inodes, own, b))
  }

  /** The bitmap marks the metadata blocks and the blocks in use, and no others. */
  ghost predicate Mapped(sb: Super, disk: seq<Block>, own: map<nat, Slot>) {
    forall b: nat :: b < sb.size ==> (Used(sb, disk, b) <==> b < sb.datastart || b in own)
  }

  /** No holes below the size. */
  ghost predicate Filled(disk: seq<Block>, inodes: seq<Inode>) {
    && InodesOk(inodes)
    && (forall i :: 0 <= i < |inodes| ==> inodes[i].size <= MAXFILE * BSIZE)
    && (forall i, bn: nat :: 0 <= i < |inodes| && bn < MAXFILE && bn * BSIZE < inodes[i].size ==>
          Ptr(disk, inodes, D(i, bn)) != 0)
  }

  ghost predicate Good(sb: Super, disk: seq<Block>, inodes: seq<Inode>, own: map<nat, Slot>) {
    LayoutOk(sb) && DiskOk(sb, disk) && Own(sb, disk, inodes, own) && Mapped(sb, disk, own) && Filled(disk, inodes)
  }

  lemma {:induction false} OwnedSlot(sb: Super, disk: seq<Block>, inodes: seq<Inode>, own: map<nat, Slot>, s: Slot)
    requires Own(sb, disk, inodes, own) && SlotIn(|inodes|, s)
    ensures var b := Ptr(disk, inodes, s); b != 0 ==> b in own && own[b] == s && sb.datastart <= b < sb.size
  {
    assert SlotOk(disk, inodes, own, s);
    var b := Ptr(disk, inodes, s);
    assert b != 0 ==> OwnerOk(sb, disk, inodes, own, b);
  }

  /** Writing a block that is not an indirect block changes no slot. */
  lemma {:induction false} PtrElsewhere(sb: Super, disk: seq<Block>, inodes: seq<Inode>, own: map<nat, Slot>, b: nat,
      blk: Block, s: Slot)
    requires Own(sb, disk, inodes, own) && b < |disk| && |blk| == |disk[b]| && (b in own ==> own[b].D?)
             && SlotIn(|inodes|, s)
    ensures Ptr(disk[b := blk], inodes, s) == Ptr(disk, inodes, s)
  {
    hide Own, Word;
    OwnedSlot(sb, disk, inodes, own, I(s.ino));
  }

  /** Filling an empty slot with a block nobody has. */
  lemma {:induction false} OwnAdded(sb: Super, disk: seq<Block>, inodes: seq<Inode>, own: map<nat, Slot>,
                                    disk': seq<Block>, inodes': seq<Inode>, t: Slot, b: nat)
    requires Own(sb, disk, inodes, own) && InodesOk(inodes') && |inodes'| == |inodes| && SlotIn(|inodes|, t)
    requires b !in own && 0 < sb.datastart <= b < sb.size && Ptr(disk, inodes, t) == 0
    requires forall s :: SlotIn(|inodes|, s) ==> Ptr(disk', inodes', s) == if s == t then b else Ptr(disk, inodes, s)
    ensures Own(sb, disk', inodes', own[b := t])
  {
    hide Ptr;
    var own' := own[b := t];
    forall s | SlotIn(|inodes|, s)
      ensures SlotOk(disk', inodes', own', s)
    {
      assert SlotOk(disk, inodes, own, s);
    }
    forall c | c in own'
      ensures OwnerOk(sb, disk', inodes', own', c)
    {
      if c != b { assert OwnerOk(sb, disk, inodes, own, c); }
    }
  }

  /** Same slots, same owners. */
  lemma {:induction false} OwnSame(sb: Super, disk: seq<Block>, inodes: seq<Inode>, own: map<nat, Slot>,
      disk': seq<Block>, inodes': seq<Inode>)
    requires Own(sb, disk, inodes, own) && InodesOk(inodes') && |inodes'| == |inodes|
    requires forall s :: SlotIn(|inodes|, s) ==> Ptr(disk', inodes', s) == Ptr(disk, inodes, s)
    ensures Own(sb, disk', inodes', own)
  {
    hide Ptr;
    forall s | SlotIn(|inodes|, s)
      ensures SlotOk(disk', inodes', own, s)
    {
      assert SlotOk(disk, inodes, own, s);
    }
    forall c | c in own
      ensures OwnerOk(sb, disk', inodes', own, c)
    {
      assert OwnerOk(sb, disk, inodes, own, c);
    }
  }

  // ---------------------------------------------------------------- contents

  function BlockNo(k: nat): nat {
    k / BSIZE
  }

  function InBlock(k: nat): (o: nat)
    ensures o < BSIZE
  {
    k % BSIZE
  }

  lemma {:induction false} Place(k: nat)
    ensures BlockNo(k) * BSIZE + InBlock(k) == k
    ensures k < MAXFILE * BSIZE <==> BlockNo(k) < MAXFILE
  {
  }

  ghost function PeekByte(disk: seq<Block>, p: nat, o: nat): nat {
    if p < |disk| && o < |disk[p]| then disk[p][o] else 0
  }

  /** Byte k of a file. */
  ghost function ByteAt(disk: seq<Block>, inodes: seq<Inode>, i: nat, k: nat): nat
    requires InodesOk(inodes) && i < |inodes|
  {
    if BlockNo(k) < MAXFILE then PeekByte(disk, Ptr(disk, inodes, D(i, BlockNo(k))), InBlock(k)) else 0
  }

  /** The file as a sequence of bytes. */
  ghost function File(disk: seq<Block>, inodes: seq<Inode>, i: nat): (f: seq<nat>)
    requires InodesOk(inodes) && i < |inodes|
    ensures |f| == inodes[i].size
  {
    seq(inodes[i].size, k requires 0 <= k => ByteAt(disk, inodes, i, k))
  }

  /** The blocks below the size are where they were, with the same contents. */
  ghost predicate SameBlocks(disk: seq<Block>, inodes: seq<Inode>, disk': seq<Block>, inodes': seq<Inode>, i: nat)
    requires InodesOk(inodes) && InodesOk(inodes') && i < |inodes| && i < |inodes'|
  {
    && inodes'[i].size == inodes[i].size
    && forall bn: nat :: bn < MAXFILE && bn * BSIZE < inodes[i].size ==>
         var p := Ptr(disk, inodes, D(i, bn));
         Ptr(disk', inodes', D(i, bn)) == p && p < |disk| && p < |disk'| && disk'[p] == disk[p]
  }

  lemma {:induction false} FileSame(disk: seq<Block>, inodes: seq<Inode>, disk': seq<Block>, inodes': seq<Inode>,
      i: nat)
    requires InodesOk(inodes) && InodesOk(inodes') && i < |inodes| && i < |inodes'|
    requires inodes[i].size <= MAXFILE * BSIZE && SameBlocks(disk, inodes, disk', inodes', i)
    ensures File(disk', inodes', i) == File(disk, inodes, i)
  {
    hide Ptr, BlockNo, InBlock;
    forall k: nat | k < inodes[i].size
      ensures ByteAt(disk', inodes', i, k) == ByteAt(disk, inodes, i, k)
    {
      Place(k);
      assert BlockNo(k) * BSIZE < inodes[i].size;
    }
  }

  ghost predicate SameFiles(disk: seq<Block>, inodes: seq<Inode>, disk': seq<Block>, inodes': seq<Inode>) {
    && InodesOk(inodes) && InodesOk(inodes') && |inodes'| == |inodes|
    && forall i :: 0 <= i < |inodes| ==> File(disk', inodes', i) == File(disk, inodes, i)
  }

  ghost predicate SlotKept(disk: seq<Block>, inodes: seq<Inode>, disk': seq<Block>, inodes': seq<Inode>, s: Slot)
    requires InodesOk(inodes) && InodesOk(inodes') && SlotIn(|inodes|, s) && |inodes'| == |inodes|
  {
    var p := Ptr(disk, inodes, s);
    Ptr(disk', inodes', s) == p && (s.D? ==> p < |disk| && p < |disk'| && disk'[p] == disk[p])
  }

  /** Blocks may have been added; those there were keep their place and their contents. */
  ghost predicate Extends(disk: seq<Block>, inodes: seq<Inode>, disk': seq<Block>, inodes': seq<Inode>) {
    && InodesOk(inodes) && InodesOk(inodes') && |inodes'| == |inodes|
    && (forall i :: 0 <= i < |inodes| ==> inodes'[i].size == inodes[i].size)
    && (forall s :: SlotIn(|inodes|, s) && Ptr(disk, inodes, s) != 0 ==> SlotKept(disk, inodes, disk', inodes', s))
  }

  lemma {:induction false} ExtendsTwice(disk: seq<Block>, inodes: seq<Inode>, disk1: seq<Block>, inodes1: seq<Inode>,
                                        disk2: seq<Block>, inodes2: seq<Inode>)
    requires Extends(disk, inodes, disk1, inodes1) && Extends(disk1, inodes1, disk2, inodes2)
    ensures Extends(disk, inodes, disk2, inodes2)
  {
    hide Ptr;
    forall s | SlotIn(|inodes|, s)
      ensures Ptr(disk, inodes, s) != 0 ==> SlotKept(disk, inodes, disk2, inodes2, s)
    {
      assert Ptr(disk, inodes, s) != 0 ==>
               SlotKept(disk, inodes, disk1, inodes1, s) && SlotKept(disk1, inodes1, disk2, inodes2, s);
    }
  }

  lemma {:induction false} ExtendsSelf(sb: Super, disk: seq<Block>, inodes: seq<Inode>, own: map<nat, Slot>)
    requires Own(sb, disk, inodes, own) && |disk| == sb.size
    ensures Extends(disk, inodes, disk, inodes)
  {
    forall s | SlotIn(|inodes|, s)
      ensures Ptr(disk, inodes, s) != 0 ==> SlotKept(disk, inodes, disk, inodes, s)
    {
      OwnedSlot(sb, disk, inodes, own, s);
    }
  }

  lemma {:induction false} ExtendsFiles(sb: Super, disk: seq<Block>, inodes: seq<Inode>, own: map<nat, Slot>,
      disk': seq<Block>, inodes': seq<Inode>)
    requires Filled(disk, inodes) && Extends(disk, inodes, disk', inodes')
    ensures Filled(disk', inodes') && SameFiles(disk, inodes, disk', inodes')
  {
    hide Ptr, File;
    forall i | 0 <= i < |inodes|
      ensures SameBlocks(disk, inodes, disk', inodes', i) && File(disk', inodes', i) == File(disk, inodes, i)
    {
      forall bn: nat | bn < MAXFILE && bn * BSIZE < inodes[i].size
        ensures var p := Ptr(disk, inodes, D(i, bn));
                p != 0 && Ptr(disk', inodes', D(i, bn)) == p && p < |disk| && p < |disk'| && disk'[p] == disk[p]
      {
        assert SlotKept(disk, inodes, disk', inodes', D(i, bn));
      }
      FileSame(disk, inodes, disk', inodes', i);
    }
    assert forall i, bn: nat :: 0 <= i < |inodes| && bn < MAXFILE && bn * BSIZE < inodes[i].size ==>
        SlotKept(disk, inodes, disk', inodes', D(i, bn));
  }

  // ---------------------------------------------------------------- balloc

  ghost function Zeros(): (b: Block)
    ensures |b| == BSIZE && forall i :: 0 <= i < BSIZE ==> b[i] == 0
  {
    seq(BSIZE, _ => 0)
  }

  /** The disk after balloc has taken block b. */
  ghost function Taken(sb: Super, disk: seq<Block>, b: nat): (r: seq<Block>)
    requires BBlock(sb, b) < |disk| && |disk[BBlock(sb, b)]| == BSIZE && b < |disk|
    ensures |r| == |disk|
  {
    PutBit(sb, disk, b, true)[b := Zeros()]
  }

  /** What balloc changes: one bit, and a block nobody had. */
  lemma {:induction false} TakenFacts(sb: Super, disk: seq<Block>, inodes: seq<Inode>, own: map<nat, Slot>, b: nat)
    requires Good(sb, disk, inodes, own) && b < sb.size && !Used(sb, disk, b)
    ensures BBlock(sb, b) < |disk| && b !in own && sb.datastart <= b
    ensures var d := Taken(sb, disk, b);
            && DiskOk(sb, d) && d[b] == Zeros()
            && (forall c :: c in own && c < |disk| ==> d[c] == disk[c])
  {
    BBlockLow(sb, b);
    hide BBlock, Used, Zeros, SlotOk;
    assert forall c :: c in own ==> OwnerOk(sb, disk, inodes, own, c);
  }

  lemma {:induction false} TakenBits(sb: Super, disk: seq<Block>, inodes: seq<Inode>, own: map<nat, Slot>, b: nat,
      t: Slot)
    requires Good(sb, disk, inodes, own) && b < sb.size && !Used(sb, disk, b)
    ensures BBlock(sb, b) < |disk| && Mapped(sb, Taken(sb, disk, b), own[b := t])
  {
    hide Own, Filled;
    BBlockLow(sb, b);
    var d := Taken(sb, disk, b);
    forall c: nat | c < sb.size
      ensures Used(sb, d, c) <==> c < sb.datastart || c in own[b := t]
    {
      PutBitAt(sb, disk, b, true, c);
      BBlockLow(sb, c);
      assert Used(sb, disk, c) <==> c < sb.datastart || c in own;
      hide Mapped, BBlock, PutBit;
      assert d[BBlock(sb, c)] == PutBit(sb, disk, b, true)[BBlock(sb, c)];
    }
  }

  lemma {:induction false} TakenPtr(sb: Super, disk: seq<Block>, inodes: seq<Inode>, own: map<nat, Slot>, b: nat,
      s: Slot)
    requires Good(sb, disk, inodes, own) && b < sb.size && !Used(sb, disk, b) && SlotIn(|inodes|, s)
    ensures BBlock(sb, b) < |disk| && Ptr(Taken(sb, disk, b), inodes, s) == Ptr(disk, inodes, s)
  {
    TakenFacts(sb, disk, inodes, own, b);
    hide Mapped, Filled, Word, Taken, DiskOk;
    OwnedSlot(sb, disk, inodes, own, I(s.ino));
  }

  // ---------------------------------------------------------------- storing a new block number

  function Readdressed(ip: Inode, k: nat, b: nat): (r: Inode)
    requires k < |ip.addrs|
    ensures |r.addrs| == |ip.addrs| && r.size == ip.size
  {
    Inode(ip.addrs[k := b], ip.size)
  }

  /** Inodes and disk once b is stored in slot t. */
  ghost function StoredInodes(inodes: seq<Inode>, t: Slot, b: nat): (r: seq<Inode>)
    requires SlotIn(|inodes|, t) && InodesOk(inodes)
    ensures |r| == |inodes| && InodesOk(r) && forall i :: 0 <= i < |inodes| ==> r[i].size == inodes[i].size
  {
    if t.D? && t.bn >= NDIRECT then inodes
    else inodes[t.ino := Readdressed(inodes[t.ino], if t.D? then t.bn else NDIRECT, b)]
  }

  ghost predicate HasTable(disk: seq<Block>, inodes: seq<Inode>, t: Slot)
    requires SlotIn(|inodes|, t) && InodesOk(inodes)
  {
    t.D? && t.bn >= NDIRECT ==>
          0 < inodes[t.ino].addrs[NDIRECT] < |disk| && |disk[inodes[t.ino].addrs[NDIRECT]]| == BSIZE
  }

  ghost function StoredDisk(disk: seq<Block>, inodes: seq<Inode>, t: Slot, b: nat): (r: seq<Block>)
    requires SlotIn(|inodes|, t) && InodesOk(inodes) && HasTable(disk, inodes, t)
    ensures |r| == |disk|
  {
    if t.D? && t.bn >= NDIRECT then
      var a := inodes[t.ino].addrs[NDIRECT];
      disk[a := SetWord(disk[a], t.bn - NDIRECT, b)]
    else disk
  }

  lemma {:induction false} PtrStored(sb: Super, disk: seq<Block>, inodes: seq<Inode>, own: map<nat, Slot>, t: Slot,
      b: nat, s: Slot)
    requires Own(sb, disk, inodes, own) && SlotIn(|inodes|, t) && HasTable(disk, inodes, t) && SlotIn(|inodes|, s)
    requires b < |disk| && b < UINT && (t.I? ==> Ptr(disk, inodes, t) == 0 && disk[b] == Zeros())
    ensures Ptr(StoredDisk(disk, inodes, t, b), StoredInodes(inodes, t, b), s) == if s == t then b
            else Ptr(disk, inodes, s)
  {
    hide Own, Word, SetWord, Zeros;
    OwnInodes(sb, disk, inodes, own);
    OwnedSlot(sb, disk, inodes, own, I(s.ino));
    OwnedSlot(sb, disk, inodes, own, I(t.ino));
    if t.D? && t.bn >= NDIRECT && s.D? && s.bn >= NDIRECT {
      WordSet(disk[inodes[t.ino].addrs[NDIRECT]], t.bn - NDIRECT, b, s.bn - NDIRECT);
    }
    if t.I? && s.D? && s.bn >= NDIRECT { ZeroWord(s.bn - NDIRECT); }
  }

  lemma {:induction false} ZeroWord(j: nat)
    requires j < NINDIRECT
    ensures Word(Zeros(), j) == 0
  {
  }

  /** Bits live below the data blocks. */
  lemma {:induction false} UsedSame(sb: Super, disk: seq<Block>, disk': seq<Block>, own: map<nat, Slot>)
    requires LayoutOk(sb) && Mapped(sb, disk, own) && |disk'| == |disk|
    requires forall c :: 0 <= c < sb.datastart && c < |disk| ==> disk'[c] == disk[c]
    ensures Mapped(sb, disk', own)
  {
    forall c: nat | c < sb.size
      ensures Used(sb, disk', c) <==> c < sb.datastart || c in own
    {
      BBlockLow(sb, c);
      assert Used(sb, disk, c) <==> c < sb.datastart || c in own;
      hide BBlock;
    }
  }

  /** bmap's effect when it has to allocate: slot t now holds the fresh block b, and no file changes. */
  lemma {:induction false} Stored(sb: Super, disk: seq<Block>, inodes: seq<Inode>, own: map<nat, Slot>, t: Slot, b: nat)
    requires Good(sb, disk, inodes, own) && b < sb.size && !Used(sb, disk, b)
    requires SlotIn(|inodes|, t) && HasTable(disk, inodes, t) && Ptr(disk, inodes, t) == 0
    ensures BBlock(sb, b) < |disk| && b >= sb.datastart && HasTable(Taken(sb, disk, b), inodes, t)
    ensures var disk', inodes' := StoredDisk(Taken(sb, disk, b), inodes, t, b), StoredInodes(inodes, t, b);
            && Good(sb, disk', inodes', own[b := t]) && Extends(disk, inodes, disk', inodes')
            && (forall s :: SlotIn(|inodes|, s) ==>
                  Ptr(disk', inodes', s) == if s == t then b else Ptr(disk, inodes, s))
  {
    hide LayoutOk, Used, Ptr, Taken, StoredDisk, StoredInodes, Own, Mapped, Filled, File, BBlock;
    OwnInodes(sb, disk, inodes, own);
    TakenFacts(sb, disk, inodes, own, b);
    TakenBits(sb, disk, inodes, own, b, t);
    var d := Taken(sb, disk, b);
    TableKept(sb, disk, inodes, own, d, t);
    var disk', inodes' := StoredDisk(d, inodes, t, b), StoredInodes(inodes, t, b);
    LayoutFacts(sb);
    forall s | SlotIn(|inodes|, s)
      ensures Ptr(d, inodes, s) == Ptr(disk, inodes, s)
    {
      TakenPtr(sb, disk, inodes, own, b, s);
    }
    OwnSame(sb, disk, inodes, own, d, inodes);
    forall s | SlotIn(|inodes|, s)
      ensures Ptr(disk', inodes', s) == if s == t then b else Ptr(disk, inodes, s)
    {
      PtrStored(sb, d, inodes, own, t, b, s);
    }
    OwnAdded(sb, disk, inodes, own, disk', inodes', t, b);
    StoredBlocks(sb, d, inodes, own, t, b);
    UsedSame(sb, d, disk', own[b := t]);
    StoredExtends(sb, disk, inodes, own, disk', inodes', t, b);
    ExtendsFiles(sb, disk, inodes, own, disk', inodes');
  }

  lemma {:induction false} LayoutFacts(sb: Super)
    requires LayoutOk(sb)
    ensures 0 < sb.datastart <= sb.size < UINT
  {
  }

  lemma {:induction false} OwnInodes(sb: Super, disk: seq<Block>, inodes: seq<Inode>, own: map<nat, Slot>)
    requires Own(sb, disk, inodes, own)
    ensures InodesOk(inodes)
  {
  }

  lemma {:induction false} TableKept(sb: Super, disk: seq<Block>, inodes: seq<Inode>, own: map<nat, Slot>,
      d: seq<Block>, t: Slot)
    requires Own(sb, disk, inodes, own) && SlotIn(|inodes|, t) && HasTable(disk, inodes, t) && DiskOk(sb, d)
    ensures HasTable(d, inodes, t)
  {
    OwnedSlot(sb, disk, inodes, own, I(t.ino));
  }

  lemma {:induction false} StoredBlocks(sb: Super, d: seq<Block>, inodes: seq<Inode>, own: map<nat, Slot>, t: Slot,
      b: nat)
    requires Own(sb, d, inodes, own) && DiskOk(sb, d) && SlotIn(|inodes|, t) && HasTable(d, inodes, t)
    ensures var d' := StoredDisk(d, inodes, t, b);
            && DiskOk(sb, d') && (forall c :: 0 <= c < sb.datastart && c < |d| ==> d'[c] == d[c])
            && (forall c :: c in own && c < |d| && own[c].D? ==> d'[c] == d[c])
  {
    hide SetWord;
    OwnedSlot(sb, d, inodes, own, I(t.ino));
  }

  lemma {:induction false} StoredExtends(sb: Super, disk: seq<Block>, inodes: seq<Inode>, own: map<nat, Slot>,
                                         disk': seq<Block>, inodes': seq<Inode>, t: Slot, b: nat)
    requires Own(sb, disk, inodes, own) && |disk| == sb.size && InodesOk(inodes') && |inodes'| == |inodes|
             && |disk'| == |disk|
    requires SlotIn(|inodes|, t) && Ptr(disk, inodes, t) == 0
    requires forall i :: 0 <= i < |inodes| ==> inodes'[i].size == inodes[i].size
    requires forall s :: SlotIn(|inodes|, s) ==> Ptr(disk', inodes', s) == if s == t then b else Ptr(disk, inodes, s)
    requires forall c :: c in own && c < |disk| && own[c].D? ==> disk'[c] == disk[c]
    ensures Extends(disk, inodes, disk', inodes')
  {
    hide Ptr, Own;
    OwnInodes(sb, disk, inodes, own);
    forall s | SlotIn(|inodes|, s)
      ensures Ptr(disk, inodes, s) != 0 ==> SlotKept(disk, inodes, disk', inodes', s)
    {
      OwnedSlot(sb, disk, inodes, own, s);
    }
  }

  // ---------------------------------------------------------------- where it starts

  /** A disk of zeros with the bits of blocks below k set. */
  ghost function Marked(sb: Super, k: nat): (r: seq<Block>)
    requires LayoutOk(sb) && k <= sb.size
    ensures DiskOk(sb, r)
    decreases k
  {
    if k == 0 then seq(sb.size, _ => Zeros())
    else
      BBlockLow(sb, k - 1);
      PutBit(sb, Marked(sb, k - 1), k - 1, true)
  }

  lemma {:induction false} MarkedBits(sb: Super, k: nat, c: nat)
    requires LayoutOk(sb) && k <= sb.size && c < sb.size
    ensures Used(sb, Marked(sb, k), c) <==> c < k
    decreases k
  {
    hide Used, LayoutOk, Marked;
    if k == 0 {
      NoneMarked(sb, c);
    } else {
      MarkedBits(sb, k - 1, c);
      MarkedStep(sb, k, c);
    }
  }

  lemma {:induction false} MarkedStep(sb: Super, k: nat, c: nat)
    requires LayoutOk(sb) && 0 < k <= sb.size && c < sb.size
    ensures Used(sb, Marked(sb, k), c) <==> c == k - 1 || Used(sb, Marked(sb, k - 1), c)
  {
    hide Used, LayoutOk, BBlock, PutBit;
    BBlockLow(sb, k - 1);
    PutBitAt(sb, Marked(sb, k - 1), k - 1, true, c);
  }

  lemma {:induction false} NoneMarked(sb: Super, c: nat)
    requires LayoutOk(sb) && c < sb.size
    ensures !Used(sb, Marked(sb, 0), c)
  {
    BBlockLow(sb, c);
    hide BBlock, LayoutOk;
    assert Marked(sb, 0)[BBlock(sb, c)] == Zeros();
    ZeroBit(BitIn(c));
  }

  lemma {:induction false} ZeroBit(k: nat)
    ensures !Bit(0, k)
  {
    if k > 0 { ZeroBit(k - 1); }
  }

  /** An empty disk, as mkfs lays it out, is well-formed. */
  lemma {:induction false} MkfsGood(sb: Super, n: nat)
    requires LayoutOk(sb)
    ensures Good(sb, Marked(sb, sb.datastart), seq(n, _ => Inode(seq(NDIRECT + 1, _ => 0), 0)), map[])
  {
    var disk, inodes := Marked(sb, sb.datastart), seq(n, _ => Inode(seq(NDIRECT + 1, _ => 0), 0));
    var none: map<nat, Slot> := map[];
    forall c: nat | c < sb.size
      ensures Used(sb, disk, c) <==> c < sb.datastart || c in none
    {
      MarkedBits(sb, sb.datastart, c);
    }
    hide Used, Marked, LayoutOk;
    forall s | SlotIn(|inodes|, s)
      ensures SlotOk(disk, inodes, none, s)
    {
    }
  }

  // ---------------------------------------------------------------- the code

  lemma {:induction false} Offset(sb: Super, b: nat, bi: nat)
    requires b % BPB == 0 && bi < BPB
    ensures BBlock(sb, b + bi) == BBlock(sb, b) && ByteOf(b + bi) == bi / 8 && BitIn(b + bi) == bi % 8
  {
    assert (b + bi) / BPB == b / BPB && (b + bi) % BPB == bi;
  }

  ghost predicate FullDisk(sb: Super, disk: seq<Block>) {
    forall c: nat :: c < sb.size ==> Used(sb, disk, c)
  }

  class FileSystem {
    const sb: Super
    var disk: seq<Block>
    var inodes: seq<Inode>           // ip->addrs and ip->size
    ghost var own: map<nat, Slot>
    ghost var logged: set<nat>       // blocks given to log_write

    ghost predicate Valid()
      reads this
    {
      Good(sb, disk, inodes, own)
    }

    /** A well-formed disk, as mkfs leaves it or a previous run. */
    constructor (sb: Super, disk: seq<Block>, inodes: seq<Inode>, ghost own: map<nat, Slot>)
      requires Good(sb, disk, inodes, own)
      ensures Valid() && this.sb == sb && this.disk == disk && this.inodes == inodes && this.own == own && logged == {}
    {
      this.sb, this.disk, this.inodes, this.own, this.logged := sb, disk, inodes, own, {};
    }

    /** balloc, lines 77-80: marks block b + bi and zeroes it. */
    method Take(b: nat, bi: nat)
      requires Valid() && b % BPB == 0 && bi < BPB && b + bi < sb.size
      modifies this`disk, this`logged
      ensures BBlock(sb, b + bi) < |old(disk)| && disk == Taken(sb, old(disk), b + bi)
      ensures logged == old(logged) + {BBlock(sb, b + bi), b + bi}
    {
      hide Own, Filled, Zeros, BitPut, Mapped, BBlock, Taken;
      Offset(sb, b, bi);
      BBlockLow(sb, b + bi);
      var bp := BBlock(sb, b);
      TakenIs(sb, disk, b + bi);
      disk := disk[bp := BitPut(disk[bp], bi / 8, bi % 8, true)];
      logged := logged + {bp};
      disk := disk[b + bi := seq(BSIZE, _ => 0)];
      logged := logged + {b + bi};
    }

    /** Takes the first free block and zeroes it; 0 if there is none. */
    method Balloc() returns (r: nat)
      requires Valid()
      modifies this`disk, this`logged
      ensures r == 0 ==> FullDisk(sb, disk) && disk == old(disk) && logged == old(logged)
      ensures r != 0 ==>
                && r < sb.size && !Used(sb, old(disk), r) && (forall c: nat :: c < r ==> Used(sb, old(disk), c))
                         && BBlock(sb, r) < |old(disk)| && disk == Taken(sb, old(disk), r)
                         && logged == old(logged) + {BBlock(sb, r), r}
    {
      hide Own, Filled, Taken;
      var b := 0;
      while b < sb.size
        invariant b % BPB == 0 && disk == old(disk) && logged == old(logged)
        invariant forall c: nat :: c < b && c < sb.size ==> Used(sb, disk, c)
      {
        var bi := 0;
        BBlockLow(sb, b);
        while bi < BPB && b + bi < sb.size
          invariant 0 <= bi <= BPB && disk == old(disk) && logged == old(logged)
          invariant forall c: nat :: c < b + bi && c < sb.size ==> Used(sb, disk, c)
        {
          Offset(sb, b, bi);
          if !Bit(disk[BBlock(sb, b)][bi / 8], bi % 8) {
            FirstBlock(sb, disk, own, b + bi);
            Take(b, bi);
            return b + bi;
          }
          bi := bi + 1;
        }
        b := b + BPB;
      }
      return 0;
    }

    /** Clears the bit of a block; the panic in the source is the precondition. */
    method Bfree(b: nat)
      requires LayoutOk(sb) && DiskOk(sb, disk) && b < sb.size && Used(sb, disk, b)
      modifies this`disk, this`logged
      ensures BBlock(sb, b) < |old(disk)| && disk == PutBit(sb, old(disk), b, false)
              && logged == old(logged) + {BBlock(sb, b)}
    {
      var bp := BBlock(sb, b);
      var bi := b % BPB;
      disk := disk[bp := BitPut(disk[bp], bi / 8, bi % 8, false)];
      logged := logged + {bp};
    }

    /** bmap, lines 389-394 and 401-406: a missing block number in ip->addrs[k]. */
    method AllocDirect(ino: nat, k: nat, ghost t: Slot) returns (b: nat)
      requires Valid() && ino < |inodes| && (if k < NDIRECT then t == D(ino, k) else k == NDIRECT && t == I(ino))
      requires Ptr(disk, inodes, t) == 0
      modifies this
      ensures Valid() && |inodes| == |old(inodes)| && Extends(old(disk), old(inodes), disk, inodes)
      ensures b == Ptr(disk, inodes, t)
      ensures b == 0 ==>
                FullDisk(sb, disk) && disk == old(disk) && inodes == old(inodes) && own == old(own)
                && logged == old(logged)
      ensures b != 0 ==> own == old(own)[b := t] && logged == old(logged) + {BBlock(sb, b), b}
    {
      hide Own, Filled, Mapped, LayoutOk, Used, Taken, FullDisk;
      OwnInodes(sb, disk, inodes, own);
      b := Balloc();
      if b == 0 {
        ExtendsSelf(sb, disk, inodes, own);
        return;
      }
      Stored(sb, old(disk), inodes, own, t, b);
      inodes := inodes[ino := Readdressed(inodes[ino], k, b)];
      own := own[b := t];
    }

    /** bmap, lines 407-416: a missing entry j of the indirect block a. */
    method AllocEntry(ino: nat, a: nat, j: nat) returns (b: nat)
      requires Valid() && ino < |inodes| && j < NINDIRECT && a == Ptr(disk, inodes, I(ino)) && a != 0
      requires Ptr(disk, inodes, D(ino, NDIRECT + j)) == 0
      modifies this
      ensures Valid() && |inodes| == |old(inodes)| && Extends(old(disk), old(inodes), disk, inodes)
              && b == Ptr(disk, inodes, D(ino, NDIRECT + j))
      ensures b == 0 ==> FullDisk(sb, disk) && logged == old(logged)
      ensures b != 0 ==> logged == old(logged) + {BBlock(sb, b), b, a}
    {
      hide Own, Filled, Mapped, LayoutOk, Used, Taken, FullDisk, SetWord;
      OwnInodes(sb, disk, inodes, own);
      ghost var t := D(ino, NDIRECT + j);
      OwnedSlot(sb, disk, inodes, own, I(ino));
      b := Balloc();
      if b == 0 {
        ExtendsSelf(sb, disk, inodes, own);
        return;
      }
      Stored(sb, old(disk), inodes, own, t, b);
      disk := disk[a := SetWord(disk[a], j, b)];
      logged := logged + {a};
      own := own[b := t];
    }

    /** The block number of block bn of a file, allocated if missing; 0 if the disk is full. */
    method Bmap(ino: nat, bn: nat) returns (addr: nat)
      requires Valid() && ino < |inodes| && bn < MAXFILE
      modifies this
      ensures Valid() && |inodes| == |old(inodes)| && Extends(old(disk), old(inodes), disk, inodes)
              && addr == Ptr(disk, inodes, D(ino, bn))
      ensures addr == 0 ==> FullDisk(sb, disk)
      ensures old(Ptr(disk, inodes, D(ino, bn))) != 0 ==>
                disk == old(disk) && inodes == old(inodes) && own == old(own) && logged == old(logged)
      ensures logged <= old(logged) + MapBlocks(sb) + ({addr, Ptr(disk, inodes, I(ino))} - {0})
    {
      hide Own, Filled, Mapped, LayoutOk, FullDisk, Word, BBlock, Extends, MapBlocks;
      OwnInodes(sb, disk, inodes, own);
      ExtendsSelf(sb, disk, inodes, own);
      if bn < NDIRECT {
        addr := inodes[ino].addrs[bn];
        if addr == 0 {
          addr := AllocDirect(ino, bn, D(ino, bn));
          if addr != 0 { InMap(sb, disk, inodes, own, D(ino, bn)); }
        }
        return;
      }
      addr := inodes[ino].addrs[NDIRECT];
      if addr == 0 {
        addr := AllocDirect(ino, NDIRECT, I(ino));
        if addr == 0 {
          NoTable(disk, inodes, ino, bn);
          return;
        }
        InMap(sb, disk, inodes, own, I(ino));
      }
      label Indirect:
      ghost var disk1, inodes1 := disk, inodes;
      OwnedSlot(sb, disk, inodes, own, I(ino));
      var a := addr;
      addr := Word(disk[a], bn - NDIRECT);
      ExtendsSelf(sb, disk, inodes, own);
      if addr == 0 {
        addr := AllocEntry(ino, a, bn - NDIRECT);
        if addr != 0 { InMap(sb, disk, inodes, own, D(ino, bn)); }
      }
      IndirectKept(disk1, inodes1, disk, inodes, ino);
      ExtendsTwice(old(disk), old(inodes), disk1, inodes1, disk, inodes);
    }

    /** Reads up to n bytes at off; good is how many bytes the destination takes before copyout fails.
        Returns what was copied, and the C result. */
    method Readi(ino: nat, off0: nat, n0: nat, good: nat) returns (dst: seq<nat>, r: int)
      requires Valid() && ino < |inodes| && off0 < UINT && n0 < UINT
      modifies this
      ensures disk == old(disk) && inodes == old(inodes) && own == old(own) && logged == old(logged)
      ensures var f := File(disk, inodes, ino);
              if off0 > |f| || off0 + n0 >= UINT then dst == [] && r == 0
              else
                var n := Min(n0, |f| - off0);
                if n <= good then r == n && dst == f[off0..off0 + n]
                else r == -1 && dst == f[off0..off0 + good]
    {
      hide Own, Filled, Mapped, LayoutOk, FullDisk, Ptr, BlockNo, InBlock, File, Extends, MapBlocks;
      OwnInodes(sb, disk, inodes, own);
      SizeOk(disk, inodes, ino);
      var off, n := off0, n0;
      dst, r := [], 0;
      if off > inodes[ino].size || (off + n) % UINT < off {
        return;
      }
      if off + n > inodes[ino].size {
        n := inodes[ino].size - off;
      }
      ghost var f := File(disk, inodes, ino);
      var tot := 0;
      while tot < n
        invariant tot <= n && off == off0 + tot && Valid() && off0 + n <= |f|
        invariant disk == old(disk) && inodes == old(inodes) && own == old(own) && logged == old(logged)
        invariant |dst| == tot <= good && dst == f[off0..off0 + tot]
      {
        Place(off);
        Below(disk, inodes, ino, off);
        var addr := Bmap(ino, BlockNo(off));
        if addr == 0 {
          break;
        }
        OwnedSlot(sb, disk, inodes, own, D(ino, BlockNo(off)));
        var m := Min(n - tot, BSIZE - InBlock(off));
        var copied := if tot + m > good then good - tot else m;
        SliceMore(f, off0, tot, copied, n);
        Slice(disk, inodes, ino, off, copied);
        dst := dst + disk[addr][InBlock(off)..InBlock(off) + copied];
        if copied < m {
          return dst, -1;
        }
        tot, off := tot + m, off + m;
      }
      return dst, tot;
    }

    /** The first byte of a file, with readi. */
    method FirstByte(ino: nat) returns (x: nat)
      requires Valid() && ino < |inodes| && inodes[ino].size > 0
      modifies this
      ensures disk == old(disk) && inodes == old(inodes) && own == old(own) && logged == old(logged)
      ensures InodesOk(inodes) && x == File(disk, inodes, ino)[0]
    {
      hide Good, File;
      GoodFacts(sb, disk, inodes, own);
      var dst, r := Readi(ino, 0, 1, 1);
      x := dst[0];
    }

    /** either_copyin, into block addr: the bytes of w, at the place of off. */
    method WriteChunk(ino: nat, off: nat, w: seq<nat>, addr: nat)
      requires Valid() && ino < |inodes| && BlockNo(off) < MAXFILE && InBlock(off) + |w| <= BSIZE
      requires addr == Ptr(disk, inodes, D(ino, BlockNo(off))) && addr != 0
      modifies this`disk
      ensures Valid()
      ensures forall s :: SlotIn(|inodes|, s) ==> Ptr(disk, inodes, s) == Ptr(old(disk), inodes, s)
      ensures forall i, k :: 0 <= i < |inodes| && 0 <= k ==>
                ByteAt(disk, inodes, i, k) == if i == ino && off <= k < off + |w| then w[k - off]
                    else ByteAt(old(disk), inodes, i, k)
    {
      hide Own, Filled, Mapped, LayoutOk, Ptr, BlockNo, InBlock, Patch;
      OwnedSlot(sb, disk, inodes, own, D(ino, BlockNo(off)));
      Patched(sb, disk, inodes, own, ino, off, w);
      disk := disk[addr := Patch(disk[addr], InBlock(off), w)];
    }

    /** writei, lines 516-528: the loop, up to tot bytes written.  A copyin that fails inside a chunk has copied
        `stray` bytes of it, which stay in the block and are not logged. */
    method WriteLoop(ino: nat, off0: nat, src: seq<nat>, good: nat) returns (tot: nat, ghost stray: nat)
      requires Valid() && ino < |inodes| && off0 <= inodes[ino].size && off0 + |src| <= MAXFILE * BSIZE
      modifies this
      ensures Valid() && |inodes| == |old(inodes)| && tot + stray <= |src|
      ensures WriteStops(|src|, good, off0, old(inodes)[ino].size, Starved(sb, disk, inodes, ino, off0 + tot), tot,
              stray)
      ensures Written(old(disk), old(inodes), disk, inodes, ino, off0, src[..tot + stray])
      ensures LoggedOk(sb, old(logged), logged, disk, inodes, ino, BlockNo(off0), BlockEnd(off0, |src|))
    {
      hide Good, Ptr, BlockNo, InBlock, Written, Extends, FullDisk, MapBlocks, LoggedOk, ByteAt, BlockEnd, Reached;
      GoodFacts(sb, disk, inodes, own);
      NotYet(sb, disk, inodes, own, ino, off0);
      tot, stray := 0, 0;
      var off := off0;
      assert src[..0] == [];
      ghost var hi := BlockEnd(off0, |src|);
      NoneLogged(sb, logged, disk, inodes, ino, BlockNo(off0), hi);
      while tot < |src|
        invariant tot <= |src| && tot <= good && off == off0 + tot && (0 < tot < |src| ==> InBlock(off) == 0)
        invariant Valid() && |inodes| == |old(inodes)| && InodesOk(inodes)
        invariant stray == 0 && Written(old(disk), old(inodes), disk, inodes, ino, off0, src[..tot])
        invariant LoggedOk(sb, old(logged), logged, disk, inodes, ino, BlockNo(off0), hi)
      {
        Place(off);
        InRange(off0, |src|, off);
        ghost var disk1, inodes1, logged1 := disk, inodes, logged;
        var addr := Bmap(ino, BlockNo(off));
        GoodFacts(sb, disk, inodes, own);
        WrittenExtends(old(disk), old(inodes), disk1, inodes1, disk, inodes, ino, off0, src[..tot]);
        LoggedMore(sb, old(logged), logged1, disk1, inodes1, logged, disk, inodes, ino, BlockNo(off0), hi,
            BlockNo(off));
        if addr == 0 {
          PastEnd(disk, inodes, ino, off);
          WrittenSizes(old(disk), old(inodes), disk, inodes, ino, off0, src[..tot]);
          break;
        }
        var m := Min(|src| - tot, BSIZE - InBlock(off));
        var copied := if tot + m > good then good - tot else m;
        ghost var disk2, logged2 := disk, logged;
        WriteChunk(ino, off, src[tot..tot + copied], addr);
        WrittenMore(old(disk), old(inodes), disk2, disk, inodes, ino, off0, src, tot, copied);
        LoggedData(sb, old(logged), logged2, disk2, disk, inodes, ino, BlockNo(off0), hi, BlockNo(off), addr);
        if copied < m {
          stray := copied;
          ReachedIs(off0, tot, copied);
          LoggedLess(sb, old(logged), logged2, logged2 + {addr}, disk, inodes, ino, BlockNo(off0), hi);
          break;
        }
        logged := logged + {addr};
        NextBlock(off);
        tot, off := tot + m, off + m;
      }
    }

    /** Writes src at off; good is how many bytes of src can be read before copyin fails.
        -1 if the range is bad, otherwise the number of bytes written; `stray` more may have got into the file. */
    method Writei(ino: nat, off: nat, src: seq<nat>, good: nat) returns (r: int, ghost stray: nat)
      requires Valid() && ino < |inodes| && off < UINT && |src| < UINT
      modifies this
      ensures Valid() && |inodes| == |old(inodes)|
      ensures r == -1 <==> off > old(inodes)[ino].size || off + |src| > MAXFILE * BSIZE
      ensures r == -1 ==>
                disk == old(disk) && inodes == old(inodes) && own == old(own) && logged == old(logged) && stray == 0
      ensures r != -1 ==>
                && r >= 0 && r + stray <= |src| && old(off <= |File(disk, inodes, ino)|)
                && WriteStops(|src|, good, off, old(inodes)[ino].size, Starved(sb, disk, inodes, ino, off + r), r,
                    stray)
                && File(disk, inodes, ino) == WrittenFile(old(File(disk, inodes, ino)), off, src[..r + stray], r)
                && (File(disk, inodes, ino) == Splice(old(File(disk, inodes, ino)), off, src[..r]) <==>
                      WriteQuiet(old(File(disk, inodes, ino)), off, src, good))
                && (forall i :: 0 <= i < |inodes| && i != ino ==> File(disk, inodes, i) == old(File(disk, inodes, i)))
                && LoggedOk(sb, old(logged) + {IBlock(sb, ino)}, logged, disk, inodes, ino, BlockNo(off),
                    BlockEnd(off, |src|))
    {
      hide Good, Ptr, BlockNo, Written, FullDisk, LoggedOk, File, ByteAt, BlockEnd, Splice, IBlock, Reached, InBlock;
      hide WriteQuiet, WrittenFile, Starved;
      GoodFacts(sb, disk, inodes, own);
      SizeOk(disk, inodes, ino);
      var n := |src|;
      if off > inodes[ino].size || (off + n) % UINT < off {
        return -1, 0;
      }
      if off + n > MAXFILE * BSIZE {
        return -1, 0;
      }
      var tot;
      tot, stray := WriteLoop(ino, off, src, good);
      Resized(sb, old(disk), old(inodes), disk, inodes, own, ino, off, src[..tot + stray], tot);
      InodeLogged(sb, old(logged), logged, disk, inodes, ino, BlockNo(off), BlockEnd(off, |src|), off + tot);
      GoodFacts(sb, disk, inodes, own);
      StarvedSized(sb, disk, inodes, ino, off + tot, off + tot);
      SpliceExactly(old(File(disk, inodes, ino)), off, src, good, Starved(sb, disk, inodes, ino, off + tot), tot,
          stray);
      inodes := inodes[ino := Sized(inodes[ino], off + tot)];
      logged := logged + {IBlock(sb, ino)};
      return tot, stray;
    }

    /** filewrite, lines 162-167: one chunk, between begin_op and end_op.  It logs at most four data blocks, the
        indirect block, the inode's block and the bitmap. */
    method WriteTransaction(ino: nat, off: nat, src: seq<nat>, good: nat) returns (r: int, ghost stray: nat)
      requires Valid() && ino < |inodes| && off < UINT && |src| <= 3 * BSIZE
      modifies this
      ensures Valid() && |inodes| == |old(inodes)|
      ensures |logged| <= 6 + |MapBlocks(sb)| && (sb.size <= BPB ==> |logged| <= 7)
      ensures r == -1 <==> off > old(inodes)[ino].size || off + |src| > MAXFILE * BSIZE
      ensures r == -1 ==> disk == old(disk) && inodes == old(inodes) && own == old(own) && stray == 0
      ensures r != -1 ==>
                && r >= 0 && r + stray <= |src| && old(off <= |File(disk, inodes, ino)|)
                && WriteStops(|src|, good, off, old(inodes)[ino].size, Starved(sb, disk, inodes, ino, off + r), r,
                    stray)
                && File(disk, inodes, ino) == WrittenFile(old(File(disk, inodes, ino)), off, src[..r + stray], r)
                && (File(disk, inodes, ino) == Splice(old(File(disk, inodes, ino)), off, src[..r]) <==>
                      WriteQuiet(old(File(disk, inodes, ino)), off, src, good))
                && (forall i :: 0 <= i < |inodes| && i != ino ==> File(disk, inodes, i) == old(File(disk, inodes, i)))
    {
      hide Good, Ptr, BlockNo, FullDisk, LoggedOk, File, BlockEnd, Splice, IBlock, MapBlocks, FileBlocks;
      logged := {};
      r, stray := Writei(ino, off, src, good);
      GoodFacts(sb, disk, inodes, own);
      if r >= 0 {
        ChunkBudget(sb, logged, disk, inodes, ino, off, |src|);
      }
    }

    /** filewrite on an inode: chunks of at most three blocks, each its own transaction.  `off` is f->off;
        done is how many bytes were written, and stray how many more are in a block. */
    method FileWrite(ino: nat, off: nat, src: seq<nat>, good: nat) returns (ret: int, off': nat, ghost done: nat,
        ghost stray: nat)
      requires Valid() && ino < |inodes| && off < UINT && |src| < UINT / 2
      modifies this
      ensures Valid() && |inodes| == |old(inodes)| && done + stray <= |src| && off' == off + done
      ensures ret == (if done == |src| then |src| else -1)
      ensures off > old(inodes)[ino].size ==>
                File(disk, inodes, ino) == old(File(disk, inodes, ino)) && done == 0 && stray == 0
      ensures off <= old(inodes)[ino].size ==>
                && old(off <= |File(disk, inodes, ino)|)
                && FileStops(|src|, good, off, old(inodes)[ino].size, Starved(sb, disk, inodes, ino, off + done), done,
                    stray)
                && File(disk, inodes, ino) == WrittenFile(old(File(disk, inodes, ino)), off, src[..done + stray], done)
                && (File(disk, inodes, ino) == Splice(old(File(disk, inodes, ino)), off, src[..done]) <==>
                      FileQuiet(old(File(disk, inodes, ino)), off, src, good))
      ensures forall i :: 0 <= i < |inodes| && i != ino ==> File(disk, inodes, i) == old(File(disk, inodes, i))
    {
      hide Good, Ptr, BlockNo, FullDisk, LoggedOk, File, BlockEnd, Splice, IBlock, MapBlocks, FileBlocks;
      hide WriteStops, FileStops, WriteQuiet, FileQuiet, WrittenFile, Starved, ChunkStart;
      GoodFacts(sb, disk, inodes, own);
      var max := (MAXOPBLOCKS - 1 - 1 - 2) / 2 * BSIZE;
      var i := 0;
      off', done, stray := off, 0, 0;
      ghost var f0, sizes := File(disk, inodes, ino), inodes[ino].size;
      if off <= sizes { SpliceNone(f0, off); }
      assert src[..0] == [];
      while i < |src|
        invariant 0 <= i <= |src| && i == done && stray == 0 && off' == off + i && Valid() && |inodes| == |old(inodes)|
                  && InodesOk(inodes)
        invariant i > 0 ==> off <= sizes && off + i <= MAXFILE * BSIZE
        invariant i <= good && (i == ChunkStart(i) || i == |src|)
        invariant if off <= sizes then File(disk, inodes, ino) == Splice(f0, off, src[..i])
                  else i == 0 && File(disk, inodes, ino) == f0
        invariant forall x :: 0 <= x < |inodes| && x != ino ==> File(disk, inodes, x) == old(File(disk, inodes, x))
      {
        var n1 := |src| - i;
        if n1 > max {
          n1 := max;
        }
        var r;
        r, stray := WriteTransaction(ino, off', src[i..i + n1], if good > i then good - i else 0);
        GoodFacts(sb, disk, inodes, own);
        if r > 0 {
          off' := off' + r;
        }
        if r >= 0 {
          done := done + r;
          WrittenFileMore(f0, off, src, i, n1, r, stray);
        }
        if r != n1 {
          if r >= 0 {
            ChunkStops(|src|, good, off, sizes, Max(sizes, off + i), Starved(sb, disk, inodes, ino, off + done), i, n1,
                r, stray);
          } else if off <= sizes {
            TooBig(|src|, good, off, sizes, Starved(sb, disk, inodes, ino, off + done), i, n1);
            NoStray(f0, off, src[..i]);
          }
          break;
        }
        WholeChunk(n1, if good > i then good - i else 0, off + i, Max(sizes, off + i),
            Starved(sb, disk, inodes, ino, off + i + r), stray);
        NextChunk(i);
        i := i + r;
      }
      if i == |src| && off <= sizes {
        assert src[..i] == src;
        NoStray(f0, off, src);
        AllDone(|src|, good, off, sizes, Starved(sb, disk, inodes, ino, off + done));
      }
      if off <= sizes { FileExactly(f0, off, src, good, Starved(sb, disk, inodes, ino, off + done), done, stray); }
      return if i == |src| then |src| else -1, off', done, stray;
    }

    /** itrunc, lines 433-436. */
    method FreeDirect(ino: nat, i: nat, ghost was: Volume)
      requires Valid2(was, ino, 0) && i < NDIRECT
      modifies this
      ensures Valid2(was, ino, 0) && inodes[ino].addrs == old(inodes)[ino].addrs[i := 0]
    {
      hide Truncating, Ptr, BBlock, Used, LayoutOk, DiskOk, PutBit;
      TruncFacts(sb, was, Volume(disk, inodes, own), ino, 0);
      if inodes[ino].addrs[i] != 0 {
        ghost var b := inodes[ino].addrs[i];
        FreedDirect(sb, was, Volume(disk, inodes, own), ino, i);
        Bfree(inodes[ino].addrs[i]);
        inodes := inodes[ino := Readdressed(inodes[ino], i, 0)];
        own := own - {b};
      }
    }

    /** itrunc, lines 443-444: entry j of the indirect block. */
    method FreeEntry(ino: nat, a: nat, j: nat, ghost was: Volume)
      requires Valid2(was, ino, j) && j < NINDIRECT && a == inodes[ino].addrs[NDIRECT] && a != 0
      modifies this`disk, this`own, this`logged
      ensures Valid2(was, ino, j + 1) && |disk| == |old(disk)|
    {
      hide Truncating, Ptr, BBlock, Word, Used, LayoutOk, DiskOk, PutBit;
      TruncFacts(sb, was, Volume(disk, inodes, own), ino, j);
      TruncTable(sb, was, Volume(disk, inodes, own), ino, j);
      var b := Word(disk[a], j);
      if b != 0 {
        FreedEntry(sb, was, Volume(disk, inodes, own), ino, j);
        Bfree(b);
        own := own - {b};
      } else {
        SkippedEntry(sb, was, Volume(disk, inodes, own), ino, j);
      }
    }

    ghost predicate Valid2(was: Volume, ino: nat, j: nat)
      reads this
    {
      Truncating(sb, was, Volume(disk, inodes, own), ino, j) && ino < |inodes| && |inodes[ino].addrs| == NDIRECT + 1
    }

    /** Frees all of a file's blocks and no others. */
    method Itrunc(ino: nat)
      requires Valid() && ino < |inodes|
      modifies this
      ensures Valid() && |inodes| == |old(inodes)|
      ensures File(disk, inodes, ino) == [] && inodes[ino].size == 0 && inodes[ino].addrs == seq(NDIRECT + 1, _ => 0)
      ensures own == map b | b in old(own) && old(own)[b].ino != ino :: old(own)[b]
      ensures forall i :: 0 <= i < |inodes| && i != ino ==>
                inodes[i] == old(inodes)[i] && File(disk, inodes, i) == old(File(disk, inodes, i))
    {
      hide Truncating, Good, Ptr, File, BBlock, Used, LayoutOk, DiskOk, PutBit;
      ghost var was := Volume(disk, inodes, own);
      TruncStart(sb, was, ino);
      ghost var addrs0 := inodes[ino].addrs;
      var i := 0;
      while i < NDIRECT
        invariant i <= NDIRECT && Valid2(was, ino, 0)
        invariant forall k :: 0 <= k < i ==> inodes[ino].addrs[k] == 0
      {
        FreeDirect(ino, i, was);
        i := i + 1;
      }
      if inodes[ino].addrs[NDIRECT] != 0 {
        var a := inodes[ino].addrs[NDIRECT];
        ghost var inodes1 := inodes;
        var j := 0;
        while j < NINDIRECT
          invariant j <= NINDIRECT && Valid2(was, ino, j) && inodes == inodes1
        {
          FreeEntry(ino, a, j, was);
          j := j + 1;
        }
        TruncFacts(sb, was, Volume(disk, inodes, own), ino, NINDIRECT);
        FreedTable(sb, was, Volume(disk, inodes, own), ino);
        Bfree(a);
        inodes := inodes[ino := Readdressed(inodes[ino], NDIRECT, 0)];
        own := own - {a};
      }
      AllZero(inodes[ino].addrs);
      TruncFacts(sb, was, Volume(disk, inodes, own), ino, 0);
      TruncDone(sb, was, Volume(disk, inodes, own), ino);
      inodes := inodes[ino := Inode(inodes[ino].addrs, 0)];
      logged := logged + {IBlock(sb, ino)};
    }
  }

  function Min(a: nat, b: nat): nat {
    if a < b then a else b
  }

  lemma {:induction false} SizeOk(disk: seq<Block>, inodes: seq<Inode>, i: nat)
    requires Filled(disk, inodes) && i < |inodes|
    ensures inodes[i].size <= MAXFILE * BSIZE
  {
  }

  /** A byte below the size has a block. */
  lemma {:induction false} Below(disk: seq<Block>, inodes: seq<Inode>, i: nat, k: nat)
    requires Filled(disk, inodes) && i < |inodes| && k < inodes[i].size
    ensures BlockNo(k) < MAXFILE && Ptr(disk, inodes, D(i, BlockNo(k))) != 0
  {
    Place(k);
    hide BlockNo, Ptr;
    assert BlockNo(k) * BSIZE < inodes[i].size;
  }

  /** Bytes k to k + m of a file that lie in one block are a slice of that block. */
  lemma {:induction false} Slice(disk: seq<Block>, inodes: seq<Inode>, i: nat, k: nat, m: nat)
    requires InodesOk(inodes) && i < |inodes| && k + m <= inodes[i].size <= MAXFILE * BSIZE && BlockNo(k) < MAXFILE
    requires var p := Ptr(disk, inodes, D(i, BlockNo(k))); p < |disk| && |disk[p]| == BSIZE && InBlock(k) + m <= BSIZE
    ensures disk[Ptr(disk, inodes, D(i, BlockNo(k)))][InBlock(k)..InBlock(k) + m] == File(disk, inodes, i)[k..k + m]
  {
    hide Ptr, BlockNo, InBlock;
    var f, blk := File(disk, inodes, i), disk[Ptr(disk, inodes, D(i, BlockNo(k)))];
    forall e | k <= e < k + m
      ensures f[e] == blk[e - k + InBlock(k)]
    {
      Nearby(k, e - k);
    }
  }

  lemma {:induction false} SliceMore(f: seq<nat>, off: nat, tot: nat, m: nat, n: nat)
    requires off + tot + m <= off + n <= |f|
    ensures f[off..off + tot] <= f[off..off + n]
    ensures f[off..off + tot] + f[off + tot..off + tot + m] == f[off..off + (tot + m)]
  {
  }

  lemma {:induction false} Nearby(k: nat, e: nat)
    requires InBlock(k) + e < BSIZE
    ensures BlockNo(k + e) == BlockNo(k) && InBlock(k + e) == InBlock(k) + e
  {
  }

  /** w over the bytes of a block from o on. */
  function Patch(b: Block, o: nat, w: seq<nat>): (r: Block)
    requires o + |w| <= |b|
    ensures |r| == |b|
  {
    b[..o] + w + b[o + |w|..]
  }

  lemma {:induction false} Patched(sb: Super, disk: seq<Block>, inodes: seq<Inode>, own: map<nat, Slot>, ino: nat,
      off: nat, w: seq<nat>)
    requires Good(sb, disk, inodes, own) && ino < |inodes| && BlockNo(off) < MAXFILE && InBlock(off) + |w| <= BSIZE
    requires Ptr(disk, inodes, D(ino, BlockNo(off))) != 0
    ensures var p := Ptr(disk, inodes, D(ino, BlockNo(off)));
            && p < |disk| && |disk[p]| == BSIZE
            && var disk' := disk[p := Patch(disk[p], InBlock(off), w)];
               && Good(sb, disk', inodes, own)
               && (forall s :: SlotIn(|inodes|, s) ==> Ptr(disk', inodes, s) == Ptr(disk, inodes, s))
               && (forall i, k :: 0 <= i < |inodes| && 0 <= k ==>
                     ByteAt(disk', inodes, i, k) == if i == ino && off <= k < off + |w| then w[k - off]
                         else ByteAt(disk, inodes, i, k))
  {
    hide Own, Filled, Mapped, LayoutOk, Ptr, BlockNo, InBlock, Patch, ByteAt;
    OwnInodes(sb, disk, inodes, own);
    var p := Ptr(disk, inodes, D(ino, BlockNo(off)));
    OwnedSlot(sb, disk, inodes, own, D(ino, BlockNo(off)));
    var blk := Patch(disk[p], InBlock(off), w);
    var disk' := disk[p := blk];
    forall s | SlotIn(|inodes|, s)
      ensures Ptr(disk', inodes, s) == Ptr(disk, inodes, s)
    {
      PtrElsewhere(sb, disk, inodes, own, p, blk, s);
    }
    OwnSame(sb, disk, inodes, own, disk', inodes);
    LayoutFacts(sb);
    UsedSame(sb, disk, disk', own);
    FilledSame(disk, inodes, disk');
    forall i, k | 0 <= i < |inodes| && 0 <= k
      ensures ByteAt(disk', inodes, i, k) == if i == ino && off <= k < off + |w| then w[k - off]
              else ByteAt(disk, inodes, i, k)
    {
      PatchedByte(sb, disk, inodes, own, ino, off, w, i, k);
    }
  }

  lemma {:induction false} FilledSame(disk: seq<Block>, inodes: seq<Inode>, disk': seq<Block>)
    requires Filled(disk, inodes)
    requires forall s :: SlotIn(|inodes|, s) ==> Ptr(disk', inodes, s) == Ptr(disk, inodes, s)
    ensures Filled(disk', inodes)
  {
    hide Ptr;
  }

  lemma {:induction false} PatchedByte(sb: Super, disk: seq<Block>, inodes: seq<Inode>, own: map<nat, Slot>, ino: nat,
      off: nat, w: seq<nat>, i: nat, k: nat)
    requires Good(sb, disk, inodes, own) && ino < |inodes| && BlockNo(off) < MAXFILE && InBlock(off) + |w| <= BSIZE
    requires Ptr(disk, inodes, D(ino, BlockNo(off))) != 0 && i < |inodes|
    requires var p := Ptr(disk, inodes, D(ino, BlockNo(off))); p < |disk| && |disk[p]| == BSIZE
    requires var p := Ptr(disk, inodes, D(ino, BlockNo(off)));
             forall s :: SlotIn(|inodes|, s) ==>
                   Ptr(disk[p := Patch(disk[p], InBlock(off), w)], inodes, s) == Ptr(disk, inodes, s)
    ensures var p := Ptr(disk, inodes, D(ino, BlockNo(off)));
            ByteAt(disk[p := Patch(disk[p], InBlock(off), w)], inodes, i, k)
            == if i == ino && off <= k < off + |w| then w[k - off] else ByteAt(disk, inodes, i, k)
  {
    hide Own, Filled, Mapped, LayoutOk, Ptr, BlockNo, InBlock;
    OwnedSlot(sb, disk, inodes, own, D(ino, BlockNo(off)));
    if BlockNo(k) < MAXFILE { OwnedSlot(sb, disk, inodes, own, D(i, BlockNo(k))); }
    Place(k);
    Place(off);
  }

  // ---------------------------------------------------------------- itrunc

  datatype Volume = Volume(disk: seq<Block>, inodes: seq<Inode>, own: map<nat, Slot>)

  /** The entries below j of file ino's indirect block, which itrunc has freed and not erased. */
  ghost predicate Skipped(s: Slot, ino: nat, j: nat) {
    s.D? && s.ino == ino && NDIRECT <= s.bn < NDIRECT + j
  }

  ghost predicate OwnExcept(sb: Super, v: Volume, ino: nat, j: nat) {
    && InodesOk(v.inodes)
    && (forall s :: SlotIn(|v.inodes|, s) && !Skipped(s, ino, j) ==> SlotOk(v.disk, v.inodes, v.own, s))
    && (forall b :: b in v.own ==> OwnerOk(sb, v.disk, v.inodes, v.own, b) && !Skipped(v.own[b], ino, j))
  }

  /** v comes from w by freeing blocks of file ino. */
  ghost predicate Shrunk(sb: Super, w: Volume, v: Volume, ino: nat) {
    && |v.disk| == |w.disk| && |v.inodes| == |w.inodes| && ino < |v.inodes|
    && (forall c :: sb.datastart <= c < |v.disk| ==> v.disk[c] == w.disk[c])
    && (forall i :: 0 <= i < |v.inodes| && i != ino ==> v.inodes[i] == w.inodes[i])
    && (forall b :: b in v.own ==> b in w.own && v.own[b] == w.own[b])
    && (forall b :: b in w.own && w.own[b].ino != ino ==> b in v.own)
  }

  ghost predicate Truncating(sb: Super, w: Volume, v: Volume, ino: nat, j: nat) {
    && Good(sb, w.disk, w.inodes, w.own) && LayoutOk(sb) && DiskOk(sb, v.disk) && Mapped(sb, v.disk, v.own)
    && OwnExcept(sb, v, ino, j) && Shrunk(sb, w, v, ino)
  }

  lemma {:induction false} TruncFacts(sb: Super, w: Volume, v: Volume, ino: nat, j: nat)
    requires Truncating(sb, w, v, ino, j)
    ensures InodesOk(v.inodes) && ino < |v.inodes| == |w.inodes| && LayoutOk(sb) && DiskOk(sb, v.disk)
  {
    hide Good, LayoutOk, Mapped, OwnerOk, SlotOk;
  }

  lemma {:induction false} TruncParts(sb: Super, w: Volume, v: Volume, ino: nat, j: nat)
    requires Truncating(sb, w, v, ino, j)
    ensures InodesOk(v.inodes) && OwnExcept(sb, v, ino, j) && Mapped(sb, v.disk, v.own) && 0 < sb.datastart <= sb.size
  {
    LayoutFacts(sb);
    hide Good, LayoutOk, Mapped, OwnerOk, SlotOk;
  }

  lemma {:induction false} TruncStart(sb: Super, v: Volume, ino: nat)
    requires Good(sb, v.disk, v.inodes, v.own) && ino < |v.inodes|
    ensures Truncating(sb, v, v, ino, 0) && |v.inodes[ino].addrs| == NDIRECT + 1
  {
    hide Mapped, Filled, SlotOk, OwnerOk;
  }

  lemma {:induction false} OwnedHere(sb: Super, v: Volume, ino: nat, j: nat, s: Slot)
    requires OwnExcept(sb, v, ino, j) && SlotIn(|v.inodes|, s) && !Skipped(s, ino, j)
    ensures var b := Ptr(v.disk, v.inodes, s); b != 0 ==> b in v.own && v.own[b] == s && sb.datastart <= b < sb.size
  {
    assert SlotOk(v.disk, v.inodes, v.own, s);
    var b := Ptr(v.disk, v.inodes, s);
    assert b != 0 ==> OwnerOk(sb, v.disk, v.inodes, v.own, b);
  }

  lemma {:induction false} TruncTable(sb: Super, w: Volume, v: Volume, ino: nat, j: nat)
    requires Truncating(sb, w, v, ino, j)
    ensures var a := v.inodes[ino].addrs[NDIRECT]; a != 0 ==> a < |v.disk| && |v.disk[a]| == BSIZE
    ensures var a := v.inodes[ino].addrs[NDIRECT];
            a != 0 && j < NINDIRECT ==> Word(v.disk[a], j) == Ptr(v.disk, v.inodes, D(ino, NDIRECT + j))
  {
    OwnedHere(sb, v, ino, j, I(ino));
  }

  /** Clearing the bit of an owned block. */
  lemma {:induction false} Unmapped(sb: Super, disk: seq<Block>, own: map<nat, Slot>, b: nat)
    requires LayoutOk(sb) && DiskOk(sb, disk) && Mapped(sb, disk, own) && b in own && sb.datastart <= b < sb.size
    ensures Used(sb, disk, b) && BBlock(sb, b) < |disk|
    ensures var d := PutBit(sb, disk, b, false);
            DiskOk(sb, d) && Mapped(sb, d, own - {b}) && (forall c :: sb.datastart <= c < |disk| ==> d[c] == disk[c])
  {
    BBlockLow(sb, b);
    assert Used(sb, disk, b);
    var d := PutBit(sb, disk, b, false);
    forall c: nat | c < sb.size
      ensures Used(sb, d, c) <==> c < sb.datastart || c in own - {b}
    {
      PutBitAt(sb, disk, b, false, c);
      assert Used(sb, disk, c) <==> c < sb.datastart || c in own;
      hide Mapped, BBlock, PutBit, Used;
    }
    hide BBlock, Used;
  }

  /** Blocks below the data hold no block numbers. */
  lemma {:induction false} PtrAbove(sb: Super, v: Volume, ino: nat, j: nat, d: seq<Block>, s: Slot)
    requires OwnExcept(sb, v, ino, j) && SlotIn(|v.inodes|, s) && |d| == |v.disk|
    requires forall c :: sb.datastart <= c < |d| ==> d[c] == v.disk[c]
    ensures Ptr(d, v.inodes, s) == Ptr(v.disk, v.inodes, s)
  {
    OwnedHere(sb, v, ino, j, I(s.ino));
    hide OwnExcept, Word;
  }

  /** Giving up the block in slot t. */
  lemma {:induction false} OwnRemoved(sb: Super, v: Volume, v': Volume, ino: nat, j: nat, j': nat, t: Slot)
    requires OwnExcept(sb, v, ino, j) && InodesOk(v'.inodes) && |v'.inodes| == |v.inodes| && sb.datastart > 0
    requires SlotIn(|v.inodes|, t) && !Skipped(t, ino, j) && Ptr(v.disk, v.inodes, t) != 0
             && v'.own == v.own - {Ptr(v.disk, v.inodes, t)}
    requires forall s :: SlotIn(|v.inodes|, s) ==>
               var was, now := Ptr(v.disk, v.inodes, s), Ptr(v'.disk, v'.inodes, s);
               && (now == was || (now == 0 && (s == t || Skipped(s, ino, j))))
               && (now != 0 && !Skipped(s, ino, j') ==> s != t && !Skipped(s, ino, j))
    requires forall s :: SlotIn(|v.inodes|, s) && Skipped(s, ino, j') && !Skipped(s, ino, j) ==> s == t
    ensures OwnExcept(sb, v', ino, j')
  {
    hide Ptr;
    assert SlotOk(v.disk, v.inodes, v.own, t);
    forall s | SlotIn(|v.inodes|, s) && !Skipped(s, ino, j')
      ensures SlotOk(v'.disk, v'.inodes, v'.own, s)
    {
      if Ptr(v'.disk, v'.inodes, s) != 0 { assert SlotOk(v.disk, v.inodes, v.own, s); }
    }
    forall b | b in v'.own
      ensures OwnerOk(sb, v'.disk, v'.inodes, v'.own, b) && !Skipped(v'.own[b], ino, j')
    {
      assert OwnerOk(sb, v.disk, v.inodes, v.own, b);
    }
  }

  lemma {:induction false} Freed(sb: Super, w: Volume, v: Volume, v': Volume, ino: nat, j: nat, j': nat, t: Slot)
    requires Truncating(sb, w, v, ino, j) && InodesOk(v'.inodes) && |v'.inodes| == |v.inodes| && t.ino == ino
             && InodesOk(v.inodes)
    requires SlotIn(|v.inodes|, t) && !Skipped(t, ino, j) && Ptr(v.disk, v.inodes, t) != 0
             && v'.own == v.own - {Ptr(v.disk, v.inodes, t)}
    requires forall s :: SlotIn(|v.inodes|, s) ==>
               var was, now := Ptr(v.disk, v.inodes, s), Ptr(v'.disk, v'.inodes, s);
               && (now == was || (now == 0 && (s == t || Skipped(s, ino, j))))
               && (now != 0 && !Skipped(s, ino, j') ==> s != t && !Skipped(s, ino, j))
    requires forall s :: SlotIn(|v.inodes|, s) && Skipped(s, ino, j') && !Skipped(s, ino, j) ==> s == t
    requires DiskOk(sb, v'.disk) && Mapped(sb, v'.disk, v'.own)
    requires forall c :: sb.datastart <= c < |v.disk| ==> v'.disk[c] == v.disk[c]
    requires forall i :: 0 <= i < |v.inodes| && i != ino ==> v'.inodes[i] == v.inodes[i]
    ensures Truncating(sb, w, v', ino, j')
  {
    hide Mapped, Ptr, Skipped, Good;
    LayoutFacts(sb);
    hide LayoutOk;
    OwnedHere(sb, v, ino, j, t);
    OwnRemoved(sb, v, v', ino, j, j', t);
    hide OwnExcept, InodesOk;
    assert Shrunk(sb, w, v', ino);
  }

  ghost function WithoutDirect(v: Volume, ino: nat, i: nat, d: seq<Block>, b: nat): Volume
    requires ino < |v.inodes| && i < |v.inodes[ino].addrs|
  {
    Volume(d, v.inodes[ino := Readdressed(v.inodes[ino], i, 0)], v.own - {b})
  }

  lemma {:induction false} FreedDirect(sb: Super, w: Volume, v: Volume, ino: nat, i: nat)
    requires Truncating(sb, w, v, ino, 0) && i < NDIRECT && v.inodes[ino].addrs[i] != 0
    ensures var b := v.inodes[ino].addrs[i];
            && b < sb.size && Used(sb, v.disk, b) && BBlock(sb, b) < |v.disk|
            && Truncating(sb, w, WithoutDirect(v, ino, i, PutBit(sb, v.disk, b, false), b), ino, 0)
  {
    hide Truncating, OwnExcept, LayoutOk, Mapped, Used, BBlock, PutBit, Word;
    TruncFacts(sb, w, v, ino, 0);
    TruncParts(sb, w, v, ino, 0);
    var t, b := D(ino, i), v.inodes[ino].addrs[i];
    OwnedHere(sb, v, ino, 0, t);
    Unmapped(sb, v.disk, v.own, b);
    var v' := WithoutDirect(v, ino, i, PutBit(sb, v.disk, b, false), b);
    assert InodesOk(v'.inodes);
    forall s | SlotIn(|v.inodes|, s)
      ensures Ptr(v'.disk, v'.inodes, s) == if s == t then 0 else Ptr(v.disk, v.inodes, s)
    {
      PtrAbove(sb, v, ino, 0, v'.disk, s);
    }
    hide Ptr;
    Freed(sb, w, v, v', ino, 0, 0, t);
  }

  lemma {:induction false} FreedEntry(sb: Super, w: Volume, v: Volume, ino: nat, j: nat)
    requires Truncating(sb, w, v, ino, j) && j < NINDIRECT && Ptr(v.disk, v.inodes, D(ino, NDIRECT + j)) != 0
    ensures var b := Ptr(v.disk, v.inodes, D(ino, NDIRECT + j));
            && b < sb.size && Used(sb, v.disk, b) && BBlock(sb, b) < |v.disk|
            && Truncating(sb, w, Volume(PutBit(sb, v.disk, b, false), v.inodes, v.own - {b}), ino, j + 1)
  {
    hide Truncating, OwnExcept, LayoutOk, Mapped, Used, BBlock, PutBit, Word;
    TruncFacts(sb, w, v, ino, j);
    TruncParts(sb, w, v, ino, j);
    var t := D(ino, NDIRECT + j);
    var b := Ptr(v.disk, v.inodes, t);
    OwnedHere(sb, v, ino, j, t);
    Unmapped(sb, v.disk, v.own, b);
    var v' := Volume(PutBit(sb, v.disk, b, false), v.inodes, v.own - {b});
    hide Ptr;
    forall s | SlotIn(|v.inodes|, s)
      ensures Ptr(v'.disk, v'.inodes, s) == Ptr(v.disk, v.inodes, s)
    {
      PtrAbove(sb, v, ino, j, v'.disk, s);
    }
    Freed(sb, w, v, v', ino, j, j + 1, t);
  }

  lemma {:induction false} SkippedEntry(sb: Super, w: Volume, v: Volume, ino: nat, j: nat)
    requires Truncating(sb, w, v, ino, j) && j < NINDIRECT && Ptr(v.disk, v.inodes, D(ino, NDIRECT + j)) == 0
    ensures Truncating(sb, w, v, ino, j + 1)
  {
    hide LayoutOk, Mapped, Good, Ptr, Shrunk;
    LayoutFacts(sb);
    forall b | b in v.own
      ensures !Skipped(v.own[b], ino, j + 1)
    {
      assert OwnerOk(sb, v.disk, v.inodes, v.own, b);
    }
  }

  lemma {:induction false} FreedTable(sb: Super, w: Volume, v: Volume, ino: nat)
    requires Truncating(sb, w, v, ino, NINDIRECT) && v.inodes[ino].addrs[NDIRECT] != 0
    ensures var b := v.inodes[ino].addrs[NDIRECT];
            && b < sb.size && Used(sb, v.disk, b) && BBlock(sb, b) < |v.disk|
            && Truncating(sb, w, WithoutDirect(v, ino, NDIRECT, PutBit(sb, v.disk, b, false), b), ino, 0)
  {
    hide Truncating, OwnExcept, LayoutOk, Mapped, Used, BBlock, PutBit, Word;
    TruncFacts(sb, w, v, ino, NINDIRECT);
    TruncParts(sb, w, v, ino, NINDIRECT);
    var t, b := I(ino), v.inodes[ino].addrs[NDIRECT];
    OwnedHere(sb, v, ino, NINDIRECT, t);
    Unmapped(sb, v.disk, v.own, b);
    var v' := WithoutDirect(v, ino, NDIRECT, PutBit(sb, v.disk, b, false), b);
    assert InodesOk(v'.inodes);
    forall s | SlotIn(|v.inodes|, s)
      ensures Ptr(v'.disk, v'.inodes, s) == if s == t || Skipped(s, ino, NINDIRECT) then 0 else Ptr(v.disk, v.inodes, s)
    {
      PtrAbove(sb, v, ino, NINDIRECT, v'.disk, s);
    }
    hide Ptr;
    Freed(sb, w, v, v', ino, NINDIRECT, 0, t);
  }

  lemma {:induction false} AllZero(addrs: seq<nat>)
    requires |addrs| == NDIRECT + 1 && forall k :: 0 <= k <= NDIRECT ==> addrs[k] == 0
    ensures addrs == seq(NDIRECT + 1, _ => 0)
  {
  }

  /** With no block numbers left the file is empty, and what is owned is the other files'. */
  lemma {:induction false} TruncDone(sb: Super, w: Volume, v: Volume, ino: nat)
    requires Truncating(sb, w, v, ino, 0) && v.inodes[ino].addrs == seq(NDIRECT + 1, _ => 0)
    ensures var inodes' := v.inodes[ino := Inode(v.inodes[ino].addrs, 0)];
            && Good(sb, v.disk, inodes', v.own) && File(v.disk, inodes', ino) == []
            && v.own == (map b | b in w.own && w.own[b].ino != ino :: w.own[b])
            && (forall i :: 0 <= i < |inodes'| && i != ino ==>
                  inodes'[i] == w.inodes[i] && File(v.disk, inodes', i) == File(w.disk, w.inodes, i))
  {
    var inodes' := v.inodes[ino := Inode(v.inodes[ino].addrs, 0)];
    TruncOwn(sb, w, v, ino);
    TruncLeft(sb, w, v, ino);
    assert InodesOk(inodes');
    hide LayoutOk, Mapped, Own, OwnExcept, Filled, File, Ptr, Used;
    forall s | SlotIn(|v.inodes|, s)
      ensures Ptr(v.disk, inodes', s) == Ptr(v.disk, v.inodes, s)
    {
      PtrResized(v.disk, v.inodes, ino, 0, s);
    }
    OwnSame(sb, v.disk, v.inodes, v.own, v.disk, inodes');
    forall i | 0 <= i < |inodes'| && i != ino
      ensures SameBlocks(w.disk, w.inodes, v.disk, inodes', i) && File(v.disk, inodes', i) == File(w.disk, w.inodes, i)
    {
      TruncOther(sb, w, v, ino, inodes', i);
      SizeOk(w.disk, w.inodes, i);
      FileSame(w.disk, w.inodes, v.disk, inodes', i);
    }
    TruncFilled(sb, w, v, ino, inodes');
  }

  lemma {:induction false} PtrResized(disk: seq<Block>, inodes: seq<Inode>, ino: nat, n: nat, s: Slot)
    requires InodesOk(inodes) && ino < |inodes| && SlotIn(|inodes|, s)
    ensures InodesOk(inodes[ino := Inode(inodes[ino].addrs, n)])
    ensures Ptr(disk, inodes[ino := Inode(inodes[ino].addrs, n)], s) == Ptr(disk, inodes, s)
  {
  }

  lemma {:induction false} TruncOwn(sb: Super, w: Volume, v: Volume, ino: nat)
    requires Truncating(sb, w, v, ino, 0)
    ensures Own(sb, v.disk, v.inodes, v.own) && InodesOk(v.inodes) && InodesOk(w.inodes)
  {
    hide LayoutOk, Mapped, Filled, Used;
    forall s | SlotIn(|v.inodes|, s)
      ensures SlotOk(v.disk, v.inodes, v.own, s)
    {
      assert !Skipped(s, ino, 0);
    }
  }

  lemma {:induction false} TruncLeft(sb: Super, w: Volume, v: Volume, ino: nat)
    requires Truncating(sb, w, v, ino, 0) && v.inodes[ino].addrs == seq(NDIRECT + 1, _ => 0)
    ensures v.own == map b | b in w.own && w.own[b].ino != ino :: w.own[b]
  {
    TruncParts(sb, w, v, ino, 0);
    hide Truncating, OwnExcept;
    forall b | b in v.own
      ensures b in w.own && w.own[b].ino != ino && v.own[b] == w.own[b]
    {
      TruncOwned(sb, w, v, ino, b);
    }
    TruncKept(sb, w, v, ino);
  }

  lemma {:induction false} TruncOwned(sb: Super, w: Volume, v: Volume, ino: nat, b: nat)
    requires Truncating(sb, w, v, ino, 0) && v.inodes[ino].addrs == seq(NDIRECT + 1, _ => 0) && b in v.own
    ensures b in w.own && v.own[b] == w.own[b] && v.own[b].ino != ino
  {
    LayoutFacts(sb);
    assert OwnerOk(sb, v.disk, v.inodes, v.own, b);
    hide LayoutOk, Mapped, Good, Word, OwnExcept;
  }

  lemma {:induction false} TruncKept(sb: Super, w: Volume, v: Volume, ino: nat)
    requires Truncating(sb, w, v, ino, 0)
    ensures forall b :: b in w.own && w.own[b].ino != ino ==> b in v.own
  {
    hide LayoutOk, Mapped, Good, OwnExcept;
  }

  lemma {:induction false} TruncOther(sb: Super, w: Volume, v: Volume, ino: nat, inodes': seq<Inode>, i: nat)
    requires Truncating(sb, w, v, ino, 0) && i < |v.inodes| && i != ino && InodesOk(w.inodes)
    requires inodes' == v.inodes[ino := Inode(v.inodes[ino].addrs, 0)] && InodesOk(inodes')
    ensures SameBlocks(w.disk, w.inodes, v.disk, inodes', i)
  {
    hide LayoutOk, Mapped, Used, OwnExcept;
    OwnedSlot(sb, w.disk, w.inodes, w.own, I(i));
    forall bn: nat | bn < MAXFILE && bn * BSIZE < w.inodes[i].size
      ensures var p := Ptr(w.disk, w.inodes, D(i, bn));
              Ptr(v.disk, inodes', D(i, bn)) == p && p < |w.disk| && v.disk[p] == w.disk[p]
    {
      OwnedSlot(sb, w.disk, w.inodes, w.own, D(i, bn));
      assert Ptr(w.disk, w.inodes, D(i, bn)) != 0;
      hide Word, Own;
    }
    hide Ptr, Own;
  }

  lemma {:induction false} TruncFilled(sb: Super, w: Volume, v: Volume, ino: nat, inodes': seq<Inode>)
    requires Truncating(sb, w, v, ino, 0) && InodesOk(w.inodes)
    requires inodes' == v.inodes[ino := Inode(v.inodes[ino].addrs, 0)] && InodesOk(inodes')
    requires forall i :: 0 <= i < |inodes'| && i != ino ==> SameBlocks(w.disk, w.inodes, v.disk, inodes', i)
    ensures Filled(v.disk, inodes')
  {
    hide LayoutOk, Mapped, Used, OwnExcept, Own, Ptr;
    forall i, bn: nat | 0 <= i < |inodes'| && bn < MAXFILE && bn * BSIZE < inodes'[i].size
      ensures Ptr(v.disk, inodes', D(i, bn)) != 0
    {
      assert SameBlocks(w.disk, w.inodes, v.disk, inodes', i);
      assert Ptr(w.disk, w.inodes, D(i, bn)) != 0;
    }
  }

  // ---------------------------------------------------------------- writei

  ghost predicate ByteThere(disk: seq<Block>, inodes: seq<Inode>, i: nat, k: nat)
    requires InodesOk(inodes) && i < |inodes|
  {
    BlockNo(k) < MAXFILE && Ptr(disk, inodes, D(i, BlockNo(k))) != 0
  }

  /** Byte k of file i is there, with value x. */
  ghost predicate Holds(disk: seq<Block>, inodes: seq<Inode>, i: nat, k: nat, x: nat)
    requires InodesOk(inodes) && i < |inodes|
  {
    ByteThere(disk, inodes, i, k) && ByteAt(disk, inodes, i, k) == x
  }

  function Max(a: nat, b: nat): nat {
    if a < b then b else a
  }

  ghost function ByteNow(disk0: seq<Block>, inodes0: seq<Inode>, ino: nat, off: nat, w: seq<nat>, k: nat): nat
    requires InodesOk(inodes0) && ino < |inodes0|
  {
    if off <= k < off + |w| then w[k - off] else ByteAt(disk0, inodes0, ino, k)
  }

  /** File ino has w written over it from off on, though its size is not yet updated; the other files are as they were.
      */
  ghost predicate Written(disk0: seq<Block>, inodes0: seq<Inode>, disk: seq<Block>, inodes: seq<Inode>, ino: nat,
      off: nat, w: seq<nat>) {
    && InodesOk(inodes0) && InodesOk(inodes) && |inodes| == |inodes0| && ino < |inodes|
    && (forall i :: 0 <= i < |inodes| ==> inodes[i].size == inodes0[i].size)
    && (forall i, k: nat :: 0 <= i < |inodes| && i != ino && k < inodes0[i].size ==>
          Holds(disk, inodes, i, k, ByteAt(disk0, inodes0, i, k)))
    && (forall k: nat :: k < Max(inodes0[ino].size, off + |w|) ==>
          Holds(disk, inodes, ino, k, ByteNow(disk0, inodes0, ino, off, w, k)))
  }

  lemma {:induction false} GoodFacts(sb: Super, disk: seq<Block>, inodes: seq<Inode>, own: map<nat, Slot>)
    requires Good(sb, disk, inodes, own)
    ensures InodesOk(inodes) && Own(sb, disk, inodes, own) && DiskOk(sb, disk) && Filled(disk, inodes)
  {
  }

  lemma {:induction false} NotYet(sb: Super, disk: seq<Block>, inodes: seq<Inode>, own: map<nat, Slot>, ino: nat,
      off: nat)
    requires Good(sb, disk, inodes, own) && ino < |inodes| && off <= inodes[ino].size
    ensures Written(disk, inodes, disk, inodes, ino, off, [])
  {
    hide Own, Mapped, LayoutOk, DiskOk, Filled, ByteAt, Ptr, BlockNo;
    GoodFacts(sb, disk, inodes, own);
    forall i, k: nat | 0 <= i < |inodes| && k < inodes[i].size
      ensures Holds(disk, inodes, i, k, ByteAt(disk, inodes, i, k))
    {
      Below(disk, inodes, i, k);
    }
  }

  lemma {:induction false} HoldsStill(disk: seq<Block>, inodes: seq<Inode>, disk': seq<Block>, inodes': seq<Inode>,
      i: nat, k: nat, x: nat)
    requires Extends(disk, inodes, disk', inodes') && i < |inodes| && Holds(disk, inodes, i, k, x)
    ensures Holds(disk', inodes', i, k, x)
  {
    hide Ptr, BlockNo, InBlock;
    assert SlotKept(disk, inodes, disk', inodes', D(i, BlockNo(k)));
  }

  lemma {:induction false} WrittenExtends(disk0: seq<Block>, inodes0: seq<Inode>, disk: seq<Block>, inodes: seq<Inode>,
                                          disk': seq<Block>, inodes': seq<Inode>, ino: nat, off: nat, w: seq<nat>)
    requires Written(disk0, inodes0, disk, inodes, ino, off, w) && Extends(disk, inodes, disk', inodes')
    ensures Written(disk0, inodes0, disk', inodes', ino, off, w)
  {
    hide Holds, ByteAt;
    forall i, k: nat | 0 <= i < |inodes| && i != ino && k < inodes0[i].size
      ensures Holds(disk', inodes', i, k, ByteAt(disk0, inodes0, i, k))
    {
      HoldsStill(disk, inodes, disk', inodes', i, k, ByteAt(disk0, inodes0, i, k));
    }
    forall k: nat | k < Max(inodes0[ino].size, off + |w|)
      ensures Holds(disk', inodes', ino, k, ByteNow(disk0, inodes0, ino, off, w, k))
    {
      HoldsStill(disk, inodes, disk', inodes', ino, k, ByteNow(disk0, inodes0, ino, off, w, k));
    }
  }

  /** One more chunk of src. */
  lemma {:induction false} WrittenMore(disk0: seq<Block>, inodes0: seq<Inode>, disk: seq<Block>, disk': seq<Block>,
      inodes: seq<Inode>,
                                       ino: nat, off: nat, src: seq<nat>, tot: nat, m: nat)
    requires tot + m <= |src| && InBlock(off + tot) + m <= BSIZE
             && Written(disk0, inodes0, disk, inodes, ino, off, src[..tot])
    requires forall s :: SlotIn(|inodes|, s) ==> Ptr(disk', inodes, s) == Ptr(disk, inodes, s)
    requires forall i, k :: 0 <= i < |inodes| && 0 <= k ==>
               ByteAt(disk', inodes, i, k) == if i == ino && off + tot <= k < off + tot + m
                   then src[tot..tot + m][k - (off + tot)] else ByteAt(disk, inodes, i, k)
    requires ByteThere(disk, inodes, ino, off + tot)
    ensures Written(disk0, inodes0, disk', inodes, ino, off, src[..tot + m])
  {
    hide Ptr, ByteAt, BlockNo, InBlock;
    forall i, k: nat | 0 <= i < |inodes| && i != ino && k < inodes0[i].size
      ensures Holds(disk', inodes, i, k, ByteAt(disk0, inodes0, i, k))
    {
      assert Holds(disk, inodes, i, k, ByteAt(disk0, inodes0, i, k));
    }
    var w, w' := src[..tot], src[..tot + m];
    forall k: nat | k < Max(inodes0[ino].size, off + |w'|)
      ensures Holds(disk', inodes, ino, k, ByteNow(disk0, inodes0, ino, off, w', k))
    {
      if off + tot <= k < off + tot + m {
        Nearby(off + tot, k - (off + tot));
      } else {
        assert k < Max(inodes0[ino].size, off + |w|);
        assert Holds(disk, inodes, ino, k, ByteNow(disk0, inodes0, ino, off, w, k));
      }
    }
  }

  /** if(off > ip->size) ip->size = off */
  function Sized(ip: Inode, off: nat): Inode {
    if off > ip.size then Inode(ip.addrs, off) else ip
  }

  ghost function Splice(f: seq<nat>, off: nat, w: seq<nat>): (r: seq<nat>)
    requires off <= |f|
    ensures |r| == Max(|f|, off + |w|)
  {
    f[..off] + w + if off + |w| < |f| then f[off + |w|..] else []
  }

  /** What file f becomes when the bytes w are put over it at off, and its size is that of a write of the first t of
      them. */
  ghost function WrittenFile(f: seq<nat>, off: nat, w: seq<nat>, t: nat): (r: seq<nat>)
    requires off <= |f| && t <= |w|
    ensures |r| == Max(|f|, off + t)
  {
    Splice(f, off, w)[..Max(|f|, off + t)]
  }

  /** Bytes w at position a of f change nothing below its end. */
  ghost predicate Unseen(f: seq<nat>, a: nat, w: seq<nat>) {
    forall i :: 0 <= i < |w| && a + i < |f| ==> f[a + i] == w[i]
  }

  /** The file is the old one with t bytes spliced in if and only if the others are not seen. */
  lemma {:induction false} SpliceIff(f: seq<nat>, off: nat, w: seq<nat>, t: nat)
    requires off <= |f| && t <= |w|
    ensures WrittenFile(f, off, w, t) == Splice(f, off, w[..t]) <==> Unseen(f, off + t, w[t..])
  {
    var g, h := WrittenFile(f, off, w, t), Splice(f, off, w[..t]);
    forall k | 0 <= k < |g|
      ensures g[k] == if off + t <= k < off + |w| then w[k - off] else h[k]
      ensures k >= off + t ==> h[k] == f[k]
    {
    }
    if g == h {
      forall i | 0 <= i < |w[t..]| && off + t + i < |f|
        ensures f[off + t + i] == w[t..][i]
      {
        assert g[off + t + i] == h[off + t + i];
      }
    }
    if Unseen(f, off + t, w[t..]) {
      forall k | 0 <= k < |g|
        ensures g[k] == h[k]
      {
        if off + t <= k < off + |w| { assert f[off + t + (k - off - t)] == w[t..][k - off - t]; }
      }
    }
  }

  /** Where a write from off stops when only good bytes of its source can be read: at the start of the block in which
      they end. */
  function Reached(off: nat, good: nat): nat {
    if BlockNo(off + good) == BlockNo(off) then 0 else BlockNo(off + good) * BSIZE - off
  }

  /** The file has no room at position k and cannot get any. */
  ghost predicate Starved(sb: Super, disk: seq<Block>, inodes: seq<Inode>, ino: nat, k: nat) {
    && FullDisk(sb, disk) && InodesOk(inodes) && ino < |inodes|
    && BlockNo(k) < MAXFILE && Ptr(disk, inodes, D(ino, BlockNo(k))) == 0
  }

  /** Where and why writei's loop stops: at the end; on a full disk, past the old end of the file; or where copyin
      fails, with the bytes that could be read of that block as stray ones. */
  ghost predicate WriteStops(n: nat, good: nat, off: nat, size: nat, starved: bool, r: nat, stray: nat) {
    && r <= n && r <= good && (r == n ==> stray == 0)
    && (r < n ==>
          || (starved && stray == 0 && off + r >= size && (r > 0 ==> InBlock(off + r) == 0))
          || (good < n && r == Reached(off, good) && stray == good - r))
  }

  /** From index lo to index hi the source is what the file has there anyway. */
  ghost predicate SameFrom(f: seq<nat>, off: nat, src: seq<nat>, lo: nat, hi: nat)
    requires hi <= |src|
  {
    forall i :: lo <= i < hi && off + i < |f| ==> f[off + i] == src[i]
  }

  /** What a caller of writei can check: the source can be read, or where it ends inside a block, its bytes in that
      block are those of the file. */
  ghost predicate WriteQuiet(f: seq<nat>, off: nat, src: seq<nat>, good: nat) {
    good >= |src| || SameFrom(f, off, src, Reached(off, good), good)
  }

  /** writei splices in exactly the bytes that it counts if and only if that check is passed. */
  lemma {:induction false} SpliceExactly(f: seq<nat>, off: nat, src: seq<nat>, good: nat, starved: bool, r: nat,
      stray: nat)
    requires off <= |f| && WriteStops(|src|, good, off, |f|, starved, r, stray)
    ensures r + stray <= |src|
    ensures WrittenFile(f, off, src[..r + stray], r) == Splice(f, off, src[..r]) <==> WriteQuiet(f, off, src, good)
  {
    hide WrittenFile, Splice, Reached, InBlock;
    assert src[..r + stray][..r] == src[..r] && src[..r + stray][r..] == src[r..r + stray];
    SpliceIff(f, off, src[..r + stray], r);
    UnseenSame(f, off, src, r, r + stray);
    if r < |src| && good < |src| && stray == 0 { BeforeReached(off, r, good); }
  }

  /** A block boundary up to good, or 0, is not past where the write stops. */
  lemma {:induction false} BeforeReached(off: nat, r: nat, good: nat)
    requires r <= good
    ensures r == 0 || InBlock(off + r) == 0 ==> r <= Reached(off, good)
  {
  }

  lemma {:induction false} UnseenSame(f: seq<nat>, off: nat, src: seq<nat>, lo: nat, hi: nat)
    requires lo <= hi <= |src|
    ensures Unseen(f, off + lo, src[lo..hi]) <==> SameFrom(f, off, src, lo, hi)
  {
    if Unseen(f, off + lo, src[lo..hi]) {
      forall i | lo <= i < hi && off + i < |f|
        ensures f[off + i] == src[i]
      {
        assert f[off + lo + (i - lo)] == src[lo..hi][i - lo];
      }
    }
  }

  /** The loop of writei has come to tot, and copies only some bytes of the block there. */
  lemma {:induction false} ReachedIs(off: nat, tot: nat, copied: nat)
    requires (tot > 0 ==> InBlock(off + tot) == 0) && InBlock(off + tot) + copied < BSIZE
    ensures Reached(off, tot + copied) == tot
  {
    Nearby(off + tot, copied);
  }

  // ---------------------------------------------------------------- filewrite's chunks

  /** What filewrite hands to writei at a time. */
  const CHUNK: nat := 3072

  function ChunkStart(i: nat): (c: nat)
    ensures c <= i < c + CHUNK
  {
    i / CHUNK * CHUNK
  }

  /** The end of the chunk that holds index i, in a source of n bytes. */
  function ChunkEnd(n: nat, i: nat): nat {
    Min(n, ChunkStart(i) + CHUNK)
  }

  /** Where filewrite stops when only good bytes can be read: at the start of a block or of a chunk. */
  function FileReached(off: nat, good: nat): nat {
    Max(ChunkStart(good), Reached(off, good))
  }

  /** Where and why filewrite stops: at the end; on a full disk, past the old end of the file; before a chunk that would
      make the file too big; or where copyin fails. */
  ghost predicate FileStops(n: nat, good: nat, off: nat, size: nat, starved: bool, done: nat, stray: nat) {
    && done <= n && done <= good && (done == n ==> stray == 0)
    && (done < n ==>
          || (starved && stray == 0 && off + done >= size && (done == ChunkStart(done) || InBlock(off + done) == 0))
          || (stray == 0 && done == ChunkStart(done) && off + ChunkEnd(n, done) > MAXFILE * BSIZE)
          || (good < n && off + ChunkEnd(n, good) <= MAXFILE * BSIZE && done == FileReached(off, good)
              && stray == good - done))
  }

  /** What a caller of filewrite can check: the source can be read, or the chunk in which it ends is not tried because
      it would make the file too big, or its bytes in the last block of that chunk are those of the file. */
  ghost predicate FileQuiet(f: seq<nat>, off: nat, src: seq<nat>, good: nat) {
    || good >= |src| || off + ChunkEnd(|src|, good) > MAXFILE * BSIZE
    || SameFrom(f, off, src, FileReached(off, good), good)
  }

  /** filewrite splices in exactly the bytes by which it moves f->off if and only if that check is passed. */
  lemma {:induction false} FileExactly(f: seq<nat>, off: nat, src: seq<nat>, good: nat, starved: bool, done: nat,
      stray: nat)
    requires off <= |f| && FileStops(|src|, good, off, |f|, starved, done, stray)
    ensures done + stray <= |src|
    ensures WrittenFile(f, off, src[..done + stray], done) == Splice(f, off, src[..done]) <==>
              FileQuiet(f, off, src, good)
  {
    hide WrittenFile, Splice, Reached, InBlock, ChunkStart;
    assert src[..done + stray][..done] == src[..done] && src[..done + stray][done..] == src[done..done + stray];
    SpliceIff(f, off, src[..done + stray], done);
    UnseenSame(f, off, src, done, done + stray);
    if done < |src| && good < |src| && stray == 0 {
      BeforeReached(off, done, good);
      ChunksInOrder(done, good);
    }
  }

  lemma {:induction false} ChunksInOrder(i: nat, j: nat)
    requires i <= j
    ensures ChunkStart(i) <= ChunkStart(j)
  {
  }

  /** The chunk at i, which is where good lies. */
  lemma {:induction false} ChunkReached(off: nat, i: nat, good: nat)
    requires i == ChunkStart(i) && i <= good < i + CHUNK
    ensures ChunkStart(good) == i && i + Reached(off + i, good - i) == FileReached(off, good)
  {
    ChunkIs(i, good);
    hide ChunkStart;
    assert BlockNo(off) <= BlockNo(off + i) <= BlockNo(off + good);
  }

  lemma {:induction false} ChunkIs(i: nat, j: nat)
    requires i == ChunkStart(i) && i <= j < i + CHUNK
    ensures ChunkStart(j) == i
  {
  }

  lemma {:induction false} NextChunk(i: nat)
    requires i == ChunkStart(i)
    ensures ChunkStart(i + CHUNK) == i + CHUNK
  {
  }

  lemma {:induction false} TooBig(n: nat, good: nat, off: nat, size: nat, starved: bool, i: nat, n1: nat)
    requires i == ChunkStart(i) && i < n && i <= good && n1 == Min(n - i, CHUNK) && off + i + n1 > MAXFILE * BSIZE
    ensures FileStops(n, good, off, size, starved, i, 0)
  {
    hide Reached, InBlock, ChunkStart;
  }

  lemma {:induction false} AllDone(n: nat, good: nat, off: nat, size: nat, starved: bool)
    requires n <= good
    ensures FileStops(n, good, off, size, starved, n, 0)
  {
  }

  lemma {:induction false} WholeChunk(n: nat, good: nat, off: nat, size: nat, starved: bool, stray: nat)
    requires WriteStops(n, good, off, size, starved, n, stray)
    ensures stray == 0 && n <= good
  {
  }

  /** How the last chunk ends is how filewrite ends. */
  lemma {:induction false} ChunkStops(n: nat, good: nat, off: nat, size: nat, size': nat, starved: bool, i: nat,
      n1: nat, r: nat, stray: nat)
    requires i == ChunkStart(i) && i < n && i <= good && n1 == Min(n - i, CHUNK) && size <= size'
    requires WriteStops(n1, good - i, off + i, size', starved, r, stray) && r < n1 && off + i + n1 <= MAXFILE * BSIZE
    ensures FileStops(n, good, off, size, starved, i + r, stray)
  {
    hide Reached, InBlock, ChunkStart;
    if good - i < n1 { ChunkReached(off, i, good); }
  }

  lemma {:induction false} PtrSized(disk: seq<Block>, inodes: seq<Inode>, ino: nat, off: nat, s: Slot)
    requires InodesOk(inodes) && ino < |inodes| && SlotIn(|inodes|, s)
    ensures InodesOk(inodes[ino := Sized(inodes[ino], off)])
    ensures Ptr(disk, inodes[ino := Sized(inodes[ino], off)], s) == Ptr(disk, inodes, s)
  {
  }

  lemma {:induction false} StarvedSized(sb: Super, disk: seq<Block>, inodes: seq<Inode>, ino: nat, off: nat, k: nat)
    requires InodesOk(inodes) && ino < |inodes|
    ensures Starved(sb, disk, inodes[ino := Sized(inodes[ino], off)], ino, k) <==> Starved(sb, disk, inodes, ino, k)
  {
    hide Ptr, BlockNo, FullDisk;
    if BlockNo(k) < MAXFILE { PtrSized(disk, inodes, ino, off, D(ino, BlockNo(k))); }
  }

  /** Updating the size after the loop: the file is the old one with w spliced in. */
  lemma {:induction false} Resized(sb: Super, disk0: seq<Block>, inodes0: seq<Inode>, disk: seq<Block>,
      inodes: seq<Inode>, own: map<nat, Slot>,
                                   ino: nat, off: nat, w: seq<nat>, t: nat)
    requires Good(sb, disk, inodes, own) && Written(disk0, inodes0, disk, inodes, ino, off, w)
    requires off <= inodes0[ino].size && off + |w| <= MAXFILE * BSIZE && t <= |w|
    ensures var inodes' := inodes[ino := Sized(inodes[ino], off + t)];
            && Good(sb, disk, inodes', own)
            && File(disk, inodes', ino) == WrittenFile(File(disk0, inodes0, ino), off, w, t)
            && (forall i :: 0 <= i < |inodes| && i != ino ==> File(disk, inodes', i) == File(disk0, inodes0, i))
  {
    hide Ptr, Mapped, LayoutOk, Own, Filled, BlockNo, InBlock, Written;
    WrittenShape(disk0, inodes0, disk, inodes, ino, off, w);
    var inodes' := inodes[ino := Sized(inodes[ino], off + t)];
    assert InodesOk(inodes');
    forall s | SlotIn(|inodes|, s)
      ensures Ptr(disk, inodes', s) == Ptr(disk, inodes, s)
    {
      PtrSized(disk, inodes, ino, off + t, s);
    }
    OwnSame(sb, disk, inodes, own, disk, inodes');
    hide File, ByteAt;
    ResizedFilled(disk0, inodes0, disk, inodes, inodes', ino, off, w, t);
    ResizedFile(disk0, inodes0, disk, inodes, inodes', ino, off, w, t);
    forall i | 0 <= i < |inodes| && i != ino
      ensures File(disk, inodes', i) == File(disk0, inodes0, i)
    {
      OtherFile(disk0, inodes0, disk, inodes, inodes', ino, off, w, t, i);
    }
  }

  lemma {:induction false} WrittenShape(disk0: seq<Block>, inodes0: seq<Inode>, disk: seq<Block>, inodes: seq<Inode>,
      ino: nat, off: nat, w: seq<nat>)
    requires Written(disk0, inodes0, disk, inodes, ino, off, w)
    ensures InodesOk(inodes0) && InodesOk(inodes) && |inodes| == |inodes0| && ino < |inodes|
    ensures forall i :: 0 <= i < |inodes| ==> inodes[i].size == inodes0[i].size
  {
  }

  lemma {:induction false} ResizedFilled(disk0: seq<Block>, inodes0: seq<Inode>, disk: seq<Block>, inodes: seq<Inode>,
      inodes': seq<Inode>,
                                         ino: nat, off: nat, w: seq<nat>, t: nat)
    requires t <= |w| && Filled(disk, inodes) && Written(disk0, inodes0, disk, inodes, ino, off, w)
             && off + |w| <= MAXFILE * BSIZE
    requires inodes' == inodes[ino := Sized(inodes[ino], off + t)] && InodesOk(inodes')
    requires forall s :: SlotIn(|inodes|, s) ==> Ptr(disk, inodes', s) == Ptr(disk, inodes, s)
    ensures Filled(disk, inodes')
  {
    hide Ptr, ByteAt;
    forall i, bn: nat | 0 <= i < |inodes'| && bn < MAXFILE && bn * BSIZE < inodes'[i].size
      ensures Ptr(disk, inodes', D(i, bn)) != 0
    {
      if i == ino {
        var k: nat := bn * BSIZE;
        assert k < Max(inodes0[ino].size, off + |w|);
        assert Holds(disk, inodes, ino, k, ByteNow(disk0, inodes0, ino, off, w, k));
        assert BlockNo(k) == bn;
      } else {
        assert Ptr(disk, inodes, D(i, bn)) != 0;
      }
    }
  }

  lemma {:induction false} ResizedFile(disk0: seq<Block>, inodes0: seq<Inode>, disk: seq<Block>, inodes: seq<Inode>,
      inodes': seq<Inode>,
                                       ino: nat, off: nat, w: seq<nat>, t: nat)
    requires t <= |w| && Written(disk0, inodes0, disk, inodes, ino, off, w) && off <= inodes0[ino].size
    requires inodes' == inodes[ino := Sized(inodes[ino], off + t)] && InodesOk(inodes')
    requires forall s :: SlotIn(|inodes|, s) ==> Ptr(disk, inodes', s) == Ptr(disk, inodes, s)
    ensures File(disk, inodes', ino) == WrittenFile(File(disk0, inodes0, ino), off, w, t)
  {
    hide Ptr, BlockNo, InBlock;
    var f, g := File(disk, inodes', ino), WrittenFile(File(disk0, inodes0, ino), off, w, t);
    assert |f| == |g|;
    forall k | 0 <= k < |f|
      ensures f[k] == g[k]
    {
      assert Holds(disk, inodes, ino, k, ByteNow(disk0, inodes0, ino, off, w, k));
      assert ByteAt(disk, inodes', ino, k) == ByteAt(disk, inodes, ino, k);
    }
  }

  lemma {:induction false} OtherFile(disk0: seq<Block>, inodes0: seq<Inode>, disk: seq<Block>, inodes: seq<Inode>,
      inodes': seq<Inode>,
                                     ino: nat, off: nat, w: seq<nat>, t: nat, i: nat)
    requires t <= |w| && Written(disk0, inodes0, disk, inodes, ino, off, w) && i < |inodes| && i != ino
    requires inodes' == inodes[ino := Sized(inodes[ino], off + t)] && InodesOk(inodes')
    requires forall s :: SlotIn(|inodes|, s) ==> Ptr(disk, inodes', s) == Ptr(disk, inodes, s)
    ensures File(disk, inodes', i) == File(disk0, inodes0, i)
  {
    hide Ptr, BlockNo, InBlock;
    var f, g := File(disk, inodes', i), File(disk0, inodes0, i);
    forall k | 0 <= k < |f|
      ensures f[k] == g[k]
    {
      assert Holds(disk, inodes, i, k, ByteAt(disk0, inodes0, i, k));
      assert ByteAt(disk, inodes', i, k) == ByteAt(disk, inodes, i, k);
    }
  }

  // ---------------------------------------------------------------- what writei logs

  /** What was written reads back, and the rest of the file is as before. */
  lemma {:induction false} SpliceReads(f: seq<nat>, off: nat, w: seq<nat>, k: nat, n: nat)
    requires off <= |f| && k + n <= |f| && (k + n <= off || off + |w| <= k)
    ensures Splice(f, off, w)[off..off + |w|] == w && Splice(f, off, w)[k..k + n] == f[k..k + n]
  {
  }

  lemma {:induction false} SpliceNone(f: seq<nat>, off: nat)
    requires off <= |f|
    ensures Splice(f, off, []) == f
  {
  }

  /** Splicing in one chunk after another splices in their concatenation. */
  lemma {:induction false} SpliceMore(f: seq<nat>, off: nat, src: seq<nat>, i: nat, n: nat, r: nat)
    requires i + n <= |src| && r <= n
    ensures src[i..i + n][..r] == src[i..i + r] && src[..i] + src[i..i + r] == src[..i + r]
    ensures off <= |f| ==>
              off + i <= |Splice(f, off, src[..i])|
              && Splice(Splice(f, off, src[..i]), off + i, src[i..i + r]) == Splice(f, off, src[..i + r])
  {
    if off <= |f| { SpliceTwice(f, off, src[..i], src[i..i + r]); }
  }

  /** A write that goes wrong, in any file of two bytes or more: the second byte of the source cannot be read.  writei
      reports that it wrote nothing, yet the first byte of the file has changed. */
  method StrayByte(fs: FileSystem, ino: nat) returns (r: int)
    requires fs.Valid() && ino < |fs.inodes| && fs.inodes[ino].size >= 2
    modifies fs
    ensures fs.Valid() && ino < |fs.inodes| && r == 0
            && File(fs.disk, fs.inodes, ino) != old(File(fs.disk, fs.inodes, ino))
  {
    hide Good, File, FullDisk, LoggedOk, WrittenFile;
    GoodFacts(fs.sb, fs.disk, fs.inodes, fs.own);
    ghost var f := File(fs.disk, fs.inodes, ino);
    var x := fs.FirstByte(ino);
    var src := [if x == 0 then 1 else 0, 0];
    ghost var stray;
    r, stray := fs.Writei(ino, 0, src, 1);
    StrayShows(f, src[..r + stray]);
  }

  lemma {:induction false} StrayShows(f: seq<nat>, w: seq<nat>)
    requires |f| >= 1 && |w| == 1 && w[0] != f[0]
    ensures WrittenFile(f, 0, w, 0) != f
  {
    assert WrittenFile(f, 0, w, 0)[0] == w[0];
  }

  /** A chunk after others, with stray bytes of its own. */
  lemma {:induction false} WrittenFileMore(f: seq<nat>, off: nat, src: seq<nat>, i: nat, n: nat, r: nat, stray: nat)
    requires i + n <= |src| && r + stray <= n && off <= |f|
    ensures off + i <= |Splice(f, off, src[..i])|
    ensures var g := WrittenFile(Splice(f, off, src[..i]), off + i, src[i..i + n][..r + stray], r);
            && g == WrittenFile(f, off, src[..i + r + stray], i + r)
            && (stray == 0 ==> g == Splice(f, off, src[..i + r]))
  {
    hide Splice;
    SpliceMore(f, off, src, i, n, r + stray);
    NoStray(f, off, src[..i + r]);
  }

  lemma {:induction false} NoStray(f: seq<nat>, off: nat, w: seq<nat>)
    requires off <= |f|
    ensures WrittenFile(f, off, w, |w|) == Splice(f, off, w)
  {
  }

  lemma {:induction false} SpliceTwice(f: seq<nat>, off: nat, a: seq<nat>, b: seq<nat>)
    requires off <= |f|
    ensures Splice(Splice(f, off, a), off + |a|, b) == Splice(f, off, a + b)
  {
    var g := Splice(f, off, a);
    assert g[..off + |a|] == f[..off] + a;
    if off + |a| + |b| < |g| { assert g[off + |a| + |b|..] == f[off + |a| + |b|..]; }
  }

  lemma {:induction false} OneMap(sb: Super)
    requires sb.size <= BPB
    ensures MapBlocks(sb) <= {sb.bmapstart}
  {
    forall c | c in MapBlocks(sb)
      ensures c == sb.bmapstart
    {
      var b :| 0 <= b < sb.size && c == BBlock(sb, b);
    }
  }

  /** Four blocks of a file and its indirect block are at most five. */
  lemma {:induction false} FewBlocks(disk: seq<Block>, inodes: seq<Inode>, ino: nat, lo: nat, hi: nat)
    requires InodesOk(inodes) && ino < |inodes| && lo <= hi <= lo + 4
    ensures |FileBlocks(disk, inodes, ino, lo, hi)| <= 5
  {
    hide Ptr;
    var five := {Ptr(disk, inodes, I(ino)), PtrOr(disk, inodes, ino, lo), PtrOr(disk, inodes, ino, lo + 1),
                 PtrOr(disk, inodes, ino, lo + 2), PtrOr(disk, inodes, ino, lo + 3)};
    forall c | c in FileBlocks(disk, inodes, ino, lo, hi)
      ensures c in five
    {
      if c != Ptr(disk, inodes, I(ino)) {
        var bn :| lo <= bn < hi && SlotIn(|inodes|, D(ino, bn)) && c == Ptr(disk, inodes, D(ino, bn));
        assert bn == lo || bn == lo + 1 || bn == lo + 2 || bn == lo + 3;
      }
    }
    SubsetSize(FileBlocks(disk, inodes, ino, lo, hi), five);
  }

  ghost function PtrOr(disk: seq<Block>, inodes: seq<Inode>, ino: nat, bn: nat): nat
    requires InodesOk(inodes) && ino < |inodes|
  {
    if bn < MAXFILE then Ptr(disk, inodes, D(ino, bn)) else 0
  }

  lemma {:induction false} SubsetSize(a: set<nat>, b: set<nat>)
    requires a <= b
    ensures |a| <= |b|
  {
    assert b == a + (b - a);
  }

  /** A chunk of filewrite logs at most six blocks beside the bitmap: four of data, the indirect block and the inode's.
      */
  lemma {:induction false} ChunkBudget(sb: Super, logged: set<nat>, disk: seq<Block>, inodes: seq<Inode>, ino: nat,
      off: nat, n: nat)
    requires InodesOk(inodes) && ino < |inodes| && n <= 3 * BSIZE
    requires LoggedOk(sb, {} + {IBlock(sb, ino)}, logged, disk, inodes, ino, BlockNo(off), BlockEnd(off, n))
    ensures |logged| <= 6 + |MapBlocks(sb)| && (sb.size <= BPB ==> |logged| <= 7)
  {
    ChunkSpan(off, n);
    if sb.size <= BPB {
      OneMap(sb);
      SubsetSize(MapBlocks(sb), {sb.bmapstart});
    }
    hide MapBlocks, IBlock, BlockNo, BlockEnd, FileBlocks;
    var blocks := FileBlocks(disk, inodes, ino, BlockNo(off), BlockEnd(off, n));
    FewBlocks(disk, inodes, ino, BlockNo(off), BlockEnd(off, n));
    var maps := MapBlocks(sb);
    assert logged <= {IBlock(sb, ino)} + maps + blocks;
    SubsetSize(logged, {IBlock(sb, ino)} + maps + blocks);
    UnionSize({IBlock(sb, ino)} + maps, blocks);
    UnionSize({IBlock(sb, ino)}, maps);
  }

  lemma {:induction false} UnionSize(a: set<nat>, b: set<nat>)
    ensures |a + b| <= |a| + |b|
  {
    SubsetSize(b - a, b);
    assert a + b == a + (b - a);
  }

  lemma {:induction false} ChunkSpan(off: nat, n: nat)
    requires n <= 3 * BSIZE
    ensures BlockNo(off) <= BlockEnd(off, n) <= BlockNo(off) + 4
  {
  }

  /** IBLOCK(i, sb), which iupdate logs. */
  function IBlock(sb: Super, ino: nat): nat {
    ino / IPB + sb.inodestart
  }

  lemma {:induction false} InodeLogged(sb: Super, was: set<nat>, logged: set<nat>, disk: seq<Block>, inodes: seq<Inode>,
      ino: nat, lo: nat, hi: nat, off: nat)
    requires LoggedOk(sb, was, logged, disk, inodes, ino, lo, hi)
    ensures LoggedOk(sb, was + {IBlock(sb, ino)}, logged + {IBlock(sb, ino)}, disk,
            inodes[ino := Sized(inodes[ino], off)], ino, lo, hi)
  {
    var inodes' := inodes[ino := Sized(inodes[ino], off)];
    assert InodesOk(inodes');
    forall s | SlotIn(|inodes|, s)
      ensures Ptr(disk, inodes', s) == Ptr(disk, inodes, s)
    {
      PtrSized(disk, inodes, ino, off, s);
    }
    hide Ptr, MapBlocks, IBlock;
    forall c | c in FileBlocks(disk, inodes, ino, lo, hi)
      ensures c in FileBlocks(disk, inodes', ino, lo, hi)
    {
    }
  }

  ghost function BlockEnd(off: nat, n: nat): nat {
    if n == 0 then BlockNo(off) else BlockNo(off + n - 1) + 1
  }

  lemma {:induction false} InRange(off: nat, n: nat, k: nat)
    requires off <= k < off + n
    ensures BlockNo(off) <= BlockNo(k) < BlockEnd(off, n)
  {
  }

  /** Blocks lo to hi of a file, and its indirect block. */
  ghost function FileBlocks(disk: seq<Block>, inodes: seq<Inode>, ino: nat, lo: nat, hi: nat): set<nat>
    requires InodesOk(inodes) && ino < |inodes|
  {
    (set bn | lo <= bn < hi && SlotIn(|inodes|, D(ino, bn)) ::
          Ptr(disk, inodes, D(ino, bn))) + {Ptr(disk, inodes, I(ino))} - {0}
  }

  ghost predicate LoggedOk(sb: Super, was: set<nat>, logged: set<nat>, disk: seq<Block>, inodes: seq<Inode>, ino: nat,
      lo: nat, hi: nat) {
    InodesOk(inodes) && ino < |inodes| && logged <= was + MapBlocks(sb) + FileBlocks(disk, inodes, ino, lo, hi)
  }

  lemma {:induction false} NoneLogged(sb: Super, was: set<nat>, disk: seq<Block>, inodes: seq<Inode>, ino: nat, lo: nat,
      hi: nat)
    requires InodesOk(inodes) && ino < |inodes|
    ensures LoggedOk(sb, was, was, disk, inodes, ino, lo, hi)
  {
  }

  lemma {:induction false} FileBlocksKept(disk: seq<Block>, inodes: seq<Inode>, disk': seq<Block>, inodes': seq<Inode>,
      ino: nat, lo: nat, hi: nat)
    requires Extends(disk, inodes, disk', inodes') && ino < |inodes|
    ensures FileBlocks(disk, inodes, ino, lo, hi) <= FileBlocks(disk', inodes', ino, lo, hi)
  {
    hide Ptr;
    forall c | c in FileBlocks(disk, inodes, ino, lo, hi)
      ensures c in FileBlocks(disk', inodes', ino, lo, hi)
    {
      if c == Ptr(disk, inodes, I(ino)) {
        assert SlotKept(disk, inodes, disk', inodes', I(ino));
      } else {
        var bn :| lo <= bn < hi && SlotIn(|inodes|, D(ino, bn)) && c == Ptr(disk, inodes, D(ino, bn));
        assert SlotKept(disk, inodes, disk', inodes', D(ino, bn));
      }
    }
  }

  lemma {:induction false} LoggedMore(sb: Super, was: set<nat>, logged: set<nat>, disk: seq<Block>, inodes: seq<Inode>,
                                      logged': set<nat>, disk': seq<Block>, inodes': seq<Inode>, ino: nat, lo: nat,
                                          hi: nat, bn: nat)
    requires LoggedOk(sb, was, logged, disk, inodes, ino, lo, hi) && Extends(disk, inodes, disk', inodes')
             && lo <= bn < hi && bn < MAXFILE
    requires logged' <= logged + MapBlocks(sb) + ({Ptr(disk', inodes', D(ino, bn)), Ptr(disk', inodes', I(ino))} - {0})
    ensures LoggedOk(sb, was, logged', disk', inodes', ino, lo, hi)
  {
    FileBlocksKept(disk, inodes, disk', inodes', ino, lo, hi);
    hide Ptr, MapBlocks;
    assert SlotIn(|inodes'|, D(ino, bn));
  }

  lemma {:induction false} LoggedLess(sb: Super, was: set<nat>, logged: set<nat>, more: set<nat>, disk: seq<Block>,
      inodes: seq<Inode>,
                                      ino: nat, lo: nat, hi: nat)
    requires LoggedOk(sb, was, more, disk, inodes, ino, lo, hi) && logged <= more
    ensures LoggedOk(sb, was, logged, disk, inodes, ino, lo, hi)
  {
  }

  /** A block that is not mapped lies past the end. */
  lemma {:induction false} PastEnd(disk: seq<Block>, inodes: seq<Inode>, ino: nat, off: nat)
    requires Filled(disk, inodes) && InodesOk(inodes) && ino < |inodes| && BlockNo(off) < MAXFILE
    requires Ptr(disk, inodes, D(ino, BlockNo(off))) == 0
    ensures off >= inodes[ino].size
  {
    hide Ptr;
    var bn := BlockNo(off);
    assert bn * BSIZE <= off;
  }

  lemma {:induction false} WrittenSizes(disk0: seq<Block>, inodes0: seq<Inode>, disk: seq<Block>, inodes: seq<Inode>,
      ino: nat, off: nat, w: seq<nat>)
    requires Written(disk0, inodes0, disk, inodes, ino, off, w)
    ensures ino < |inodes| == |inodes0| && inodes[ino].size == inodes0[ino].size
  {
  }

  lemma {:induction false} NextBlock(off: nat)
    ensures InBlock(off) < BSIZE && InBlock(off + (BSIZE - InBlock(off))) == 0
  {
  }

  lemma {:induction false} LoggedData(sb: Super, was: set<nat>, logged: set<nat>, disk: seq<Block>, disk': seq<Block>,
      inodes: seq<Inode>,
                                      ino: nat, lo: nat, hi: nat, bn: nat, addr: nat)
    requires LoggedOk(sb, was, logged, disk, inodes, ino, lo, hi) && lo <= bn < hi && bn < MAXFILE
    requires forall s :: SlotIn(|inodes|, s) ==> Ptr(disk', inodes, s) == Ptr(disk, inodes, s)
    requires addr == Ptr(disk, inodes, D(ino, bn)) && addr != 0
    ensures LoggedOk(sb, was, logged + {addr}, disk', inodes, ino, lo, hi)
  {
    hide Ptr, MapBlocks;
    assert SlotIn(|inodes|, D(ino, bn));
    forall c | c in FileBlocks(disk, inodes, ino, lo, hi)
      ensures c in FileBlocks(disk', inodes, ino, lo, hi)
    {
    }
  }

  /** The bitmap blocks. */
  ghost function MapBlocks(sb: Super): set<nat> {
    set b | 0 <= b < sb.size :: BBlock(sb, b)
  }

  lemma {:induction false} InMap(sb: Super, disk: seq<Block>, inodes: seq<Inode>, own: map<nat, Slot>, s: Slot)
    requires Own(sb, disk, inodes, own) && SlotIn(|inodes|, s) && Ptr(disk, inodes, s) != 0
    ensures BBlock(sb, Ptr(disk, inodes, s)) in MapBlocks(sb)
  {
    OwnedSlot(sb, disk, inodes, own, s);
  }

  lemma {:induction false} NoTable(disk: seq<Block>, inodes: seq<Inode>, ino: nat, bn: nat)
    requires InodesOk(inodes) && ino < |inodes| && NDIRECT <= bn < MAXFILE && Ptr(disk, inodes, I(ino)) == 0
    ensures Ptr(disk, inodes, D(ino, bn)) == 0
  {
  }

  lemma {:induction false} IndirectKept(disk: seq<Block>, inodes: seq<Inode>, disk': seq<Block>, inodes': seq<Inode>,
      ino: nat)
    requires Extends(disk, inodes, disk', inodes') && ino < |inodes| && Ptr(disk, inodes, I(ino)) != 0
    ensures Ptr(disk', inodes', I(ino)) == Ptr(disk, inodes, I(ino))
  {
    assert SlotKept(disk, inodes, disk', inodes', I(ino));
  }

  lemma {:induction false} FirstBlock(sb: Super, disk: seq<Block>, own: map<nat, Slot>, b: nat)
    requires LayoutOk(sb) && Mapped(sb, disk, own) && b < sb.size && !Used(sb, disk, b)
    ensures b >= sb.datastart > 0
  {
    hide Used;
  }

  lemma {:induction false} TakenIs(sb: Super, disk: seq<Block>, b: nat)
    requires BBlock(sb, b) < |disk| && |disk[BBlock(sb, b)]| == BSIZE && b < |disk|
    ensures Taken(sb, disk, b) == disk[BBlock(sb, b) := BitPut(disk[BBlock(sb, b)], ByteOf(b), BitIn(b),
            true)][b := seq(BSIZE, _ => 0)]
  {
  }
}
