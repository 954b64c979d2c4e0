/** The random-access input the engine pulls bytes from: the read callback
    (readFunction in the CLI, SonivoxTest::readAt in the tests) and the size
    callback (sizeFunction, SonivoxTest::getSize). */
module Source {

  type byte = bv8

  /** A C `int`: 32-bit two's complement. */
  type Int32 = x: int | -0x8000_0000 <= x < 0x8000_0000

  function Min(a: int, b: int): int {
    if a <= b then a else b
  }

  /** What a read callback does to the descriptor: seek to `offset` within the
      region, then ask read(2) for `count` bytes. */
  datatype Request = Request(offset: int, count: int)

  /** The clamp both read callbacks apply before reading, with the sum
      `offset + size` computed exactly. */
  function ClampRequest(offset: int, size: int, length: int): (r: Request)
    ensures r.offset == Min(offset, length)
    ensures r.count == Min(size, length - r.offset)
    ensures r.offset + r.count <= length
    ensures 0 <= size && 0 <= length ==> 0 <= r.count
    ensures 0 <= size && offset >= length ==> r.count == 0
  {
    var off := if offset > length then length else offset;
    var n := if off + size > length then length - off else size;
    Request(off, n)
  }

  /** Two's-complement wrap of a mathematical integer to 32 bits. */
  function Wrap32(x: int): Int32 {
    var m := x % 0x1_0000_0000;
    if m < 0x8000_0000 then m else m - 0x1_0000_0000
  }

  /** The clamp as the C code evaluates it: `offset` and `size` are `int`, so
      `offset + size` is a 32-bit sum, which wraps on typical targets. */
  function ClampRequestAsWritten(offset: Int32, size: Int32, length: int): (r: Request)
    requires 0 <= length
    ensures -0x8000_0000 <= offset + size < 0x8000_0000 ==> r == ClampRequest(offset, size, length)
  {
    var off := if offset > length then length else offset;
    var n := if Wrap32(off + size) > length then length - off else size;
    Request(off, n)
  }

  /** With the wrapped sum, a request of 0x7FFF_FFFF bytes at offset 50 of a
      100-byte region slips past the guard: the count stays unclamped. */
  lemma ClampWrapCounterexample()
    ensures ClampRequestAsWritten(50, 0x7FFF_FFFF, 100).offset
            + ClampRequestAsWritten(50, 0x7FFF_FFFF, 100).count > 100
    ensures ClampRequest(50, 0x7FFF_FFFF, 100) == Request(50, 50)
  {
    assert Wrap32(50 + 0x7FFF_FFFF) < 0;
  }

  /** The open input as the callbacks see it: everything the descriptor can
      read, the base offset of the readable region (mBase) and its length
      (mLength). */
  datatype InputFile = InputFile(contents: seq<byte>, base: nat, length: int)

  predicate Valid(f: InputFile) {
    0 <= f.length && f.base + f.length <= |f.contents|
  }

  /** The bytes the callbacks may hand out. */
  function Region(f: InputFile): seq<byte>
    requires Valid(f)
  {
    f.contents[f.base .. f.base + f.length]
  }

  /** Both drivers: base 0, length the size stat(2) reports for the file. */
  function OpenInput(contents: seq<byte>): (f: InputFile)
    ensures Valid(f)
    ensures Region(f) == contents
    ensures |contents| < 0x8000_0000 ==> GetSize(f) == |contents|
  {
    InputFile(contents, 0, |contents|)
  }

  /** The size callback: mLength is 64 bits wide, the callback returns a C
      `int`, so the length is truncated to 32 bits. */
  function GetSize(f: InputFile): (n: Int32)
    ensures 0 <= f.length < 0x8000_0000 ==> n == f.length
    ensures 0x8000_0000 <= f.length < 0x1_0000_0000 ==> n == f.length - 0x1_0000_0000
  {
    Wrap32(f.length)
  }

  /** A file of 2 GiB or more is reported to the engine with a negative
      size. */
  lemma LargeFileSizeIsNegative(contents: seq<byte>)
    requires 0x8000_0000 <= |contents| < 0x1_0000_0000
    ensures GetSize(OpenInput(contents)) < 0
  {
  }

  /** What read(2) hands back: its return value and the bytes it stored. */
  datatype ReadReply = ReadReply(result: int, bytes: seq<byte>)

  /** read(2) on a regular file positioned at `pos`, asked for `n` bytes. The
      operating system's answer is the script entry `granted`: a negative
      entry is a failure, returned as -1; otherwise up to `granted` bytes are
      delivered, never more than asked for and never past the end of the
      file. */
  function ReadFd(contents: seq<byte>, pos: nat, n: nat, granted: int): (r: ReadReply)
    ensures r.result == -1 <==> granted < 0
    ensures 0 <= granted ==> r.result == |r.bytes|
    ensures |r.bytes| <= n
    ensures pos <= |contents| ==> pos + |r.bytes| <= |contents| && r.bytes == contents[pos .. pos + |r.bytes|]
    ensures n <= granted && pos + n <= |contents| ==> |r.bytes| == n
  {
    if granted < 0 then ReadReply(-1, [])
    else if pos >= |contents| then ReadReply(0, [])
    else
      var k := Min(Min(n, granted), |contents| - pos);
      ReadReply(k, contents[pos .. pos + k])
  }

  /** The read callback: clamp, seek to base + offset, read. A failed read(2)
      reaches the engine as -1; otherwise the bytes come from the region at
      the clamped offset, and a read that delivers all it is asked for
      returns exactly the clamped count. */
  function ReadAt(f: InputFile, offset: nat, size: nat, granted: int): (r: ReadReply)
    requires Valid(f)
    ensures r.result == -1 <==> granted < 0
    ensures 0 <= granted ==> r.result == |r.bytes|
    ensures |r.bytes| <= Min(size, f.length - Min(offset, f.length))
    ensures r.bytes == Region(f)[Min(offset, f.length) .. Min(offset, f.length) + |r.bytes|]
    ensures Min(size, f.length - Min(offset, f.length)) <= granted ==>
              |r.bytes| == Min(size, f.length - Min(offset, f.length))
    ensures offset >= f.length ==> r.bytes == []
  {
    var req := ClampRequest(offset, size, f.length);
    var r := ReadFd(f.contents, f.base + req.offset, req.count, granted);
    RegionSlice(f, req.offset, req.offset + |r.bytes|);
    r
  }

  /** A request that runs past the end of the region, granted by read(2),
      returns exactly the rest of the region from the offset. */
  lemma ReadPastEndReturnsRest(f: InputFile, offset: nat, size: nat, granted: int)
    requires Valid(f) && offset <= f.length && f.length <= offset + size
    requires f.length - offset <= granted
    ensures ReadAt(f, offset, size, granted) == ReadReply(f.length - offset, Region(f)[offset ..])
  {
  }

  /** A slice of the region is the matching slice of the descriptor's
      contents, shifted by the base. */
  lemma RegionSlice(f: InputFile, i: nat, j: nat)
    requires Valid(f) && i <= j <= f.length
    ensures Region(f)[i .. j] == f.contents[f.base + i .. f.base + j]
  {
    forall k | 0 <= k < j - i
      ensures Region(f)[i .. j][k] == f.contents[f.base + i .. f.base + j][k]
    {
      assert Region(f)[i .. j][k] == Region(f)[i + k];
    }
  }

  /** Reading the size the size callback reports, from offset 0, yields the
      whole file when read(2) delivers everything and the file is under
      2 GiB. */
  lemma ReadWholeFile(contents: seq<byte>, granted: int)
    requires |contents| < 0x8000_0000 && |contents| <= granted
    ensures ReadAt(OpenInput(contents), 0, GetSize(OpenInput(contents)), granted).bytes == contents
  {
  }

  /** A short read returns a prefix of what a complete read returns. */
  lemma ShortReadIsPrefix(f: InputFile, offset: nat, size: nat, granted: int)
    requires Valid(f)
    ensures var short := ReadAt(f, offset, size, granted).bytes;
            var full := ReadAt(f, offset, size, size).bytes;
            |short| <= |full| && short == full[..|short|]
  {
  }

  /** Two consecutive reads return what one read of the combined size returns,
      when read(2) delivers all it is asked for, so the engine sees the same
      bytes however it splits its requests. */
  lemma ReadAtConcat(f: InputFile, offset: nat, a: nat, b: nat)
    requires Valid(f)
    ensures ReadAt(f, offset, a, a).bytes + ReadAt(f, offset + a, b, b).bytes == ReadAt(f, offset, a + b, a + b).bytes
  {
    var region := Region(f);
    if offset >= f.length {
    } else if offset + a >= f.length {
      assert ReadAt(f, offset + a, b, b).bytes == [];
      assert ReadAt(f, offset, a, a).bytes == region[offset .. f.length];
    } else {
      var x := ReadAt(f, offset, a, a).bytes;
      var y := ReadAt(f, offset + a, b, b).bytes;
      var z := ReadAt(f, offset, a + b, a + b).bytes;
      assert x == region[offset .. offset + a];
      assert y == region[offset + a .. offset + a + |y|];
      assert z == region[offset .. offset + a + |y|];
      assert x + y == z;
    }
  }
}
