// The raw register windows of pdm/driver/src/pdm_drv_hw.c: a range of physical addresses is
// intersected with a table of mapped windows and copied in units of two bytes.

module RegWindow {

  const FILL: bv8 := 0xCC

  // A window on values: the bytes at physical addresses phys, phys + 1, ..., and the byte of memory that
  // follows where the window is mapped.
  datatype Win = Win(phys: nat, bytes: seq<bv8>, next: bv8)

  predicate Covers(w: Win, a: int) { w.phys <= a < w.phys + |w.bytes| }

  // No address belongs to two windows. Empty windows may lie anywhere.
  ghost predicate Separate(ws: seq<Win>) {
    forall i, j, a {:trigger Covers(ws[i], a), Covers(ws[j], a)} ::
      0 <= i < j < |ws| ==> !(Covers(ws[i], a) && Covers(ws[j], a))
  }

  function Max(a: int, b: int): int { if a > b then a else b }
  function Min(a: int, b: int): int { if a < b then a else b }

  // How many bytes of the range [off, off + n) lie in the window.
  function Overlap(w: Win, off: int, n: int): int {
    Max(0, Min(off + n, w.phys + |w.bytes|) - Max(off, w.phys))
  }

  // All copies are of whole units.
  ghost predicate WholeUnits(ws: seq<Win>, off: int, n: int) {
    forall i {:trigger ws[i]} :: 0 <= i < |ws| ==> Overlap(ws[i], off, n) % 2 == 0
  }

  // Even windows and an even range make whole units.
  lemma EvenIsWhole(ws: seq<Win>, off: nat, n: nat)
    requires off % 2 == 0 && n % 2 == 0
    requires forall i {:trigger ws[i]} :: 0 <= i < |ws| ==> ws[i].phys % 2 == 0 && |ws[i].bytes| % 2 == 0
    ensures WholeUnits(ws, off, n)
  {
  }

  // The byte a read delivers for address a.
  function ByteAt(ws: seq<Win>, a: int): bv8 {
    if ws == [] then FILL
    else if Covers(ws[|ws| - 1], a) then ws[|ws| - 1].bytes[a - ws[|ws| - 1].phys]
    else ByteAt(ws[..|ws| - 1], a)
  }

  // Reading n bytes from physical address off.
  function ReadSpec(ws: seq<Win>, off: int, n: nat): seq<bv8> {
    seq(n, k => ByteAt(ws, off + k))
  }

  // One window after writing buf at physical address off.
  function WriteWin(w: Win, buf: seq<bv8>, off: int): Win {
    w.(bytes := seq(|w.bytes|, j requires 0 <= j < |w.bytes| =>
                      if off <= w.phys + j < off + |buf| then buf[w.phys + j - off] else w.bytes[j]))
  }

  function WriteSpec(ws: seq<Win>, buf: seq<bv8>, off: int): (r: seq<Win>) {
    seq(|ws|, i requires 0 <= i < |ws| => WriteWin(ws[i], buf, off))
  }

  // ---------- what reading and writing mean ----------

  lemma {:induction false} ByteAtMeaning(ws: seq<Win>, a: int)
    requires Separate(ws)
    ensures forall i :: 0 <= i < |ws| && Covers(ws[i], a) ==> ByteAt(ws, a) == ws[i].bytes[a - ws[i].phys]
    ensures (forall i :: 0 <= i < |ws| ==> !Covers(ws[i], a)) ==> ByteAt(ws, a) == FILL
  {
    if ws != [] {
      var front := ws[..|ws| - 1];
      assert Separate(front) by {
        forall i, j, b | 0 <= i < j < |front| ensures !(Covers(front[i], b) && Covers(front[j], b)) {
          assert !(Covers(ws[i], b) && Covers(ws[j], b));
        }
      }
      ByteAtMeaning(front, a);
      assert forall i :: 0 <= i < |front| ==> front[i] == ws[i];
    }
  }

  // A read delivers every covered byte from the window that covers it, and 0xCC for the others.
  lemma ReadMeaning(ws: seq<Win>, off: int, n: nat, k: nat)
    requires Separate(ws) && k < n
    ensures forall i :: 0 <= i < |ws| && Covers(ws[i], off + k) ==>
              ReadSpec(ws, off, n)[k] == ws[i].bytes[off + k - ws[i].phys]
    ensures (forall i :: 0 <= i < |ws| ==> !Covers(ws[i], off + k)) ==> ReadSpec(ws, off, n)[k] == 0xCC
  {
    ByteAtMeaning(ws, off + k);
  }

  lemma WriteSeparate(ws: seq<Win>, buf: seq<bv8>, off: int)
    requires Separate(ws)
    ensures Separate(WriteSpec(ws, buf, off))
  {
    var r := WriteSpec(ws, buf, off);
    forall i, j, a | 0 <= i < j < |r| ensures !(Covers(r[i], a) && Covers(r[j], a)) {
      assert !(Covers(ws[i], a) && Covers(ws[j], a));
    }
  }

  // What a read at any address delivers after a write: the byte written, if the address was in the
  // range and some window covers it; what it delivered before otherwise.
  lemma ReadAfterWrite(ws: seq<Win>, buf: seq<bv8>, off: int, a: int)
    requires Separate(ws)
    ensures ByteAt(WriteSpec(ws, buf, off), a) ==
              if off <= a < off + |buf| && (exists i :: 0 <= i < |ws| && Covers(ws[i], a))
              then buf[a - off] else ByteAt(ws, a)
  {
    var r := WriteSpec(ws, buf, off);
    WriteSeparate(ws, buf, off);
    ByteAtMeaning(ws, a);
    ByteAtMeaning(r, a);
    if i: nat :| i < |ws| && Covers(ws[i], a) {
      assert Covers(r[i], a);
    } else {
      assert forall i :: 0 <= i < |r| ==> !Covers(WriteWin(ws[i], buf, off), a);
    }
  }

  // Write, then read the same range: the bytes written come back wherever a window covers them.
  lemma WriteThenRead(ws: seq<Win>, buf: seq<bv8>, off: int, k: nat)
    requires Separate(ws) && k < |buf|
    ensures ReadSpec(WriteSpec(ws, buf, off), off, |buf|)[k] ==
              if exists i :: 0 <= i < |ws| && Covers(ws[i], off + k) then buf[k] else 0xCC
  {
    ReadAfterWrite(ws, buf, off, off + k);
    ByteAtMeaning(ws, off + k);
  }

  // Read, then write back: nothing changes.
  lemma ReadThenWrite(ws: seq<Win>, off: int, n: nat)
    requires Separate(ws)
    ensures WriteSpec(ws, ReadSpec(ws, off, n), off) == ws
  {
    var buf := ReadSpec(ws, off, n);
    forall i | 0 <= i < |ws| ensures WriteWin(ws[i], buf, off) == ws[i] {
      forall j | 0 <= j < |ws[i].bytes| ensures WriteWin(ws[i], buf, off).bytes[j] == ws[i].bytes[j] {
        ByteAtMeaning(ws, ws[i].phys + j);
        assert Covers(ws[i], ws[i].phys + j);
      }
    }
  }

  // ---------- copies in whole units ----------

  function From(w: Win, off: int): int { Max(off, w.phys) }

  // The copy of an odd number of bytes takes one byte more, at this address.
  predicate Spills(w: Win, off: int, n: int) { Overlap(w, off, n) % 2 == 1 }
  function SpillAt(w: Win, off: int, n: int): int { From(w, off) + Overlap(w, off, n) }

  predicate Copies(w: Win, off: int, n: int, a: int)
    ensures Copies(w, off, n, a) ==> w.phys <= a <= w.phys + |w.bytes| && off <= a <= off + n
  {
    From(w, off) <= a < SpillAt(w, off, n) + Overlap(w, off, n) % 2
  }

  function MemAt(w: Win, a: int): bv8
    requires w.phys <= a <= w.phys + |w.bytes|
  {
    if a < w.phys + |w.bytes| then w.bytes[a - w.phys] else w.next
  }

  // What is copied: the bytes of the range that the window covers, and the one that spills. That one
  // follows a byte of the range which the window covers, but is not such a byte itself.
  lemma CopiesWhat(w: Win, off: int, n: int, a: int)
    ensures Copies(w, off, n, a) <==>
              (off <= a < off + n && Covers(w, a)) || (Spills(w, off, n) && a == SpillAt(w, off, n))
    ensures Spills(w, off, n) && a == SpillAt(w, off, n) ==>
              off < a <= off + n && Covers(w, a - 1) && !(a < off + n && Covers(w, a))
  {
  }

  // The byte for address a after a read; before it, it is b.
  function UnitAt(ws: seq<Win>, off: int, n: int, a: int, b: bv8): bv8 {
    if ws == [] then b
    else if Copies(ws[|ws| - 1], off, n, a) then MemAt(ws[|ws| - 1], a)
    else UnitAt(ws[..|ws| - 1], off, n, a, b)
  }

  // The buffer after a read, and the byte after the buffer, which was b.
  function ReadUnits(ws: seq<Win>, off: int, n: nat, b: bv8): (r: seq<bv8>)
    ensures |r| == n + 1
  {
    seq(n, k => UnitAt(ws, off, n, off + k, FILL)) + [UnitAt(ws, off, n, off + n, b)]
  }

  // One window after a write; buf includes the byte after the buffer.
  function WriteUnitsWin(w: Win, buf: seq<bv8>, off: int): Win
    requires buf != []
  {
    var n, end := |buf| - 1, w.phys + |w.bytes|;
    w.(bytes := seq(|w.bytes|, j requires 0 <= j < |w.bytes| =>
                      if Copies(w, off, n, w.phys + j) then buf[w.phys + j - off] else w.bytes[j]),
       next := if Copies(w, off, n, end) then buf[end - off] else w.next)
  }

  function WriteUnits(ws: seq<Win>, buf: seq<bv8>, off: int): (r: seq<Win>)
    requires buf != []
  {
    seq(|ws|, i requires 0 <= i < |ws| => WriteUnitsWin(ws[i], buf, off))
  }

  lemma {:induction false} LastCopyStays(ws: seq<Win>, off: int, n: int, a: int, b: bv8, i: nat)
    requires i < |ws| && Copies(ws[i], off, n, a) && forall j :: i < j < |ws| ==> !Copies(ws[j], off, n, a)
    ensures UnitAt(ws, off, n, a, b) == MemAt(ws[i], a)
  {
    if i < |ws| - 1 { LastCopyStays(ws[..|ws| - 1], off, n, a, b, i); }
  }

  // Where nothing spills, a read in units gives the byte it should, and none beyond the range.
  lemma {:induction false} UnitIsByte(ws: seq<Win>, off: int, n: int, a: int, b: bv8)
    requires forall i :: 0 <= i < |ws| && Spills(ws[i], off, n) ==> SpillAt(ws[i], off, n) != a
    ensures off <= a < off + n ==> UnitAt(ws, off, n, a, FILL) == ByteAt(ws, a)
    ensures a == off + n ==> UnitAt(ws, off, n, a, b) == b
  {
    if ws != [] {
      CopiesWhat(ws[|ws| - 1], off, n, a);
      UnitIsByte(ws[..|ws| - 1], off, n, a, b);
    }
  }

  // Window i spills, and no later window copies the right byte over it.
  ghost predicate SpillStays(ws: seq<Win>, off: int, n: int, i: nat) {
    && i < |ws| && Spills(ws[i], off, n)
    && forall j {:trigger ws[j]} :: i < j < |ws| ==>
         !(SpillAt(ws[i], off, n) < off + n && Covers(ws[j], SpillAt(ws[i], off, n)))
  }

  // No two windows spill to one address.
  lemma SpillsApart(ws: seq<Win>, off: int, n: int, i: nat, j: nat)
    requires Separate(ws) && i < j < |ws| && Spills(ws[i], off, n) && Spills(ws[j], off, n)
    ensures SpillAt(ws[i], off, n) != SpillAt(ws[j], off, n)
  {
    var a, b := SpillAt(ws[i], off, n), SpillAt(ws[j], off, n);
    CopiesWhat(ws[i], off, n, a);
    CopiesWhat(ws[j], off, n, b);
    assert !(Covers(ws[i], a - 1) && Covers(ws[j], a - 1));
  }

  // A spilled byte that stays is what the read delivers there.
  lemma SpilledByte(ws: seq<Win>, off: int, n: int, i: nat, b: bv8)
    requires Separate(ws) && SpillStays(ws, off, n, i)
    ensures var a := SpillAt(ws[i], off, n);
            ws[i].phys <= a <= ws[i].phys + |ws[i].bytes| && UnitAt(ws, off, n, a, b) == MemAt(ws[i], a)
  {
    var a := SpillAt(ws[i], off, n);
    CopiesWhat(ws[i], off, n, a);
    forall j | i < j < |ws| ensures !Copies(ws[j], off, n, a) {
      CopiesWhat(ws[j], off, n, a);
      if Spills(ws[j], off, n) { SpillsApart(ws, off, n, i, j); }
    }
    LastCopyStays(ws, off, n, a, b, i);
  }

  // Anywhere else the read delivers what it should.
  lemma OtherByte(ws: seq<Win>, off: int, n: int, a: int, b: bv8)
    requires Separate(ws) && off <= a <= off + n
    requires forall i :: 0 <= i < |ws| && SpillStays(ws, off, n, i) ==> SpillAt(ws[i], off, n) != a
    ensures if a < off + n then UnitAt(ws, off, n, a, FILL) == ByteAt(ws, a) else UnitAt(ws, off, n, a, b) == b
  {
    if i: nat :| i < |ws| && Spills(ws[i], off, n) && SpillAt(ws[i], off, n) == a {
      assert !SpillStays(ws, off, n, i);
      var j :| i < j < |ws| && a < off + n && Covers(ws[j], a);
      CoveredByte(ws, off, n, a, i, j);
    } else {
      UnitIsByte(ws, off, n, a, b);
    }
  }

  // Window i spills over address a, and the later window j covers it.
  lemma CoveredByte(ws: seq<Win>, off: int, n: int, a: int, i: nat, j: nat)
    requires Separate(ws) && i < j < |ws| && off <= a < off + n && Covers(ws[j], a)
    requires Spills(ws[i], off, n) && SpillAt(ws[i], off, n) == a
    ensures UnitAt(ws, off, n, a, FILL) == ByteAt(ws, a)
  {
    CopiesWhat(ws[j], off, n, a);
    forall k | j < k < |ws| ensures !Copies(ws[k], off, n, a) {
      CopiesWhat(ws[k], off, n, a);
      assert !(Covers(ws[j], a) && Covers(ws[k], a));
      if Spills(ws[k], off, n) { SpillsApart(ws, off, n, i, k); }
    }
    LastCopyStays(ws, off, n, a, FILL, j);
    ByteAtMeaning(ws, a);
  }

  // For every range and every table of windows: a read delivers exactly what it should, and leaves the
  // memory after the buffer alone, if and only if every byte that spills and stays happens to be the right
  // one.
  lemma ReadExactIff(ws: seq<Win>, off: int, n: nat, b: bv8)
    requires Separate(ws)
    ensures ReadUnits(ws, off, n, b) == ReadSpec(ws, off, n) + [b] <==>
              SpillsRight(ws, off, n, b)
  {
    var r, q := ReadUnits(ws, off, n, b), ReadSpec(ws, off, n) + [b];
    if r == q {
      forall i: nat | SpillStays(ws, off, n, i) ensures SpillRight(ws, off, n, i, b) {
        var a := SpillAt(ws[i], off, n);
        CopiesWhat(ws[i], off, n, a);
        assert r[a - off] == q[a - off];
        SpilledByte(ws, off, n, i, if a < off + n then FILL else b);
      }
    }
    if SpillsRight(ws, off, n, b) {
      forall k | 0 <= k <= n ensures r[k] == q[k] { ReadByteRight(ws, off, n, b, k); }
    }
  }

  // The byte that window i spills is the one that should be there.
  ghost predicate SpillRight(ws: seq<Win>, off: int, n: nat, i: nat, b: bv8)
    requires i < |ws| && Spills(ws[i], off, n)
  {
    var a := SpillAt(ws[i], off, n);
    CopiesWhat(ws[i], off, n, a);
    MemAt(ws[i], a) == if a < off + n then ByteAt(ws, a) else b
  }

  ghost predicate SpillsRight(ws: seq<Win>, off: int, n: nat, b: bv8) {
    forall i: nat {:trigger SpillStays(ws, off, n, i)} :: SpillStays(ws, off, n, i) ==> SpillRight(ws, off, n, i, b)
  }

  lemma ReadByteRight(ws: seq<Win>, off: int, n: nat, b: bv8, k: nat)
    requires Separate(ws) && k <= n
    requires SpillsRight(ws, off, n, b)
    ensures ReadUnits(ws, off, n, b)[k] == if k < n then ByteAt(ws, off + k) else b
  {
    if i: nat :| SpillStays(ws, off, n, i) && SpillAt(ws[i], off, n) == off + k {
      SpilledByte(ws, off, n, i, if k < n then FILL else b);
    } else {
      OtherByte(ws, off, n, off + k, b);
    }
  }

  // In particular if all copies are of whole units, however the windows lie.
  lemma ReadWhole(ws: seq<Win>, off: int, n: nat, b: bv8)
    requires WholeUnits(ws, off, n)
    ensures ReadUnits(ws, off, n, b) == ReadSpec(ws, off, n) + [b]
  {
    var r, q := ReadUnits(ws, off, n, b), ReadSpec(ws, off, n) + [b];
    forall k | 0 <= k <= n ensures r[k] == q[k] { UnitIsByte(ws, off, n, off + k, b); }
  }

  // Likewise a write changes exactly the covered bytes in range, and not the memory after a window, if and
  // only if every byte that spills is the one there already.
  lemma WriteExactIff(ws: seq<Win>, buf: seq<bv8>, off: int)
    requires buf != []
    ensures var n := |buf| - 1;
            WriteUnits(ws, buf, off) == WriteSpec(ws, buf[..n], off) <==>
              forall i {:trigger ws[i]} :: 0 <= i < |ws| && Spills(ws[i], off, n) ==> Unchanged(ws[i], buf, off)
  {
    var n, r, q := |buf| - 1, WriteUnits(ws, buf, off), WriteSpec(ws, buf[..|buf| - 1], off);
    forall i | 0 <= i < |ws| ensures r[i] == q[i] <==> (Spills(ws[i], off, n) ==> Unchanged(ws[i], buf, off)) {
      WriteWinExactIff(ws[i], buf, off);
    }
  }

  // The byte that spills from buf into the window, or just after it, is there already.
  ghost predicate Unchanged(w: Win, buf: seq<bv8>, off: int)
    requires buf != [] && Spills(w, off, |buf| - 1)
  {
    var a := SpillAt(w, off, |buf| - 1);
    CopiesWhat(w, off, |buf| - 1, a);
    buf[a - off] == MemAt(w, a)
  }

  lemma WriteWinExactIff(w: Win, buf: seq<bv8>, off: int)
    requires buf != []
    ensures var n := |buf| - 1;
            WriteUnitsWin(w, buf, off) == WriteWin(w, buf[..n], off) <==> (Spills(w, off, n) ==> Unchanged(w, buf, off))
  {
    var n, w1, w2 := |buf| - 1, WriteUnitsWin(w, buf, off), WriteWin(w, buf[..|buf| - 1], off);
    forall j | 0 <= j < |w.bytes|
      ensures w1.bytes[j] == w2.bytes[j] || (Spills(w, off, n) && w.phys + j == SpillAt(w, off, n))
    {
      CopiesWhat(w, off, n, w.phys + j);
    }
    CopiesWhat(w, off, n, w.phys + |w.bytes|);
    if Spills(w, off, n) {
      var a := SpillAt(w, off, n);
      CopiesWhat(w, off, n, a);
      if a < w.phys + |w.bytes| {
        assert w1.bytes[a - w.phys] == buf[a - off] && w2.bytes[a - w.phys] == w.bytes[a - w.phys];
      }
    }
    assert w1 == w2 <==> w1.bytes == w2.bytes && w1.next == w2.next;
  }

  lemma WriteWhole(ws: seq<Win>, buf: seq<bv8>, off: int)
    requires buf != [] && WholeUnits(ws, off, |buf| - 1)
    ensures WriteUnits(ws, buf, off) == WriteSpec(ws, buf[..|buf| - 1], off)
  {
    WriteExactIff(ws, buf, off);
  }

  // One byte read from a window of two: the second goes beyond the buffer.
  lemma OddReadWitness() returns (ws: seq<Win>)
    ensures Separate(ws) && ReadUnits(ws, 0, 1, 0) == [1, 2] && ReadSpec(ws, 0, 1) == [1]
  {
    ws := [Win(0, [1, 2], 3)];
    assert ws[..0] == [];
  }

  // ---------- the copying loops ----------

  // A row of s_card_addr after mapping; memory goes on after the window.
  datatype Row = Row(phys: nat, size: nat, mem: array<bv8>)

  predicate Mapped(row: Row) { row.size < row.mem.Length }

  ghost function WinOf(row: Row): (w: Win)
    requires Mapped(row)
    reads row.mem
  {
    Win(row.phys, row.mem[..row.size], row.mem[row.size])
  }

  ghost function View(rows: seq<Row>): (ws: seq<Win>)
    requires forall i :: 0 <= i < |rows| ==> Mapped(rows[i])
    reads set i | 0 <= i < |rows| :: rows[i].mem
    ensures |ws| == |rows| && forall i :: 0 <= i < |rows| ==> ws[i] == WinOf(rows[i])
  {
    seq(|rows|, i requires 0 <= i < |rows| && Mapped(rows[i]) reads set i | 0 <= i < |rows| :: rows[i].mem =>
                  WinOf(rows[i]))
  }

  // The memory further on
  ghost function Tail(row: Row): seq<bv8>
    requires Mapped(row)
    reads row.mem
  {
    row.mem[row.size + 1..]
  }

  ghost function Tails(rows: seq<Row>): (ts: seq<seq<bv8>>)
    requires forall i :: 0 <= i < |rows| ==> Mapped(rows[i])
    reads set i | 0 <= i < |rows| :: rows[i].mem
    ensures |ts| == |rows| && forall i :: 0 <= i < |rows| ==> ts[i] == Tail(rows[i])
  {
    seq(|rows|, i requires 0 <= i < |rows| && Mapped(rows[i]) reads set i | 0 <= i < |rows| :: rows[i].mem =>
                  Tail(rows[i]))
  }

  ghost predicate DistinctRows(rows: seq<Row>) {
    forall i, j :: 0 <= i < j < |rows| ==> rows[i].mem != rows[j].mem
  }

  // memset
  method Memset(buf: array<bv8>, v: bv8, n: nat)
    requires n <= buf.Length
    modifies buf
    ensures forall m :: 0 <= m < buf.Length ==> buf[m] == if m < n then v else old(buf[m])
  {
    for k := 0 to n
      invariant forall m :: 0 <= m < buf.Length ==> buf[m] == if m < k then v else old(buf[m])
    {
      buf[k] := v;
    }
  }

  // The inner loop of both directions: all registers are two bytes wide, so an odd length is rounded up,
  // and one byte past the range is copied.
  method CopyUnits(dst: array<bv8>, d: nat, src: array<bv8>, s: nat, len: nat)
    requires dst != src && d + len + len % 2 <= dst.Length && s + len + len % 2 <= src.Length
    modifies dst
    ensures forall m :: 0 <= m < dst.Length ==>
              dst[m] == if d <= m < d + len + len % 2 then src[s + m - d] else old(dst[m])
  {
    var pDst, pSrc, j := d, s, 0;
    while j < len
      invariant 0 <= j <= len + len % 2 && j % 2 == 0 && pDst == d + j && pSrc == s + j
      invariant forall m :: 0 <= m < dst.Length ==> dst[m] == if d <= m < d + j then src[s + m - d] else old(dst[m])
    {
      dst[pDst], dst[pDst + 1] := src[pSrc], src[pSrc + 1];
      pDst, pSrc, j := pDst + 2, pSrc + 2, j + 2;
    }
  }

  // The part of a read that one window serves
  method ReadRow(buf: array<bv8>, n: nat, off: nat, row: Row)
    requires row.mem != buf && n < buf.Length && Mapped(row)
    modifies buf
    ensures forall m :: 0 <= m < buf.Length ==>
              buf[m] == if Copies(WinOf(row), off, n, off + m) then MemAt(WinOf(row), off + m) else old(buf[m])
  {
    var start := Max(off, row.phys);
    var end := Min(n - 1 + off, row.size - 1 + row.phys);
    if end >= start {
      assert end - start + 1 == Overlap(WinOf(row), off, n);
      CopyUnits(buf, start - off, row.mem, start - row.phys, end - start + 1);
    }
  }

  // pdm_raw_reg_read. The array holds the buffer, n bytes long, and what follows it in memory.
  method RawRegRead(buf: array<bv8>, n: nat, off: nat, rows: seq<Row>)
    requires n < buf.Length && forall i :: 0 <= i < |rows| ==> Mapped(rows[i]) && rows[i].mem != buf
    modifies buf
    ensures buf[..n + 1] == ReadUnits(View(rows), off, n, old(buf[n])) && buf[n + 1..] == old(buf[n + 1..])
  {
    ghost var ws, b := View(rows), buf[n];
    Memset(buf, FILL, n);
    for i := 0 to |rows|
      invariant View(rows) == ws
      invariant ReadUpTo(buf[..n + 1], ws, i, off, b) && buf[n + 1..] == old(buf[n + 1..])
    {
      ReadNextRow(buf, n, off, rows, i, ws, b);
    }
    assert ws[..|rows|] == ws;
  }

  method ReadNextRow(buf: array<bv8>, n: nat, off: nat, rows: seq<Row>, i: nat, ghost ws: seq<Win>, ghost b: bv8)
    requires n < buf.Length && i < |rows| == |ws| && Mapped(rows[i]) && rows[i].mem != buf && WinOf(rows[i]) == ws[i]
    requires ReadUpTo(buf[..n + 1], ws, i, off, b)
    modifies buf
    ensures ReadUpTo(buf[..n + 1], ws, i + 1, off, b) && buf[n + 1..] == old(buf[n + 1..])
  {
    ghost var before := buf[..];
    ReadRow(buf, n, off, rows[i]);
    forall m | n < m < buf.Length ensures buf[m] == before[m] { assert !Copies(ws[i], off, n, off + m); }
    ReadNext(before[..n + 1], buf[..n + 1], ws, i, off, b);
  }

  // The bytes r are what reading from the first i windows gives.
  ghost predicate ReadUpTo(r: seq<bv8>, ws: seq<Win>, i: nat, off: int, b: bv8)
    requires i <= |ws| && r != []
  {
    forall m :: 0 <= m < |r| ==>
      r[m] == UnitAt(ws[..i], off, |r| - 1, off + m, if m < |r| - 1 then FILL else b)
  }

  lemma ReadNext(r: seq<bv8>, r': seq<bv8>, ws: seq<Win>, i: nat, off: int, b: bv8)
    requires i < |ws| && r != [] && |r'| == |r| && ReadUpTo(r, ws, i, off, b)
    requires forall m :: 0 <= m < |r| ==>
               r'[m] == if Copies(ws[i], off, |r| - 1, off + m) then MemAt(ws[i], off + m) else r[m]
    ensures ReadUpTo(r', ws, i + 1, off, b)
  {
    assert ws[..i + 1][..i] == ws[..i];
  }

  // The part of a write that goes to one window
  method WriteRow(row: Row, buf: array<bv8>, n: nat, off: nat)
    requires row.mem != buf && n < buf.Length && Mapped(row)
    modifies row.mem
    ensures Stored(row, WriteUnitsWin(old(WinOf(row)), buf[..n + 1], off), old(Tail(row)))
  {
    ghost var w, mem := WinOf(row), row.mem[..];
    var start := Max(off, row.phys);
    var end := Min(n - 1 + off, row.size - 1 + row.phys);
    if end >= start {
      assert end - start + 1 == Overlap(w, off, n);
      CopyUnits(row.mem, start - row.phys, buf, start - off, end - start + 1);
    }
    MemoryIs(mem, row.mem[..], row.size, w, buf[..n + 1], off);
  }

  // What a row's memory holds: the window w, and the bytes tail beyond.
  ghost predicate Stored(row: Row, w: Win, tail: seq<bv8>)
    reads row.mem
  {
    Mapped(row) && WinOf(row) == w && Tail(row) == tail
  }

  lemma MemoryIs(mem: seq<bv8>, mem': seq<bv8>, size: nat, w: Win, buf: seq<bv8>, off: int)
    requires size < |mem| == |mem'| && buf != [] && w == Win(w.phys, mem[..size], mem[size])
    requires forall m :: 0 <= m < |mem| ==>
               mem'[m] == if Copies(w, off, |buf| - 1, w.phys + m) then buf[w.phys + m - off] else mem[m]
    ensures Win(w.phys, mem'[..size], mem'[size]) == WriteUnitsWin(w, buf, off) && mem'[size + 1..] == mem[size + 1..]
  {
    assert mem'[..size] == WriteUnitsWin(w, buf, off).bytes;
  }

  // pdm_raw_reg_write
  method RawRegWrite(buf: array<bv8>, n: nat, off: nat, rows: seq<Row>)
    requires n < buf.Length && DistinctRows(rows)
    requires forall i :: 0 <= i < |rows| ==> Mapped(rows[i]) && rows[i].mem != buf
    modifies set i | 0 <= i < |rows| :: rows[i].mem
    ensures View(rows) == WriteUnits(old(View(rows)), buf[..n + 1], off) && Tails(rows) == old(Tails(rows))
  {
    ghost var ws, ts := View(rows), Tails(rows);
    for i := 0 to |rows|
      invariant WrittenUpTo(rows, i, ws, ts, buf[..n + 1], off)
    {
      WriteNextRow(rows, i, ws, ts, buf, n, off);
    }
  }

  // The first i rows have been written.
  ghost predicate WrittenUpTo(rows: seq<Row>, i: nat, ws: seq<Win>, ts: seq<seq<bv8>>, bytes: seq<bv8>, off: int)
    reads set i | 0 <= i < |rows| :: rows[i].mem
  {
    && i <= |rows| == |ws| == |ts| && bytes != [] && DistinctRows(rows)
    && (forall k :: 0 <= k < i ==> Stored(rows[k], WriteUnitsWin(ws[k], bytes, off), ts[k]))
    && (forall k :: i <= k < |rows| ==> Stored(rows[k], ws[k], ts[k]))
  }

  method WriteNextRow(rows: seq<Row>, i: nat, ghost ws: seq<Win>, ghost ts: seq<seq<bv8>>, buf: array<bv8>, n: nat,
                      off: nat)
    requires n < buf.Length && i < |rows| && forall k :: 0 <= k < |rows| ==> rows[k].mem != buf
    requires WrittenUpTo(rows, i, ws, ts, buf[..n + 1], off)
    modifies rows[i].mem
    ensures WrittenUpTo(rows, i + 1, ws, ts, buf[..n + 1], off)
  {
    assert Stored(rows[i], ws[i], ts[i]);
    WriteRow(rows[i], buf, n, off);
  }
}
