/** The instruction walk of the PMD microcode disassembler: opcode lengths,
    the cursor walk over a block of code, little-endian assembly of an
    instruction word, and the two running offsets that the address and data
    immediates update. Printing is not modelled; the walk returns the
    decoded steps instead. */
module PmdBack {

  type Byte = b: int | 0 <= b < 0x100

  /** A value of the source's 32-bit `int` cells, as its bit pattern. */
  type U32 = x: int | 0 <= x < 0x1_0000_0000

  /* ---------- opcode lengths ---------- */

  /** The opcode / length pairs of the length table, in the source's
      order. */
  const OpTab: seq<(nat, nat)> := [
    (0x00, 1),
    (0x01, 1),
    (0x05, 1),
    (0x06, 1),
    (0x07, 1),
    (0x09, 1),
    (0x0a, 1),
    (0x0b, 1),
    (0x0d, 1),
    (0x0e, 1),
    (0x40, 3),
    (0x42, 3),
    (0x5f, 3),
    (0x7f, 1),
    (0xb0, 1),
    (0xd0, 1),
    (0xe0, 5),
    (0xe2, 5)
  ]

  /** The length the first n pairs of the table give op: the last
      matching pair wins, and no match gives 0. */
  function TableLength(op: Byte, n: nat): nat
    requires n <= |OpTab|
  {
    if n == 0 then 0
    else if OpTab[n - 1].0 == op then OpTab[n - 1].1
    else TableLength(op, n - 1)
  }

  /** The length of an opcode as the table gives it, 0 when the table
      does not list it. */
  function OpLength(op: Byte): nat {
    TableLength(op, |OpTab|)
  }

  /** The length lookup of the walk: a scan of the whole table. */
  method LookupLength(op: Byte) returns (length: nat)
    ensures length == OpLength(op)
  {
    length := 0;
    var i := 0;
    while i < |OpTab|
      invariant 0 <= i <= |OpTab|
      invariant length == TableLength(op, i)
    {
      if op == OpTab[i].0 {
        length := OpTab[i].1;
      }
      i := i + 1;
    }
  }

  /** The table lists its opcodes in ascending order. */
  lemma TableAscending(j: nat)
    requires j + 1 < |OpTab|
    ensures OpTab[j].0 < OpTab[j + 1].0
  {
  }

  /** Every listed opcode is a byte and every listed length is 1, 3 or
      5. */
  lemma TableEntry(j: nat)
    requires j < |OpTab|
    ensures OpTab[j].0 < 0x100
    ensures OpTab[j].1 == 1 || OpTab[j].1 == 3 || OpTab[j].1 == 5
  {
  }

  /** An opcode has length 0 (unknown), 1, 3 or 5. */
  lemma {:induction false} OpLengthValues(op: Byte)
    ensures OpLength(op) == 0 || OpLength(op) == 1 || OpLength(op) == 3 || OpLength(op) == 5
  {
    var n := 0;
    while n < |OpTab|
      invariant 0 <= n <= |OpTab|
      invariant TableLength(op, n) == 0 || TableLength(op, n) == 1 || TableLength(op, n) == 3 || TableLength(op, n) == 5
    {
      TableEntry(n);
      n := n + 1;
    }
  }

  /** The length of the opcode of pair j is the length of that pair: no
      later pair lists the same opcode. */
  lemma {:induction false} OpLengthOfPair(j: nat)
    requires j < |OpTab|
    ensures OpTab[j].0 < 0x100 && OpLength(OpTab[j].0 as Byte) == OpTab[j].1
  {
    TableEntry(j);
    var op := OpTab[j].0 as Byte;
    var n := j + 1;
    while n < |OpTab|
      invariant j < n <= |OpTab|
      invariant op < OpTab[n - 1].0 || n == j + 1
      invariant TableLength(op, n) == OpTab[j].1
    {
      TableAscending(n - 1);
      n := n + 1;
    }
  }

  /** An opcode the table does not list has length 0. */
  lemma {:induction false} OpLengthUnlisted(op: Byte)
    requires forall j :: 0 <= j < |OpTab| ==> OpTab[j].0 != op
    ensures OpLength(op) == 0
  {
    var n := 0;
    while n < |OpTab|
      invariant 0 <= n <= |OpTab|
      invariant TableLength(op, n) == 0
    {
      n := n + 1;
    }
  }

  /** The address and data opcodes carry a 16-bit (0x40, 0x42) or a
      32-bit (0xe0, 0xe2) immediate after the opcode byte; exit (0x7f) is
      one byte; 0x02 is not listed. */
  lemma OpLengthImmediates()
    ensures OpLength(0x40) == 3 && OpLength(0x42) == 3
    ensures OpLength(0xe0) == 5 && OpLength(0xe2) == 5
    ensures OpLength(0x7f) == 1
    ensures OpLength(0x02) == 0
  {
    OpLengthOfPair(10);
    OpLengthOfPair(11);
    OpLengthOfPair(16);
    OpLengthOfPair(17);
    OpLengthOfPair(13);
    OpLengthUnlisted(0x02);
  }

  /* ---------- little-endian words ---------- */

  function Pow256(n: nat): (r: nat)
    ensures r >= 1
  {
    if n == 0 then 1 else 0x100 * Pow256(n - 1)
  }

  /** The little-endian value of a byte string: byte i weighs 256^i. */
  function LittleEndian(s: seq<Byte>): nat {
    if |s| == 0 then 0 else s[0] + 0x100 * LittleEndian(s[1..])
  }

  /** The n low bytes of w, least significant first. */
  function LittleEndianBytes(w: nat, n: nat): (r: seq<Byte>)
    ensures |r| == n
  {
    if n == 0 then [] else [w % 0x100] + LittleEndianBytes(w / 0x100, n - 1)
  }

  /** A word of n bytes is below 256^n. */
  lemma {:induction false} LittleEndianBound(s: seq<Byte>)
    ensures LittleEndian(s) < Pow256(|s|)
  {
    if |s| > 0 {
      LittleEndianBound(s[1..]);
    }
  }

  /** Appending a byte adds it at weight 256^|s|: the step of the
      assembly loop. */
  lemma {:induction false} LittleEndianSnoc(s: seq<Byte>, b: Byte)
    ensures LittleEndian(s + [b]) == LittleEndian(s) + b * Pow256(|s|)
  {
    if |s| > 0 {
      var t := s + [b];
      assert t[0] == s[0] && t[1..] == s[1..] + [b];
      LittleEndianSnoc(s[1..], b);
      Distribute(LittleEndian(s[1..]), b, Pow256(|s| - 1));
    }
  }

  lemma Distribute(r: nat, b: nat, p: nat)
    ensures 0x100 * (r + b * p) == 0x100 * r + b * (0x100 * p)
  {
  }

  /** Decoding the bytes of a word that fits gives the word back. */
  lemma {:induction false} BytesRoundTrip(w: nat, n: nat)
    requires w < Pow256(n)
    ensures LittleEndian(LittleEndianBytes(w, n)) == w
  {
    if n > 0 {
      BytesRoundTrip(w / 0x100, n - 1);
      assert LittleEndianBytes(w, n)[1..] == LittleEndianBytes(w / 0x100, n - 1);
    }
  }

  /** Encoding a decoded byte string gives the bytes back. */
  lemma {:induction false} WordRoundTrip(s: seq<Byte>)
    ensures LittleEndianBytes(LittleEndian(s), |s|) == s
  {
    if |s| > 0 {
      WordRoundTrip(s[1..]);
      var w := LittleEndian(s);
      assert w % 0x100 == s[0];
      assert w / 0x100 == LittleEndian(s[1..]);
    }
  }

  /** The low byte of a word is its first byte. */
  lemma LowByte(s: seq<Byte>)
    requires |s| > 0
    ensures LittleEndian(s) % 0x100 == s[0]
  {
  }

  /** Dropping the low byte divides by 256. */
  lemma ShiftOutByte(s: seq<Byte>)
    requires |s| > 0
    ensures LittleEndian(s) / 0x100 == LittleEndian(s[1..])
  {
  }

  /** The assembly loop of the walk: the bytes [cur, cur + length) as one
      little-endian word. */
  method Assemble(code: seq<Byte>, cur: nat, length: nat) returns (a: nat)
    requires cur + length <= |code|
    ensures a == LittleEndian(code[cur..cur + length])
    ensures a < Pow256(length)
  {
    a := 0;
    var i := cur;
    while i < cur + length
      invariant cur <= i <= cur + length
      invariant a == LittleEndian(code[cur..i])
    {
      LittleEndianSnoc(code[cur..i], code[i]);
      assert code[cur..i + 1] == code[cur..i] + [code[i]];
      a := a + code[i] * Pow256(i - cur);
      i := i + 1;
    }
    LittleEndianBound(code[cur..cur + length]);
  }

  /* ---------- the walk ---------- */

  /** One step of the walk: an opcode whose length is unknown or runs
      past the end (one byte), or a whole instruction and its word. */
  datatype Step = Unknown(op: Byte) | Known(op: Byte, length: nat, word: nat)

  /** The bytes a step covers. */
  function Width(st: Step): nat {
    match st
    case Unknown(_) => 1
    case Known(_, length, _) => length
  }

  /** st is what the walk decodes at offset at of the first num bytes of
      code. */
  predicate DecodesAt(code: seq<Byte>, num: int, at: nat, st: Step) {
    at < num <= |code| &&
    match st
    case Unknown(op) =>
      op == code[at] && (OpLength(op) == 0 || at + OpLength(op) > num)
    case Known(op, length, word) =>
      op == code[at] && length == OpLength(op) && length != 0 && at + length <= num &&
      word == LittleEndian(code[at..at + length])
  }

  /** Where steps end when the first starts at offset at. */
  function Reach(at: nat, steps: seq<Step>): nat
    decreases |steps|
  {
    if |steps| == 0 then at else Reach(at + Width(steps[0]), steps[1..])
  }

  /** steps, started at offset at, decode one after the other: each where
      the one before it ended. */
  predicate Tiles(code: seq<Byte>, num: int, at: nat, steps: seq<Step>)
    decreases |steps|
  {
    |steps| == 0 ||
    (DecodesAt(code, num, at, steps[0]) && Tiles(code, num, at + Width(steps[0]), steps[1..]))
  }

  /** One more step where the others end extends the tiling: the step of
      the walk's loop. */
  lemma {:induction false} TilesSnoc(code: seq<Byte>, num: int, at: nat, steps: seq<Step>, st: Step)
    requires Tiles(code, num, at, steps)
    requires DecodesAt(code, num, Reach(at, steps), st)
    ensures Tiles(code, num, at, steps + [st])
    ensures Reach(at, steps + [st]) == Reach(at, steps) + Width(st)
    decreases |steps|
  {
    if |steps| > 0 {
      assert (steps + [st])[1..] == steps[1..] + [st];
      TilesSnoc(code, num, at + Width(steps[0]), steps[1..], st);
    } else {
      assert (steps + [st])[1..] == [];
    }
  }

  /** The walk over the first num bytes of code. It stops exactly at num,
      and every step is the one the length table dictates at the offset
      where the previous one ended. */
  method Pmdis(code: seq<Byte>, num: int) returns (steps: seq<Step>)
    requires num <= |code|
    ensures Tiles(code, num, 0, steps)
    ensures Reach(0, steps) == if num < 0 then 0 else num
  {
    var cur := 0;
    steps := [];
    while cur < num
      invariant 0 <= cur && (cur <= num || cur == 0)
      invariant Reach(0, steps) == cur
      invariant Tiles(code, num, 0, steps)
      decreases num - cur
    {
      var op := code[cur];
      var length := LookupLength(op);
      if length == 0 || cur + length > num {
        TilesSnoc(code, num, 0, steps, Unknown(op));
        steps := steps + [Unknown(op)];
        cur := cur + 1;
      } else {
        var a := Assemble(code, cur, length);
        TilesSnoc(code, num, 0, steps, Known(op, length, a));
        steps := steps + [Known(op, length, a)];
        cur := cur + length;
      }
    }
  }

  /** Every step advances: by one byte when the length is unknown or runs
      past the end, by the opcode's length otherwise. */
  lemma StepAdvances(code: seq<Byte>, num: int, at: nat, st: Step)
    requires DecodesAt(code, num, at, st)
    ensures st.Unknown? <==> OpLength(code[at]) == 0 || at + OpLength(code[at]) > num
    ensures st.Unknown? ==> Width(st) == 1
    ensures st.Known? ==> Width(st) == OpLength(code[at]) > 0 && at + Width(st) <= num
  {
  }

  /** At a given offset one step, and only one, decodes. */
  lemma DecodesAtUnique(code: seq<Byte>, num: int, at: nat, st1: Step, st2: Step)
    requires DecodesAt(code, num, at, st1) && DecodesAt(code, num, at, st2)
    ensures st1 == st2
  {
  }

  /** The instruction word of a known step fits its length. */
  lemma KnownWordBound(code: seq<Byte>, num: int, at: nat, st: Step)
    requires DecodesAt(code, num, at, st) && st.Known?
    ensures st.word < Pow256(st.length)
  {
    LittleEndianBound(code[at..at + st.length]);
  }

  /** The low byte of a known step's word is its opcode. */
  lemma KnownWordOpcode(code: seq<Byte>, num: int, at: nat, st: Step)
    requires DecodesAt(code, num, at, st) && st.Known?
    ensures st.word % 0x100 == st.op
  {
    LowByte(code[at..at + st.length]);
  }

  /** A tiling stays inside the first num bytes and moves forward: it
      ends no earlier than it starts, later when it is not empty. */
  lemma {:induction false} TilesForward(code: seq<Byte>, num: int, at: nat, steps: seq<Step>)
    requires Tiles(code, num, at, steps)
    ensures |steps| > 0 ==> at < Reach(at, steps) <= num
    ensures |steps| == 0 ==> Reach(at, steps) == at
    decreases |steps|
  {
    if |steps| > 0 {
      TilesForward(code, num, at + Width(steps[0]), steps[1..]);
    }
  }

  /** The walk's result is determined: two tilings from the same offset
      that end at the same offset are equal. */
  lemma {:induction false} TilesUnique(code: seq<Byte>, num: int, at: nat, s1: seq<Step>, s2: seq<Step>)
    requires Tiles(code, num, at, s1) && Tiles(code, num, at, s2)
    requires Reach(at, s1) == Reach(at, s2)
    ensures s1 == s2
    decreases |s1|
  {
    TilesForward(code, num, at, s1);
    TilesForward(code, num, at, s2);
    if |s1| > 0 && |s2| > 0 {
      DecodesAtUnique(code, num, at, s1[0], s2[0]);
      TilesUnique(code, num, at + Width(s1[0]), s1[1..], s2[1..]);
      assert s1 == [s1[0]] + s1[1..];
      assert s2 == [s2[0]] + s2[1..];
    }
  }

  /* ---------- running offsets ---------- */

  /** Bits 8-23 of an instruction word: its 16-bit immediate. */
  function Imm16(a: nat): nat {
    (a / 0x100) % 0x1_0000
  }

  /** Bits 8-39 of an instruction word: its 32-bit immediate. */
  function Imm32(a: nat): U32 {
    (a / 0x100) % 0x1_0000_0000
  }

  /** A 16-bit store keeps the high half of the cell and puts the
      immediate in the low half. */
  function Store16(n: U32, a: nat): U32 {
    (n / 0x1_0000) * 0x1_0000 + Imm16(a)
  }

  /** A 32-bit store replaces the whole cell. */
  function Store32(n: U32, a: nat): U32 {
    Imm32(a)
  }

  /** A 16-bit store splits as promised: high half kept, low half the
      immediate. */
  lemma Store16Halves(n: U32, a: nat)
    ensures Store16(n, a) / 0x1_0000 == n / 0x1_0000
    ensures Store16(n, a) % 0x1_0000 == Imm16(a)
  {
  }

  /** The 16-bit immediate of a three-byte instruction is its bytes 1-2,
      little-endian. */
  lemma Imm16Bytes(s: seq<Byte>)
    requires |s| == 3
    ensures Imm16(LittleEndian(s)) == LittleEndian(s[1..])
  {
    ShiftOutByte(s);
    LittleEndianBound(s[1..]);
  }

  /** The 32-bit immediate of a five-byte instruction is its bytes 1-4,
      little-endian. */
  lemma Imm32Bytes(s: seq<Byte>)
    requires |s| == 5
    ensures Imm32(LittleEndian(s)) == LittleEndian(s[1..])
  {
    assert Pow256(4) == 0x1_0000_0000 by {
      assert Pow256(2) == 0x1_0000;
    }
    ShiftOutByte(s);
    LittleEndianBound(s[1..]);
  }

  /** The high half of a four-byte word is its bytes 2-3. */
  lemma HighHalf(t: seq<Byte>)
    requires |t| == 4
    ensures LittleEndian(t) / 0x1_0000 == LittleEndian(t[2..])
  {
    assert t[1..][1..] == t[2..];
    ShiftOutByte(t);
    ShiftOutByte(t[1..]);
  }

  /** The offsets persist between instructions: a 32-bit store followed
      by a 16-bit one leaves bytes 3-4 of the first instruction in the
      high half and bytes 1-2 of the second in the low half. */
  lemma StorePersists(n: U32, s1: seq<Byte>, s2: seq<Byte>)
    requires |s1| == 5 && |s2| == 3
    ensures Store16(Store32(n, LittleEndian(s1)), LittleEndian(s2)) ==
            LittleEndian(s1[3..]) * 0x1_0000 + LittleEndian(s2[1..])
  {
    Imm32Bytes(s1);
    Imm16Bytes(s2);
    HighHalf(s1[1..]);
    assert s1[1..][2..] == s1[3..];
  }

  /** A second 16-bit store overrides the first and keeps the same high
      half. */
  lemma Store16Twice(n: U32, a1: nat, a2: nat)
    ensures Store16(Store16(n, a1), a2) == Store16(n, a2)
  {
  }

  /** The two running offsets: the address and the data cell. */
  datatype Cell = Addr | Data

  /** The offset cells the address and data immediates write through. A
      cell is only written when the disassembly goes to an output. */
  class OffsetCells {
    var addr: U32
    var data: U32

    /** Both cells start out as 0xdeaddead. */
    constructor ()
      ensures addr == 0xdead_dead && data == 0xdead_dead
    {
      addr := 0xdead_dead;
      data := 0xdead_dead;
    }

    /** The value of a cell. */
    function Value(c: Cell): U32
      reads this
    {
      match c
      case Addr => addr
      case Data => data
    }

    /** The 16-bit store of instruction word a into cell c. */
    method Atomst16(c: Cell, out: bool, a: nat)
      modifies this
      ensures !out ==> addr == old(addr) && data == old(data)
      ensures out && c == Addr ==> addr == Store16(old(addr), a) && data == old(data)
      ensures out && c == Data ==> data == Store16(old(data), a) && addr == old(addr)
    {
      if !out {
        return;
      }
      if c == Addr {
        addr := Store16(addr, a);
      } else {
        data := Store16(data, a);
      }
    }

    /** The 32-bit store of instruction word a into cell c. */
    method Atomst32(c: Cell, out: bool, a: nat)
      modifies this
      ensures !out ==> addr == old(addr) && data == old(data)
      ensures out && c == Addr ==> addr == Store32(old(addr), a) && data == old(data)
      ensures out && c == Data ==> data == Store32(old(data), a) && addr == old(addr)
    {
      if !out {
        return;
      }
      if c == Addr {
        addr := Store32(addr, a);
      } else {
        data := Store32(data, a);
      }
    }
  }
}
