/**
 * A logic memory cell block: a fixed number of double cells that processors read and
 * write, saved as a length-prefixed run of doubles and loaded back tolerantly.
 */
module MemoryBlocks {
  import opened Wrappers
  import opened Streams

  /** The block's default `memoryCapacity`. */
  const DefaultCapacity: nat := 32

  /** The doubles of a memory image, one word per cell in index order. */
  function Doubles(cells: seq<Cell>): (ws: seq<Word>)
    ensures |ws| == |cells|
    ensures forall k :: 0 <= k < |cells| ==> ws[k] == WriteD(cells[k])
  {
    seq(|cells|, k requires 0 <= k < |cells| => WriteD(cells[k]))
  }

  /** What `write` stores for a memory array: its length as an int, then every cell. */
  function Image(cells: seq<Cell>): seq<Word>
  {
    [WriteI(|cells|)] + Doubles(cells)
  }

  /**
   * Up to `n` doubles taken off the front of `ws`: the cells obtained and, when all `n`
   * were there, the rest of the stream (None when a double was missing).
   */
  function TakeDoubles(ws: seq<Word>, n: int): (r: (seq<Cell>, Option<seq<Word>>))
    ensures |r.0| <= |ws|
    ensures n >= 0 && r.1.Some? ==> |r.0| == n
    decreases if n < 0 then 0 else n
  {
    if n <= 0 then ([], Some(ws))
    else match ReadD(ws)
      case None => ([], None)
      case Some((c, rest)) =>
        var t := TakeDoubles(rest, n - 1);
        ([c] + t.0, t.1)
  }

  /** What `read` gets from a stream: the stored count, then that many doubles. */
  function ReadImage(ws: seq<Word>): (seq<Cell>, Option<seq<Word>>)
  {
    match ReadI(ws)
    case None => ([], None)
    case Some((n, rest)) => TakeDoubles(rest, n)
  }

  /**
   * The memory after loading `vals`: each loaded value lands at its index when that
   * index is inside the array, and every other cell keeps its value.
   */
  function Overlay(mem: seq<Cell>, vals: seq<Cell>): (r: seq<Cell>)
    ensures |r| == |mem|
    ensures forall i :: 0 <= i < |mem| && i < |vals| ==> r[i] == vals[i]
    ensures forall i :: |vals| <= i < |mem| ==> r[i] == mem[i]
  {
    seq(|mem|, i requires 0 <= i < |mem| => if i < |vals| then vals[i] else mem[i])
  }

  /** A stream holding `cells` as doubles yields exactly those cells and nothing past them. */
  lemma {:induction false} TakeWrittenDoubles(cells: seq<Cell>, tail: seq<Word>)
    ensures TakeDoubles(Doubles(cells) + tail, |cells|) == (cells, Some(tail))
  {
    var ws := Doubles(cells) + tail;
    if cells == [] {
      assert ws == tail;
    } else {
      assert ws[0] == Double(cells[0]);
      assert ws[1..] == Doubles(cells[1..]) + tail;
      assert ReadD(ws) == Some((cells[0], ws[1..]));
      TakeWrittenDoubles(cells[1..], tail);
      assert [cells[0]] + cells[1..] == cells;
    }
  }

  /**
   * Reading a saved image consumes exactly the stored count of doubles, whatever the
   * capacity of the block that reads it, and leaves the rest of the stream.
   */
  lemma ReadConsumesStoredCount(cells: seq<Cell>, tail: seq<Word>)
    requires IsInt(|cells|)
    ensures ReadImage(Image(cells) + tail) == (cells, Some(tail))
  {
    var ws := Image(cells) + tail;
    assert ws == [WriteI(|cells|)] + (Doubles(cells) + tail);
    IntRoundTrip(|cells|, Doubles(cells) + tail);
    TakeWrittenDoubles(cells, tail);
  }

  /** Saving a block and loading the image into a block of the same capacity restores every cell. */
  lemma WriteReadRoundTrip(before: seq<Cell>, cells: seq<Cell>, tail: seq<Word>)
    requires |before| == |cells| && IsInt(|cells|)
    ensures ReadImage(Image(cells) + tail).1 == Some(tail)
    ensures Overlay(before, ReadImage(Image(cells) + tail).0) == cells
  {
    ReadConsumesStoredCount(cells, tail);
  }

  /** The building of a memory block. */
  class MemoryBuild {
    var memory: array<Cell>

    ghost predicate Valid()
      reads this
    {
      IsInt(memory.Length)
    }

    /** A new building holds `capacity` cells, all zero. */
    constructor (capacity: nat)
      requires IsInt(capacity)
      ensures Valid() && fresh(memory)
      ensures memory.Length == capacity
      ensures forall i :: 0 <= i < capacity ==> memory[i] == Cell(0)
    {
      memory := new Cell[capacity](_ => Cell(0));
    }

    /** Memory blocks can never be picked up: their size would desynchronise clients. */
    function CanPickup(): (r: bool)
      ensures !r
    {
      false
    }

    /** Appends the memory image (length, then each cell in index order) to `out`. */
    method Write(out: seq<Word>) returns (written: seq<Word>)
      requires Valid()
      ensures written == out + Image(memory[..])
    {
      written := out + [WriteI(memory.Length)];
      for i := 0 to memory.Length
        invariant written == out + [WriteI(memory.Length)] + Doubles(memory[..i])
      {
        assert memory[..i + 1] == memory[..i] + [memory[i]];
        written := written + [WriteD(memory[i])];
      }
      assert memory[..memory.Length] == memory[..];
    }

    /**
     * Loads a memory image: reads the stored count, then that many doubles, keeping the
     * ones whose index is inside the array. Returns the rest of the stream, or None when
     * the stream ended early or was malformed; the cells read before that point stay written.
     */
    method Read(input: seq<Word>) returns (rest: Option<seq<Word>>)
      requires Valid()
      modifies memory
      ensures Valid()
      ensures memory[..] == Overlay(old(memory[..]), ReadImage(input).0)
      ensures rest == ReadImage(input).1
    {
      var count := ReadI(input);
      if count.None? {
        return None;
      }
      var amount := count.value.0;
      var ws := count.value.1;
      ghost var got: seq<Cell> := [];
      assert got + TakeDoubles(ws, amount).0 == TakeDoubles(ws, amount).0;
      var i := 0;
      while i < amount
        invariant 0 <= i && (amount >= 0 ==> i <= amount)
        invariant |got| == i
        invariant ReadImage(input) == (got + TakeDoubles(ws, amount - i).0, TakeDoubles(ws, amount - i).1)
        invariant memory[..] == Overlay(old(memory[..]), got)
      {
        var d := ReadD(ws);
        if d.None? {
          return None;
        }
        var val := d.value.0;
        ghost var t := TakeDoubles(d.value.1, amount - i - 1);
        assert TakeDoubles(ws, amount - i) == ([val] + t.0, t.1);
        assert got + ([val] + t.0) == (got + [val]) + t.0;
        if i < memory.Length {
          memory[i] := val;
        }
        got := got + [val];
        ws := d.value.1;
        i := i + 1;
      }
      rest := Some(ws);
    }
  }
}
