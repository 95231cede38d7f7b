/** Files, file locations and the byte positions they denote.

    A *cell* is one byte position of one file. A list of file locations denotes
    the sequence of its cells in order, so two lists that cut the same bytes at
    different places denote the same cells. */
module Layout {

  newtype byte = x: int | 0 <= x < 256

  type Bytes = seq<byte>
  type Path = string
  type Cell = (Path, nat)
  type Disk = map<Path, Bytes>

  datatype Option<+T> = None | Some(value: T)

  datatype FileLocation = FileLocation(path: Path, pos: nat, size: nat)

  datatype Chunk = Chunk(
    index: nat,
    key: string,
    url: Option<string>,
    checksum: Bytes,
    size: nat,
    destinations: seq<FileLocation>)

  function Min(a: nat, b: nat): nat {
    if a <= b then a else b
  }

  function Cells(d: FileLocation): (r: seq<Cell>)
    ensures |r| == d.size
  {
    seq(d.size, i requires 0 <= i < d.size => (d.path, d.pos + i))
  }

  function AllCells(ds: seq<FileLocation>): (r: seq<Cell>) {
    if ds == [] then [] else Cells(ds[0]) + AllCells(ds[1..])
  }

  /** The cells of a stack of locations, top (last element) first. */
  function StackCells(stack: seq<FileLocation>): seq<Cell> {
    if stack == [] then [] else Cells(stack[|stack| - 1]) + StackCells(stack[..|stack| - 1])
  }

  function SumSizes(ds: seq<FileLocation>): nat {
    if ds == [] then 0 else ds[0].size + SumSizes(ds[1..])
  }

  /** The paths of the zero-size locations, in order. */
  function Empties(ds: seq<FileLocation>): seq<Path> {
    if ds == [] then [] else
    (if ds[0].size == 0 then [ds[0].path] else []) + Empties(ds[1..])
  }

  function StackEmpties(stack: seq<FileLocation>): seq<Path> {
    if stack == [] then [] else
    var top := stack[|stack| - 1];
    (if top.size == 0 then [top.path] else []) + StackEmpties(stack[..|stack| - 1])
  }

  function Reversed<T>(s: seq<T>): (r: seq<T>)
    ensures |r| == |s|
  {
    if s == [] then [] else Reversed(s[1..]) + [s[0]]
  }

  function Flatten<T>(ss: seq<seq<T>>): seq<T> {
    if ss == [] then [] else ss[0] + Flatten(ss[1..])
  }

  ghost predicate NoRepeats<T(!new)>(s: seq<T>) {
    forall i, j :: 0 <= i < j < |s| ==> s[i] != s[j]
  }

  predicate HasIndex(chunks: seq<Chunk>, index: nat) {
    exists k :: 0 <= k < |chunks| && chunks[k].index == index
  }

  ghost predicate DistinctIndexes(chunks: seq<Chunk>) {
    forall i, j :: 0 <= i < j < |chunks| ==> chunks[i].index != chunks[j].index
  }

  function Elements(s: seq<nat>): set<nat> {
    set x | x in s
  }

  function Indexes(n: nat): (r: set<nat>)
    ensures forall i: nat :: i in r <==> i < n
  {
    if n == 0 then {} else Indexes(n - 1) + {n - 1}
  }

  lemma {:induction false} SubsetCount<T>(a: set<T>, b: set<T>)
    requires a <= b
    ensures |a| <= |b|
  {
    if x :| x in a {
      SubsetCount(a - {x}, b - {x});
    }
  }

  lemma ElementsAppend(s: seq<nat>, x: nat)
    ensures Elements(s + [x]) == Elements(s) + {x}
  {
    assert forall y :: y in s + [x] <==> y in s || y == x;
  }

  /** `data[k]` is the byte of its file at cell `cells[k]`. */
  ghost predicate BytesAt(disk: Disk, cells: seq<Cell>, data: Bytes) {
    && |cells| == |data|
    && forall k :: 0 <= k < |cells| ==> HasByte(disk, cells[k], data[k])
  }

  predicate HasByte(disk: Disk, c: Cell, b: byte) {
    c.0 in disk && c.1 < |disk[c.0]| && disk[c.0][c.1] == b
  }

  lemma BytesAtConcat(disk: Disk, c1: seq<Cell>, d1: Bytes, c2: seq<Cell>, d2: Bytes)
    requires BytesAt(disk, c1, d1) && BytesAt(disk, c2, d2)
    ensures BytesAt(disk, c1 + c2, d1 + d2)
  {
  }

  // ---- laws of the definitions above -------------------------------------

  lemma {:induction false} AllCellsConcat(a: seq<FileLocation>, b: seq<FileLocation>)
    ensures AllCells(a + b) == AllCells(a) + AllCells(b)
  {
    if a == [] {
      assert a + b == b;
    } else {
      assert (a + b)[1..] == a[1..] + b;
      AllCellsConcat(a[1..], b);
    }
  }

  lemma {:induction false} EmptiesConcat(a: seq<FileLocation>, b: seq<FileLocation>)
    ensures Empties(a + b) == Empties(a) + Empties(b)
  {
    if a == [] {
      assert a + b == b;
    } else {
      assert (a + b)[1..] == a[1..] + b;
      EmptiesConcat(a[1..], b);
    }
  }

  lemma {:induction false} SumSizesConcat(a: seq<FileLocation>, b: seq<FileLocation>)
    ensures SumSizes(a + b) == SumSizes(a) + SumSizes(b)
  {
    if a == [] {
      assert a + b == b;
    } else {
      assert (a + b)[1..] == a[1..] + b;
      SumSizesConcat(a[1..], b);
    }
  }

  lemma SumSizesTop(stack: seq<FileLocation>)
    requires stack != []
    ensures SumSizes(stack) == SumSizes(stack[..|stack| - 1]) + stack[|stack| - 1].size
  {
    var n := |stack| - 1;
    assert stack == stack[..n] + [stack[n]];
    SumSizesConcat(stack[..n], [stack[n]]);
    assert SumSizes([stack[n]]) == stack[n].size;
  }

  lemma {:induction false} CellCount(ds: seq<FileLocation>)
    ensures |AllCells(ds)| == SumSizes(ds)
  {
    if ds != [] {
      CellCount(ds[1..]);
    }
  }

  lemma {:induction false} StackOfReversed(ds: seq<FileLocation>)
    ensures StackCells(Reversed(ds)) == AllCells(ds)
    ensures StackEmpties(Reversed(ds)) == Empties(ds)
  {
    if ds != [] {
      var r := Reversed(ds);
      assert r[..|r| - 1] == Reversed(ds[1..]);
      StackOfReversed(ds[1..]);
    }
  }

  lemma {:induction false} StackCellCount(stack: seq<FileLocation>)
    ensures |StackCells(stack)| == SumSizes(stack)
  {
    if stack != [] {
      SumSizesTop(stack);
      StackCellCount(stack[..|stack| - 1]);
    }
  }

  lemma {:induction false} ReversedAppend<T>(s: seq<T>, x: T)
    ensures Reversed(s + [x]) == [x] + Reversed(s)
  {
    if s != [] {
      assert (s + [x])[1..] == s[1..] + [x];
      ReversedAppend(s[1..], x);
    }
  }

  lemma AllCellsCons(d: FileLocation, ds: seq<FileLocation>)
    ensures AllCells([d] + ds) == Cells(d) + AllCells(ds)
  {
    assert ([d] + ds)[1..] == ds;
  }

  lemma EmptiesCons(d: FileLocation, ds: seq<FileLocation>)
    ensures Empties([d] + ds) == (if d.size == 0 then [d.path] else []) + Empties(ds)
  {
    assert ([d] + ds)[1..] == ds;
  }

  lemma FlattenCons<T>(s: seq<T>, ss: seq<seq<T>>)
    ensures Flatten([s] + ss) == s + Flatten(ss)
  {
    assert ([s] + ss)[1..] == ss;
  }

  lemma {:induction false} FlattenAppend<T>(ss: seq<seq<T>>, s: seq<T>)
    ensures Flatten(ss + [s]) == Flatten(ss) + s
  {
    if ss == [] {
      assert ss + [s] == [s];
      assert Flatten([s]) == s + Flatten<T>([]);
    } else {
      assert (ss + [s])[1..] == ss[1..] + [s];
      FlattenAppend(ss[1..], s);
    }
  }

  lemma {:induction false} FlattenConcat<T>(a: seq<seq<T>>, b: seq<seq<T>>)
    ensures Flatten(a + b) == Flatten(a) + Flatten(b)
  {
    if a == [] {
      assert a + b == b;
    } else {
      assert (a + b)[1..] == a[1..] + b;
      FlattenConcat(a[1..], b);
    }
  }

  lemma CellsSplit(d: FileLocation, k: nat)
    requires k <= d.size
    ensures Cells(d) == Cells(d.(size := k)) + Cells(d.(pos := d.pos + k, size := d.size - k))
  {
  }

  lemma NoRepeatsConcat<T(!new)>(a: seq<T>, b: seq<T>)
    ensures NoRepeats(a + b) <==> NoRepeats(a) && NoRepeats(b) && forall x :: x in a ==> x !in b
  {
    var all := a + b;
    assert forall i :: 0 <= i < |a| ==> all[i] == a[i];
    assert forall i :: 0 <= i < |b| ==> all[|a| + i] == b[i];
    if NoRepeats(all) {
      forall i, j | 0 <= i < j < |b|
        ensures b[i] != b[j]
      {
        assert all[|a| + i] != all[|a| + j];
      }
      forall i, j | 0 <= i < |a| && 0 <= j < |b|
        ensures a[i] != b[j]
      {
        assert all[i] != all[|a| + j];
      }
    }
    if NoRepeats(a) && NoRepeats(b) && forall x :: x in a ==> x !in b {
      forall i, j | 0 <= i < j < |all|
        ensures all[i] != all[j]
      {
        if i < |a| <= j {
          assert all[i] in a && all[j] in b;
        } else if |a| <= i {
          assert all[i] == b[i - |a|] && all[j] == b[j - |a|];
        }
      }
    }
  }

  lemma Associate<T>(a: seq<T>, b: seq<T>, c: seq<T>)
    ensures a + b + c == a + (b + c)
  {
  }

  /** The stack with the first `k` bytes of its top location cut off. */
  function CutTop(stack: seq<FileLocation>, k: nat): (r: seq<FileLocation>)
    requires stack != [] && k < stack[|stack| - 1].size
  {
    var n := |stack| - 1;
    var top := stack[n];
    stack[..n] + [top.(pos := top.pos + k, size := top.size - k)]
  }

  lemma CutTopCells(stack: seq<FileLocation>, k: nat)
    requires stack != [] && k < stack[|stack| - 1].size
    ensures StackCells(stack) == Cells(stack[|stack| - 1].(size := k)) + StackCells(CutTop(stack, k))
  {
    var n := |stack| - 1;
    var top := stack[n];
    var rest := CutTop(stack, k);
    assert rest[n] == top.(pos := top.pos + k, size := top.size - k);
    assert rest[..n] == stack[..n];
    CellsSplit(top, k);
    Associate(Cells(top.(size := k)), Cells(rest[n]), StackCells(stack[..n]));
  }
}
