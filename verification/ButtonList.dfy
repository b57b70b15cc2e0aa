/**
 The linked list of the button manager: cells with a next pointer, and a list with
 the first cell and a size.  Handles, the data of each handle and callbacks are kept
 in such lists.
 */
module ButtonList {
  import opened Common

  datatype Status = Ok | ParamError | InternalError

  class Cell<T> {
    const data: T
    var next: Cell?<T>

    constructor (data: T)
      ensures this.data == data && next == null
    {
      this.data := data;
      next := null;
    }
  }

  /** What follows position `i` of a chain. */
  function Successor<T>(cells: seq<Cell<T>>, i: int): Cell?<T>
    requires -1 <= i < |cells|
  {
    if i + 1 < |cells| then cells[i + 1] else null
  }

  ghost predicate Distinct<T>(cells: seq<Cell<T>>) {
    forall i, j :: 0 <= i < j < |cells| ==> cells[i] != cells[j]
  }

  lemma WithoutIsDistinct<T>(cells: seq<Cell<T>>, i: nat)
    requires Distinct(cells) && i < |cells|
    ensures Distinct(Without(cells, i)) && cells[i] !in Without(cells, i)
  {
  }

  /** Only the cell before the removed one gets another successor. */
  lemma SuccessorWithout<T>(cells: seq<Cell<T>>, i: nat, k: int)
    requires i < |cells| && -1 <= k < |cells| - 1
    ensures Successor(Without(cells, i), k)
         == if k == i - 1 then Successor(cells, i) else Successor(cells, if k < i then k else k + 1)
  {
  }

  class List<T> {
    var top: Cell?<T>
    var size: int
    ghost var cells: seq<Cell<T>>   // the chain from the first cell to the last

    /** The size is the length of the chain, which has no cycle. */
    ghost predicate Valid()
      reads this, cells
    {
      && size == |cells|
      && Distinct(cells)
      && top == Successor(cells, -1)
      && (forall i :: 0 <= i < |cells| ==> cells[i].next == Successor(cells, i))
    }

    constructor ()
      ensures Valid() && cells == []
    {
      top, size, cells := null, 0, [];
    }

    /** Appends a cell; the search for the last cell always finds one, so the error
        at the end of the code is never returned. */
    method PushCell(cell: Cell<T>) returns (status: Status)
      requires Valid() && cell !in cells && cell.next == null
      modifies this, cells
      ensures Valid() && status == Ok && cells == old(cells) + [cell]
    {
      var search := top;
      if search == null {
        top := cell;
        size := size + 1;
        cells := cells + [cell];
        return Ok;
      }
      var i := 0;
      while i < size
        invariant 0 <= i < size && search == cells[i]
        invariant Valid() && cells == old(cells) && size == old(size)
      {
        assert cells[i].next == Successor(cells, i);
        if search.next == null {
          search.next := cell;
          size := size + 1;
          cells := cells + [cell];
          return Ok;
        }
        search := search.next;
        i := i + 1;
      }
      status := InternalError;
    }

    /** Bypasses the cell at position `i`. */
    method Unlink(cell: Cell<T>, previous: Cell?<T>, ghost i: nat)
      requires Valid() && i < |cells| && cells[i] == cell
      requires previous == if i == 0 then null else cells[i - 1]
      modifies this, cells
      ensures Valid() && cells == Without(old(cells), i)
    {
      ghost var was := cells;
      assert cells[i].next == Successor(was, i);
      if previous == null {
        top := cell.next;
      } else {
        previous.next := cell.next;
      }
      size := size - 1;
      cells := Without(was, i);
      WithoutIsDistinct(was, i);
      SuccessorWithout(was, i, -1);
      forall k | 0 <= k < |cells| ensures cells[k].next == Successor(cells, k) {
        SuccessorWithout(was, i, k);
        assert k != i - 1 ==> cells[k] != previous;
      }
    }

    /** Unlinks a cell; the others keep their order. */
    method RemoveCell(cell: Cell<T>) returns (status: Status)
      requires Valid()
      modifies this, cells
      ensures Valid()
      ensures status == if cell in old(cells) then Ok else ParamError
      ensures cell !in old(cells) ==> cells == old(cells)
      ensures forall k :: 0 <= k < |old(cells)| && old(cells)[k] == cell ==>
                cells == Without(old(cells), k)
    {
      var search := top;
      if search == null {
        return ParamError;
      }
      var previous: Cell?<T> := null;
      var i := 0;
      while i < size && search != null
        invariant 0 <= i <= size && size == old(size) && cells == old(cells) && Valid()
        invariant search == Successor(cells, i - 1)
        invariant previous == (if i == 0 then null else cells[i - 1])
        invariant forall k :: 0 <= k < i ==> cells[k] != cell
      {
        if search == cell {
          Unlink(cell, previous, i);
          return Ok;
        }
        assert cells[i].next == Successor(cells, i);
        previous := search;
        search := search.next;
        i := i + 1;
      }
      status := ParamError;
    }

    method VerifyCell(cell: Cell<T>) returns (status: Status)
      requires Valid()
      ensures status == if cell in cells then Ok else ParamError
    {
      var search := GetFrontCell();
      var i := 0;
      while i < size
        invariant 0 <= i <= size
        invariant search == Successor(cells, i - 1)
        invariant forall k :: 0 <= k < i ==> cells[k] != cell
      {
        if search == cell {
          return Ok;
        }
        search := GetNextCell(search);
        i := i + 1;
      }
      status := ParamError;
    }

    method GetFrontCell() returns (cell: Cell?<T>)
      requires Valid()
      ensures cell == Successor(cells, -1)
    {
      cell := top;
    }

    method GetNextCell(current: Cell?<T>) returns (cell: Cell?<T>)
      requires Valid()
      ensures current == null ==> cell == null
      ensures forall i :: 0 <= i < |cells| && cells[i] == current ==>
                cell == Successor(cells, i)
    {
      if current == null {
        return null;
      }
      cell := current.next;
    }
  }
}
