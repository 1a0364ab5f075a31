/** The deque's own code, run by one thread at a time: each method is one uninterrupted operation of the machine. */
module LockFreeWorkQueue {
  import opened Wrappers
  import opened Bits
  import opened PowerOfTwo
  import opened DequeMachine
  import opened DequeProof
  import opened DequeAlone

  class CircularArray<T(0)> {
    const size: nat
    const buffer: array<T>

    ghost predicate Valid() {
      buffer.Length == size > 0
    }

    constructor (size: nat)
      ensures this.size == size && buffer.Length == size && fresh(buffer)
    {
      this.size := size;
      buffer := new T[size];
    }

    method Get(index: nat) returns (item: T)
      requires Valid()
      ensures item == DequeMachine.Get(buffer[..], index)
    {
      item := buffer[index % size];
    }

    method Put(index: nat, item: T)
      requires Valid()
      modifies buffer
      ensures buffer[..] == DequeMachine.Put(old(buffer[..]), index, item)
    {
      buffer[index % size] := item;
    }

    /** The doubled array; `junk` is what its memory held before the copy loop. */
    method Resize(bottom: nat, top: nat) returns (bigger: CircularArray<T>, ghost junk: seq<T>)
      requires Valid()
      ensures fresh(bigger) && fresh(bigger.buffer) && bigger.Valid() && bigger.size == 2 * size
      ensures |junk| == bigger.size && bigger.buffer[..] == CopyLoop(buffer[..], junk, top, bottom)
    {
      bigger := new CircularArray(size * 2);
      junk := bigger.buffer[..];
      var i := top;
      while i < bottom
        invariant fresh(bigger) && fresh(bigger.buffer) && bigger.Valid()
        invariant buffer[..] == old(buffer[..])
        invariant CopyLoop(buffer[..], bigger.buffer[..], i, bottom) == CopyLoop(buffer[..], junk, top, bottom)
        decreases bottom - i
      {
        bigger.Put(i, buffer[i % size]);
        i := i + 1;
      }
    }
  }

  class LockFreeWorkQueue<T(0)> {
    var top: nat
    var bottom: nat
    var cells: CircularArray<T>
    var resizeCount: nat
    var maxSize: nat
    ghost var initial: nat
    ghost var pushes: nat

    /** The machine state without operations in progress. */
    ghost function View(): State<T>
      reads this, cells.buffer
    {
      State(top, bottom, [cells.buffer[..]], 0, initial, resizeCount, maxSize, pushes, Idle, [])
    }

    ghost predicate Valid()
      reads this, cells.buffer
    {
      cells.Valid() && Ready(View())
    }

    /** The items from `_top` to `_bottom`. */
    ghost function Items(): seq<T>
      requires Valid()
      reads this, cells.buffer
    {
      Contents(View())
    }

    constructor (initialSize: nat)
      requires initialSize <= Pow2(63)
      ensures Valid() && Items() == [] && fresh(cells) && fresh(cells.buffer)
      ensures LeastPow2AtLeast(cells.size, initialSize) && pushes == 0
    {
      Pow2StrictlyMonotone(63, 64);
      var capacity := NextPowerOf2(initialSize);
      top, bottom, resizeCount, maxSize := 0, 0, 0, 0;
      cells := new CircularArray(capacity);
      initial, pushes := capacity, 0;
      new;
      assert Init(View());
      InitInv(View());
    }

    /** Push-back, doubling the array first when three quarters are in use. */
    method Push(item: T)
      requires Valid() && pushes < SIZE_MAX
      modifies this, cells.buffer
      ensures Valid() && (fresh(cells.buffer) || cells.buffer == old(cells.buffer))
      ensures Items() == old(Items()) + [item]
      ensures bottom == old(bottom) + 1 && top == old(top) && pushes == old(pushes) + 1 && initial == old(initial)
      ensures maxSize == if bottom - top > old(maxSize) then bottom - top else old(maxSize)
      ensures if old(bottom - top >= Threshold(cells.size))
              then cells.size == 2 * old(cells.size) && resizeCount == old(resizeCount) + 1
              else cells == old(cells) && resizeCount == old(resizeCount)
    {
      hide Pow2, IsPow2, SpaceOk, OwnerOk;
      ghost var before := View();
      ghost var junk: seq<T> := [];
      var bottom := this.bottom;
      var top := this.top;
      var array' := cells;
      if bottom - top >= array'.size * 3 / 4 {
        var newArray;
        newArray, junk := array'.Resize(bottom, top);
        cells := newArray;
        array' := newArray;
        resizeCount := resizeCount + 1;
      }
      array'.Put(bottom, item);
      this.bottom := bottom + 1;
      pushes := pushes + 1;
      var currentSize := bottom - top + 1;
      var seen := maxSize;
      while currentSize > seen
        modifies this`maxSize
        invariant seen == maxSize
        invariant maxSize == before.maxSize || maxSize == currentSize > before.maxSize
        decreases currentSize - seen
      {
        maxSize := currentSize;
        seen := currentSize;
      }
      PushAloneAppends(before, item, junk);
      CollapseReady(PushAlone(before, item, junk));
      ghost var after := PushAlone(before, item, junk);
      assert cells.buffer[..] == Current(after);
      assert maxSize == after.maxSize;
      assert resizeCount == after.resizeCount;
      assert View() == Collapse(after);
    }

    /** Pop-back. Without an earlier push the decrement wraps and an uninitialised cell comes back as success. */
    method Pop() returns (result: Option<T>)
      requires Valid()
      modifies this
      ensures cells == old(cells) && View() == PopAlone(old(View())).0 && result == PopAlone(old(View())).1
      ensures pushes >= 1 ==> Valid() && IsPopBack(old(Items()), Items(), result)
    {
      ghost var before := View();
      var bottom := Previous(this.bottom);
      var array' := cells;
      this.bottom := bottom;
      var top := this.top;
      if top <= bottom {
        var item := array'.Get(bottom);
        result := Some(item);
        if top == bottom {
          this.top := Following(top);
          this.bottom := Following(bottom);
        }
      } else {
        this.bottom := Following(bottom);
        result := None;
      }
      if pushes >= 1 { PopAloneAfterPush(before); }
    }

    /** Steal-front. */
    method Steal() returns (result: Option<T>)
      requires Valid()
      modifies this
      ensures Valid() && cells == old(cells) && bottom == old(bottom) && pushes == old(pushes)
      ensures if old(Items()) == [] then result == None && Items() == []
              else result == Some(old(Items())[0]) && Items() == old(Items())[1..]
    {
      ghost var before := View();
      var top := this.top;
      var bottom := this.bottom;
      if top < bottom {
        var item := cells.Get(top);
        result := Some(item);
        this.top := Following(top);
      } else {
        result := None;
      }
      StealAloneTakesFront(before);
      assert View() == StealAlone(before).0;
    }
  }
}
