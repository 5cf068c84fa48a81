/**
 The overwriting ring buffer: an array with head and tail offsets and a full flag. Its
 contents are a byte sequence of bounded length, in every wrapped or full position.
 */
module RingBuffer {
  import opened Arithmetic
  import opened Counting

  /** The last n bytes of a sequence. */
  function Last(s: seq<byte>, n: nat): seq<byte> { if |s| <= n then s else s[|s| - n..] }

  /** A ring position past the end wraps to the start. */
  function Wrap(x: nat, cap: nat): nat
    requires x < 2 * cap
  {
    if x < cap then x else x - cap
  }

  lemma WrapIsModulo(x: nat, cap: nat)
    requires x < 2 * cap
    ensures x % cap == Wrap(x, cap)
  {
    if x >= cap {
      assert x == cap + (x - cap);
    }
  }

  /** The n bytes from position head on, around the end if need be. */
  function Around(a: seq<byte>, head: nat, n: nat): (s: seq<byte>)
    requires head < |a| && n <= |a|
    ensures |s| == n
    decreases n
  {
    if n == 0 then [] else [a[head]] + Around(a, Wrap(head + 1, |a|), n - 1)
  }

  function Used(cap: nat, head: nat, tail: nat, full: bool): nat
    requires head < cap && tail < cap
  {
    if tail >= head && !full then tail - head else cap - head + tail
  }

  lemma {:induction false} AroundAt(a: seq<byte>, head: nat, n: nat, i: nat)
    requires head < |a| && i < n <= |a|
    ensures Around(a, head, n)[i] == a[Wrap(head + i, |a|)]
    decreases n
  {
    if i > 0 {
      AroundAt(a, Wrap(head + 1, |a|), n - 1, i - 1);
    }
  }

  /** The n oldest of k bytes lie in one piece, or in two around the end. */
  lemma PeekWorks(a: seq<byte>, head: nat, k: nat, n: nat)
    requires head < |a| && 0 < n <= k <= |a|
    ensures Around(a, head, k)[..n] ==
      if Wrap(head + n, |a|) > head then a[head..head + n] else a[head..] + a[..n - (|a| - head)]
  {
    var s := if Wrap(head + n, |a|) > head then a[head..head + n] else a[head..] + a[..n - (|a| - head)];
    forall i | 0 <= i < n
      ensures Around(a, head, k)[i] == s[i]
    {
      AroundAt(a, head, k, i);
    }
  }

  /** Dropping the n oldest bytes moves the head. */
  lemma PopWorks(a: seq<byte>, head: nat, k: nat, n: nat)
    requires head < |a| && 0 < n <= k <= |a|
    ensures Around(a, Wrap(head + n, |a|), k - n) == Around(a, head, k)[n..]
  {
    var s, r := Around(a, Wrap(head + n, |a|), k - n), Around(a, head, k)[n..];
    forall i | 0 <= i < |s|
      ensures s[i] == r[i]
    {
      AroundAt(a, Wrap(head + n, |a|), k - n, i);
      AroundAt(a, head, k, n + i);
    }
  }

  /** a with d in place of the bytes from position to on. */
  function Splice(a: seq<byte>, to: nat, d: seq<byte>): (b: seq<byte>)
    requires to + |d| <= |a|
    ensures |b| == |a| && forall k :: 0 <= k < |b| ==> b[k] == if to <= k < to + |d| then d[k - to] else a[k]
  {
    a[..to] + d + a[to + |d|..]
  }

  /** How far position j lies behind position from, going around. */
  function Offset(from: nat, j: nat, cap: nat): nat
    requires from < cap && j < cap
  {
    if j >= from then j - from else j + cap - from
  }

  /** b is a with data written from position tail on, around the end. */
  ghost predicate Written(a: seq<byte>, b: seq<byte>, tail: nat, data: seq<byte>)
    requires tail < |a| == |b| && |data| <= |a|
  {
    forall j :: 0 <= j < |b| ==>
      b[j] == if Offset(tail, j, |a|) < |data| then data[Offset(tail, j, |a|)] else a[j]
  }

  /** Copying the n oldest of k bytes over the start of a buffer, in one piece or in two. */
  lemma CopiesOut(a: seq<byte>, was: seq<byte>, head: nat, k: nat, n: nat)
    requires head < |a| && 0 < n <= k <= |a| && n <= |was|
    ensures Around(a, head, k)[..n] + was[n..] ==
      if Wrap(head + n, |a|) > head then Splice(was, 0, a[head..head + n])
      else Splice(Splice(was, 0, a[head..head + (|a| - head)]), |a| - head, a[0..0 + (n - (|a| - head))])
  {
    PeekWorks(a, head, k, n);
  }

  /** Writing in one piece, or in two around the end. */
  lemma SplicesWrite(a: seq<byte>, tail: nat, data: seq<byte>)
    requires tail < |a| && 0 < |data| <= |a|
    ensures tail + |data| < |a| ==> Written(a, Splice(a, tail, data), tail, data)
    ensures tail + |data| >= |a| ==>
      Written(a, Splice(Splice(a, tail, data[..|a| - tail]), 0, data[|a| - tail..]), tail, data)
  {
  }

  /** Going k and then n further from head, once around at least, ends where going the difference does. */
  lemma WrapTwice(head: nat, k: nat, n: nat, cap: nat)
    requires head < cap && k <= cap && n <= cap <= k + n
    ensures Wrap(Wrap(head + k, cap) + n, cap) == Wrap(head + (k + n - cap), cap)
  {
  }

  /** Data written behind k bytes, with room for all. */
  lemma PushFits(a: seq<byte>, b: seq<byte>, head: nat, k: nat, data: seq<byte>)
    requires head < |a| == |b| && 0 < |data| && k + |data| <= |a| && Written(a, b, Wrap(head + k, |a|), data)
    ensures Around(b, head, k + |data|) == Around(a, head, k) + data
  {
    hide Around, Offset;
    var s, all := Around(b, head, k + |data|), Around(a, head, k) + data;
    forall i | 0 <= i < |s|
      ensures s[i] == all[i]
    {
      AroundAt(b, head, k + |data|, i);
      PushedAt(a, b, head, k, data, 0, i);
    }
  }

  /** Data written behind k bytes, over the oldest ones. */
  lemma PushFills(a: seq<byte>, b: seq<byte>, head: nat, k: nat, data: seq<byte>)
    requires head < |a| == |b| && k <= |a| && 0 < |data| <= |a| <= k + |data|
    requires Written(a, b, Wrap(head + k, |a|), data)
    ensures Around(b, Wrap(Wrap(head + k, |a|) + |data|, |a|), |a|) == Last(Around(a, head, k) + data, |a|)
  {
    hide Around, Offset;
    var cap, all := |a|, Around(a, head, k) + data;
    var skip, h := k + |data| - cap, Wrap(Wrap(head + k, cap) + |data|, cap);
    var s, r := Around(b, h, cap), Last(all, cap);
    WrapTwice(head, k, |data|, cap);
    forall i | 0 <= i < |s|
      ensures s[i] == r[i]
    {
      AroundAt(b, h, cap, i);
      PushedAt(a, b, head, k, data, skip, i);
    }
  }

  /** The ring after the part of the new bytes that can stay was written at its tail, and head moved to front. */
  lemma PushResult(a: seq<byte>, b: seq<byte>, head: nat, k: nat, more: seq<byte>, front: nat, used: nat)
    requires head < |a| == |b| && k <= |a| && 0 < |more| && front < |a|
    requires Written(a, b, Wrap(head + k, |a|), Last(more, |a|))
    requires var n := |Last(more, |a|)|;
      && used == Min(k + n, |a|)
      && front == if k + n < |a| then head else Wrap(Wrap(head + k, |a|) + n, |a|)
    ensures Around(b, front, used) == Last(Around(a, head, k) + more, |a|)
  {
    hide Around, Offset;
    var s, data := Around(a, head, k), Last(more, |a|);
    LastOfLast(s, more, |a|);
    if k + |data| < |a| {
      PushFits(a, b, head, k, data);
      assert Last(s + data, |a|) == s + data;
    } else {
      PushFills(a, b, head, k, data);
    }
  }

  /** Byte skip + i of old contents and data is found around from head + skip. */
  lemma PushedAt(a: seq<byte>, b: seq<byte>, head: nat, k: nat, data: seq<byte>, skip: nat, i: nat)
    requires head < |a| == |b| && k <= |a| && 0 < |data| <= |a| && Written(a, b, Wrap(head + k, |a|), data)
    requires skip <= |a| && i < |a| && skip + i < k + |data| <= skip + |a|
    ensures b[Wrap(Wrap(head + skip, |a|) + i, |a|)] == (Around(a, head, k) + data)[skip + i]
  {
    hide Around;
    var cap, tail := |a|, Wrap(head + k, |a|);
    var at := Wrap(Wrap(head + skip, cap) + i, cap);
    if skip + i < k {
      AroundAt(a, head, k, skip + i);
      assert at == Wrap(head + skip + i, cap);
      assert Offset(tail, at, cap) >= |data|;
    } else {
      assert Offset(tail, at, cap) == skip + i - k;
    }
  }

  lemma LastOfLast(s: seq<byte>, d: seq<byte>, n: nat)
    ensures Last(s + Last(d, n), n) == Last(s + d, n)
  {
  }

  /** The offset of an index in the ring. */
  method RingOffset(idx: nat, cap: nat) returns (r: nat)
    requires idx < 2 * cap
    ensures r == Wrap(idx, cap)
  {
    WrapIsModulo(idx, cap);
    r := idx % cap;
  }

  class Ring {
    const storage: array<byte>
    var head: nat
    var tail: nat
    var full: bool

    ghost predicate Valid()
      reads this
    {
      storage.Length > 0 && head < storage.Length && tail < storage.Length && (full ==> head == tail)
    }

    /** The buffered bytes, oldest first. */
    ghost function Contents(): seq<byte>
      requires Valid()
      reads this, storage
    {
      Around(storage[..], head, Used(storage.Length, head, tail, full))
    }

    constructor (buffer: array<byte>)
      requires buffer.Length > 0
      ensures storage == buffer && Valid() && Contents() == []
    {
      storage := buffer;
      head, tail, full := 0, 0, false;
    }

    function Length(): (n: nat)
      requires Valid()
      reads this, storage
      ensures n == |Contents()| <= storage.Length
    {
      Used(storage.Length, head, tail, full)
    }

    function Free(): (n: nat)
      requires Valid()
      reads this, storage
      ensures n == storage.Length - |Contents()|
    {
      storage.Length - Length()
    }

    predicate IsFull()
      requires Valid()
      reads this, storage
      ensures IsFull() <==> |Contents()| == storage.Length
    {
      full
    }

    predicate IsEmpty()
      requires Valid()
      reads this, storage
      ensures IsEmpty() <==> Contents() == []
    {
      head == tail && !full
    }

    method Clear()
      requires Valid()
      modifies this`head, this`tail, this`full
      ensures Valid() && Contents() == []
    {
      head, tail, full := 0, 0, false;
    }

    /** Copies the n oldest bytes out, in one piece or two. */
    method CopyOut(buffer: array<byte>, n: nat)
      requires Valid() && 0 < n <= Length() && n <= buffer.Length && buffer != storage
      modifies buffer
      ensures buffer[..] == old(Contents())[..n] + old(buffer[n..])
    {
      hide Around, Splice;
      ghost var a, was, out := storage[..], buffer[..], Contents()[..n] + buffer[n..];
      CopiesOut(a, was, head, Used(storage.Length, head, tail, full), n);
      var end := RingOffset(head + n, storage.Length);
      if end > head {
        Copy(buffer, 0, storage, head, n);
        assert buffer[..] == out;
      } else {
        var chunk := storage.Length - head;
        Copy(buffer, 0, storage, head, chunk);
        assert storage[..] == a;
        Copy(buffer, chunk, storage, 0, n - chunk);
        assert buffer[..] == out;
      }
    }

    /** Copies the oldest bytes, as many as wanted and available, into the buffer. */
    method Peek(buffer: array<byte>, size: nat) returns (n: nat)
      requires Valid() && size <= buffer.Length && buffer != storage
      modifies buffer
      ensures n == Min(size, |old(Contents())|)
      ensures buffer[..] == old(Contents())[..n] + old(buffer[n..])
    {
      n := Min(size, Length());
      if n == 0 {
        return;
      }
      CopyOut(buffer, n);
    }

    /** Removes the oldest bytes, after copying them out if a buffer is given. */
    method Pop(buffer: array?<byte>, size: nat) returns (n: nat)
      requires Valid() && (buffer != null ==> size <= buffer.Length && buffer != storage)
      modifies this`head, this`full, if buffer == null then {} else {buffer}
      ensures Valid() && n == Min(size, |old(Contents())|) && Contents() == old(Contents())[n..]
      ensures buffer != null ==> buffer[..] == old(Contents())[..n] + old(buffer[n..])
    {
      if buffer == null {
        n := Min(size, Length());
      } else {
        n := Peek(buffer, size);
      }
      if n > 0 {
        Drop(n);
      }
    }

    /** Moves the head over the n oldest bytes. */
    method Drop(n: nat)
      requires Valid() && 0 < n <= Length()
      modifies this`head, this`full
      ensures Valid() && Contents() == old(Contents())[n..]
    {
      hide Around;
      PopWorks(storage[..], head, Length(), n);
      head := RingOffset(head + n, storage.Length);
      full := false;
    }

    /** Writes data from the tail on, in one piece or two. */
    method CopyIn(data: seq<byte>)
      requires Valid() && 0 < |data| <= storage.Length
      modifies storage
      ensures Written(old(storage[..]), storage[..], tail, data)
    {
      ghost var a := storage[..];
      var end := RingOffset(tail + |data|, storage.Length);
      SplicesWrite(a, tail, data);
      if end > tail {
        Write(storage, tail, data);
      } else {
        var chunk := storage.Length - tail;
        Write(storage, tail, data[..chunk]);
        Write(storage, 0, data[chunk..]);
      }
    }

    /** Appends the bytes, overwriting the oldest ones when there is no room. */
    method Push(buffer: seq<byte>) returns (n: nat)
      requires Valid()
      modifies this`head, this`tail, this`full, storage
      ensures Valid() && n == Min(|buffer|, storage.Length)
      ensures Contents() == Last(old(Contents()) + buffer, storage.Length)
    {
      if |buffer| == 0 {
        assert Contents() + buffer == Contents();
        return 0;
      }
      hide Around;
      var data := Last(buffer, storage.Length);
      n := |data|;
      ghost var a, k := storage[..], Used(storage.Length, head, tail, full);
      ghost var after := Last(Contents() + buffer, storage.Length);
      CopyIn(data);
      ghost var b, front := storage[..], head;
      Advance(n);
      assert storage[..] == b;
      PushResult(a, b, front, k, buffer, head, Used(storage.Length, head, tail, full));
      assert Contents() == after;
    }

    /** Moves the tail over n bytes just written, and the head with it once the ring is full. */
    method Advance(n: nat)
      requires Valid() && 0 < n <= storage.Length
      modifies this`head, this`tail, this`full
      ensures Valid() && tail == Wrap(old(tail) + n, storage.Length)
      ensures var k := old(Used(storage.Length, head, tail, full));
        && head == (if k + n < storage.Length then old(head) else tail)
        && Used(storage.Length, head, tail, full) == Min(k + n, storage.Length)
    {
      var remaining := storage.Length - Used(storage.Length, head, tail, full);
      tail := RingOffset(tail + n, storage.Length);
      if n >= remaining {
        head := tail;
        full := true;
      }
    }
  }

  /** memcpy between arrays. */
  method Copy(dst: array<byte>, to: nat, src: array<byte>, from: nat, n: nat)
    requires dst != src && to + n <= dst.Length && from + n <= src.Length
    modifies dst
    ensures dst[..] == Splice(old(dst[..]), to, src[..][from..from + n])
  {
    assert src[from..from + n] == src[..][from..from + n];
    Write(dst, to, src[from..from + n]);
  }

  /** memcpy of a piece of data into an array. */
  method Write(dst: array<byte>, to: nat, data: seq<byte>)
    requires to + |data| <= dst.Length
    modifies dst
    ensures dst[..] == Splice(old(dst[..]), to, data)
  {
    var i := 0;
    while i < |data|
      invariant 0 <= i <= |data|
      invariant forall k :: 0 <= k < dst.Length ==> dst[k] == if to <= k < to + i then data[k - to] else old(dst[k])
    {
      dst[to + i] := data[i];
      i := i + 1;
    }
  }
}
