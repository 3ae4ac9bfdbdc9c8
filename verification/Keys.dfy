/** The buffers of the binding (itb3/pipeline.py:54-75, 140-193, 363-373): the flattened
    master keys, the retry with zeroed staging buffers, and the release of a handle.
    The foreign entry may write anything into the staging buffer and answer anything; any
    allocation may fail, as `Memory` says. */
module Keys {
  import opened Octets
  import opened Wrappers

  // Floor capacity of a blob output buffer.
  const BLOB_CAP: nat := 64 * 1024

  datatype Status = OK | BUFFER_TOO_SMALL | OTHER(code: nat)

  /** Which of the allocations of a call succeed, in the order they are made. */
  datatype Memory = Memory(flat: bool, lengths: bool, handle: bool, staging: bool, size: bool, retry: bool)

  /** One call as the library saw it: the two buffers it was handed, the keys and lengths in
      them, the capacity, its answer, the handle it gave, and what it left in the staging
      buffer. */
  datatype Seen = Seen(keys: array<Byte>, staging: array<Byte>, flat: Bytes, lens: seq<nat>, cap: nat,
                       answer: Status, needed: nat, handle: nat, wrote: Bytes)

  // ------------------------------------------------------ the flattened masters

  function FlatOf(masters: seq<Bytes>): Bytes {
    if masters == [] then [] else masters[0] + FlatOf(masters[1..])
  }

  function LensOf(masters: seq<Bytes>): (r: seq<nat>) {
    if masters == [] then [] else [|masters[0]|] + LensOf(masters[1..])
  }

  /** How the library cuts the flat bytes: one key per length. */
  function Cut(flat: Bytes, lens: seq<nat>): (r: Option<seq<Bytes>>)
    decreases |lens|
  {
    if lens == [] then if flat == [] then Some([]) else None
    else if lens[0] > |flat| then None
    else
      var rest := Cut(flat[lens[0]..], lens[1..]);
      if rest.None? then None else Some([flat[..lens[0]]] + rest.value)
  }

  /** The flat bytes and the lengths determine the masters, for any number of keys of any
      lengths, empty ones included. */
  lemma {:induction false} CutUndoesFlat(masters: seq<Bytes>)
    ensures Cut(FlatOf(masters), LensOf(masters)) == Some(masters)
  {
    if masters != [] {
      var first, flat, lens := masters[0], FlatOf(masters[1..]), LensOf(masters[1..]);
      CutUndoesFlat(masters[1..]);
      assert (first + flat)[|first|..] == flat && (first + flat)[..|first|] == first;
      assert ([|first|] + lens)[1..] == lens;
      assert masters == [first] + masters[1..];
    }
  }

  lemma {:induction false} FlatSnoc(masters: seq<Bytes>, m: Bytes)
    ensures FlatOf(masters + [m]) == FlatOf(masters) + m
    ensures LensOf(masters + [m]) == LensOf(masters) + [|m|]
  {
    if masters == [] {
      assert masters + [m] == [m];
      var none: seq<Bytes> := [];
      assert [m][1..] == none;
    } else {
      assert (masters + [m])[1..] == masters[1..] + [m];
      FlatSnoc(masters[1..], m);
    }
  }

  lemma FlatTake(masters: seq<Bytes>, j: nat)
    requires j < |masters|
    ensures FlatOf(masters[..j + 1]) == FlatOf(masters[..j]) + masters[j]
    ensures LensOf(masters[..j + 1]) == LensOf(masters[..j]) + [|masters[j]|]
  {
    assert masters[..j + 1] == masters[..j] + [masters[j]];
    FlatSnoc(masters[..j], masters[j]);
  }

  lemma {:induction false} FlatPrefix(masters: seq<Bytes>, j: nat)
    requires j <= |masters|
    ensures FlatOf(masters[..j]) <= FlatOf(masters) && |LensOf(masters)| == |masters|
    decreases |masters| - j
  {
    if j == |masters| {
      assert masters[..j] == masters;
      LensCount(masters);
    } else {
      FlatPrefix(masters, j + 1);
      FlatTake(masters, j);
    }
  }

  lemma {:induction false} LensCount(masters: seq<Bytes>)
    ensures |LensOf(masters)| == |masters|
  {
    if masters != [] {
      LensCount(masters[1..]);
    }
  }

  // -------------------------------------------------------- buffers and library

  predicate Zero(b: array<Byte>)
    reads b
  {
    forall i :: 0 <= i < b.Length ==> b[i] == 0
  }

  predicate AllZero(buffers: set<array<Byte>>)
    reads buffers
  {
    forall b :: b in buffers ==> Zero(b)
  }

  /** Where the binding's buffers come from: it keeps account of every one handed out. */
  class Heap {
    ghost var issued: set<array<Byte>>

    constructor ()
      ensures issued == {}
    {
      issued := {};
    }

    /** create_string_buffer: a fresh buffer of zeros. */
    method Buffer(n: nat) returns (b: array<Byte>)
      modifies this
      ensures fresh(b) && b.Length == n && Zero(b)
      ensures issued == old(issued) + {b}
    {
      b := new Byte[n](_ => 0);
      issued := issued + {b};
    }
  }

  method Memset(b: array<Byte>)
    modifies b
    ensures Zero(b)
  {
    forall i | 0 <= i < b.Length {
      b[i] := 0;
    }
  }

  class Library {
    var live: nat           // handles opened and not yet released
    ghost var log: seq<Seen>
    ghost var released: seq<nat>

    /** ITB_Triple_InitKeys: a handle is opened exactly when the answer is OK. */
    method InitKeys(flat: array<Byte>, total: nat, lens: array?<nat>, count: nat, buf: array<Byte>)
      returns (rc: Status, n: nat, handle: nat)
      requires total <= flat.Length && count == if lens == null then 0 else lens.Length
      modifies this, buf
      ensures log == old(log) +
        [Seen(flat, buf, old(flat[..total]), if lens == null then [] else lens[..], buf.Length, rc, n, handle, buf[..])]
      ensures live == old(live) + if rc == OK then 1 else 0
      ensures rc == OK ==> handle > 0
    {
      ghost var sent := flat[..total];
      var noise: nat -> Byte := *;
      rc, n, handle := *, *, *;
      if handle == 0 {
        handle := 1;
      }
      forall i | 0 <= i < buf.Length {
        buf[i] := noise(i);
      }
      if rc == OK {
        live := live + 1;
      }
      log := log + [Seen(flat, buf, sent, if lens == null then [] else lens[..], buf.Length, rc, n, handle, buf[..])];
    }

    method Release(handle: nat)
      modifies `live, `released
      ensures live == if old(live) == 0 then 0 else old(live) - 1
      ensures released == old(released) + [handle]
    {
      released := released + [handle];
      if live > 0 {
        live := live - 1;
      }
    }
  }

  datatype Attempt = Good(handle: nat, copy: Bytes) | Refused(rc: Status) | NoMemory

  /** What the calls of one attempt looked like: one, or two when the first answered that
      the buffer was too small for a larger need; both with the same keys and lengths. */
  ghost predicate AttemptLog(calls: seq<Seen>, flat: Bytes, lens: seq<nat>, cap: nat) {
    && |calls| <= 2
    && (forall k :: 0 <= k < |calls| ==> calls[k].flat == flat && calls[k].lens == lens)
    && (|calls| > 0 ==> calls[0].cap == cap)
    && (|calls| == 2 ==>
          calls[0].answer == BUFFER_TOO_SMALL && calls[0].needed > cap && calls[1].cap == calls[0].needed)
  }

  /** The buffers the library was handed are among `made`, the keys always in the same one. */
  ghost predicate Handed(calls: seq<Seen>, keys: array<Byte>, made: set<array<Byte>>) {
    forall k :: 0 <= k < |calls| ==> calls[k].keys == keys && calls[k].staging in made
  }

  function Clamped(n: nat, bound: nat): nat {
    if n < bound then n else bound
  }

  /** _retry_once_secret around the entry above. Everything it allocated, which is all the
      library was given to write into, is zero on every way out. */
  method RetryOnceSecret(lib: Library, heap: Heap, flat: array<Byte>, total: nat, lens: array?<nat>, count: nat,
                         cap: nat, discard: bool, memory: Memory)
    returns (r: Attempt, ghost calls: seq<Seen>)
    requires total <= flat.Length && count == if lens == null then 0 else lens.Length
    modifies lib, heap
    ensures old(heap.issued) <= heap.issued && fresh(heap.issued - old(heap.issued))
    ensures AllZero(heap.issued - old(heap.issued))
    ensures lib.log == old(lib.log) + calls && Handed(calls, flat, heap.issued - old(heap.issued))
    ensures AttemptLog(calls, flat[..total], if lens == null then [] else lens[..], cap)
    ensures r.Good? <==> |calls| > 0 && calls[|calls| - 1].answer == OK
    ensures r.Refused? ==> |calls| > 0 && calls[|calls| - 1].answer == r.rc
    ensures r.NoMemory? ==> !memory.staging || !memory.size || !memory.retry
    ensures memory.staging && memory.size ==> calls != []
    ensures calls != [] && calls[0].answer == BUFFER_TOO_SMALL && calls[0].needed > cap && memory.retry ==> |calls| == 2
    ensures r.Good? ==>
      var last := calls[|calls| - 1];
      r.handle == last.handle > 0 && r.copy == if discard then [] else last.wrote[..Clamped(last.needed, |last.wrote|)]
    ensures lib.live == old(lib.live) + if r.Good? then 1 else 0
  {
    calls := [];
    ghost var before := heap.issued;
    if !memory.staging {
      return NoMemory, calls;
    }
    var buf := heap.Buffer(cap);
    ghost var first := buf;
    assert heap.issued - before == {first};
    if !memory.size {
      return NoMemory, calls;
    }
    var rc, n, handle := lib.InitKeys(flat, total, lens, count, buf);
    calls := [lib.log[|lib.log| - 1]];
    if rc == BUFFER_TOO_SMALL && n > cap {
      Memset(buf);
      if !memory.retry {
        Memset(buf);
        return NoMemory, calls;
      }
      buf := heap.Buffer(n);
      assert heap.issued - before == {first, buf};
      rc, n, handle := lib.InitKeys(flat, total, lens, count, buf);
      calls := calls + [lib.log[|lib.log| - 1]];
    }
    if rc == OK {
      var copy := if discard then [] else buf[..Clamped(n, buf.Length)];
      r := Good(handle, copy);
    } else {
      r := Refused(rc);
    }
    Memset(buf);
  }

  // -------------------------------------------------------------- construction

  class Pipeline {
    const lib: Library
    var handle: nat

    constructor (lib: Library, handle: nat)
      ensures this.lib == lib && this.handle == handle
    {
      this.lib, this.handle := lib, handle;
    }

    /** free: releases the handle once, however often it is called. */
    method Free()
      modifies `handle, lib`live, lib`released
      ensures handle == 0
      ensures lib.released == old(lib.released) + if old(handle) == 0 then [] else [old(handle)]
      ensures lib.live == if old(handle) == 0 || old(lib.live) == 0 then old(lib.live) else old(lib.live) - 1
    {
      if handle == 0 {
        return;
      }
      var released := handle;
      handle := 0;
      lib.Release(released);
    }
  }

  datatype Outcome = Built | Failed(rc: Status) | OutOfMemory

  predicate HoldsSecret(masters: seq<Bytes>) {
    exists i :: 0 <= i < |FlatOf(masters)| && FlatOf(masters)[i] != 0
  }

  /** An allocation fails after the keys have been copied and before the block that zeroes
      them is entered. */
  predicate LeavesKeys(masters: seq<Bytes>, memory: Memory) {
    memory.flat && ((masters != [] && !memory.lengths) || !memory.handle)
  }

  /** The copying loop of init_keys: at a moving offset, empty keys skipped. */
  method Flatten(masters: seq<Bytes>, flat: array<Byte>)
    requires |FlatOf(masters)| <= flat.Length && Zero(flat)
    modifies flat
    ensures HoldsMasters(flat, masters)
  {
    var offset := 0;
    for j := 0 to |masters|
      invariant offset == |FlatOf(masters[..j])| <= flat.Length
      invariant flat[..offset] == FlatOf(masters[..j])
      invariant forall i :: offset <= i < flat.Length ==> flat[i] == 0
    {
      var m := masters[j];
      FlatTake(masters, j);
      FlatPrefix(masters, j + 1);
      ghost var before := flat[..offset];
      if |m| > 0 {
        forall i | 0 <= i < |m| {
          flat[offset + i] := m[i];
        }
        offset := offset + |m|;
      }
      assert flat[..offset] == before + m;
    }
    assert masters[..|masters|] == masters;
  }

  /** The length array; none for no keys. */
  method Lengths(masters: seq<Bytes>) returns (lens: array?<nat>)
    ensures lens == null <==> masters == []
    ensures lens != null ==> fresh(lens) && lens[..] == LensOf(masters)
  {
    if masters == [] {
      return null;
    }
    LensCount(masters);
    var a := new nat[|masters|];
    for j := 0 to |masters|
      invariant a[..j] == LensOf(masters[..j])
    {
      a[j] := |masters[j]|;
      FlatTake(masters, j);
      assert a[..j + 1] == a[..j] + [a[j]];
    }
    assert masters[..|masters|] == masters && a[..] == a[..|masters|];
    return a;
  }

  method TotalLength(masters: seq<Bytes>) returns (total: nat)
    ensures total == |FlatOf(masters)|
  {
    total := 0;
    for j := 0 to |masters|
      invariant total == |FlatOf(masters[..j])|
    {
      FlatTake(masters, j);
      total := total + |masters[j]|;
    }
    assert masters[..|masters|] == masters;
  }

  /** The guarded block of init_keys: the flat buffer, and everything allocated in the
      block, is zero on every way out. */
  method CallGuarded(lib: Library, heap: Heap, flat: array<Byte>, total: nat, lens: array?<nat>, count: nat,
                     memory: Memory)
    returns (r: Attempt, ghost calls: seq<Seen>)
    requires total <= flat.Length && count == if lens == null then 0 else lens.Length
    modifies lib, heap, flat
    ensures Zero(flat)
    ensures old(heap.issued) <= heap.issued && fresh(heap.issued - old(heap.issued))
    ensures AllZero(heap.issued - old(heap.issued))
    ensures lib.log == old(lib.log) + calls && Handed(calls, flat, heap.issued - old(heap.issued))
    ensures AttemptLog(calls, old(flat[..total]), if lens == null then [] else old(lens[..]), BLOB_CAP)
    ensures r.Good? <==> |calls| > 0 && calls[|calls| - 1].answer == OK
    ensures r.Good? ==> r.handle == calls[|calls| - 1].handle > 0
    ensures r.NoMemory? ==> !memory.staging || !memory.size || !memory.retry
    ensures lib.live == old(lib.live) + if r.Good? then 1 else 0
  {
    r, calls := RetryOnceSecret(lib, heap, flat, total, lens, count, BLOB_CAP, true, memory);
    Memset(flat);
  }

  /** Every call of an attempt on the flattened masters carries exactly the masters. */
  lemma CallsCarryTheMasters(calls: seq<Seen>, masters: seq<Bytes>, k: nat)
    requires AttemptLog(calls, FlatOf(masters), LensOf(masters), BLOB_CAP) && k < |calls|
    ensures Cut(calls[k].flat, calls[k].lens) == Some(masters)
  {
    CutUndoesFlat(masters);
  }

  /** `b` holds the flattened masters, and nothing else but zeros. */
  ghost predicate HoldsMasters(b: array<Byte>, masters: seq<Bytes>)
    reads b
  {
    && |FlatOf(masters)| <= b.Length
    && b[..|FlatOf(masters)|] == FlatOf(masters)
    && forall i :: |FlatOf(masters)| <= i < b.Length ==> b[i] == 0
  }

  /** The flat copy of the masters and their lengths, as far as they can be allocated. */
  method Prepare(heap: Heap, masters: seq<Bytes>, memory: Memory)
    returns (flat: array?<Byte>, lens: array?<nat>, total: nat, ready: bool)
    modifies heap
    ensures total == |FlatOf(masters)|
    ensures ready <==> memory.flat && !LeavesKeys(masters, memory)
    ensures flat != null <==> memory.flat
    ensures heap.issued == old(heap.issued) + if flat == null then {} else {flat}
    ensures flat != null ==> fresh(flat) && HoldsMasters(flat, masters) && flat.Length == if total < 1 then 1 else total
    ensures ready ==> (lens == null <==> masters == []) && (lens != null ==> fresh(lens) && lens[..] == LensOf(masters))
  {
    lens := null;
    total := TotalLength(masters);
    if !memory.flat {
      return null, null, total, false;
    }
    var buf := heap.Buffer(if total < 1 then 1 else total);
    Flatten(masters, buf);
    if masters != [] && !memory.lengths {
      return buf, null, total, false;
    }
    lens := Lengths(masters);
    return buf, lens, total, memory.handle;
  }

  /** init_keys. Every call the library sees carries exactly the caller's masters (see
      CallsCarryTheMasters); there are at most two, with the same inputs, and every buffer
      they were handed was allocated here. On every way out everything allocated here is
      zero, except exactly when an allocation fails in the one unguarded stretch: then the
      one buffer there is still holds the keys. */
  method InitKeys(lib: Library, heap: Heap, masters: seq<Bytes>, memory: Memory)
    returns (r: Outcome, pipe: Pipeline?, ghost calls: seq<Seen>)
    modifies lib, heap
    ensures old(heap.issued) <= heap.issued && fresh(heap.issued - old(heap.issued))
    ensures AllZero(heap.issued - old(heap.issued)) <==> !(LeavesKeys(masters, memory) && HoldsSecret(masters))
    ensures LeavesKeys(masters, memory) ==>
      calls == [] && exists b :: heap.issued - old(heap.issued) == {b} && HoldsMasters(b, masters)
    ensures lib.log == old(lib.log) + calls
    ensures forall k :: 0 <= k < |calls| ==>
      && calls[k].keys in heap.issued - old(heap.issued)
      && calls[k].staging in heap.issued - old(heap.issued)
      && calls[k].keys.Length == if FlatOf(masters) == [] then 1 else |FlatOf(masters)|
    ensures AttemptLog(calls, FlatOf(masters), LensOf(masters), 65536)
    ensures r.Built? <==> calls != [] && calls[|calls| - 1].answer == OK
    ensures r.Built? <==> pipe != null
    ensures r.Built? ==> fresh(pipe) && pipe.lib == lib && pipe.handle == calls[|calls| - 1].handle > 0
    ensures lib.live == old(lib.live) + if r.Built? then 1 else 0
  {
    calls, pipe := [], null;
    ghost var before := heap.issued;
    var flat, lens, total, ready := Prepare(heap, masters, memory);
    if flat == null {
      return OutOfMemory, null, calls;
    }
    ZeroIffNoSecret(masters, flat);
    if !ready {
      assert heap.issued - before == {flat};
      return OutOfMemory, null, calls;
    }
    LensCount(masters);
    assert LensOf([]) == [];
    var attempt;
    attempt, calls := CallGuarded(lib, heap, flat, total, lens, |masters|, memory);
    match attempt {
      case Good(handle, _) =>
        pipe := new Pipeline(lib, handle);
        r := Built;
      case Refused(rc) =>
        r := Failed(rc);
      case NoMemory =>
        r := OutOfMemory;
    }
  }

  lemma ZeroIffNoSecret(masters: seq<Bytes>, flat: array<Byte>)
    requires HoldsMasters(flat, masters)
    ensures Zero(flat) <==> !HoldsSecret(masters)
  {
    assert forall i :: 0 <= i < |FlatOf(masters)| ==> flat[i] == flat[..|FlatOf(masters)|][i];
  }

  /** A caller whose one key is the byte 1 and whose handle cell cannot be allocated keeps
      that key in memory. */
  lemma ResidueExists()
    ensures LeavesKeys([[1]], Memory(true, true, false, true, true, true)) && HoldsSecret([[1]])
  {
    assert FlatOf([[1]])[0] == 1;
  }
}
