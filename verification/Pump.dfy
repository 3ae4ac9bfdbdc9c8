/** The stream sessions and the three loops that drive them (loop/worker.py:42-75,
    itb3/stream.py:27-126, itb3/pipeline.py:337-348).
    What is assumed of the foreign session: its complete output is a function of its whole
    input; before `end` it has produced, at any moment, some prefix of what the input so far
    already determines; a read hands out the next bytes in order; after `end` a read on an
    empty spool waits, so it returns bytes or the finish; any call may fail. */
module Pump {
  import opened Octets
  import opened Wrappers

  // PUMP_SLICE and _PUMP_BUF.
  const PUMP_SLICE: nat := 0x10_0000

  /** One direction of the cipher: the complete output of an input, and the part of it that
      a beginning of the input determines. */
  datatype Codec = Codec(whole: Bytes -> Bytes, early: Bytes -> Bytes)

  ghost predicate Causal(c: Codec) {
    forall x: Bytes, y: Bytes {:trigger c.early(x + y)} {:trigger c.whole(x + y)} ::
      c.early(x) <= c.early(x + y) && c.early(x) <= c.whole(x + y)
  }

  lemma Regroup(a: Bytes, b: Bytes, c: Bytes)
    ensures (a + b) + c == a + (b + c)
  {
  }

  // ------------------------------------------------------- what a sink keeps

  /** A write takes a whole chunk of up to `most` bytes, and `most` bytes of a longer one. */
  function Share(most: nat, chunk: Bytes): (r: Bytes)
    ensures |chunk| <= most ==> r == chunk
  {
    if |chunk| <= most then chunk else chunk[..most]
  }

  function Joined(chunks: seq<Bytes>): Bytes {
    if chunks == [] then [] else Joined(chunks[..|chunks| - 1]) + chunks[|chunks| - 1]
  }

  /** What a sink holds of the chunks it was handed. */
  function Kept(most: nat, chunks: seq<Bytes>): Bytes {
    if chunks == [] then [] else Kept(most, chunks[..|chunks| - 1]) + Share(most, chunks[|chunks| - 1])
  }

  /** The chunks make up the output, and none is empty or longer than a slice. */
  predicate Cut(output: Bytes, chunks: seq<Bytes>) {
    Joined(chunks) == output && forall k :: 0 <= k < |chunks| ==> 0 < |chunks[k]| <= PUMP_SLICE
  }

  lemma {:induction false} JoinedAdd(a: seq<Bytes>, b: seq<Bytes>)
    ensures Joined(a + b) == Joined(a) + Joined(b)
    decreases |b|
  {
    if b == [] {
      assert a + b == a;
    } else {
      var c, last := b[..|b| - 1], b[|b| - 1];
      assert (a + b)[..|a + b| - 1] == a + c;
      JoinedAdd(a, c);
      Regroup(Joined(a), Joined(c), last);
    }
  }

  lemma {:induction false} KeptAdd(most: nat, a: seq<Bytes>, b: seq<Bytes>)
    ensures Kept(most, a + b) == Kept(most, a) + Kept(most, b)
    decreases |b|
  {
    if b == [] {
      assert a + b == a;
    } else {
      var c, last := b[..|b| - 1], b[|b| - 1];
      assert (a + b)[..|a + b| - 1] == a + c;
      KeptAdd(most, a, c);
      Regroup(Kept(most, a), Kept(most, c), Share(most, last));
    }
  }

  lemma {:induction false} AllKept(most: nat, output: Bytes, chunks: seq<Bytes>)
    requires most >= PUMP_SLICE && Cut(output, chunks)
    ensures Kept(most, chunks) == output
    decreases |chunks|
  {
    if chunks != [] {
      var c := chunks[..|chunks| - 1];
      AllKept(most, Joined(c), c);
      assert chunks[|chunks| - 1] in chunks;
    }
  }

  /** Whatever is pumped, and however the session cuts its output, a sink whose writes take up
      to `most` bytes ends up with the complete transform. */
  ghost predicate Lossless(most: nat) {
    forall codec: Codec, input: Bytes, chunks: seq<Bytes> |
      Causal(codec) && Cut(codec.whole(input), chunks) :: Kept(most, chunks) == codec.whole(input)
  }

  function Same(x: Bytes): Bytes {
    x
  }

  function Nothing(x: Bytes): Bytes {
    []
  }

  /** One chunk of a full slice is cut off by any sink that takes less. */
  lemma OneSliceIsCutOff(most: nat, input: Bytes)
    requires most < PUMP_SLICE == |input|
    ensures Cut(input, [input]) && Kept(most, [input]) == input[..most] != input
  {
    JoinedOne(input, most);
  }

  /** The exact condition under which pump may ignore the count that a write returns: writes
      take a full slice. */
  lemma LosslessExactly(most: nat)
    ensures Lossless(most) <==> most >= 1024 * 1024
  {
    if most >= PUMP_SLICE {
      forall codec: Codec, input: Bytes, chunks: seq<Bytes> | Causal(codec) && Cut(codec.whole(input), chunks)
        ensures Kept(most, chunks) == codec.whole(input)
      {
        AllKept(most, codec.whole(input), chunks);
      }
    } else {
      var codec, input := Codec(Same, Nothing), Zeros(PUMP_SLICE);
      OneSliceIsCutOff(most, input);
      assert Causal(codec) && codec.whole(input) == input;
    }
  }

  function Zeros(n: nat): (r: Bytes)
    ensures |r| == n
  {
    seq(n, _ => 0)
  }

  /** What a read may hand out: at any moment the next bytes of what has been produced, as few
      as it likes before the end and some after it; the finish comes with the last byte. */
  predicate MayRead(codec: Codec, fed: Bytes, ended: bool, delivered: Bytes, max: nat, chunk: Bytes, finished: bool) {
    var produced := if ended then codec.whole(fed) else codec.early(fed);
    && |chunk| <= max && delivered + chunk <= produced
    && (finished ==> ended && delivered + chunk == produced)
    && (ended && chunk == [] ==> finished)
  }

  /** The drain after end may go: read after read, up to the finish, these chunks. */
  predicate MayDrain(codec: Codec, fed: Bytes, delivered: Bytes, chunks: seq<Bytes>)
    decreases |chunks|
  {
    if chunks == [] then MayRead(codec, fed, true, delivered, PUMP_SLICE, [], true)
    else if |chunks| == 1 then MayRead(codec, fed, true, delivered, PUMP_SLICE, chunks[0], true)
    else
      && MayRead(codec, fed, true, delivered, PUMP_SLICE, chunks[0], false)
      && MayDrain(codec, fed, delivered + chunks[0], chunks[1..])
  }

  lemma JoinedOne(chunk: Bytes, most: nat)
    ensures Joined([chunk]) == chunk && Kept(most, [chunk]) == Share(most, chunk)
  {
    var none: seq<Bytes> := [];
    assert [chunk][..0] == none;
    assert Joined([chunk]) == Joined(none) + chunk == chunk;
    assert Kept(most, [chunk]) == Kept(most, none) + Share(most, chunk) == Share(most, chunk);
  }

  lemma {:induction false} CutIsDrained(codec: Codec, fed: Bytes, delivered: Bytes, chunks: seq<Bytes>)
    requires delivered + Joined(chunks) == codec.whole(fed)
    requires forall k :: 0 <= k < |chunks| ==> 0 < |chunks[k]| <= PUMP_SLICE
    ensures MayDrain(codec, fed, delivered, chunks)
    decreases |chunks|
  {
    if chunks != [] {
      var first, rest := chunks[0], chunks[1..];
      assert chunks == [first] + rest && first in chunks;
      JoinedAdd([first], rest);
      JoinedOne(first, 0);
      Regroup(delivered, first, Joined(rest));
      CutIsDrained(codec, fed, delivered + first, rest);
      if |chunks| == 1 {
        assert Joined(rest) == [];
      }
    }
  }

  /** Every cut is a schedule of some session: nothing is produced while the input is fed, and
      then the chunks of the cut, one by one. */
  lemma EveryCutIsASchedule(codec: Codec, input: Bytes, chunks: seq<Bytes>)
    requires Causal(codec) && Cut(codec.whole(input), chunks)
    ensures forall k :: 0 <= k <= |input| ==> MayRead(codec, input[..k], false, [], PUMP_SLICE, [], false)
    ensures MayDrain(codec, input, [], chunks)
  {
    assert [] + Joined(chunks) == codec.whole(input);
    CutIsDrained(codec, input, [], chunks);
  }

  /** What a session delivered so far, the chunks a file was handed, and what it holds. */
  datatype Flow = Flow(delivered: Bytes, chunks: seq<Bytes>, contents: Bytes)

  /** What the session delivered between `a` and `b` is what the file was handed. */
  predicate Handed(a: Flow, b: Flow) {
    && a.delivered <= b.delivered && a.chunks <= b.chunks
    && Cut(b.delivered[|a.delivered|..], b.chunks[|a.chunks|..])
  }

  /** The file took its share of every chunk it was handed between `a` and `b`. */
  predicate Took(most: nat, a: Flow, b: Flow) {
    a.chunks <= b.chunks && b.contents == a.contents + Kept(most, b.chunks[|a.chunks|..])
  }

  lemma NothingHanded(a: Flow, most: nat)
    ensures Handed(a, a) && Took(most, a, a)
  {
    var none: seq<Bytes> := [];
    assert a.chunks[|a.chunks|..] == none && Joined(none) == [] && Kept(most, none) == [];
  }

  lemma OneHanded(a: Flow, b: Flow, chunk: Bytes, most: nat)
    requires 0 < |chunk| <= PUMP_SLICE
    requires b.delivered == a.delivered + chunk && b.chunks == a.chunks + [chunk]
    ensures Handed(a, b)
    ensures b.contents == a.contents + Share(most, chunk) ==> Took(most, a, b)
  {
    assert b.delivered[|a.delivered|..] == chunk && b.chunks[|a.chunks|..] == [chunk];
    JoinedOne(chunk, most);
  }

  lemma Span<T>(a: seq<T>, b: seq<T>, c: seq<T>)
    requires a <= b <= c
    ensures a <= c && c[|a|..] == b[|a|..] + c[|b|..]
  {
  }

  lemma MoreHanded(a: Flow, b: Flow, c: Flow)
    requires Handed(a, b) && Handed(b, c)
    ensures Handed(a, c)
  {
    var p, q := b.chunks[|a.chunks|..], c.chunks[|b.chunks|..];
    Span(a.chunks, b.chunks, c.chunks);
    Span(a.delivered, b.delivered, c.delivered);
    JoinedAdd(p, q);
  }

  lemma MoreTaken(most: nat, a: Flow, b: Flow, c: Flow)
    requires Took(most, a, b) && Took(most, b, c)
    ensures Took(most, a, c)
  {
    var p, q := b.chunks[|a.chunks|..], c.chunks[|b.chunks|..];
    Span(a.chunks, b.chunks, c.chunks);
    KeptAdd(most, p, q);
    Regroup(a.contents, Kept(most, p), Kept(most, q));
  }

  lemma Onward(most: nat, a: Flow, b: Flow, c: Flow)
    requires Handed(a, b) && Took(most, a, b) && Handed(b, c)
    ensures Handed(a, c) && (Took(most, b, c) ==> Took(most, a, c))
  {
    MoreHanded(a, b, c);
    if Took(most, b, c) {
      MoreTaken(most, a, b, c);
    }
  }

  lemma OneMore(most: nat, a: Flow, b: Flow, c: Flow, chunk: Bytes)
    requires Handed(a, b) && Took(most, a, b) && 0 < |chunk| <= PUMP_SLICE
    requires c.delivered == b.delivered + chunk && c.chunks == b.chunks + [chunk]
    ensures Handed(a, c) && (c.contents == b.contents + Share(most, chunk) ==> Took(most, a, c))
  {
    OneHanded(b, c, chunk, most);
    Onward(most, a, b, c);
  }

  function Max(a: nat, b: nat): nat {
    if a < b then b else a
  }

  /** What the library sees: sessions begun and released, calls that returned an error, the
      largest buffer a session was handed, and the writes made before the output of the write
      before was drained until a read came back empty. */
  class Library {
    var begun: nat
    var released: nat
    var faults: nat
    var widest: nat
    var crowded: nat

    constructor ()
      ensures begun == 0 && released == 0 && faults == 0 && widest == 0 && crowded == 0
    {
      begun, released, faults, widest, crowded := 0, 0, 0, 0, 0;
    }
  }

  /** _Session, with the state of its foreign side. */
  class Session {
    const lib: Library
    const codec: Codec
    var live: bool          // _handle is not zero
    var ended: bool
    var broken: bool        // errors are sticky
    var fed: Bytes
    var delivered: Bytes
    var drained: bool       // a read has come back empty since the last write

    /** Everything the session may have produced by now. */
    ghost function Produced(): Bytes
      reads this
    {
      if ended then codec.whole(fed) else codec.early(fed)
    }

    ghost predicate Valid()
      reads this
    {
      Causal(codec) && delivered <= Produced()
    }

    ghost function Seen(dst: Sink): Flow
      reads this, dst
    {
      Flow(delivered, dst.chunks, dst.contents)
    }

    /** A session exists only when the begin call succeeded, see Begin. */
    constructor (lib: Library, codec: Codec)
      requires Causal(codec)
      modifies lib`begun
      ensures Valid() && this.lib == lib && this.codec == codec
      ensures live && !ended && !broken && fed == [] && delivered == [] && drained
      ensures lib.begun == old(lib.begun) + 1
    {
      this.lib, this.codec := lib, codec;
      live, ended, fed, delivered, drained, broken := true, false, [], [], true, false;
      new;
      lib.begun := lib.begun + 1;
    }

    /** A call on the handle: fails on a released one, for good once it has failed, and
        possibly at any other moment. */
    method Attempt() returns (ok: bool)
      modifies `broken, lib`faults
      ensures ok ==> live && !broken && lib.faults == old(lib.faults)
      ensures !ok ==> lib.faults == old(lib.faults) + 1
    {
      var fails: bool := *;
      broken := broken || fails;
      ok := live && !broken;
      if !ok {
        lib.faults := lib.faults + 1;
      }
    }

    method Write(src: Bytes) returns (ok: bool)
      requires Valid()
      modifies this, lib`faults, lib`widest, lib`crowded
      ensures Valid() && live == old(live) && ended == old(ended) && delivered == old(delivered)
      ensures lib.crowded == old(lib.crowded) + (if old(drained) then 0 else 1) && drained == (old(drained) && !ok)
      ensures fed == if ok then old(fed) + src else old(fed)
      ensures ok ==> !ended && lib.faults == old(lib.faults)
      ensures !ok ==> lib.faults == old(lib.faults) + 1
      ensures lib.widest == Max(old(lib.widest), |src|)
    {
      lib.widest := Max(lib.widest, |src|);
      lib.crowded := lib.crowded + if drained then 0 else 1;
      ok := Attempt();
      if ok && ended {
        ok := false;
        lib.faults := lib.faults + 1;
      }
      if ok {
        assert codec.early(fed) <= codec.early(fed + src);
        fed, drained := fed + src, false;
      }
    }

    method End() returns (ok: bool)
      requires Valid()
      modifies this, lib`faults
      ensures Valid() && live == old(live) && delivered == old(delivered) && fed == old(fed)
      ensures ended == (old(ended) || ok)
      ensures ok ==> lib.faults == old(lib.faults)
      ensures !ok ==> lib.faults == old(lib.faults) + 1
    {
      ok := Attempt();
      if ok {
        assert codec.early(fed) <= codec.whole(fed + []) && fed + [] == fed;
        ended := true;
      }
    }

    /** The next bytes, at most `max` of them; a partial drain is normal. */
    method Read(max: nat) returns (ok: bool, chunk: Bytes, finished: bool)
      requires Valid() && max > 0
      modifies `delivered, `broken, `drained, lib`faults
      ensures Valid() && delivered == old(delivered) + chunk && |chunk| <= max
      ensures drained == (old(drained) || (ok && chunk == []))
      ensures ok ==> MayRead(codec, fed, ended, old(delivered), max, chunk, finished)
      ensures ok ==> lib.faults == old(lib.faults)
      ensures !ok ==> chunk == [] && lib.faults == old(lib.faults) + 1
    {
      chunk, finished := [], false;
      ok := Attempt();
      if ok {
        var spool := (if ended then codec.whole(fed) else codec.early(fed))[|delivered|..];
        var n: nat :| n <= |spool| && n <= max && (ended && spool != [] ==> n > 0);
        chunk := spool[..n];
        delivered := delivered + chunk;
        drained := drained || chunk == [];
        if ended && n == |spool| {
          finished := *;
          finished := finished || n == 0;
        }
      }
    }

    /** free: safe from any state and more than once. */
    method Free()
      modifies `live, lib`released
      ensures !live
      ensures lib.released == old(lib.released) + if old(live) then 1 else 0
    {
      if !live {
        return;
      }
      live := false;
      lib.released := lib.released + 1;
    }

    /** drain_all: ends the session if need be and returns every remaining output byte. */
    method DrainAll() returns (r: Option<Bytes>)
      requires Valid()
      modifies this, lib`faults
      ensures Valid() && live == old(live) && fed == old(fed)
      ensures r.Some? ==> ended && old(delivered) + r.value == codec.whole(fed)
      ensures r.Some? <==> lib.faults == old(lib.faults)
    {
      if !ended {
        var ok := End();
        if !ok {
          return None;
        }
      }
      var out: Bytes := [];
      while true
        invariant Valid() && live == old(live) && fed == old(fed) && ended
        invariant delivered == old(delivered) + out
        invariant lib.faults == old(lib.faults)
        decreases |codec.whole(fed)| - |delivered|
      {
        var ok, chunk, finished := Read(PUMP_SLICE);
        if !ok {
          return None;
        }
        Regroup(old(delivered), out, chunk);
        out := out + chunk;
        if finished {
          return Some(out);
        }
      }
    }

    /** The drain between two writes of pump: until a read comes back empty. */
    method DrainSpool(dst: Sink) returns (ok: bool)
      requires Valid() && !ended
      modifies `delivered, `broken, `drained, lib`faults, dst
      ensures Valid() && (ok ==> drained)
      ensures Handed(old(Seen(dst)), Seen(dst)) && (ok ==> Took(dst.most, old(Seen(dst)), Seen(dst)))
      ensures ok <==> lib.faults == old(lib.faults) && dst.raised == old(dst.raised)
    {
      ghost var start := Seen(dst);
      NothingHanded(start, dst.most);
      while true
        invariant Valid() && Handed(start, Seen(dst)) && Took(dst.most, start, Seen(dst))
        invariant lib.faults == old(lib.faults) && dst.raised == old(dst.raised)
        decreases |codec.early(fed)| - |delivered|
      {
        ghost var mid := Seen(dst);
        var more, chunk, _ := Read(PUMP_SLICE);
        if !more {
          return false;
        }
        if chunk == [] {
          return true;
        }
        ok := dst.Write(chunk);
        OneMore(dst.most, start, mid, Seen(dst), chunk);
        if !ok {
          return false;
        }
        }
    }

    /** The drain after end in pump: until the session reports finished. */
    method DrainRest(dst: Sink) returns (ok: bool)
      requires Valid() && ended
      modifies `delivered, `broken, `drained, lib`faults, dst
      ensures Valid()
      ensures Handed(old(Seen(dst)), Seen(dst)) && (ok ==> Took(dst.most, old(Seen(dst)), Seen(dst)))
      ensures ok ==> delivered == codec.whole(fed)
      ensures ok <==> lib.faults == old(lib.faults) && dst.raised == old(dst.raised)
    {
      ghost var start := Seen(dst);
      NothingHanded(start, dst.most);
      while true
        invariant Valid() && Handed(start, Seen(dst)) && Took(dst.most, start, Seen(dst))
        invariant lib.faults == old(lib.faults) && dst.raised == old(dst.raised)
        decreases |codec.whole(fed)| - |delivered|
      {
        ghost var mid := Seen(dst);
        var more, chunk, finished := Read(PUMP_SLICE);
        if !more {
          return false;
        }
        if chunk != [] {
          ok := dst.Write(chunk);
          OneMore(dst.most, start, mid, Seen(dst), chunk);
          if !ok {
            return false;
          }
            }
        if finished {
          return true;
        }
      }
    }

    /** One round of the feeding loop of pump: a piece in, and out again what it produced. */
    method FeedPiece(piece: Bytes, dst: Sink) returns (ok: bool)
      requires Valid()
      modifies this, lib`faults, lib`widest, lib`crowded, dst
      ensures Valid() && live == old(live) && ended == old(ended)
      ensures Handed(old(Seen(dst)), Seen(dst)) && (ok ==> Took(dst.most, old(Seen(dst)), Seen(dst)))
      ensures ok ==> fed == old(fed) + piece && drained
      ensures ok <==> lib.faults == old(lib.faults) && dst.raised == old(dst.raised)
      ensures lib.widest == Max(old(lib.widest), |piece|)
      ensures lib.crowded == old(lib.crowded) + if old(drained) then 0 else 1
    {
      NothingHanded(Seen(dst), dst.most);
      ok := Write(piece);
      if !ok {
        return;
      }
      ok := DrainSpool(dst);
    }

    /** The feeding loop of pump: until the source is empty. */
    method Feed(src: Source, dst: Sink) returns (ok: bool)
      requires Valid()
      modifies this, lib`faults, lib`widest, lib`crowded, src, dst
      ensures Valid() && live == old(live) && ended == old(ended)
      ensures Handed(old(Seen(dst)), Seen(dst)) && (ok ==> Took(dst.most, old(Seen(dst)), Seen(dst)))
      ensures ok ==> fed == old(fed) + old(src.rest)
      ensures ok <==> lib.faults == old(lib.faults) && src.raised == old(src.raised) && dst.raised == old(dst.raised)
      ensures lib.widest <= Max(old(lib.widest), PUMP_SLICE)
      ensures old(lib.crowded) <= lib.crowded <= old(lib.crowded) + if old(drained) then 0 else 1
    {
      ghost var input, start := fed + src.rest, Seen(dst);
      NothingHanded(start, dst.most);
      while true
        invariant Valid() && live == old(live) && ended == old(ended)
        invariant fed + src.rest == input && Handed(start, Seen(dst)) && Took(dst.most, start, Seen(dst))
        invariant lib.faults == old(lib.faults) && src.raised == old(src.raised) && dst.raised == old(dst.raised)
        invariant lib.widest <= Max(old(lib.widest), PUMP_SLICE)
        invariant old(lib.crowded) <= lib.crowded
        invariant lib.crowded + (if drained then 0 else 1) <= old(lib.crowded) + if old(drained) then 0 else 1
        decreases |src.rest|
      {
        ghost var mid := Seen(dst);
        var piece;
        ok, piece := src.Read(PUMP_SLICE);
        if !ok {
          return;
        }
        if piece == [] {
          return;
        }
        Regroup(fed, piece, src.rest);
        ok := FeedPiece(piece, dst);
        Onward(dst.most, start, mid, Seen(dst));
        if !ok {
          return;
        }
      }
    }

    /** pump: source to sink in bounded memory, from whatever state the session is in; the
        file objects may raise, and the count that a write returns is ignored. On every way
        out the sink was handed exactly what the session delivered meanwhile, in chunks of
        at most a slice; on success that completes the session's output, and the sink holds
        its share of every chunk. LosslessExactly says when that is all of it. */
    method PumpTo(src: Source, dst: Sink) returns (ok: bool)
      requires Valid()
      modifies this, lib`faults, lib`widest, lib`crowded, src, dst
      ensures Valid() && live == old(live)
      ensures Handed(old(Seen(dst)), Seen(dst)) && (ok ==> Took(dst.most, old(Seen(dst)), Seen(dst)))
      ensures ok ==> delivered == codec.whole(old(fed) + old(src.rest))
      ensures ok <==> lib.faults == old(lib.faults) && src.raised == old(src.raised) && dst.raised == old(dst.raised)
      ensures lib.widest <= Max(old(lib.widest), PUMP_SLICE)
      ensures old(lib.crowded) <= lib.crowded <= old(lib.crowded) + if old(drained) then 0 else 1
      ensures ok ==> dst.flushed
    {
      ghost var start := Seen(dst);
      ok := Feed(src, dst);
      if !ok {
        return;
      }
      ok := End();
      if !ok {
        return;
      }
      ghost var mid := Seen(dst);
      ok := DrainRest(dst);
      Onward(dst.most, start, mid, Seen(dst));
      if !ok {
        return;
      }
      ok := dst.Flush();
    }
  }

  /** A readable file object: a read may raise, may be short, and is empty only at the end. */
  class Source {
    var rest: Bytes         // what has not been read yet
    var raised: nat

    constructor (data: Bytes)
      ensures rest == data && raised == 0
    {
      rest, raised := data, 0;
    }

    method Read(max: nat) returns (ok: bool, piece: Bytes)
      requires max > 0
      modifies this
      ensures |piece| <= max && piece + rest == old(rest)
      ensures ok ==> raised == old(raised) && (piece == [] <==> old(rest) == [])
      ensures !ok ==> raised == old(raised) + 1 && piece == []
    {
      var raises: bool := *;
      if raises {
        raised := raised + 1;
        return false, [];
      }
      if rest == [] {
        return true, [];
      }
      var n: nat :| 0 < n <= max && n <= |rest|;
      ok, piece, rest := true, rest[..n], rest[n..];
    }
  }

  /** A writable file object: a write takes its share of a chunk, or raises having taken
      some of it. The count it returns is not looked at. */
  class Sink {
    const most: nat         // what a write takes of a longer chunk
    var contents: Bytes
    var raised: nat
    var chunks: seq<Bytes>  // every chunk it was handed
    var flushed: bool       // nothing was written since the last flush

    constructor (most: nat)
      ensures this.most == most && contents == [] && chunks == [] && raised == 0 && flushed
    {
      this.most, contents, chunks, raised, flushed := most, [], [], 0, true;
    }

    method Write(chunk: Bytes) returns (ok: bool)
      modifies this
      ensures chunks == old(chunks) + [chunk] && old(contents) <= contents && !flushed
      ensures ok ==> contents == old(contents) + Share(most, chunk) && raised == old(raised)
      ensures !ok ==> raised == old(raised) + 1
    {
      chunks, flushed := chunks + [chunk], false;
      ok := *;
      if ok {
        contents := contents + Share(most, chunk);
      } else {
        var n: nat :| n <= |chunk|;
        contents, raised := contents + chunk[..n], raised + 1;
      }
    }

    method Flush() returns (ok: bool)
      modifies `raised, `flushed
      ensures raised == old(raised) + (if ok then 0 else 1) && flushed == (old(flushed) || ok)
    {
      ok := *;
      if !ok {
        raised := raised + 1;
      } else {
        flushed := true;
      }
    }
  }

  /** The begin call of the session constructor: on an error no session comes to exist. */
  method Begin(lib: Library, codec: Codec) returns (s: Session?)
    requires Causal(codec)
    modifies lib`begun, lib`faults
    ensures s != null ==> fresh(s) && s.Valid() && s.lib == lib && s.codec == codec
    ensures s != null ==> s.live && !s.ended && s.fed == [] && s.delivered == [] && s.drained
    ensures lib.begun == old(lib.begun) + if s == null then 0 else 1
    ensures lib.faults == old(lib.faults) + if s == null then 1 else 0
  {
    var fails: bool := *;
    if fails {
      lib.faults := lib.faults + 1;
      return null;
    }
    s := new Session(lib, codec);
  }

  /** The feed and drain loops of _pump, inside its try block. */
  method FeedAndDrain(session: Session, src: Bytes) returns (r: Option<Bytes>)
    requires session.Valid() && session.live
    requires !session.ended && session.fed == [] && session.delivered == [] && session.drained
    modifies session, session.lib`faults, session.lib`widest, session.lib`crowded
    ensures session.live
    ensures r.Some? ==> r.value == session.codec.whole(src)
    ensures r.Some? <==> session.lib.faults == old(session.lib.faults)
    ensures session.lib.widest <= Max(old(session.lib.widest), PUMP_SLICE)
    ensures session.lib.crowded == old(session.lib.crowded)
  {
    var parts: Bytes := [];
    var off := 0;
    var total := |src|;
    while off < total
      invariant off <= total && session.Valid() && session.live && !session.ended
      invariant session.fed == src[..off] && session.delivered == parts
      invariant session.lib.faults == old(session.lib.faults)
      invariant session.lib.widest <= Max(old(session.lib.widest), PUMP_SLICE)
      invariant session.drained && session.lib.crowded == old(session.lib.crowded)
    {
      var end := if off + PUMP_SLICE < total then off + PUMP_SLICE else total;
      var ok := session.Write(src[off..end]);
      if !ok {
        return None;
      }
      assert src[..off] + src[off..end] == src[..end];
      off := end;
      while true
        invariant session.Valid() && session.live && !session.ended && session.fed == src[..off]
        invariant session.delivered == parts
        invariant session.lib.faults == old(session.lib.faults)
        modifies session, session.lib`faults
        decreases |session.codec.early(session.fed)| - |session.delivered|
      {
        var more, chunk, _ := session.Read(PUMP_SLICE);
        if !more {
          return None;
        }
        if chunk == [] {
          break;
        }
        parts := parts + chunk;
      }
    }
    assert src[..off] == src;
    var ok := session.End();
    if !ok {
      return None;
    }
    while true
      invariant session.Valid() && session.live && session.ended && session.fed == src
      invariant session.delivered == parts
      invariant session.lib.faults == old(session.lib.faults)
      modifies session, session.lib`faults
      decreases |session.codec.whole(src)| - |session.delivered|
    {
      var more, chunk, finished := session.Read(PUMP_SLICE);
      if !more {
        return None;
      }
      if chunk != [] {
        parts := parts + chunk;
      }
      if finished {
        return Some(parts);
      }
    }
  }

  /** _pump: the one-shot transform of `src`, or an error that some call returned; every
      session begun is released, on every path. */
  method PumpAll(lib: Library, codec: Codec, src: Bytes) returns (r: Option<Bytes>)
    requires Causal(codec)
    modifies lib
    ensures r.Some? ==> r.value == codec.whole(src)
    ensures r.Some? <==> lib.faults == old(lib.faults)
    ensures lib.begun - lib.released == old(lib.begun - lib.released)
    ensures lib.widest <= Max(old(lib.widest), PUMP_SLICE) && lib.crowded == old(lib.crowded)
  {
    var session := Begin(lib, codec);
    if session == null {
      return None;
    }
    r := FeedAndDrain(session, src);
    session.Free();
  }

  /** encrypt_stream_pump and decrypt_stream_pump: the session is released on every path, also
      when a file object raises; a sink whose writes take a full slice gets the complete
      transform, any other its share of every chunk of it. */
  method StreamPump(lib: Library, codec: Codec, src: Source, dst: Sink) returns (ok: bool)
    requires Causal(codec)
    modifies lib, src, dst
    ensures old(dst.chunks) <= dst.chunks
    ensures ok ==>
      var chunks := dst.chunks[|old(dst.chunks)|..];
      Cut(codec.whole(old(src.rest)), chunks) && dst.contents == old(dst.contents) + Kept(dst.most, chunks)
    ensures ok && dst.most >= PUMP_SLICE ==> dst.contents == old(dst.contents) + codec.whole(old(src.rest))
    ensures ok <==> lib.faults == old(lib.faults) && src.raised == old(src.raised) && dst.raised == old(dst.raised)
    ensures lib.begun - lib.released == old(lib.begun - lib.released)
    ensures lib.widest <= Max(old(lib.widest), PUMP_SLICE) && lib.crowded == old(lib.crowded)
    ensures ok ==> dst.flushed
  {
    var session := Begin(lib, codec);
    if session == null {
      return false;
    }
    ghost var input, start := src.rest, dst.chunks;
    ok := session.PumpTo(src, dst);
    assert [] + input == input && session.delivered[0..] == session.delivered;
    if ok && dst.most >= PUMP_SLICE {
      AllKept(dst.most, codec.whole(input), dst.chunks[|start|..]);
    }
    session.Free();
  }

  /** `dec` undoes `enc` on every plaintext. */
  ghost predicate Inverse(enc: Codec, dec: Codec) {
    forall p: Bytes :: dec.whole(enc.whole(p)) == p
  }

  /** The stream surface of an iteration: pumping the wire back yields the plaintext, whatever
      the slices and the production schedule; the comparison with `want` cannot fail. */
  method StreamRoundTrip(lib: Library, enc: Codec, dec: Codec, want: Bytes) returns (got: Option<Bytes>)
    requires Causal(enc) && Causal(dec) && Inverse(enc, dec)
    modifies lib
    ensures got.Some? ==> got.value == want
    ensures got.Some? <==> lib.faults == old(lib.faults)
    ensures lib.begun - lib.released == old(lib.begun - lib.released)
  {
    var wire := PumpAll(lib, enc, want);
    if wire.None? {
      return None;
    }
    got := PumpAll(lib, dec, wire.value);
  }

  /** _first_difference: the first offset at which `a` and `b` differ, the shorter length
      when one is a prefix of the other. */
  method FirstDifference(a: Bytes, b: Bytes) returns (n: nat)
    ensures n <= |a| && n <= |b| && a[..n] == b[..n]
    ensures n < |a| && n < |b| ==> a[n] != b[n]
    ensures a == b <==> n == |a| == |b|
  {
    var bound := if |a| < |b| then |a| else |b|;
    n := 0;
    while n < bound
      invariant n <= bound
      invariant forall k :: 0 <= k < n ==> a[k] == b[k]
    {
      if a[n] != b[n] {
        return;
      }
      n := n + 1;
    }
  }
}
