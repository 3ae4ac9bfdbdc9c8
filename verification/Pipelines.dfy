/** The Pipeline handles, their keying and the retained blobs (loop/state.py:151-169),
    and the operations that mutate them (loop/ops.py).
    What is assumed of the foreign library: a blob records a keying exactly, Load opens a
    fresh handle with the keying of its blob, Rekey replaces the masters of the enabled
    layers and keeps the inner seeds, and a call that fails changes nothing. */
module Pipelines {
  import opened Wrappers

  /** Inner seeds and MAC key, and the two outer masters, as opaque tokens. */
  datatype Keying = Keying(inner: nat, perm: nat, wrap: nat)

  datatype Handle = Handle(live: bool, keying: Keying, frees: nat)

  datatype Which = Stream | Message

  /** An active Pipeline, its retained blob, and (for the proofs) the inner seeds Init drew. */
  datatype Slot = Slot(handle: nat, blob: Keying, inner: nat)

  /** How far the mutation in progress has come. */
  datatype Stage =
    | Idle
    | Rekeyed(which: Which, blob: Keying)  // keying replaced, new blob not yet retained
    | Loaded(which: Which, spare: nat)     // fresh handle opened, old one not yet freed
    | Freed(which: Which, spare: nat)      // old handle freed, fresh one not yet swapped in
    | Closed(stream: bool, message: bool)  // the launcher releases the handles at the end

  datatype Pipes = Pipes(handles: seq<Handle>, stream: Option<Slot>, message: Option<Slot>, stage: Stage)

  datatype Layers = Layers(parallax: bool, wrapper: bool)

  function SlotOf(p: Pipes, w: Which): Option<Slot> {
    if w == Stream then p.stream else p.message
  }

  function WithSlot(p: Pipes, w: Which, s: Slot): Pipes {
    if w == Stream then p.(stream := Some(s)) else p.(message := Some(s))
  }

  predicate Usable(p: Pipes, h: nat) {
    h < |p.handles| && p.handles[h].live
  }

  // ------------------------------------------------------------ single steps

  function Rotated(k: Keying, layers: Layers, perm: nat, wrap: nat): Keying {
    Keying(k.inner, if layers.parallax then perm else k.perm, if layers.wrapper then wrap else k.wrap)
  }

  /** The foreign Rekey call: the live handle is re-keyed and its new blob handed back. */
  function RekeyCall(p: Pipes, w: Which, layers: Layers, perm: nat, wrap: nat): Pipes
    requires SlotOf(p, w).Some? && Usable(p, SlotOf(p, w).value.handle)
  {
    var h := SlotOf(p, w).value.handle;
    var k := Rotated(p.handles[h].keying, layers, perm, wrap);
    p.(handles := p.handles[h := p.handles[h].(keying := k)], stage := Rekeyed(w, k))
  }

  function KeepBlob(p: Pipes, w: Which): Pipes
    requires SlotOf(p, w).Some? && p.stage.Rekeyed?
  {
    WithSlot(p, w, SlotOf(p, w).value.(blob := p.stage.blob)).(stage := Idle)
  }

  /** The foreign Load call on the retained blob. */
  function LoadCall(p: Pipes, w: Which): Pipes
    requires SlotOf(p, w).Some?
  {
    p.(handles := p.handles + [Handle(true, SlotOf(p, w).value.blob, 0)],
       stage := Loaded(w, |p.handles|))
  }

  /** Pipeline.free: a handle already freed is left alone. */
  function FreeHandle(p: Pipes, h: nat): Pipes {
    if Usable(p, h)
    then p.(handles := p.handles[h := p.handles[h].(live := false, frees := p.handles[h].frees + 1)])
    else p
  }

  function FreeOld(p: Pipes, w: Which): Pipes
    requires SlotOf(p, w).Some? && p.stage.Loaded?
  {
    FreeHandle(p, SlotOf(p, w).value.handle).(stage := Freed(w, p.stage.spare))
  }

  function Swap(p: Pipes, w: Which): Pipes
    requires SlotOf(p, w).Some? && p.stage.Freed?
  {
    WithSlot(p, w, SlotOf(p, w).value.(handle := p.stage.spare)).(stage := Idle)
  }

  /** The launcher's release of one Pipeline at the end of the run. */
  function Release(p: Pipes, w: Which): Pipes {
    var q := if SlotOf(p, w).Some? then FreeHandle(p, SlotOf(p, w).value.handle) else p;
    q.(stage := if w == Stream then Closed(true, false) else Closed(true, true))
  }

  // --------------------------------------------------------------- invariant

  predicate Released(stage: Stage, w: Which) {
    stage.Closed? && if w == Stream then stage.stream else stage.message
  }

  predicate SpareIn(stage: Stage, h: nat) {
    (stage.Loaded? || stage.Freed?) && stage.spare == h
  }

  /** The slot's handle is open, except between its free and the swap and after the end,
      and the retained blob loads to exactly its keying, except between the rekey call
      and the assignment of the blob it returned. */
  predicate SlotConsistent(p: Pipes, w: Which) {
    SlotOf(p, w).Some? ==>
      var s := SlotOf(p, w).value;
      && s.handle < |p.handles|
      && (p.handles[s.handle].live <==> !(p.stage.Freed? && p.stage.which == w) && !Released(p.stage, w))
      && p.handles[s.handle].keying == (if p.stage.Rekeyed? && p.stage.which == w then p.stage.blob else s.blob)
      && s.blob.inner == s.inner
      && (p.stage.Rekeyed? && p.stage.which == w ==> p.stage.blob.inner == s.inner)
  }

  /** While a reopen is in progress its fresh handle is open, is nobody's yet, and has
      the keying of the retained blob. */
  predicate SpareConsistent(p: Pipes) {
    (p.stage.Loaded? || p.stage.Freed?) ==>
      && SlotOf(p, p.stage.which).Some?
      && Usable(p, p.stage.spare)
      && p.handles[p.stage.spare].keying == SlotOf(p, p.stage.which).value.blob
      && (p.stream.Some? ==> p.stream.value.handle != p.stage.spare)
      && (p.message.Some? ==> p.message.value.handle != p.stage.spare)
  }

  predicate Owned(p: Pipes, h: nat) {
    || (p.stream.Some? && p.stream.value.handle == h)
    || (p.message.Some? && p.message.value.handle == h)
    || SpareIn(p.stage, h)
  }

  predicate Consistent(p: Pipes) {
    && SlotConsistent(p, Stream)
    && SlotConsistent(p, Message)
    && SpareConsistent(p)
    && (p.stage.Rekeyed? ==> SlotOf(p, p.stage.which).Some?)
    && (p.stream.Some? && p.message.Some? ==> p.stream.value.handle != p.message.value.handle)
    && (forall h | 0 <= h < |p.handles| :: p.handles[h].live ==> Owned(p, h))
    && (forall h | 0 <= h < |p.handles| :: p.handles[h].frees == if p.handles[h].live then 0 else 1)
  }

  /** Nothing but the handles, keyings, blobs and progress moves. */
  predicate SameSlots(p: Pipes, q: Pipes) {
    && (p.stream.Some? <==> q.stream.Some?)
    && (p.message.Some? <==> q.message.Some?)
    && (p.stream.Some? ==> p.stream.value.inner == q.stream.value.inner)
    && (p.message.Some? ==> p.message.value.inner == q.message.value.inner)
  }

  lemma RekeyCallKeeps(p: Pipes, w: Which, layers: Layers, perm: nat, wrap: nat)
    requires Consistent(p) && p.stage.Idle? && SlotOf(p, w).Some?
    ensures Usable(p, SlotOf(p, w).value.handle)
    ensures Consistent(RekeyCall(p, w, layers, perm, wrap))
    ensures SameSlots(p, RekeyCall(p, w, layers, perm, wrap))
  {}

  lemma KeepBlobKeeps(p: Pipes, w: Which)
    requires Consistent(p) && p.stage.Rekeyed? && p.stage.which == w
    ensures Consistent(KeepBlob(p, w)) && SameSlots(p, KeepBlob(p, w))
  {}

  lemma LoadCallKeeps(p: Pipes, w: Which)
    requires Consistent(p) && p.stage.Idle? && SlotOf(p, w).Some?
    ensures Consistent(LoadCall(p, w)) && SameSlots(p, LoadCall(p, w))
  {}

  lemma FreeOldKeeps(p: Pipes, w: Which)
    requires Consistent(p) && p.stage.Loaded? && p.stage.which == w
    ensures Consistent(FreeOld(p, w)) && SameSlots(p, FreeOld(p, w))
  {}

  lemma SwapKeeps(p: Pipes, w: Which)
    requires Consistent(p) && p.stage.Freed? && p.stage.which == w
    ensures Consistent(Swap(p, w)) && SameSlots(p, Swap(p, w))
  {}

  lemma ReleaseKeeps(p: Pipes, w: Which)
    requires Consistent(p)
    requires p.stage == if w == Stream then Idle else Closed(true, false)
    ensures Consistent(Release(p, w)) && SameSlots(p, Release(p, w))
  {}
}
