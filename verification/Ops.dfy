/** The maintenance operations as the source writes them (loop/ops.py): bodies of a write
    section that replace handles and blobs in place.  RoundTrip proves that no other thread
    looks at or changes these fields meanwhile; here each body is proved against the
    functions the transition system is made of. */
module Ops {
  import opened Wrappers
  import opened Pipelines
  import opened Protocol

  function EndedBy(o: Outcome): Ended {
    match o case Success => Fine case Status => Reported case Raise => Escaped
  }

  // ------------------------------------------------------------ specification

  /** One Pipeline's rekey: keying replaced and blob retained, or nothing. */
  function RekeyOne(p: Pipes, which: Which, layers: Layers, perm: nat, wrap: nat, o: Outcome): (q: Pipes)
    requires Consistent(p) && p.stage.Idle?
    ensures Consistent(q) && q.stage.Idle? && SameSlots(p, q)
  {
    if SlotOf(p, which).Some? && o == Success then
      RekeyCallKeeps(p, which, layers, perm, wrap);
      var called := RekeyCall(p, which, layers, perm, wrap);
      KeepBlobKeeps(called, which);
      KeepBlob(called, which)
    else p
  }

  /** One Pipeline's reopen: the handle replaced by one loaded from the blob, or nothing. */
  function ReopenOne(p: Pipes, which: Which, o: Outcome): (q: Pipes)
    requires Consistent(p) && p.stage.Idle?
    ensures Consistent(q) && q.stage.Idle? && SameSlots(p, q)
  {
    if SlotOf(p, which).Some? && o == Success then
      LoadCallKeeps(p, which);
      var loaded := LoadCall(p, which);
      FreeOldKeeps(loaded, which);
      var freed := FreeOld(loaded, which);
      SwapKeeps(freed, which);
      Swap(freed, which)
    else p
  }

  function RekeyBoth(p: Pipes, layers: Layers, perm: nat, wrap: nat): (q: Pipes)
    requires Consistent(p) && p.stage.Idle?
    ensures Consistent(q) && q.stage.Idle?
  {
    RekeyOne(RekeyOne(p, Stream, layers, perm, wrap, Success), Message, layers, perm, wrap, Success)
  }

  function ReopenBoth(p: Pipes): (q: Pipes)
    requires Consistent(p) && p.stage.Idle?
    ensures Consistent(q) && q.stage.Idle?
  {
    ReopenOne(ReopenOne(p, Stream, Success), Message, Success)
  }

  // --------------------------------------------------- what the fields hold then

  /** The masters of the layers that are on are the new ones, those of the others the old;
      inner seeds stay. */
  predicate NewMasters(k: Keying, was: Keying, layers: Layers, perm: nat, wrap: nat) {
    && k.inner == was.inner
    && k.perm == (if layers.parallax then perm else was.perm)
    && k.wrap == (if layers.wrapper then wrap else was.wrap)
  }

  /** If there is such a Pipeline, it has its old handle, open, with the new masters, and its
      blob records the new keying. */
  predicate Remastered(p: Pipes, q: Pipes, which: Which, layers: Layers, perm: nat, wrap: nat) {
    SlotOf(p, which).Some? ==>
      && SlotOf(q, which).Some?
      && var a, b := SlotOf(p, which).value, SlotOf(q, which).value;
      && a.handle == b.handle && Usable(p, a.handle) && Usable(q, b.handle)
      && NewMasters(q.handles[b.handle].keying, p.handles[a.handle].keying, layers, perm, wrap)
      && b.blob == q.handles[b.handle].keying
  }

  /** If there is such a Pipeline, it has a handle opened since, of the same keying, and its
      old handle is freed. */
  predicate Reopened(p: Pipes, q: Pipes, which: Which) {
    SlotOf(p, which).Some? ==>
      && SlotOf(q, which).Some?
      && var a, b := SlotOf(p, which).value, SlotOf(q, which).value;
      && Usable(p, a.handle) && |p.handles| <= b.handle && Usable(q, b.handle)
      && q.handles[b.handle].keying == p.handles[a.handle].keying == a.blob == b.blob
      && !q.handles[a.handle].live && q.handles[a.handle].frees == 1
  }

  /** Nothing is different about the Pipeline. */
  predicate Untouched(p: Pipes, q: Pipes, which: Which) {
    && SlotOf(q, which) == SlotOf(p, which)
    && (SlotOf(p, which).Some? ==>
          var h := SlotOf(p, which).value.handle;
          h < |p.handles| && h < |q.handles| && q.handles[h] == p.handles[h])
  }

  function Other(which: Which): Which {
    if which == Stream then Message else Stream
  }

  lemma RekeyOneFields(p: Pipes, which: Which, layers: Layers, perm: nat, wrap: nat)
    requires Consistent(p) && p.stage.Idle?
    ensures var q := RekeyOne(p, which, layers, perm, wrap, Success);
            Remastered(p, q, which, layers, perm, wrap) && Untouched(p, q, Other(which))
  {}

  lemma ReopenOneFields(p: Pipes, which: Which)
    requires Consistent(p) && p.stage.Idle?
    ensures var q := ReopenOne(p, which, Success); Reopened(p, q, which) && Untouched(p, q, Other(which))
  {}

  lemma RemasteredThen(p: Pipes, q: Pipes, r: Pipes, layers: Layers, perm: nat, wrap: nat)
    requires Remastered(p, q, Stream, layers, perm, wrap) && Untouched(p, q, Message)
    requires Remastered(q, r, Message, layers, perm, wrap) && Untouched(q, r, Stream)
    ensures Remastered(p, r, Stream, layers, perm, wrap) && Remastered(p, r, Message, layers, perm, wrap)
  {}

  /** A rekey gives every Pipeline there is the new masters. */
  lemma RekeyBothFields(p: Pipes, layers: Layers, perm: nat, wrap: nat)
    requires Consistent(p) && p.stage.Idle?
    ensures var q := RekeyBoth(p, layers, perm, wrap);
            Remastered(p, q, Stream, layers, perm, wrap) && Remastered(p, q, Message, layers, perm, wrap)
  {
    var first := RekeyOne(p, Stream, layers, perm, wrap, Success);
    RekeyOneFields(p, Stream, layers, perm, wrap);
    RekeyOneFields(first, Message, layers, perm, wrap);
    RemasteredThen(p, first, RekeyBoth(p, layers, perm, wrap), layers, perm, wrap);
  }

  lemma ReopenedThen(p: Pipes, q: Pipes, r: Pipes)
    requires Reopened(p, q, Stream) && Untouched(p, q, Message) && |p.handles| <= |q.handles|
    requires Reopened(q, r, Message) && Untouched(q, r, Stream)
    requires SlotOf(p, Stream).Some? ==>
      var h := SlotOf(p, Stream).value.handle; h < |q.handles| && h < |r.handles| && r.handles[h] == q.handles[h]
    ensures Reopened(p, r, Stream) && Reopened(p, r, Message)
  {}

  lemma OldHandleStays(q: Pipes, h: nat)
    requires Consistent(q) && q.stage.Idle? && h < |q.handles| && !q.handles[h].live
    ensures var r := ReopenOne(q, Message, Success); h < |r.handles| && r.handles[h] == q.handles[h]
  {}

  lemma HandlesGrow(p: Pipes, which: Which)
    requires Consistent(p) && p.stage.Idle?
    ensures |p.handles| <= |ReopenOne(p, which, Success).handles|
  {}

  /** A reopen gives every Pipeline there is a handle of its own keying. */
  lemma ReopenBothFields(p: Pipes)
    requires Consistent(p) && p.stage.Idle?
    ensures Reopened(p, ReopenBoth(p), Stream) && Reopened(p, ReopenBoth(p), Message)
  {
    var first := ReopenOne(p, Stream, Success);
    ReopenOneFields(p, Stream);
    ReopenOneFields(first, Message);
    HandlesGrow(p, Stream);
    if SlotOf(p, Stream).Some? {
      OldHandleStays(first, SlotOf(p, Stream).value.handle);
    }
    ReopenedThen(p, first, ReopenBoth(p));
  }

  function OneEnds(p: Pipes, which: Which, o: Outcome): Ended {
    if SlotOf(p, which).Some? then EndedBy(o) else Fine
  }

  /** The transition system's steps of one Pipeline's rekey make up RekeyOne. */
  lemma RekeyStepsAreRekeyOne(cfg: Config, g: Shared, w: Worker, c: Choice, d: Choice)
    requires w.pc.CallRekey? && Consistent(g.pipes) && g.pipes.stage.Idle?
    ensures var which := w.pc.which;
            var after := RekeyOne(g.pipes, which, cfg.layers, w.job.perm, w.job.wrap, c.outcome);
            var first := MaintainStep(cfg, g, w, c);
            if SlotOf(g.pipes, which).None? then first.g.pipes == after && first.w.pc == AfterPipe(Rekey, which)
            else if c.outcome == Success then
              && first.w.pc == RetainBlob(which)
              && var second := MaintainStep(cfg, first.g, first.w, d);
                 second.g.pipes == after && second.w.pc == AfterPipe(Rekey, which)
            else
              && first.g.pipes == after
              && if c.outcome == Status then first.w.pc == ReportWrite(Rekey)
                 else first.w.pc == ReleaseWrite(Rekey) && first.w.ended == EndedBy(c.outcome)
  {
    if SlotOf(g.pipes, w.pc.which).Some? {
      RekeyCallKeeps(g.pipes, w.pc.which, cfg.layers, w.job.perm, w.job.wrap);
    }
  }

  /** The transition system's steps of one Pipeline's reopen make up ReopenOne. */
  lemma ReopenStepsAreReopenOne(cfg: Config, g: Shared, w: Worker, c: Choice, d: Choice, e: Choice)
    requires w.pc.CallLoad? && Consistent(g.pipes) && g.pipes.stage.Idle?
    ensures var which, after := w.pc.which, ReopenOne(g.pipes, w.pc.which, c.outcome);
            var first := MaintainStep(cfg, g, w, c);
            if SlotOf(g.pipes, which).None? then first.g.pipes == after && first.w.pc == AfterPipe(Cycle, which)
            else if c.outcome == Success then
              && first.w.pc == CallFree(which)
              && var second := MaintainStep(cfg, first.g, first.w, d);
              && second.w.pc == SwapIn(which)
              && var third := MaintainStep(cfg, second.g, second.w, e);
                 third.g.pipes == after && third.w.pc == AfterPipe(Cycle, which)
            else
              && first.g.pipes == after
              && if c.outcome == Status then first.w.pc == ReportWrite(Cycle)
                 else first.w.pc == ReleaseWrite(Cycle) && first.w.ended == EndedBy(c.outcome)
  {
    if SlotOf(g.pipes, w.pc.which).Some? && c.outcome == Success {
      ReopenTail(cfg, LoadCall(g.pipes, w.pc.which), g, w, w.pc.which, d, e);
    }
  }

  lemma ReopenTail(cfg: Config, loaded: Pipes, g: Shared, w: Worker, which: Which, d: Choice, e: Choice)
    requires SlotOf(loaded, which).Some? && loaded.stage.Loaded?
    ensures var first := Go(g.(pipes := loaded), w, CallFree(which));
            var second := MaintainStep(cfg, first.g, first.w, d);
            && second.w.pc == SwapIn(which)
            && var third := MaintainStep(cfg, second.g, second.w, e);
               third.g.pipes == Swap(FreeOld(loaded, which), which) && third.w.pc == AfterPipe(Cycle, which)
  {}

  // ---------------------------------------------------------- implementation

  /** The fields of the run state the operations mutate, with the library's handles. */
  class RunState {
    var handles: seq<Handle>
    var stream: Option<nat>      // stream_pipe, as its handle
    var message: Option<nat>     // msg_pipe
    var streamBlob: Keying
    var messageBlob: Keying
    var rekeys: nat
    var cycles: nat
    const streamInner: nat       // inner seeds Init drew
    const messageInner: nat

    ghost function View(): Pipes
      reads this
    {
      Pipes(handles,
            if stream.None? then None else Some(Slot(stream.value, streamBlob, streamInner)),
            if message.None? then None else Some(Slot(message.value, messageBlob, messageInner)),
            Idle)
    }

    ghost predicate Valid()
      reads this
    {
      Consistent(View())
    }

    constructor (p: Pipes)
      requires Consistent(p) && p.stage.Idle?
      ensures Valid() && View() == p && rekeys == 0 && cycles == 0
    {
      handles := p.handles;
      stream := if p.stream.None? then None else Some(p.stream.value.handle);
      message := if p.message.None? then None else Some(p.message.value.handle);
      streamBlob := if p.stream.None? then Keying(0, 0, 0) else p.stream.value.blob;
      messageBlob := if p.message.None? then Keying(0, 0, 0) else p.message.value.blob;
      streamInner := if p.stream.None? then 0 else p.stream.value.inner;
      messageInner := if p.message.None? then 0 else p.message.value.inner;
      rekeys, cycles := 0, 0;
    }

    /** The foreign Rekey: re-keys the handle and hands the new blob back. */
    method Rekey(h: nat, layers: Layers, perm: nat, wrap: nat) returns (blob: Keying)
      requires h < |handles|
      modifies `handles
      ensures blob == Rotated(old(handles)[h].keying, layers, perm, wrap)
      ensures handles == old(handles)[h := old(handles)[h].(keying := blob)]
    {
      blob := Rotated(handles[h].keying, layers, perm, wrap);
      handles := handles[h := handles[h].(keying := blob)];
    }

    /** The foreign Load: opens a handle from the blob. */
    method Load(blob: Keying) returns (h: nat)
      modifies `handles
      ensures h == old(|handles|) && handles == old(handles) + [Handle(true, blob, 0)]
    {
      h := |handles|;
      handles := handles + [Handle(true, blob, 0)];
    }

    method Free(h: nat)
      requires h < |handles| && handles[h].live
      modifies `handles
      ensures handles == old(handles)[h := old(handles)[h].(live := false, frees := old(handles)[h].frees + 1)]
    {
      handles := handles[h := handles[h].(live := false, frees := handles[h].frees + 1)];
    }

    /** _rekey_pipes, inside the write section: the stream Pipeline first, then the message
        Pipeline; a failure leaves what was done before it and counts nothing. */
    method RekeyPipes(layers: Layers, perm: nat, wrap: nat, onStream: Outcome, onMessage: Outcome)
      returns (ended: Ended)
      requires Valid()
      modifies `handles, `streamBlob, `messageBlob, `rekeys
      ensures Valid()
      ensures ended == if OneEnds(old(View()), Stream, onStream) != Fine
                       then OneEnds(old(View()), Stream, onStream) else OneEnds(old(View()), Message, onMessage)
      ensures var first := RekeyOne(old(View()), Stream, layers, perm, wrap, onStream);
              View() == if OneEnds(old(View()), Stream, onStream) != Fine then first
                        else RekeyOne(first, Message, layers, perm, wrap, onMessage)
      ensures ended == Fine ==>
        && Remastered(old(View()), View(), Stream, layers, perm, wrap)
        && Remastered(old(View()), View(), Message, layers, perm, wrap)
      ensures ended != Fine && old(stream).Some? && onStream != Success ==> View() == old(View())
      ensures ended != Fine && (old(stream).None? || onStream == Success) ==>
        && message.Some? && onMessage != Success
        && Remastered(old(View()), View(), Stream, layers, perm, wrap) && Untouched(old(View()), View(), Message)
      ensures rekeys == old(rekeys) + if ended == Fine then 1 else 0
    {
      ghost var before := View();
      if stream.Some? {
        if onStream != Success {
          return EndedBy(onStream);
        }
        streamBlob := Rekey(stream.value, layers, perm, wrap);
      }
      ghost var first := RekeyOne(before, Stream, layers, perm, wrap, onStream);
      assert View() == first;
      RekeyOneFields(before, Stream, layers, perm, wrap);
      RekeyBothFields(before, layers, perm, wrap);
      if message.Some? {
        if onMessage != Success {
          return EndedBy(onMessage);
        }
        messageBlob := Rekey(message.value, layers, perm, wrap);
      }
      assert View() == RekeyOne(first, Message, layers, perm, wrap, onMessage);
      rekeys := rekeys + 1;
      ended := Fine;
    }

    /** _blob_cycle_pipes, inside the write section: load a fresh handle from the retained
        blob, free the running one, swap; per Pipeline.  A failing load keeps the running
        handle. */
    method BlobCyclePipes(onStream: Outcome, onMessage: Outcome) returns (ended: Ended)
      requires Valid()
      modifies `handles, `stream, `message, `cycles
      ensures Valid()
      ensures ended == if OneEnds(old(View()), Stream, onStream) != Fine
                       then OneEnds(old(View()), Stream, onStream) else OneEnds(old(View()), Message, onMessage)
      ensures var first := ReopenOne(old(View()), Stream, onStream);
              View() == if OneEnds(old(View()), Stream, onStream) != Fine then first
                        else ReopenOne(first, Message, onMessage)
      ensures ended == Fine ==> Reopened(old(View()), View(), Stream) && Reopened(old(View()), View(), Message)
      ensures ended != Fine && old(stream).Some? && onStream != Success ==> View() == old(View())
      ensures ended != Fine && (old(stream).None? || onStream == Success) ==>
        && message.Some? && onMessage != Success
        && Reopened(old(View()), View(), Stream) && Untouched(old(View()), View(), Message)
      ensures cycles == old(cycles) + if ended == Fine then 1 else 0
    {
      ghost var before := View();
      if stream.Some? {
        if onStream != Success {
          return EndedBy(onStream);
        }
        var opening := Load(streamBlob);
        Free(stream.value);
        stream := Some(opening);
      }
      ghost var first := ReopenOne(before, Stream, onStream);
      assert View() == first;
      ReopenOneFields(before, Stream);
      ReopenBothFields(before);
      if message.Some? {
        if onMessage != Success {
          return EndedBy(onMessage);
        }
        var opening := Load(messageBlob);
        Free(message.value);
        message := Some(opening);
      }
      assert View() == ReopenOne(first, Message, onMessage);
      cycles := cycles + 1;
      ended := Fine;
    }
  }
}
