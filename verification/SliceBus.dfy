// The bus as it is built: one growing slice of handlers a name, appended to in place while
// there is room, and publishes that range over slices taken earlier from the same arrays.
module SliceBus {
  import opened EventBus

  // A slice value: an array shared with other slices and how far into it this one reaches.
  datatype Slice = Nil | Slice(buffer: array<Handler>, len: nat)

  // A publish between its snapshot and the end of its loop.
  datatype Loop = Loop(event: Event, snapshot: Slice, next: nat)

  // What the arrays hold.
  type Memory = map<array<Handler>, seq<Handler>>

  // A slice of known arrays, and what it reads as.
  ghost predicate Known(m: Memory, s: Slice) {
    s.Slice? ==> s.buffer in m && s.len <= |m[s.buffer]|
  }

  ghost function Contents(m: Memory, s: Slice): seq<Handler>
    requires Known(m, s)
  {
    if s.Nil? then [] else m[s.buffer][..s.len]
  }

  ghost predicate Reads(m: Memory, s: Slice, contents: seq<Handler>) {
    Known(m, s) && Contents(m, s) == contents
  }

  // The names' slices lie in arrays of their own.
  ghost predicate HandlersRead(m: Memory, handlers: map<string, Slice>, contents: map<string, seq<Handler>>) {
    && handlers.Keys == contents.Keys
    && (forall n :: n in handlers ==> handlers[n].Slice? && Reads(m, handlers[n], contents[n]))
    && (forall n, k :: n in handlers && k in handlers && n != k ==> handlers[n].buffer != handlers[k].buffer)
  }

  // A snapshot of a name's array reaches no further than the name's own slice.
  ghost predicate Behind(handlers: map<string, Slice>, s: Slice) {
    s.Slice? ==> forall n :: n in handlers && handlers[n].Slice? && handlers[n].buffer == s.buffer ==> s.len <= handlers[n].len
  }

  ghost predicate LoopReads(m: Memory, handlers: map<string, Slice>, l: Loop, p: Publication) {
    l.event == p.event && l.next == p.next && Reads(m, l.snapshot, p.snapshot) && Behind(handlers, l.snapshot)
  }

  ghost predicate LoopsRead(m: Memory, handlers: map<string, Slice>, loops: seq<Loop>, ps: seq<Publication>) {
    |loops| == |ps| && forall k :: 0 <= k < |loops| ==> LoopReads(m, handlers, loops[k], ps[k])
  }

  function SliceOf(handlers: map<string, Slice>, name: string): Slice {
    if name in handlers then handlers[name] else Nil
  }

  // An append: in place past the end of the slice, or into an array not known before.
  ghost predicate Appends(m: Memory, after: Memory, slice: Slice, longer: Slice, h: Handler)
    requires Known(m, slice)
  {
    && longer.Slice? && Reads(after, longer, Contents(m, slice) + [h])
    && after.Keys == m.Keys + {longer.buffer}
    && (forall b :: b in m && b != longer.buffer ==> after[b] == m[b])
    && (longer.buffer in m ==> slice.Slice? && longer.buffer == slice.buffer && longer.len == slice.len + 1)
    && (slice.Slice? && longer.buffer == slice.buffer ==>
          slice.len < |m[slice.buffer]| == |after[slice.buffer]|
          && after[slice.buffer][..slice.len] == m[slice.buffer][..slice.len])
  }

  // A slice that does not reach past the one appended to reads as before.
  lemma StillReads(m: Memory, after: Memory, slice: Slice, longer: Slice, h: Handler, s: Slice)
    requires Known(m, slice) && Appends(m, after, slice, longer, h) && Known(m, s)
    requires s.Slice? && slice.Slice? && s.buffer == slice.buffer ==> s.len <= slice.len
    ensures Reads(after, s, Contents(m, s))
  {
    if s.Slice? && s.buffer == longer.buffer {
      assert after[s.buffer][..s.len] == after[s.buffer][..slice.len][..s.len];
      assert m[s.buffer][..s.len] == m[s.buffer][..slice.len][..s.len];
    }
  }

  lemma HandlersStillRead(m: Memory, after: Memory, handlers: map<string, Slice>,
                          contents: map<string, seq<Handler>>, name: string, longer: Slice, h: Handler)
    requires HandlersRead(m, handlers, contents)
    requires Known(m, SliceOf(handlers, name)) && Appends(m, after, SliceOf(handlers, name), longer, h)
    ensures HandlersRead(after, handlers[name := longer], contents[name := Contents(m, SliceOf(handlers, name)) + [h]])
  {
    forall n | n in handlers && n != name
      ensures Reads(after, handlers[n], contents[n])
    {
      StillReads(m, after, SliceOf(handlers, name), longer, h, handlers[n]);
    }
  }

  lemma LoopStillReads(m: Memory, after: Memory, handlers: map<string, Slice>, contents: map<string, seq<Handler>>,
                       name: string, longer: Slice, h: Handler, l: Loop, p: Publication)
    requires HandlersRead(m, handlers, contents) && LoopReads(m, handlers, l, p)
    requires Known(m, SliceOf(handlers, name)) && Appends(m, after, SliceOf(handlers, name), longer, h)
    ensures LoopReads(after, handlers[name := longer], l, p)
  {
    StillReads(m, after, SliceOf(handlers, name), longer, h, l.snapshot);
  }

  // A subscription leaves every publish under way with the handlers it took, although the
  // array may be the one written to.
  lemma LoopsStillRead(m: Memory, after: Memory, handlers: map<string, Slice>, contents: map<string, seq<Handler>>,
                       name: string, longer: Slice, h: Handler, loops: seq<Loop>, ps: seq<Publication>)
    requires HandlersRead(m, handlers, contents) && LoopsRead(m, handlers, loops, ps)
    requires Known(m, SliceOf(handlers, name)) && Appends(m, after, SliceOf(handlers, name), longer, h)
    ensures LoopsRead(after, handlers[name := longer], loops, ps)
  {
    forall k | 0 <= k < |loops|
      ensures LoopReads(after, handlers[name := longer], loops[k], ps[k])
    {
      LoopStillReads(m, after, handlers, contents, name, longer, h, loops[k], ps[k]);
    }
  }

  // The rule that keeps snapshots whole is needed: of two appends to equal slices with room,
  // the second overwrites what the first added.
  lemma EqualSlicesClash(m: Memory, first: Memory, second: Memory, slice: Slice, longer: Slice, a: Handler, b: Handler)
    requires Known(m, slice) && Appends(m, first, slice, longer, a) && longer.buffer in m
    requires Known(first, slice) && Appends(first, second, slice, longer, b) && a != b
    ensures !Reads(second, longer, Contents(m, slice) + [a])
  {
    assert (Contents(m, slice) + [a])[slice.len] == a;
    assert (Contents(first, slice) + [b])[slice.len] == b;
  }

  class Bus {
    var handlers: map<string, Slice>
    var loops: seq<Loop>
    var started: seq<Start>
    ghost var memory: Memory
    ghost var view: State

    ghost predicate Valid()
      reads this, memory.Keys
    {
      && (forall b :: b in memory ==> memory[b] == b[..])
      && HandlersRead(memory, handlers, view.handlers)
      && LoopsRead(memory, handlers, loops, view.publications)
      && started == view.started
    }

    constructor ()
      ensures Valid() && view == Initial && memory == map[]
    {
      handlers, loops, started, memory, view := map[], [], [], map[], Initial;
    }

    // In place when the array has room, else into a new and larger one; spare is the room
    // the new array is given beyond what it needs.
    method Append(s: Slice, h: Handler, spare: nat) returns (r: Slice)
      requires Valid() && Known(memory, s)
      modifies memory.Keys, `memory
      ensures forall b :: b in memory ==> memory[b] == b[..]
      ensures Appends(old(memory), memory, s, r, h)
      ensures fresh(memory.Keys - old(memory.Keys))
    {
      var len := if s.Slice? then s.len else 0;
      if s.Slice? && len < s.buffer.Length {
        s.buffer[len] := h;
        r := Slice(s.buffer, len + 1);
      } else {
        var grown := new Handler[len + 1 + spare](_ => h);
        if s.Slice? {
          forall i | 0 <= i < len {
            grown[i] := s.buffer[i];
          }
        }
        r := Slice(grown, len + 1);
      }
      memory := memory[r.buffer := r.buffer[..]];
      assert r.buffer[..r.len] == Contents(old(memory), s) + [h];
    }

    method Subscribe(name: string, handler: Handler, spare: nat)
      requires Valid()
      modifies this, memory.Keys
      ensures Valid() && fresh(memory.Keys - old(memory.Keys))
      ensures view == Step(old(view), EventBus.Subscribe(name, handler))
    {
      var slice := SliceOf(handlers, name);
      var longer := Append(slice, handler, spare);
      HandlersStillRead(old(memory), memory, handlers, view.handlers, name, longer, handler);
      LoopsStillRead(old(memory), memory, handlers, view.handlers, name, longer, handler, loops, view.publications);
      handlers := handlers[name := longer];
      view := Step(view, EventBus.Subscribe(name, handler));
    }

    // The read-locked part of a publish.
    method TakeSnapshot(event: Event)
      requires Valid()
      modifies this
      ensures Valid() && memory == old(memory)
      ensures view == Step(old(view), Snapshot(event))
    {
      loops := loops + [Loop(event, SliceOf(handlers, event.name), 0)];
      view := Step(view, Snapshot(event));
    }

    // One turn of a publish's loop: it reads the array as it is now.
    method DispatchNext(k: nat)
      requires Valid() && Enabled(view, Dispatch(k))
      modifies this
      ensures Valid() && memory == old(memory)
      ensures view == Step(old(view), Dispatch(k))
    {
      var l := loops[k];
      started := started + [Start(k, l.snapshot.buffer[l.next], l.event)];
      loops := loops[k := l.(next := l.next + 1)];
      view := Step(view, Dispatch(k));
    }
  }
}
