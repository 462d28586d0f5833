/** Assembly of streamed tool calls: fragments carry the index of the call they
    belong to and are joined per index until the provider reports a finish. */
module ToolFragments {
  import opened Prelude
  import opened Messages

  /** A tool-call delta; a missing or empty field adds nothing. */
  datatype Fragment = Fragment(index: int, id: string, name: string, arguments: string)

  /** A stream chunk: its fragments, and whether it carries a finish reason. */
  datatype Chunk = Chunk(fragments: seq<Fragment>, finish: bool)

  datatype Buffer = Buffer(id: string, name: string, arguments: string)

  const EmptyBuffer := Buffer("", "", "")

  function Extended(buffer: Buffer, f: Fragment): Buffer {
    Buffer(buffer.id + f.id, buffer.name + f.name, buffer.arguments + f.arguments)
  }

  /** Adds a fragment to its own buffer, opening it first if need be. */
  function Added(buffers: map<int, Buffer>, f: Fragment): map<int, Buffer> {
    buffers[f.index := Extended(if f.index in buffers then buffers[f.index] else EmptyBuffer, f)]
  }

  // ------------------------------------------------------------------- what a call is

  /** The fragments of one call, in stream order. */
  function Own(fragments: seq<Fragment>, index: int): seq<Fragment> {
    if fragments == [] then []
    else
      var front, last := Own(fragments[..|fragments| - 1], index), fragments[|fragments| - 1];
      if last.index == index then front + [last] else front
  }

  /** The fields of the fragments joined. */
  function Joined(fragments: seq<Fragment>): Buffer {
    if fragments == [] then EmptyBuffer
    else Extended(Joined(fragments[..|fragments| - 1]), fragments[|fragments| - 1])
  }

  function Indices(fragments: seq<Fragment>): set<int> {
    set f | f in fragments :: f.index
  }

  function CallDone(buffer: Buffer, decode: string -> string): ProviderEvent {
    ToolCallDone(buffer.id, buffer.name, decode(buffer.arguments))
  }

  ghost predicate Increasing(indices: seq<int>) {
    forall i, j :: 0 <= i < j < |indices| ==> indices[i] < indices[j]
  }

  /** The calls of a finished stretch: one per index in increasing order, each joined
      from its own fragments. */
  ghost predicate AreCalls(fragments: seq<Fragment>, indices: seq<int>, calls: seq<ProviderEvent>,
                           decode: string -> string) {
    && Increasing(indices) && (forall k :: k in indices <==> k in Indices(fragments))
    && |calls| == |indices|
    && (forall i :: 0 <= i < |calls| ==> calls[i] == CallDone(Joined(Own(fragments, indices[i])), decode))
  }

  predicate IsLeast(indices: set<int>, least: int) {
    least in indices && forall k :: k in indices ==> least <= k
  }

  ghost function Ascending(indices: set<int>): (s: seq<int>)
    ensures Increasing(s) && forall k :: k in s <==> k in indices
  {
    if indices == {} then []
    else
      SomeLeast(indices);
      var least :| IsLeast(indices, least);
      [least] + Ascending(indices - {least})
  }

  lemma SomeElement<T>(s: set<T>) returns (x: T)
    requires s != {}
    ensures x in s
  {
    x :| x in s;
  }

  lemma {:induction false} SomeLeast(indices: set<int>)
    requires indices != {}
    ensures exists least :: IsLeast(indices, least)
    decreases |indices|
  {
    var k := SomeElement(indices);
    if indices == {k} {
      assert IsLeast(indices, k);
    } else {
      var rest := indices - {k};
      assert rest != {};
      SomeLeast(rest);
      var least :| IsLeast(rest, least);
      assert forall j :: j in indices ==> j == k || j in rest;
      assert IsLeast(indices, if k < least then k else least);
    }
  }

  /** The calls a finished stretch of fragments emits. */
  ghost function Calls(fragments: seq<Fragment>, decode: string -> string): (calls: seq<ProviderEvent>)
    ensures AreCalls(fragments, Ascending(Indices(fragments)), calls, decode)
  {
    var indices := Ascending(Indices(fragments));
    seq(|indices|, i requires 0 <= i < |indices| => CallDone(Joined(Own(fragments, indices[i])), decode))
  }

  // ------------------------------------------------------------------- the stream

  /** The fragments since the last finish. */
  function Open(chunks: seq<Chunk>): seq<Fragment> {
    if chunks == [] || chunks[|chunks| - 1].finish then []
    else Open(chunks[..|chunks| - 1]) + chunks[|chunks| - 1].fragments
  }

  /** What the whole stream emits; fragments after the last finish are dropped. */
  ghost function Emitted(chunks: seq<Chunk>, decode: string -> string): seq<ProviderEvent> {
    if chunks == [] then []
    else
      var front, last := chunks[..|chunks| - 1], chunks[|chunks| - 1];
      if last.finish then Emitted(front, decode) + Calls(Open(front) + last.fragments, decode)
          else Emitted(front, decode)
  }

  // ------------------------------------------------------------------- properties

  /** The buffers hold, for each index seen, its own fragments joined. */
  ghost predicate Holds(buffers: map<int, Buffer>, fragments: seq<Fragment>) {
    && (forall k :: k in buffers <==> k in Indices(fragments))
    && (forall k :: k in buffers ==> buffers[k] == Joined(Own(fragments, k)))
  }

  lemma OwnSnoc(fragments: seq<Fragment>, f: Fragment, index: int)
    ensures Own(fragments + [f], index) == if f.index == index then Own(fragments, index) + [f]
        else Own(fragments, index)
  {
    assert (fragments + [f])[..|fragments|] == fragments;
  }

  lemma JoinedSnoc(fragments: seq<Fragment>, f: Fragment)
    ensures Joined(fragments + [f]) == Extended(Joined(fragments), f)
  {
    assert (fragments + [f])[..|fragments|] == fragments;
  }

  lemma {:induction false} NoneOwned(fragments: seq<Fragment>, index: int)
    ensures index !in Indices(fragments) <==> Own(fragments, index) == []
  {
    if fragments != [] {
      var front, last := fragments[..|fragments| - 1], fragments[|fragments| - 1];
      NoneOwned(front, index);
      assert fragments == front + [last];
      IndicesSnoc(front, last);
    }
  }

  lemma IndicesSnoc(fragments: seq<Fragment>, f: Fragment)
    ensures Indices(fragments + [f]) == Indices(fragments) + {f.index}
  {
    forall k | k in Indices(fragments) + {f.index} ensures k in Indices(fragments + [f]) {
      assert f in fragments + [f];
      if k in Indices(fragments) {
        var g :| g in fragments && g.index == k;
        assert g in fragments + [f];
      }
    }
  }

  /** Adding a fragment to the buffers is adding it to the fragments they hold. */
  lemma AddKeepsHolding(buffers: map<int, Buffer>, fragments: seq<Fragment>, f: Fragment)
    requires Holds(buffers, fragments)
    ensures Holds(Added(buffers, f), fragments + [f])
  {
    hide Indices, Extended;
    IndicesSnoc(fragments, f);
    NoneOwned(fragments, f.index);
    forall k ensures k in Added(buffers, f) ==> Added(buffers, f)[k] == Joined(Own(fragments + [f], k)) {
      OwnSnoc(fragments, f, k);
      JoinedSnoc(Own(fragments, k), f);
    }
  }

  function Strung(parts: seq<string>): string {
    if parts == [] then "" else parts[0] + Strung(parts[1..])
  }

  lemma {:induction false} StrungSnoc(parts: seq<string>, part: string)
    ensures Strung(parts + [part]) == Strung(parts) + part
  {
    if parts == [] {
      assert parts + [part] == [part] && [part][1..] == [];
    } else {
      StrungSnoc(parts[1..], part);
      assert (parts + [part])[1..] == parts[1..] + [part];
      assert parts[0] + (Strung(parts[1..]) + part) == (parts[0] + Strung(parts[1..])) + part;
    }
  }

  function Ids(fs: seq<Fragment>): seq<string> {
    seq(|fs|, i requires 0 <= i < |fs| => fs[i].id)
  }

  function Names(fs: seq<Fragment>): seq<string> {
    seq(|fs|, i requires 0 <= i < |fs| => fs[i].name)
  }

  function Arguments(fs: seq<Fragment>): seq<string> {
    seq(|fs|, i requires 0 <= i < |fs| => fs[i].arguments)
  }

  /** A joined call's id, name and arguments are its fragments' strung together in stream
      order, each field by itself. */
  lemma {:induction false} JoinedIsStrung(fs: seq<Fragment>)
    ensures Joined(fs) == Buffer(Strung(Ids(fs)), Strung(Names(fs)), Strung(Arguments(fs)))
  {
    hide Strung;
    if fs == [] {
      NothingStrung();
      assert Ids(fs) == [] && Names(fs) == [] && Arguments(fs) == [];
    } else {
      var front, last := fs[..|fs| - 1], fs[|fs| - 1];
      JoinedIsStrung(front);
      assert Ids(fs) == Ids(front) + [last.id];
      assert Names(fs) == Names(front) + [last.name];
      assert Arguments(fs) == Arguments(front) + [last.arguments];
      StrungSnoc(Ids(front), last.id);
      StrungSnoc(Names(front), last.name);
      StrungSnoc(Arguments(front), last.arguments);
    }
  }

  lemma NothingStrung()
    ensures Strung([]) == ""
  {
  }

  /** The emitted calls, told by the fragments alone. */
  lemma CallsAreStrung(fragments: seq<Fragment>, decode: string -> string, i: nat)
    requires i < |Calls(fragments, decode)|
    ensures |Ascending(Indices(fragments))| == |Calls(fragments, decode)|
    ensures var own := Own(fragments, Ascending(Indices(fragments))[i]);
            Calls(fragments, decode)[i]
              == ToolCallDone(Strung(Ids(own)), Strung(Names(own)), decode(Strung(Arguments(own))))
  {
    hide Strung, Ids, Names, Arguments, Joined, Own;
    JoinedIsStrung(Own(fragments, Ascending(Indices(fragments))[i]));
  }

  /** Two increasing lists of the same numbers are equal. */
  lemma {:induction false} IncreasingIsUnique(a: seq<int>, b: seq<int>)
    requires Increasing(a) && Increasing(b) && forall k :: k in a <==> k in b
    ensures a == b
  {
    assert (a != [] ==> a[0] in a && a[0] in b) && (b != [] ==> b[0] in b && b[0] in a);
    if a != [] {
      assert a[0] == b[0];
      forall k ensures k in a[1..] <==> k in b[1..] {
        assert k in a <==> k == a[0] || k in a[1..];
        assert k in b <==> k == b[0] || k in b[1..];
      }
      IncreasingIsUnique(a[1..], b[1..]);
    }
  }

  /** The description of the calls determines them: they are one per index, in
      increasing order, each the concatenation of its own fragments. */
  lemma CallsAreDetermined(fragments: seq<Fragment>, indices: seq<int>, calls: seq<ProviderEvent>,
                           decode: string -> string)
    requires AreCalls(fragments, indices, calls, decode)
    ensures calls == Calls(fragments, decode)
  {
    IncreasingIsUnique(indices, Ascending(Indices(fragments)));
  }

  /** Only each call's own fragment order matters: any interleaving with the same
      fragments per index gives the same calls. */
  lemma InterleavingDoesNotMatter(a: seq<Fragment>, b: seq<Fragment>, decode: string -> string)
    requires forall k :: Own(a, k) == Own(b, k)
    ensures Calls(a, decode) == Calls(b, decode)
  {
    forall k ensures k in Indices(a) <==> k in Indices(b) {
      NoneOwned(a, k);
      NoneOwned(b, k);
    }
    assert Indices(a) == Indices(b);
    CallsAreDetermined(b, Ascending(Indices(a)), Calls(a, decode), decode);
  }

  lemma OpenSnoc(chunks: seq<Chunk>, chunk: Chunk)
    ensures Open(chunks + [chunk]) == if chunk.finish then [] else Open(chunks) + chunk.fragments
  {
    assert (chunks + [chunk])[..|chunks|] == chunks;
  }

  lemma EmittedSnoc(chunks: seq<Chunk>, chunk: Chunk, decode: string -> string)
    ensures Emitted(chunks + [chunk], decode) ==
            if chunk.finish then Emitted(chunks, decode) + Calls(Open(chunks) + chunk.fragments, decode)
                else Emitted(chunks, decode)
  {
    assert (chunks + [chunk])[..|chunks|] == chunks;
  }

  /** A stream that finishes once, in its last chunk, emits the calls of all its
      fragments; one that never finishes emits nothing. */
  lemma {:induction false} OneFinishEmitsAll(chunks: seq<Chunk>, last: Chunk, decode: string -> string)
    requires forall i :: 0 <= i < |chunks| ==> !chunks[i].finish
    ensures Emitted(chunks, decode) == []
    ensures last.finish ==> Emitted(chunks + [last], decode) == Calls(Flat(chunks) + last.fragments, decode)
  {
    QuietStream(chunks, decode);
    EmittedSnoc(chunks, last, decode);
  }

  function Flat(chunks: seq<Chunk>): seq<Fragment> {
    if chunks == [] then [] else Flat(chunks[..|chunks| - 1]) + chunks[|chunks| - 1].fragments
  }

  lemma {:induction false} QuietStream(chunks: seq<Chunk>, decode: string -> string)
    requires forall i :: 0 <= i < |chunks| ==> !chunks[i].finish
    ensures Emitted(chunks, decode) == [] && Open(chunks) == Flat(chunks)
  {
    if chunks != [] {
      QuietStream(chunks[..|chunks| - 1], decode);
    }
  }

  /** ... and so do any two streams that finish once, however they are cut into chunks. */
  lemma ChunkingDoesNotMatter(a: seq<Chunk>, lastA: Chunk, b: seq<Chunk>, lastB: Chunk, decode: string -> string)
    requires lastA.finish && lastB.finish
    requires (forall i :: 0 <= i < |a| ==> !a[i].finish) && (forall i :: 0 <= i < |b| ==> !b[i].finish)
    requires forall k :: Own(Flat(a) + lastA.fragments, k) == Own(Flat(b) + lastB.fragments, k)
    ensures Emitted(a + [lastA], decode) == Emitted(b + [lastB], decode)
  {
    OneFinishEmitsAll(a, lastA, decode);
    OneFinishEmitsAll(b, lastB, decode);
    InterleavingDoesNotMatter(Flat(a) + lastA.fragments, Flat(b) + lastB.fragments, decode);
  }

  // ------------------------------------------------------------------- the loops

  method AddFragments(start: map<int, Buffer>, fragments: seq<Fragment>,
                      ghost held: seq<Fragment>) returns (buffers: map<int, Buffer>)
    requires Holds(start, held)
    ensures Holds(buffers, held + fragments)
  {
    hide Holds, Added;
    buffers := start;
    assert held + fragments[..0] == held;
    for k := 0 to |fragments|
      invariant Holds(buffers, held + fragments[..k])
    {
      AddKeepsHolding(buffers, held + fragments[..k], fragments[k]);
      assert held + fragments[..k] + [fragments[k]] == held + fragments[..k + 1];
      buffers := Added(buffers, fragments[k]);
    }
    assert fragments[..|fragments|] == fragments;
  }

  /** The calls emitted so far are those of the indices below all that are left. */
  ghost predicate Emitting(buffers: map<int, Buffer>, todo: set<int>, indices: seq<int>, calls: seq<ProviderEvent>,
                           decode: string -> string) {
    && todo <= buffers.Keys && Increasing(indices)
    && (forall k :: k in buffers <==> k in todo || k in indices)
    && (forall i, k :: 0 <= i < |indices| && k in todo ==> indices[i] < k)
    && |calls| == |indices|
    && (forall i :: 0 <= i < |indices| ==> indices[i] in buffers && calls[i] == CallDone(buffers[indices[i]], decode))
  }

  lemma EmitLeast(buffers: map<int, Buffer>, todo: set<int>, indices: seq<int>, calls: seq<ProviderEvent>, k: int,
                  decode: string -> string)
    requires Emitting(buffers, todo, indices, calls, decode) && IsLeast(todo, k)
    ensures k in buffers && Emitting(buffers, todo - {k}, indices + [k], calls + [CallDone(buffers[k], decode)], decode)
  {
    hide CallDone;
    assert forall j :: j in indices + [k] <==> j in indices || j == k;
  }

  lemma AllEmitted(buffers: map<int, Buffer>, indices: seq<int>, calls: seq<ProviderEvent>, held: seq<Fragment>,
                   decode: string -> string)
    requires Emitting(buffers, {}, indices, calls, decode) && Holds(buffers, held)
    ensures calls == Calls(held, decode)
  {
    hide Indices, Joined, Own, Calls;
    CallsAreDetermined(held, indices, calls, decode);
  }

  /** Emits the buffered calls in index order. */
  method EmitCalls(buffers: map<int, Buffer>, decode: string -> string,
                   ghost held: seq<Fragment>) returns (calls: seq<ProviderEvent>)
    requires Holds(buffers, held)
    ensures calls == Calls(held, decode)
  {
    hide Holds, Calls;
    calls := [];
    var todo := buffers.Keys;
    ghost var indices: seq<int> := [];
    while todo != {}
      invariant Emitting(buffers, todo, indices, calls, decode)
      decreases |todo|
    {
      hide Emitting;
      SomeLeast(todo);
      var k :| k in todo && IsLeast(todo, k);
      EmitLeast(buffers, todo, indices, calls, k, decode);
      calls := calls + [CallDone(buffers[k], decode)];
      indices := indices + [k];
      todo := todo - {k};
    }
    AllEmitted(buffers, indices, calls, held, decode);
  }

  /** The stream loop: buffers are filled as fragments arrive and emptied at a finish. */
  method AssembleCalls(chunks: seq<Chunk>, decode: string -> string) returns (emitted: seq<ProviderEvent>)
    ensures emitted == Emitted(chunks, decode)
  {
    hide Holds, Calls, Emitted, Open;
    emitted := [];
    var buffers: map<int, Buffer> := map[];
    StreamStarts(decode);
    for k := 0 to |chunks|
      invariant emitted == Emitted(chunks[..k], decode) && Holds(buffers, Open(chunks[..k]))
    {
      assert chunks[..k + 1] == chunks[..k] + [chunks[k]];
      OpenSnoc(chunks[..k], chunks[k]);
      EmittedSnoc(chunks[..k], chunks[k], decode);
      ghost var held := Open(chunks[..k]) + chunks[k].fragments;
      buffers := AddFragments(buffers, chunks[k].fragments, Open(chunks[..k]));
      if chunks[k].finish {
        var calls := EmitCalls(buffers, decode, held);
        emitted := emitted + calls;
        buffers := map[];
      }
    }
    assert chunks[..|chunks|] == chunks;
  }

  lemma StreamStarts(decode: string -> string)
    ensures Emitted([], decode) == [] && Open([]) == [] && Holds(map[], [])
  {
  }
}
