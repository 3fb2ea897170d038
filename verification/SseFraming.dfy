/** The event framing of the stream interceptor: how a buffer of bytes is cut into
    server-sent-event blocks, and when the cuts do not depend on how the network
    delivered the bytes. */
module SseFraming {
  type Byte = b: int | 0 <= b < 256

  const LF: Byte := 10
  const CR: Byte := 13

  datatype Terminator = LfLf | CrlfCrlf {
    function Bytes(): seq<Byte> {
      if LfLf? then [LF, LF] else [CR, LF, CR, LF]
    }
  }

  /** One event block as it was cut out of the stream. */
  datatype Block = Block(body: seq<Byte>, end: Terminator) {
    function Raw(): seq<Byte> {
      body + end.Bytes()
    }
  }

  /** The blocks cut so far and the bytes still buffered. */
  datatype Framed = Framed(blocks: seq<Block>, rest: seq<Byte>)

  const EMPTY: Framed := Framed([], [])

  predicate LfAt(s: seq<Byte>, i: int) {
    0 <= i && i + 2 <= |s| && s[i] == LF && s[i + 1] == LF
  }

  predicate CrlfAt(s: seq<Byte>, i: int) {
    0 <= i && i + 4 <= |s| && s[i] == CR && s[i + 1] == LF && s[i + 2] == CR && s[i + 3] == LF
  }

  /** `bytes.Index(s[from..], "\n\n")`, as an index into `s`, or -1. */
  function IndexLf(s: seq<Byte>, from: nat): (r: int)
    ensures r == -1 || (from <= r && LfAt(s, r))
    ensures forall i :: from <= i < (if r == -1 then |s| else r) ==> !LfAt(s, i)
    decreases |s| - from
  {
    if |s| < from + 2 then -1
    else if LfAt(s, from) then from
    else IndexLf(s, from + 1)
  }

  /** `bytes.Index(s[from..], "\r\n\r\n")`, as an index into `s`, or -1. */
  function IndexCrlf(s: seq<Byte>, from: nat): (r: int)
    ensures r == -1 || (from <= r && CrlfAt(s, r))
    ensures forall i :: from <= i < (if r == -1 then |s| else r) ==> !CrlfAt(s, i)
    decreases |s| - from
  {
    if |s| < from + 4 then -1
    else if CrlfAt(s, from) then from
    else IndexCrlf(s, from + 1)
  }

  datatype Cut = NoCut | CutAt(at: nat, end: Terminator)

  /** Where the next block ends: the first LF LF anywhere in the buffer is preferred
      to every CR LF CR LF, even to one that comes before it. */
  function NextCut(s: seq<Byte>): (c: Cut)
    ensures c.NoCut? <==> (forall i :: !LfAt(s, i)) && (forall i :: !CrlfAt(s, i))
    ensures c.CutAt? ==> c.at + |c.end.Bytes()| <= |s|
  {
    var i := IndexLf(s, 0);
    if i != -1 then CutAt(i, LfLf)
    else
      var j := IndexCrlf(s, 0);
      if j != -1 then CutAt(j, CrlfCrlf) else NoCut
  }

  function Tail(s: seq<Byte>, c: Cut): (r: seq<Byte>)
    requires c.CutAt? && c == NextCut(s)
    ensures |r| < |s|
  {
    s[c.at + |c.end.Bytes()|..]
  }

  lemma TailRest(s: seq<Byte>)
    requires NextCut(s).CutAt?
    ensures var c := NextCut(s); s == Block(s[..c.at], c.end).Raw() + Tail(s, c)
  {
  }

  function Cons(b: Block, f: Framed): Framed {
    Framed([b] + f.blocks, f.rest)
  }

  /** All blocks that one pass over the buffer cuts. */
  function Frame(s: seq<Byte>): Framed
    decreases |s|
  {
    var c := NextCut(s);
    if c.NoCut? then Framed([], s) else Cons(Block(s[..c.at], c.end), Frame(Tail(s, c)))
  }

  /** The bytes that a list of blocks was cut from. */
  function Unframe(blocks: seq<Block>): seq<Byte> {
    if blocks == [] then []
    else blocks[0].Raw() + Unframe(blocks[1..])
  }

  function Bodies(blocks: seq<Block>): seq<seq<Byte>> {
    seq(|blocks|, i requires 0 <= i < |blocks| => blocks[i].body)
  }

  predicate NoTerminator(s: seq<Byte>) {
    NextCut(s).NoCut?
  }

  /** Framing loses nothing: blocks, terminators and leftover are the buffer, and the
      leftover holds no terminator. */
  lemma {:induction false} FrameLossless(s: seq<Byte>)
    ensures Unframe(Frame(s).blocks) + Frame(s).rest == s
    ensures NoTerminator(Frame(s).rest)
    decreases |s|
  {
    var c := NextCut(s);
    if c.CutAt? {
      var f := Frame(Tail(s, c));
      FrameLossless(Tail(s, c));
      TailRest(s);
      var b := Block(s[..c.at], c.end);
      UnframeCons(b, f.blocks);
      SeqAssoc(b.Raw(), Unframe(f.blocks), f.rest);
    }
  }

  lemma UnframeCons(b: Block, blocks: seq<Block>)
    ensures Unframe([b] + blocks) == b.Raw() + Unframe(blocks)
  {
  }

  lemma {:induction false} UnframeConcat(a: seq<Block>, b: seq<Block>)
    ensures Unframe(a + b) == Unframe(a) + Unframe(b)
  {
    hide *;
    if a == [] {
      UnframeNone();
      assert a + b == b && [] + Unframe(b) == Unframe(b);
    } else {
      var x, rest := a[0], a[1..];
      UnframeConcat(rest, b);
      SeqAssoc([x], rest, b);
      assert a == [x] + rest;
      UnframeCons(x, rest);
      UnframeCons(x, rest + b);
      SeqAssoc(x.Raw(), Unframe(rest), Unframe(b));
    }
  }

  lemma UnframeNone()
    ensures Unframe([]) == []
  {
  }

  lemma SeqAssoc<T>(a: seq<T>, b: seq<T>, c: seq<T>)
    ensures (a + b) + c == a + (b + c)
  {
  }

  // ----- Delivery in several reads

  function Flatten(chunks: seq<seq<Byte>>): seq<Byte> {
    if chunks == [] then [] else chunks[0] + Flatten(chunks[1..])
  }

  /** One read: append to the buffer, then cut. */
  function FeedOne(f: Framed, chunk: seq<Byte>): Framed {
    var g := Frame(f.rest + chunk);
    Framed(f.blocks + g.blocks, g.rest)
  }

  function Feed(f: Framed, chunks: seq<seq<Byte>>): Framed
    decreases |chunks|
  {
    if chunks == [] then f else Feed(FeedOne(f, chunks[0]), chunks[1..])
  }

  lemma FeedOneLossless(f: Framed, chunk: seq<Byte>)
    ensures var g := FeedOne(f, chunk); Unframe(g.blocks) + g.rest == Unframe(f.blocks) + f.rest + chunk
    ensures NoTerminator(FeedOne(f, chunk).rest)
  {
    var g := Frame(f.rest + chunk);
    FrameLossless(f.rest + chunk);
    UnframeConcat(f.blocks, g.blocks);
    SeqAssoc(Unframe(f.blocks), Unframe(g.blocks), g.rest);
    SeqAssoc(Unframe(f.blocks), f.rest, chunk);
  }

  /** Every way of delivering `s` gives the same leftover-plus-blocks total. */
  lemma {:induction false} FeedLossless(f: Framed, chunks: seq<seq<Byte>>)
    ensures var g := Feed(f, chunks);
            Unframe(g.blocks) + g.rest == Unframe(f.blocks) + f.rest + Flatten(chunks)
    ensures NoTerminator(f.rest) ==> NoTerminator(Feed(f, chunks).rest)
    decreases |chunks|
  {
    if chunks != [] {
      FeedOneLossless(f, chunks[0]);
      FeedLossless(FeedOne(f, chunks[0]), chunks[1..]);
      SeqAssoc(Unframe(f.blocks) + f.rest, chunks[0], Flatten(chunks[1..]));
    }
  }

  /** No CR LF CR LF of the stream comes before an LF LF. Streams that use only one of
      the two terminators satisfy this. */
  predicate Unmixed(s: seq<Byte>) {
    forall j, i :: 0 <= j < |s| && 0 <= i < |s| && CrlfAt(s, j) && LfAt(s, i) ==> i < j
  }

  lemma LfSuffix(s: seq<Byte>, n: nat, i: int)
    requires n <= |s| && 0 <= i
    ensures LfAt(s[n..], i) <==> LfAt(s, n + i)
    ensures CrlfAt(s[n..], i) <==> CrlfAt(s, n + i)
  {
  }

  lemma UnmixedSuffix(s: seq<Byte>, n: nat)
    requires n <= |s| && Unmixed(s)
    ensures Unmixed(s[n..])
  {
    forall j, i | 0 <= j < |s[n..]| && 0 <= i < |s[n..]| && CrlfAt(s[n..], j) && LfAt(s[n..], i)
      ensures i < j
    {
      LfSuffix(s, n, i);
      LfSuffix(s, n, j);
    }
  }

  /** More bytes at the end do not move a cut already visible in an unmixed stream. */
  lemma CutStable(a: seq<Byte>, b: seq<Byte>)
    requires Unmixed(a + b) && NextCut(a).CutAt?
    ensures NextCut(a + b) == NextCut(a)
  {
    var s := a + b;
    assert forall i :: 0 <= i && i + 2 <= |a| ==> (LfAt(a, i) <==> LfAt(s, i));
    assert forall i :: 0 <= i && i + 4 <= |a| ==> (CrlfAt(a, i) <==> CrlfAt(s, i));
    var i := IndexLf(a, 0);
    if i != -1 {
      assert LfAt(s, i);
      var k := IndexLf(s, 0);
      assert k <= i;
    } else {
      var j := IndexCrlf(a, 0);
      assert CrlfAt(s, j);
      var k := IndexLf(s, 0);
      if k != -1 {
        assert false;
      }
      assert IndexCrlf(s, 0) <= j;
    }
  }

  lemma FeedOneCons(x: Block, f: Framed, chunk: seq<Byte>)
    ensures FeedOne(Cons(x, f), chunk) == Cons(x, FeedOne(f, chunk))
  {
  }

  lemma FrameNoCut(s: seq<Byte>, b: seq<Byte>)
    requires NextCut(s).NoCut?
    ensures FeedOne(Frame(s), b) == Frame(s + b)
  {
  }

  lemma FrameUnfold(s: seq<Byte>, at: nat, end: Terminator) returns (n: nat)
    requires NextCut(s) == CutAt(at, end)
    ensures n == at + (if end.LfLf? then 2 else 4) && n <= |s|
    ensures Frame(s) == Cons(Block(s[..at], end), Frame(s[n..]))
  {
    n := at + |end.Bytes()|;
  }

  lemma ConcatSlices<T>(a: seq<T>, b: seq<T>, n: nat)
    requires n <= |a|
    ensures (a + b)[n..] == a[n..] + b && (a + b)[..n] == a[..n]
  {
  }

  /** Cutting a prefix first and the remainder later gives the cuts of the whole. */
  lemma {:induction false} FrameSplit(a: seq<Byte>, b: seq<Byte>)
    requires Unmixed(a + b)
    ensures Frame(a + b) == FeedOne(Frame(a), b)
    decreases |a|
  {
    hide *;
    var c := NextCut(a);
    if c.NoCut? {
      FrameNoCut(a, b);
    } else {
      CutStable(a, b);
      var n := FrameUnfold(a, c.at, c.end);
      var n' := FrameUnfold(a + b, c.at, c.end);
      ConcatSlices(a, b, n);
      ConcatSlices(a, b, c.at);
      UnmixedSuffix(a + b, n);
      FrameSplit(a[n..], b);
      FeedOneCons(Block(a[..c.at], c.end), Frame(a[n..]), b);
    }
  }

  /** However an unmixed stream is cut into reads, the interceptor sees the blocks and
      the leftover of one single read. */
  lemma {:induction false} FeedEqualsFrame(seen: seq<Byte>, chunks: seq<seq<Byte>>)
    requires Unmixed(seen + Flatten(chunks))
    ensures Feed(Frame(seen), chunks) == Frame(seen + Flatten(chunks))
    decreases |chunks|
  {
    if chunks == [] {
      assert seen + [] == seen;
    } else {
      var s := seen + chunks[0];
      assert s + Flatten(chunks[1..]) == seen + Flatten(chunks);
      UnmixedPrefix(s, Flatten(chunks[1..]));
      FrameSplit(seen, chunks[0]);
      FeedEqualsFrame(s, chunks[1..]);
    }
  }

  lemma UnmixedPrefix(a: seq<Byte>, b: seq<Byte>)
    requires Unmixed(a + b)
    ensures Unmixed(a)
  {
    forall j, i | 0 <= j < |a| && 0 <= i < |a| && CrlfAt(a, j) && LfAt(a, i)
      ensures i < j
    {
      assert CrlfAt(a + b, j) && LfAt(a + b, i);
    }
  }

  // ----- The converse: a mixed stream always has two deliveries that disagree

  /** `j` is the first CR LF CR LF of `s`, and an LF LF comes after it. */
  predicate MixedAt(s: seq<Byte>, j: nat, i: nat) {
    CrlfAt(s, j) && LfAt(s, i) && j < i && forall m :: 0 <= m < j ==> !CrlfAt(s, m)
  }

  /** The buffer up to that CR LF CR LF and the whole stream are cut alike as long as
      LF LF comes first; then the short buffer is cut earlier. */
  lemma PrefixCut(s: seq<Byte>, j: nat, i: nat)
    requires MixedAt(s, j, i)
    ensures j + 4 <= |s| && NextCut(s).CutAt? && NextCut(s).end == LfLf && NextCut(s).at + 2 <= |s|
    ensures NextCut(s).at < j ==> NextCut(s).at + 2 <= j && NextCut(s[..j + 4]) == NextCut(s)
    ensures NextCut(s).at >= j ==> NextCut(s).at > j && NextCut(s[..j + 4]) == CutAt(j, CrlfCrlf)
  {
    var p := s[..j + 4];
    var at := IndexLf(s, 0);
    if at < j {
      assert LfAt(p, at);
      assert forall m :: 0 <= m < at ==> !LfAt(p, m) by {
        assert forall m :: 0 <= m < at ==> LfAt(p, m) ==> LfAt(s, m);
      }
    } else {
      assert forall m :: 0 <= m < |p| && LfAt(p, m) ==> LfAt(s, m);
      assert CrlfAt(p, j);
      assert forall m :: 0 <= m < j && CrlfAt(p, m) ==> CrlfAt(s, m);
    }
  }

  lemma MixedAtTail(s: seq<Byte>, j: nat, i: nat, n: nat)
    requires MixedAt(s, j, i) && n <= j
    ensures MixedAt(s[n..], j - n, i - n)
  {
    LfSuffix(s, n, j - n);
    LfSuffix(s, n, i - n);
    forall m | 0 <= m < j - n
      ensures !CrlfAt(s[n..], m)
    {
      LfSuffix(s, n, m);
    }
  }

  predicate ShorterAt(f: Framed, g: Framed, k: nat) {
    k < |f.blocks| && k < |g.blocks| && |f.blocks[k].body| < |g.blocks[k].body|
  }

  lemma ShorterCons(x: Block, f: Framed, g: Framed, k: nat)
    requires ShorterAt(f, g, k)
    ensures ShorterAt(Cons(x, f), Cons(x, g), k + 1)
  {
  }

  lemma ShorterFirst(x: Block, f: Framed, y: Block, g: Framed)
    requires |x.body| < |y.body|
    ensures ShorterAt(Cons(x, f), Cons(y, g), 0)
  {
  }

  /** Cutting right after the first CR LF CR LF yields a shorter block there than the
      single read does. */
  lemma {:induction false} PrefixDisagrees(s: seq<Byte>, j: nat, i: nat) returns (k: nat)
    requires MixedAt(s, j, i)
    ensures j + 4 <= |s| && ShorterAt(Frame(s[..j + 4]), Frame(s), k)
    decreases |s|
  {
    hide *;
    PrefixCut(s, j, i);
    var p, at := s[..j + 4], NextCut(s).at;
    var n := FrameUnfold(s, at, LfLf);
    if at < j {
      var n' := FrameUnfold(p, at, LfLf);
      var t := s[n..];
      MixedAtTail(s, j, i, n);
      k := PrefixDisagrees(t, j - n, i - n);
      SliceSwap(s, n, j + 4);
      SliceSwap(s, at, j + 4);
      ShorterCons(Block(s[..at], LfLf), Frame(p[n..]), Frame(t), k);
      k := k + 1;
    } else {
      var n' := FrameUnfold(p, j, CrlfCrlf);
      ShorterFirst(Block(p[..j], CrlfCrlf), Frame(p[n'..]), Block(s[..at], LfLf), Frame(s[n..]));
      k := 0;
    }
  }

  lemma SliceSwap<T>(s: seq<T>, a: nat, n: nat)
    requires a <= n <= |s|
    ensures s[a..][..n - a] == s[..n][a..] && s[..n][..a] == s[..a]
  {
  }

  lemma FeedPair(a: seq<Byte>, b: seq<Byte>)
    ensures Flatten([a, b]) == a + b
    ensures Feed(EMPTY, [a, b]) == FeedOne(Frame(a), b)
  {
    var last: seq<seq<Byte>> := [b];
    assert [a, b][1..] == last && last[1..] == [];
    assert Flatten(last) == b + [] == b;
    assert EMPTY.rest + a == a && FeedOne(EMPTY, a) == Frame(a);
    assert Feed(Frame(a), last) == FeedOne(Frame(a), b);
  }

  lemma MixedDisagrees(s: seq<Byte>) returns (chunks: seq<seq<Byte>>)
    requires !Unmixed(s)
    ensures Flatten(chunks) == s
    ensures Bodies(Feed(EMPTY, chunks).blocks) != Bodies(Frame(s).blocks)
  {
    hide *;
    var j, i := MixedPick(s);
    PrefixCut(s, j, i);
    var a, b := s[..j + 4], s[j + 4..];
    chunks := [a, b];
    FeedPair(a, b);
    var k := PrefixDisagrees(s, j, i);
    ShorterBodiesDiffer(Frame(a), b, Frame(s), k);
  }

  lemma MixedPick(s: seq<Byte>) returns (j: nat, i: nat)
    requires !Unmixed(s)
    ensures MixedAt(s, j, i)
  {
    var j', i' :| 0 <= j' < |s| && 0 <= i' < |s| && CrlfAt(s, j') && LfAt(s, i') && j' <= i';
    j, i := IndexCrlf(s, 0), i';
  }

  lemma ShorterBodiesDiffer(f: Framed, chunk: seq<Byte>, g: Framed, k: nat)
    requires ShorterAt(f, g, k)
    ensures Bodies(FeedOne(f, chunk).blocks) != Bodies(g.blocks)
  {
    var blocks := FeedOne(f, chunk).blocks;
    assert blocks[k] == f.blocks[k];
    assert Bodies(blocks)[k] == f.blocks[k].body && Bodies(g.blocks)[k] == g.blocks[k].body;
  }

  /** The events do not depend on the network: all deliveries of `s` give the event
      bodies of a single read. */
  ghost predicate ChunkIndependent(s: seq<Byte>) {
    forall chunks :: Flatten(chunks) == s ==> Bodies(Feed(EMPTY, chunks).blocks) == Bodies(Frame(s).blocks)
  }

  /** Exactly the streams in which no CR LF CR LF precedes an LF LF are framed
      independently of the delivery. */
  lemma ChunkIndependentIff(s: seq<Byte>)
    ensures ChunkIndependent(s) <==> Unmixed(s)
  {
    if Unmixed(s) {
      forall chunks | Flatten(chunks) == s
        ensures Feed(EMPTY, chunks) == Frame(s)
      {
        assert [] + s == s;
        FeedEqualsFrame([], chunks);
      }
    } else {
      var chunks := MixedDisagrees(s);
    }
  }

  /** A buffer that ends with its only cut is exactly one block. */
  lemma FrameOneBlock(s: seq<Byte>, at: nat, end: Terminator)
    requires NextCut(s) == CutAt(at, end) && at + |end.Bytes()| == |s|
    ensures Frame(s) == Framed([Block(s[..at], end)], [])
  {
    assert Tail(s, NextCut(s)) == [];
    assert Frame([]) == EMPTY;
  }

  /** `a CRLF CRLF b LF LF` is one event when read at once and two when the read stops
      after the first terminator. */
  lemma MixedExample()
    ensures var a: seq<Byte>, b: seq<Byte> := [97, CR, LF, CR, LF], [98, LF, LF];
            && !Unmixed(a + b)
            && Frame(a + b) == Framed([Block([97, CR, LF, CR, LF, 98], LfLf)], [])
            && Feed(EMPTY, [a, b]) == Framed([Block([97], CrlfCrlf), Block([98], LfLf)], [])
  {
    var a: seq<Byte>, b: seq<Byte> := [97, CR, LF, CR, LF], [98, LF, LF];
    var s := a + b;
    assert CrlfAt(s, 1) && LfAt(s, 6);
    assert IndexLf(s, 0) == 6;
    FrameOneBlock(s, 6, LfLf);
    assert s[..6] == [97, CR, LF, CR, LF, 98];
    MixedExampleInTwoReads(a, b);
  }

  lemma MixedExampleInTwoReads(a: seq<Byte>, b: seq<Byte>)
    requires a == [97, CR, LF, CR, LF] && b == [98, LF, LF]
    ensures Feed(EMPTY, [a, b]) == Framed([Block([97], CrlfCrlf), Block([98], LfLf)], [])
  {
    assert IndexLf(a, 0) == -1 && CrlfAt(a, 1) && IndexCrlf(a, 0) == 1;
    FrameOneBlock(a, 1, CrlfCrlf);
    assert a[..1] == [97];
    assert LfAt(b, 1) && IndexLf(b, 0) == 1;
    FrameOneBlock(b, 1, LfLf);
    assert b[..1] == [98];
    FeedPair(a, b);
    assert [] + b == b;
  }
}
