/**
 From emitted instructions to an image: displacements are filled in once every
 block has an offset, and the result reads back as the validator expects.
 */
module Linking {
  import opened Words
  import opened Bpf
  import opened Native
  import opened Lowering
  import opened Emitter
  import opened Encoding
  import opened Decoder
  import opened Checking

  function Size(p: Piece): nat {
    match p
    case Code(bytes) => |bytes|
    case Jcc(_, _) => 6
    case Jmp(_) => 5
  }

  function Length(ps: seq<Piece>): nat { if ps == [] then 0 else Size(ps[0]) + Length(ps[1..]) }

  /** The stored displacement from the end of a branch to its target. */
  function Displacement(target: nat, next: nat): U32 { (target - next) % B32 }

  /** An instruction at `start` with its displacement filled in. */
  function Linked(p: Piece, start: nat, at: Layout): seq<U8> {
    match p
    case Code(bytes) => bytes
    case Jcc(c, t) => [0x0f, c] + Bytes32(Displacement(at(t), start + 6))
    case Jmp(t) => [0xe9] + Bytes32(Displacement(at(t), start + 5))
  }

  /** How single instructions are turned into bytes, passed around as a value. */
  type Linker = (Piece, nat) -> seq<U8>

  ghost predicate Sized(link: Linker) {
    forall p, start {:trigger link(p, start)} :: |link(p, start)| == Size(p)
  }

  function Links(at: Layout): Linker { (p: Piece, start: nat) => Linked(p, start, at) }

  lemma LinksSized(at: Layout)
    ensures Sized(Links(at))
  {
  }

  /** The bytes of a block that starts at `start`. */
  function Render(link: Linker, ps: seq<Piece>, start: nat): seq<U8> {
    if ps == [] then [] else link(ps[0], start) + Render(link, ps[1..], start + Size(ps[0]))
  }

  lemma {:induction false} RenderLength(link: Linker, ps: seq<Piece>, start: nat)
    requires Sized(link)
    ensures |Render(link, ps, start)| == Length(ps)
    decreases |ps|
  {
    if ps != [] {
      RenderLength(link, ps[1..], start + Size(ps[0]));
    }
  }

  lemma {:induction false} LengthSum(ps: seq<Piece>, qs: seq<Piece>)
    ensures Length(ps + qs) == Length(ps) + Length(qs)
    decreases |ps|
  {
    if ps == [] {
      assert ps + qs == qs;
    } else {
      assert (ps + qs)[1..] == ps[1..] + qs;
      LengthSum(ps[1..], qs);
    }
  }

  lemma Associative<T>(x: seq<T>, y: seq<T>, z: seq<T>)
    ensures (x + y) + z == x + (y + z)
  {
  }

  lemma {:induction false} RenderSum(link: Linker, ps: seq<Piece>, qs: seq<Piece>, start: nat)
    ensures Render(link, ps + qs, start) == Render(link, ps, start) + Render(link, qs, start + Length(ps))
    decreases |ps|
  {
    if ps == [] {
      assert ps + qs == qs;
    } else {
      assert (ps + qs)[1..] == ps[1..] + qs;
      RenderSum(link, ps[1..], qs, start + Size(ps[0]));
      Associative(link(ps[0], start), Render(link, ps[1..], start + Size(ps[0])), Render(link, qs, start + Length(ps)));
    }
  }

  /** All places lie close enough for a 32-bit displacement. */
  ghost predicate Near(at: Layout, limit: nat) { limit < 0x8000_0000 && forall t :: at(t) <= limit }

  lemma DisplacementReads(b: seq<U8>, p: nat, target: nat, limit: nat)
    requires p + 4 <= |b| && target <= limit && p + 4 <= limit < 0x8000_0000
    requires Contains(b, p, Bytes32(Displacement(target, p + 4)))
    ensures TargetAt(b, p) == Some(target)
  {
    var v := Displacement(target, p + 4);
    BytesRoundTrip(v);
    var code := Bytes32(v);
    assert b[p + 0] == code[0] && b[p + 1] == code[1] && b[p + 2] == code[2] && b[p + 3] == code[3];
    assert Imm32At(b, p) == Some(v);
    assert Signed32(v) == target - (p + 4);
  }

  lemma ContainsParts(b: seq<U8>, p: nat, x: seq<U8>, y: seq<U8>)
    requires Contains(b, p, x + y)
    ensures Contains(b, p, x) && Contains(b, p + |x|, y)
  {
    assert forall k :: 0 <= k < |x| ==> (x + y)[k] == x[k];
    assert forall k :: 0 <= k < |y| ==> (x + y)[|x| + k] == y[k];
  }

  /** Two blocks rendered together lie one after the other. */
  lemma RenderedParts(b: seq<U8>, link: Linker, ps: seq<Piece>, qs: seq<Piece>, p: nat)
    requires Sized(link) && Contains(b, p, Render(link, ps + qs, p))
    ensures Contains(b, p, Render(link, ps, p)) && Contains(b, p + Length(ps), Render(link, qs, p + Length(ps)))
  {
    RenderSum(link, ps, qs, p);
    RenderLength(link, ps, p);
    ContainsParts(b, p, Render(link, ps, p), Render(link, qs, p + Length(ps)));
  }

  lemma JccDecodes(b: seq<U8>, p: nat, c: Condition, t: Target, at: Layout, limit: nat)
    requires Near(at, limit) && p + 6 <= limit && Contains(b, p, Linked(Jcc(ConditionCode(c), t), p, at))
    ensures Decode(b, p) == Some((ConditionalJump(c, at(t)), p + 6)) && !BareLoad(b, p)
  {
    var head := [0x0f, ConditionCode(c)];
    ContainsParts(b, p, head, Bytes32(Displacement(at(t), p + 6)));
    assert b[p + 0] == head[0] && b[p + 1] == head[1];
    DisplacementReads(b, p + 2, at(t), limit);
  }

  lemma JmpDecodes(b: seq<U8>, p: nat, t: Target, at: Layout, limit: nat)
    requires Near(at, limit) && p + 5 <= limit && Contains(b, p, Linked(Jmp(t), p, at))
    ensures Decode(b, p) == Some((DirectJump(at(t)), p + 5)) && !BareLoad(b, p)
  {
    var head := [0xe9];
    ContainsParts(b, p, head, Bytes32(Displacement(at(t), p + 5)));
    assert b[p + 0] == head[0];
    DisplacementReads(b, p + 1, at(t), limit);
  }

  lemma CodeNotBare(b: seq<U8>, p: nat, code: seq<U8>, op: NativeOp)
    requires IsRead(code, op) && Contains(b, p, code)
    ensures BareLoad(b, p) <==> BareLoad(code, 0)
  {
    SameBytes(b, p, code, 0);
    assert ByteAt(code, 0) == 0x8b ==> |code| > 1;
  }

  lemma MovedCode(code: seq<U8>, here: Decoded, there: Decoded, p: nat, op: NativeOp)
    requires Moves(code, here, there, p) && here == Some((op, |code|)) && !IsJump(op)
    ensures there == Some((op, p + |code|))
  {
  }

  lemma CodeDecodes(b: seq<U8>, p: nat, code: seq<U8>, op: NativeOp)
    requires IsRead(code, op) && Contains(b, p, code)
    ensures Decode(b, p) == Some((op, p + |code|))
  {
    DecodeLocal(b, p, code);
    MovedCode(code, Decode(code, 0), Decode(b, p), p, op);
  }

  lemma LinkedDecodes(b: seq<U8>, p: nat, piece: Piece, pattern: Pattern, at: Layout, limit: nat)
    requires ReadsAs(piece, pattern) && Near(at, limit) && p + Size(piece) <= limit
             && Contains(b, p, Linked(piece, p, at))
    ensures Decode(b, p).Some? && Decode(b, p).value.1 == p + Size(piece) && (BareLoad(b, p) <==> !NotBare(piece))
    ensures Realises(pattern, Decode(b, p).value.0, at)
  {
    match pattern
    case Exact(op) =>
      CodeDecodes(b, p, piece.bytes, op);
      CodeNotBare(b, p, piece.bytes, op);
    case Branch(c, t) => JccDecodes(b, p, c, t, at, limit);
    case Goto(t) => JmpDecodes(b, p, t, at, limit);
  }

  /** No instruction from `p` on is the pair of bytes that the processor reads differently. */
  predicate Clean(b: seq<U8>, p: nat)
    decreases |b| - p
  {
    DecodeAdvances(b, p);
    Decode(b, p).Some? ==> !BareLoad(b, p) && Clean(b, Decode(b, p).value.1)
  }

  lemma CleanStep(b: seq<U8>, p: nat, next: nat)
    requires Decode(b, p).Some? && Decode(b, p).value.1 == next && !BareLoad(b, p)
    ensures Clean(b, next) ==> Clean(b, p)
  {
  }

  lemma PlacedStep(decode: Fetch, p: nat, ps: seq<Pattern>, end: nat, at: Layout)
    requires |ps| > 0 && decode(p).Some? && decode(p).value.1 > p && Realises(ps[0], decode(p).value.0, at)
    requires Placed(decode, decode(p).value.1, ps[1..], end, at)
    ensures Placed(decode, p, ps, end, at)
  {
  }

  lemma LinkedStep(b: seq<U8>, p: nat, piece: Piece, ps: seq<Pattern>, end: nat, at: Layout, limit: nat)
    requires |ps| > 0 && ReadsAs(piece, ps[0]) && Near(at, limit) && p + Size(piece) <= limit
             && Contains(b, p, Linked(piece, p, at))
    requires Placed(Reader(b), p + Size(piece), ps[1..], end, at)
    ensures Placed(Reader(b), p, ps, end, at)
    ensures NotBare(piece) ==> (Clean(b, p + Size(piece)) ==> Clean(b, p))
  {
    LinkedDecodes(b, p, piece, ps[0], at, limit);
    DecodeAdvances(b, p);
    if NotBare(piece) {
      CleanStep(b, p, p + Size(piece));
    }
    PlacedStep(Reader(b), p, ps, end, at);
  }

  predicate Standing(p: nat, piece: Piece, ps: seq<Pattern>, end: nat) { true }

  /** What one linked instruction adds to the block behind it, with the decoder passed as a value. */
  ghost predicate StepsBack(b: seq<U8>, link: Linker, decode: Fetch, clean: nat -> bool,
                            means: (Piece, Pattern) -> bool, at: Layout, limit: nat) {
    forall p: nat, piece, ps, end {:trigger Standing(p, piece, ps, end)} ::
      && Standing(p, piece, ps, end) && |ps| > 0 && means(piece, ps[0]) && p + Size(piece) <= limit
      && Contains(b, p, link(piece, p)) && Placed(decode, p + Size(piece), ps[1..], end, at)
      ==> Placed(decode, p, ps, end, at) && (NotBare(piece) && clean(p + Size(piece)) ==> clean(p))
  }

  lemma {:induction false} BlockPlaced(b: seq<U8>, link: Linker, decode: Fetch, clean: nat -> bool,
                                       means: (Piece, Pattern) -> bool,
                                       p: nat, pieces: seq<Piece>, ps: seq<Pattern>, at: Layout, limit: nat)
    requires Sized(link) && StepsBack(b, link, decode, clean, means, at, limit)
    requires |pieces| == |ps| && forall k :: 0 <= k < |ps| ==> means(pieces[k], ps[k])
    requires p + Length(pieces) <= limit && Contains(b, p, Render(link, pieces, p))
    ensures Placed(decode, p, ps, p + Length(pieces), at)
    ensures NoneBare(pieces) && clean(p + Length(pieces)) ==> clean(p)
    decreases |pieces|
  {
    if pieces != [] {
      ContainsParts(b, p, link(pieces[0], p), Render(link, pieces[1..], p + Size(pieces[0])));
      BlockPlaced(b, link, decode, clean, means, p + Size(pieces[0]), pieces[1..], ps[1..], at, limit);
      assert Standing(p, pieces[0], ps, p + Length(pieces));
    }
  }

  lemma LinkedSteps(b: seq<U8>, at: Layout, limit: nat)
    requires Near(at, limit)
    ensures StepsBack(b, Links(at), Reader(b), (p: nat) => Clean(b, p), ReadsAs, at, limit)
  {
    forall p: nat, piece, ps, end {:trigger Standing(p, piece, ps, end)} |
      && |ps| > 0 && ReadsAs(piece, ps[0]) && p + Size(piece) <= limit && Contains(b, p, Links(at)(piece, p))
      && Placed(Reader(b), p + Size(piece), ps[1..], end, at)
      ensures Placed(Reader(b), p, ps, end, at) && (NotBare(piece) && Clean(b, p + Size(piece)) ==> Clean(b, p))
    {
      LinkedStep(b, p, piece, ps, end, at, limit);
    }
  }
}
