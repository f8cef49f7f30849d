/** The sending half of a stream: one Write cut into frames over one reused buffer. */
module SendSide {
  import opened Common
  import opened Utf8
  import opened Frame
  import opened StreamRun

  type Piece = b: bytes | |b| <= PAYLOAD_LIMIT

  /** The payloads one Write of p is cut into. */
  function Pieces(c: Config, p: bytes): seq<Piece>
  {
    if p == [] then []
    else
      var chunk: Piece := NextChunk(c, p);
      [chunk] + Pieces(c, p[|chunk|..])
  }

  /** The messages that carry the pieces. */
  function Frames(ps: seq<Piece>): (msgs: seq<bytes>)
    ensures |msgs| == |ps| && forall i :: 0 <= i < |ps| ==> msgs[i] == Bytes(TYPE_DATA, ps[i])
  {
    seq(|ps|, i requires 0 <= i < |ps| => Bytes(TYPE_DATA, ps[i]))
  }

  /** The pieces make up p, are not empty, respect the limit, and are as few as it allows. */
  lemma {:induction false} PiecesCarry(c: Config, p: bytes)
    ensures Flat(Pieces(c, p)) == p
    ensures forall q <- Pieces(c, p) :: 0 < |q| <= c.txMax
    ensures p != [] ==> (|Pieces(c, p)| - 1) * c.txMax < |p| <= |Pieces(c, p)| * c.txMax
  {
    if p != [] {
      var chunk := NextChunk(c, p);
      var rest := p[|chunk|..];
      PiecesCarry(c, rest);
      assert Pieces(c, p)[1..] == Pieces(c, rest);
      assert chunk + rest == p;
      OneMore(|Pieces(c, rest)|, c.txMax);
    }
  }

  lemma OneMore(n: nat, m: nat)
    ensures (n + 1) * m == n * m + m && n * m == (n - 1) * m + m
  {
  }

  /** A peer with the same limit accepts every message of a Write as the data it carries. */
  lemma FramesAccepted(c: Config, p: bytes, i: nat)
    requires i < |Pieces(c, p)|
    ensures Parse(Frames(Pieces(c, p))[i], c.txMax) == Ok(Parsed(TYPE_DATA, Pieces(c, p)[i]))
  {
    PiecesCarry(c, p);
    var q := Pieces(c, p)[i];
    assert q in Pieces(c, p);
    ParseOfBytes(TYPE_DATA, q, c.txMax);
  }

  /** n is a whole number of full frames. */
  predicate Whole(c: Config, n: nat)
  {
    n == 0 || (n >= c.txMax && Whole(c, n - c.txMax))
  }

  lemma {:induction false} WholeNext(c: Config, n: nat)
    requires Whole(c, n)
    ensures Whole(c, n + c.txMax)
  {
    if n != 0 { WholeNext(c, n - c.txMax); }
  }

  /** A full frame comes off the front whatever follows it. */
  lemma FullPiece(c: Config, a: bytes)
    requires |a| >= c.txMax
    ensures Pieces(c, a) == [a[..c.txMax]] + Pieces(c, a[c.txMax..])
  {
    if |a| == c.txMax { assert a[..c.txMax] == a && a[c.txMax..] == []; }
  }

  /** After a whole number of full frames the rest is cut as if it stood alone. */
  lemma {:induction false} PiecesSplit(c: Config, a: bytes, b: bytes)
    requires Whole(c, |a|)
    ensures Pieces(c, a + b) == Pieces(c, a) + Pieces(c, b)
  {
    if a == [] {
      assert a + b == b;
    } else {
      var m := c.txMax;
      var first, rest := a[..m], a[m..];
      assert (a + b)[..m] == first && (a + b)[m..] == rest + b;
      FullPiece(c, a);
      FullPiece(c, a + b);
      PiecesSplit(c, rest, b);
      assert [first] + (Pieces(c, rest) + Pieces(c, b)) == [first] + Pieces(c, rest) + Pieces(c, b);
    }
  }

  /** The next piece after a whole number of full ones. */
  lemma NextPiece(c: Config, p: bytes, n: nat)
    requires n < |p| && Whole(c, n)
    ensures var chunk := NextChunk(c, p[n..]); var k := n + |chunk|;
      && k <= |p|
      && Frames(Pieces(c, p[..k])) == Frames(Pieces(c, p[..n])) + [Bytes(TYPE_DATA, chunk)]
      && (k == |p| || Whole(c, k))
  {
    var chunk := NextChunk(c, p[n..]);
    assert p[..n + |chunk|] == p[..n] + chunk;
    PiecesSplit(c, p[..n], chunk);
    assert chunk[|chunk|..] == [] && NextChunk(c, chunk) == chunk && Pieces(c, []) == [];
    assert Pieces(c, chunk) == [chunk];
    WholeNext(c, n);
  }

  /** A channel that accepts some number of further messages and then fails. */
  class Channel {
    var sent: seq<bytes>
    var room: nat

    method Write(msg: bytes) returns (ok: bool)
      modifies this
      ensures ok <==> old(room) > 0
      ensures sent == if ok then old(sent) + [msg] else old(sent)
      ensures room == if ok then old(room) - 1 else 0
    {
      if room == 0 { return false; }
      sent := sent + [msg];
      room := room - 1;
      ok := true;
    }
  }

  class Sender {
    const cfg: Config
    const ch: Channel
    const wbuf: array<byte>

    ghost predicate Valid()
    {
      wbuf.Length == HEADER_SIZE + cfg.txMax
    }

    constructor (cfg: Config, ch: Channel)
      ensures Valid() && fresh(wbuf) && this.ch == ch && this.cfg == cfg
    {
      this.cfg, this.ch := cfg, ch;
      wbuf := new byte[HEADER_SIZE + cfg.txMax];
    }

    /** Encode the next piece of p into the reused buffer and send it. */
    method SendNext(p: bytes, from: nat) returns (n: nat, ok: bool)
      requires Valid() && from < |p| && Whole(cfg, from)
      modifies wbuf, ch
      ensures ok ==> from < n <= |p| && n - from <= PAYLOAD_LIMIT && (n == |p| || Whole(cfg, n))
      ensures ok ==> ch.sent == old(ch.sent) + [Bytes(TYPE_DATA, p[from..n])]
      ensures ok ==> Frames(Pieces(cfg, p[..n])) == Frames(Pieces(cfg, p[..from])) + [Bytes(TYPE_DATA, p[from..n])]
      ensures !ok ==> ch.sent == old(ch.sent) && ch.room == 0
    {
      var chunk := NextChunk(cfg, p[from..]);
      NextPiece(cfg, p, from);
      n := from + |chunk|;
      assert p[from..n] == chunk;
      var r := Encode(wbuf, TYPE_DATA, chunk);
      ok := ch.Write(wbuf[..r.value]);
    }

    /**
      Write with the lock held. Whatever it reports as written, and nothing else,
      went out, as the frames of that prefix; it stops short only when the channel fails.
     */
    method Write(p: bytes) returns (written: nat, ok: bool)
      requires Valid()
      modifies wbuf, ch
      ensures written <= |p| && (ok <==> written == |p|)
      ensures ch.sent == old(ch.sent) + Frames(Pieces(cfg, p[..written]))
      ensures !ok ==> ch.room == 0
    {
      written := 0;
      assert ch.sent == old(ch.sent) + Frames(Pieces(cfg, []));
      while written < |p|
        invariant written <= |p| && (written == |p| || Whole(cfg, written))
        invariant ch.sent == old(ch.sent) + Frames(Pieces(cfg, p[..written]))
      {
        ghost var before := Frames(Pieces(cfg, p[..written]));
        var n, sent := SendNext(p, written);
        if !sent { return written, false; }
        assert ch.sent == old(ch.sent) + (before + [Bytes(TYPE_DATA, p[written..n])]);
        written := n;
      }
      ok := true;
    }
  }
}
