/** Which streams the scanner gives up on, and what it has yielded by then. */
module SseLimit {
  import opened SseFramingSpec
  import opened Wrappers

  /** A frame as it lies in a stream: its text, all its bytes with the blank line
      after it, and whether that blank line is there. */
  datatype Piece = Piece(raw: Bytes, size: nat, ended: bool)

  /** The stream cut at every frame end, however long the frames are. */
  function Pieces(stream: Bytes): seq<Piece>
    decreases |stream|
  {
    var c := Cut(stream);
    if stream == [] then []
    else if c.None? then [Piece(stream, |stream|, false)]
    else [Piece(stream[..c.value.0], c.value.1, true)] + Pieces(stream[c.value.1..])
  }

  function Size(pieces: seq<Piece>): nat { if pieces == [] then 0 else pieces[0].size + Size(pieces[1..]) }

  /** No byte is in two pieces or in none. */
  lemma {:induction false} PiecesCover(stream: Bytes)
    ensures Size(Pieces(stream)) == |stream|
    decreases |stream|
  {
    var c := Cut(stream);
    if stream != [] && c.Some? { PiecesCover(stream[c.value.1..]); }
  }

  /** A frame fits a buffer that holds it with its blank line; one the stream
      ends in must leave a byte of the buffer free to read on. */
  predicate Fits(piece: Piece, cap: nat) { if piece.ended then piece.size <= cap else piece.size < cap }

  /** The events of pieces, those without data left out. */
  function EventsOf(pieces: seq<Piece>): seq<Frame> {
    if pieces == [] then []
    else
      var frame := ParseFrame(pieces[0].raw);
      (if frame.Some? then [frame.value] else []) + EventsOf(pieces[1..])
  }

  /** The scanner yields the events of the frames before the first that does not
      fit, and says that it gave up exactly when there is one. */
  lemma {:induction false} GivesUpExactly(stream: Bytes, cap: nat, n: nat)
    requires n <= |Pieces(stream)| && (forall k :: 0 <= k < n ==> Fits(Pieces(stream)[k], cap))
    requires n < |Pieces(stream)| ==> !Fits(Pieces(stream)[n], cap)
    ensures Scan(stream, cap) == (EventsOf(Pieces(stream)[..n]), n < |Pieces(stream)|)
    decreases |stream|
  {
    hide ParseFrame, Cut;
    var pieces, c := Pieces(stream), Cut(stream);
    if n > 0 {
      assert Fits(pieces[0], cap) && pieces[..n][0] == pieces[0];
      var rest := if c.Some? then stream[c.value.1..] else [];
      assert pieces[1..] == Pieces(rest) && NextToken(stream, cap) == Token(pieces[0].raw, rest);
      forall k | 0 <= k < n - 1 ensures Fits(Pieces(rest)[k], cap) { assert Pieces(rest)[k] == pieces[k + 1]; }
      GivesUpExactly(rest, cap, n - 1);
      assert pieces[..n][1..] == Pieces(rest)[..n - 1];
      assert |pieces| == |Pieces(rest)| + 1;
      assert [] + EventsOf(Pieces(rest)[..n - 1]) == EventsOf(Pieces(rest)[..n - 1]);
    } else if stream != [] {
      assert pieces[..0] == [] && !Fits(pieces[0], cap) && NextToken(stream, cap) == TooLong;
    }
  }

  /** So a stream is read to its end exactly when every frame in it fits. */
  lemma ReadsToEnd(stream: Bytes, cap: nat)
    ensures !Scan(stream, cap).1 <==> forall piece <- Pieces(stream) :: Fits(piece, cap)
  {
    var pieces := Pieces(stream);
    var n := FirstLong(pieces, cap);
    GivesUpExactly(stream, cap, n);
    if n < |pieces| { assert pieces[n] in pieces; }
  }

  function FirstLong(pieces: seq<Piece>, cap: nat): (n: nat)
    ensures n <= |pieces| && forall k :: 0 <= k < n ==> Fits(pieces[k], cap)
    ensures n < |pieces| ==> !Fits(pieces[n], cap)
  {
    if pieces == [] || !Fits(pieces[0], cap) then 0
    else
      assert forall k :: 1 <= k < |pieces| ==> pieces[k] == pieces[1..][k - 1];
      1 + FirstLong(pieces[1..], cap)
  }
}
