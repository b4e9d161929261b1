/** Reading a response body that may be larger than the client is willing to keep. */
module BodyReader {
  import opened Types

  /** What the transport hands over next: some bytes, or an error. */
  datatype Piece = Chunk(bytes: seq<Byte>) | Broken

  /** The bytes that arrive before the end of the body or the first transport error. */
  function Arriving(pieces: seq<Piece>): seq<Byte> {
    if pieces == [] || pieces[0].Broken? then [] else pieces[0].bytes + Arriving(pieces[1..])
  }

  predicate Breaks(pieces: seq<Piece>) {
    exists i | 0 <= i < |pieces| :: pieces[i].Broken?
  }

  /** At most `limit` bytes are kept, however the body is cut into pieces: exactly the first `limit` of them, with the
      flag set exactly when there were more. A transport error counts only if it comes before the limit is exceeded. */
  method ReadLimited(pieces: seq<Piece>, limit: nat) returns (reply: Option<(seq<Byte>, bool)>)
    ensures reply.None? <==> Breaks(pieces) && |Arriving(pieces)| <= limit
    ensures reply.Some? ==>
              && reply.value.0 == Arriving(pieces)[..if |Arriving(pieces)| < limit then |Arriving(pieces)| else limit]
              && (reply.value.1 <==> |Arriving(pieces)| > limit)
  {
    var body: seq<Byte> := [];
    var i := 0;
    while i < |pieces|
      invariant 0 <= i <= |pieces| && |body| <= limit
      invariant body + Arriving(pieces[i..]) == Arriving(pieces)
      invariant forall j | 0 <= j < i :: pieces[j].Chunk?
    {
      if pieces[i].Broken? {
        return None;
      }
      var chunk := pieces[i].bytes;
      var remaining := limit - |body|;
      assert pieces[i..][1..] == pieces[i + 1..];
      assert Arriving(pieces) == (body + chunk) + Arriving(pieces[i + 1..]);
      if |chunk| > remaining {
        assert (body + chunk)[..limit] == body + chunk[..remaining];
        return Some((body + chunk[..remaining], true));
      }
      body := body + chunk;
      i := i + 1;
    }
    reply := Some((body, false));
  }
}
