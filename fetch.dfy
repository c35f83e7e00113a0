/**
 * The image fetcher: the libcurl write callback `write_data`, the transfer that
 * libcurl drives through it, and `curlImg`, which decodes what arrived.
 *
 * libcurl itself (URL, timeout, sockets) is not modelled: a transfer is given as
 * the sequence of chunks that libcurl hands to the callback, in arrival order,
 * before the transfer ends (completed, failed, or cut off by the 10-second
 * timeout). An empty sequence means no byte arrived: an empty body, or an error
 * or timeout before the first byte. The image decoder is an uninterpreted function.
 */
module Fetch {
  type Byte = bv8

  /** A decoded image; only whether it is empty matters to the callers. */
  datatype Mat = Mat(rows: nat, cols: nat) {
    predicate IsEmpty() { rows == 0 || cols == 0 }
  }

  /** The bytes of a transfer, chunk after chunk. */
  function Flatten(chunks: seq<seq<Byte>>): seq<Byte>
  {
    if chunks == [] then [] else Flatten(chunks[..|chunks| - 1]) + chunks[|chunks| - 1]
  }

  /** Total number of bytes in a chunking. */
  function TotalSize(chunks: seq<seq<Byte>>): nat
  {
    if chunks == [] then 0 else TotalSize(chunks[..|chunks| - 1]) + |chunks[|chunks| - 1]|
  }

  /**
   * One way the network may fragment a body: full `k`-byte pieces, then the
   * remainder. A model of the environment, used to exercise `Transfer`.
   */
  function ChunksOf(bytes: seq<Byte>, k: nat): (chunks: seq<seq<Byte>>)
    requires k > 0
    ensures forall i :: 0 <= i < |chunks| ==> 0 < |chunks[i]| <= k
    decreases |bytes|
  {
    if bytes == [] then []
    else if |bytes| <= k then [bytes]
    else [bytes[..k]] + ChunksOf(bytes[k..], k)
  }

  lemma {:induction false} FlattenConcat(a: seq<seq<Byte>>, b: seq<seq<Byte>>)
    ensures Flatten(a + b) == Flatten(a) + Flatten(b)
    decreases |b|
  {
    if b == [] {
      assert a + b == a;
    } else {
      var last := |b| - 1;
      assert (a + b)[..|a + b| - 1] == a + b[..last];
      FlattenConcat(a, b[..last]);
    }
  }

  /** The length of a transfer's bytes is the sum of its chunk sizes. */
  lemma {:induction false} FlattenLength(chunks: seq<seq<Byte>>)
    ensures |Flatten(chunks)| == TotalSize(chunks)
    decreases |chunks|
  {
    if chunks != [] {
      FlattenLength(chunks[..|chunks| - 1]);
    }
  }

  /** The cut `ChunksOf` makes (full `k`-byte pieces, then the remainder) reassembles to the original bytes. */
  lemma {:induction false} ChunksOfRoundTrip(bytes: seq<Byte>, k: nat)
    requires k > 0
    ensures Flatten(ChunksOf(bytes, k)) == bytes
    decreases |bytes|
  {
    if bytes == [] {
    } else if |bytes| <= k {
      assert Flatten([bytes]) == Flatten([]) + bytes;
    } else {
      ChunksOfRoundTrip(bytes[k..], k);
      FlattenConcat([bytes[..k]], ChunksOf(bytes[k..], k));
      assert Flatten([bytes[..k]]) == Flatten([]) + bytes[..k];
      assert bytes[..k] + bytes[k..] == bytes;
    }
  }

  /** The growable byte vector that `curlImg` hands to libcurl as the callback's user data. */
  class ByteStream {
    var bytes: seq<Byte>

    constructor ()
      ensures bytes == []
    {
      bytes := [];
    }

    /**
     * The write callback: appends the `size * nmemb` bytes at `ptr` to the end of the
     * stream and reports them all as consumed. libcurl guarantees that `ptr` holds
     * that many bytes.
     */
    method WriteData(ptr: array<Byte>, size: nat, nmemb: nat) returns (count: nat)
      requires size * nmemb <= ptr.Length
      modifies this
      ensures count == size * nmemb
      ensures |bytes| == |old(bytes)| + count
      ensures bytes[..|old(bytes)|] == old(bytes)
      ensures bytes[|old(bytes)|..] == ptr[..count]
    {
      count := size * nmemb;
      bytes := bytes + ptr[..count];
    }

    /**
     * A transfer: libcurl calls the write callback once per chunk, in order, with
     * `size` 1 and `nmemb` the chunk length. However the body is fragmented, the
     * stream ends up as its old contents followed by all the body bytes.
     */
    method Transfer(chunks: seq<seq<Byte>>)
      modifies this
      ensures bytes == old(bytes) + Flatten(chunks)
    {
      var i := 0;
      while i < |chunks|
        invariant 0 <= i <= |chunks|
        invariant bytes == old(bytes) + Flatten(chunks[..i])
      {
        var chunk := chunks[i];
        var ptr := new Byte[|chunk|](j requires 0 <= j < |chunk| => chunk[j]);
        assert ptr[..] == chunk;
        var count := WriteData(ptr, 1, |chunk|);
        assert chunks[..i + 1][..i] == chunks[..i];
        assert bytes == old(bytes) + Flatten(chunks[..i]) + chunk;
        i := i + 1;
      }
      assert chunks[..|chunks|] == chunks;
    }
  }

  /**
   * `curlImg`: fetch into a fresh stream, then decode the accumulated bytes.
   * `chunks` is what libcurl delivers for the URL within the timeout.
   */
  method CurlImg(chunks: seq<seq<Byte>>, decode: seq<Byte> -> Mat) returns (im: Mat)
    ensures im == decode(Flatten(chunks))
  {
    var stream := new ByteStream();
    stream.Transfer(chunks);
    assert stream.bytes == Flatten(chunks);
    im := decode(stream.bytes);
  }

  /**
   * A fresh stream fed the `ChunksOf` cut of a body holds exactly that body.
   */
  method ReceiveFragmented(body: seq<Byte>, k: nat) returns (received: seq<Byte>)
    requires k > 0
    ensures received == body
  {
    var stream := new ByteStream();
    stream.Transfer(ChunksOf(body, k));
    ChunksOfRoundTrip(body, k);
    received := stream.bytes;
  }
}
