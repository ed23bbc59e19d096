// Padding, splitting and joining around the erasure coder (src/consensus/ec.go).

module ErasureCode {
  import opened Options
  import opened Bytes

  // The coder's library, seen from outside: whether New accepts K and N, what
  // Encode makes of the data shards (None: an error), and what Reconstruct makes
  // of the shards at hand.
  datatype Codec = Codec(
    accepts: (int, int) -> bool,
    parity: (int, int, seq<Bytes>) -> Option<seq<Bytes>>,
    reconstruct: (int, int, seq<Bytes>) -> Option<seq<Bytes>>)

  // Error: an error is returned; Panic: a division by zero, a negative size or an
  // index out of range.
  datatype Result<T> = Ok(value: T) | Error | Panic

  // ----- padding -----

  function PadLen(K: nat, len: nat): nat
    requires K > 0
  {
    K - len % K
  }

  function Fill(len: nat, b: Byte): Bytes {
    seq(len, _ => b)
  }

  // The pad count goes into a byte, which truncates it.
  function Padded(K: nat, data: Bytes): Bytes
    requires K > 0
  {
    var padlen := PadLen(K, |data|);
    data + Fill(padlen, Wrap(padlen))
  }

  // For every K: 1 to K bytes up to a multiple of K, each the low byte of their number.
  lemma PadBytes(K: nat, data: Bytes)
    requires K > 0
    ensures var padded := Padded(K, data);
      var count := |padded| - |data|;
      && 1 <= count <= K && |padded| % K == 0 && data <= padded
      && forall i :: |data| <= i < |padded| ==> exists q: nat :: count == 256 * q + padded[i]
  {
    PaddedLength(K, |data|);
    var count := PadLen(K, |data|);
    forall i | |data| <= i < |Padded(K, data)| ensures exists q: nat :: count == 256 * q + Padded(K, data)[i] {
      assert count == 256 * (count / 256) + count % 256;
    }
  }

  // Section 6.3 of RFC 5652: 1 to K bytes, each the number of them, up to a
  // multiple of K. It takes K <= 255, since the count must fit a byte.
  lemma PaddingIsRfc5652(K: nat, data: Bytes)
    requires 1 <= K <= 255
    ensures 1 <= PadLen(K, |data|) <= K
    ensures |Padded(K, data)| % K == 0 && data <= Padded(K, data)
    ensures forall i :: |data| <= i < |Padded(K, data)| ==> Padded(K, data)[i] as int == |Padded(K, data)| - |data|
  {
    PaddedLength(K, |data|);
  }

  lemma PaddedLength(K: nat, len: nat)
    requires K > 0
    ensures 1 <= PadLen(K, len) <= K
    ensures (len + PadLen(K, len)) % K == 0
    ensures len + PadLen(K, len) == K * ((len + PadLen(K, len)) / K)
  {
    var q := len / K;
    assert len == K * q + len % K;
    assert len + PadLen(K, len) == K * (q + 1);
    Multiple(K, q + 1);
  }

  lemma AtLeast(K: nat, d: nat)
    requires d >= 1
    ensures K * d >= K
  {
  }

  lemma Multiple(K: nat, q: nat)
    requires K > 0
    ensures K * q % K == 0 && K * q / K == q
  {
    var d, rem := K * q / K, K * q % K;
    assert K * q == K * d + rem && 0 <= rem < K;
    if d < q {
      AtLeast(K, q - d);
    }
  }

  // ----- splitting and joining -----

  // data[i*step : (i+1)*step] for i below k
  function Split(data: Bytes, step: nat, k: nat): seq<Bytes>
    requires k * step <= |data|
  {
    if k == 0 then [] else
      assert (k - 1) * step + step == k * step;
      Split(data, step, k - 1) + [data[(k - 1) * step..k * step]]
  }

  // bytes.Join with the empty separator
  function Join(shards: seq<Bytes>): Bytes {
    if shards == [] then [] else Join(shards[..|shards| - 1]) + shards[|shards| - 1]
  }

  lemma SplitLast(data: Bytes, step: nat, k: nat)
    requires 0 < k && k * step <= |data|
    ensures 0 <= (k - 1) * step <= (k - 1) * step + step == k * step
    ensures Split(data, step, k) == Split(data, step, k - 1) + [data[(k - 1) * step..k * step]]
  {
  }

  lemma {:induction false} SplitShape(data: Bytes, step: nat, k: nat)
    requires k * step <= |data|
    ensures |Split(data, step, k)| == k
    ensures forall s :: s in Split(data, step, k) ==> |s| == step
  {
    hide Split;
    if k > 0 {
      SplitLast(data, step, k);
      SplitShape(data, step, k - 1);
    } else {
      SplitNone(data, step);
    }
  }

  lemma SplitNone(data: Bytes, step: nat)
    ensures Split(data, step, 0) == []
  {
  }

  lemma JoinSnoc(shards: seq<Bytes>, last: Bytes)
    ensures Join(shards + [last]) == Join(shards) + last
  {
    assert (shards + [last])[..|shards|] == shards;
  }

  // Joining undoes splitting.
  lemma {:induction false} JoinSplit(data: Bytes, step: nat, k: nat)
    requires k * step <= |data|
    ensures Join(Split(data, step, k)) == data[..k * step]
  {
    hide Split;
    if k > 0 {
      SplitLast(data, step, k);
      var lo, hi := (k - 1) * step, k * step;
      JoinSplit(data, step, k - 1);
      JoinSnoc(Split(data, step, k - 1), data[lo..hi]);
      assert data[..lo] + data[lo..hi] == data[..hi];
    } else {
      SplitNone(data, step);
    }
  }

  // Joining puts the shards one after the other: cut anywhere, the parts are joined on
  // their own, and a single shard is left as it is.
  lemma {:induction false} JoinParts(front: seq<Bytes>, back: seq<Bytes>)
    ensures Join(front + back) == Join(front) + Join(back)
    ensures |back| == 1 ==> Join(back) == back[0]
  {
    hide Join;
    JoinNone();
    if back == [] {
      assert front + back == front;
    } else {
      var init, last := back[..|back| - 1], back[|back| - 1];
      JoinParts(front, init);
      assert back == init + [last] && front + back == (front + init) + [last];
      JoinSnoc(front + init, last);
      JoinSnoc(init, last);
    }
  }

  lemma JoinNone()
    ensures Join([]) == []
  {
  }

  // ----- encoding -----

  function Step(K: nat, data: Bytes): nat
    requires K > 0
  {
    |Padded(K, data)| / K
  }

  lemma StepFits(K: nat, data: Bytes)
    requires K > 0
    ensures K * Step(K, data) == |Padded(K, data)| && Step(K, data) > 0
  {
    PaddedLength(K, |data|);
  }

  function DataShards(K: nat, data: Bytes): seq<Bytes>
    requires K > 0
  {
    StepFits(K, data);
    Split(Padded(K, data), Step(K, data), K)
  }

  // With K or N not positive the code panics before it asks the library: K = 0
  // divides by zero; K < 0 leaves a shards slice of negative size, or one filled
  // from index K on; N < 0 leaves too few shards for the data.
  function Encoded(codec: Codec, K: int, N: int, data: Bytes): Result<seq<Bytes>> {
    if K <= 0 || N < 0 then Panic
    else if !codec.accepts(K, N) then Error
    else
      match codec.parity(K, N, DataShards(K, data))
      case None => Error
      case Some(parity) => Ok(DataShards(K, data) + parity)
  }

  // All data shards have one length, K of them make up the padded data.
  lemma EqualShards(K: nat, data: Bytes)
    requires K > 0
    ensures |DataShards(K, data)| == K
    ensures forall s :: s in DataShards(K, data) ==> |s| == Step(K, data) > 0
    ensures Join(DataShards(K, data)) == Padded(K, data)
  {
    StepFits(K, data);
    SplitShape(Padded(K, data), Step(K, data), K);
    JoinSplit(Padded(K, data), Step(K, data), K);
    assert Padded(K, data)[..K * Step(K, data)] == Padded(K, data);
  }

  // Shard i holds the bytes of the padded data from i steps on.
  lemma ShardBytes(K: nat, data: Bytes, i: nat, j: nat)
    requires i < K && j < Step(K, data)
    ensures K * Step(K, data) == |Padded(K, data)| && |DataShards(K, data)| == K
    ensures |DataShards(K, data)[i]| == Step(K, data) && i * Step(K, data) + j < |Padded(K, data)|
    ensures DataShards(K, data)[i][j] == Padded(K, data)[i * Step(K, data) + j]
  {
    var step := Step(K, data);
    StepFits(K, data);
    Scale(i + 1, K, step);
    assert (i + 1) * step == i * step + step;
    SplitAt(Padded(K, data), step, K, i);
  }

  lemma {:induction false} SplitAt(data: Bytes, step: nat, k: nat, i: nat)
    requires i < k && k * step <= |data|
    ensures |Split(data, step, k)| == k && 0 <= i * step <= i * step + step <= |data|
    ensures Split(data, step, k)[i] == data[i * step..i * step + step]
  {
    hide Split;
    SplitShape(data, step, k);
    SplitLast(data, step, k);
    Scale(i + 1, k, step);
    assert (i + 1) * step == i * step + step;
    if i < k - 1 {
      SplitAt(data, step, k - 1, i);
    } else {
      SplitShape(data, step, k - 1);
    }
  }

  // Encoding succeeds exactly if the library accepts K and N and computes parity for
  // the data shards, and panics exactly on K or N out of range.
  lemma EncodedIff(codec: Codec, K: int, N: int, data: Bytes)
    ensures Encoded(codec, K, N, data).Panic? <==> K <= 0 || N < 0
    ensures Encoded(codec, K, N, data).Ok? <==>
      K > 0 && N >= 0 && codec.accepts(K, N) && codec.parity(K, N, DataShards(K, data)).Some?
    ensures Encoded(codec, K, N, data).Ok? ==>
      Encoded(codec, K, N, data).value == DataShards(K, data) + codec.parity(K, N, DataShards(K, data)).value
  {
  }

  // The padding loop.
  method Pad(K: nat, data: Bytes) returns (padded: Bytes)
    requires K > 0
    ensures padded == Padded(K, data)
  {
    var padlen := K - |data| % K;
    padded := data;
    for i := 0 to padlen
      invariant padded == data + Fill(i, Wrap(padlen))
    {
      padded := padded + [Wrap(padlen)];
    }
  }

  // The placeholder of a parity shard.
  method Placeholder(step: nat, b: Byte) returns (shard: Bytes)
    ensures shard == Fill(step, b)
  {
    var bytes := new Byte[step](_ => 0);
    for j := 0 to step
      invariant forall i :: 0 <= i < j ==> bytes[i] == b
    {
      bytes[j] := b;
    }
    return bytes[..];
  }

  method ECEncode(codec: Codec, K: int, N: int, data: Bytes) returns (r: Result<seq<Bytes>>)
    ensures r == Encoded(codec, K, N, data)
  {
    if K == 0 {
      return Panic;
    }
    if K < 0 {
      // no padding and no data shards, then either make fails or shards[K]
      return Panic;
    }
    var padded := Pad(K, data);
    var step := |padded| / K;
    if K + N < 0 {
      return Panic;
    }
    StepFits(K, data);
    var shards := new Bytes[K + N](_ => []);
    for i := 0 to K
      invariant i * step <= |padded| && i <= K + N
      invariant shards[..i] == Split(padded, step, i)
    {
      if i >= shards.Length {
        return Panic;
      }
      assert i * step + step == (i + 1) * step;
      Scale(i + 1, K, step);
      shards[i] := padded[i * step..(i + 1) * step];
      assert shards[..i + 1][..i] == shards[..i];
    }
    for i := K to K + N
      invariant shards[..K] == Split(padded, step, K)
    {
      var placeHolder := Placeholder(step, Wrap(K - |data| % K));
      shards[i] := placeHolder;
    }
    if !codec.accepts(K, N) {
      return Error;
    }
    // Encode overwrites the placeholders
    match codec.parity(K, N, shards[..K]) {
      case None => return Error;
      case Some(parity) => return Ok(shards[..K] + parity);
    }
  }

  lemma Scale(i: nat, K: nat, step: nat)
    requires i <= K
    ensures i * step <= K * step
  {
  }

  // ----- decoding -----

  function Stripped(result: Bytes): Result<Bytes> {
    if result == [] then Panic
    else
      var padlen := result[|result| - 1] as int;
      if padlen > |result| then Panic else Ok(result[..|result| - padlen])
  }

  function Decoded(codec: Codec, K: int, N: int, shards: seq<Bytes>): Result<Bytes> {
    if !codec.accepts(K, N) then Error
    else
      match codec.reconstruct(K, N, shards)
      case None => Error
      case Some(full) => if !(0 <= K <= |full|) then Panic else Stripped(Join(full[..K]))
  }

  // Stripping takes off as many bytes as the last one says, whatever they are, and
  // panics if there are none or fewer than that.
  lemma StripIff(result: Bytes, data: Bytes)
    ensures Stripped(result) == Ok(data) <==>
      result != [] && data <= result && |result| - |data| == result[|result| - 1]
    ensures Stripped(result) == Panic <==> result == [] || result[|result| - 1] > |result|
    ensures !Stripped(result).Error?
  {
    if result != [] && data <= result && |result| - |data| == result[|result| - 1] {
      assert result[..|data|] == data;
    }
  }

  method JoinAll(shards: seq<Bytes>) returns (joined: Bytes)
    ensures joined == Join(shards)
  {
    joined := [];
    for i := 0 to |shards|
      invariant joined == Join(shards[..i])
    {
      assert shards[..i + 1][..i] == shards[..i];
      joined := joined + shards[i];
    }
    assert shards[..|shards|] == shards;
  }

  method ECDecode(codec: Codec, K: int, N: int, shards: seq<Bytes>) returns (r: Result<Bytes>)
    ensures r == Decoded(codec, K, N, shards)
  {
    if !codec.accepts(K, N) {
      return Error;
    }
    match codec.reconstruct(K, N, shards) {
      case None => return Error;
      case Some(full) =>
        if !(0 <= K <= |full|) {
          return Panic;
        }
        var result := JoinAll(full[..K]);
        if result == [] {
          return Panic;
        }
        var padlen := result[|result| - 1] as int;
        if padlen > |result| {
          return Panic;
        }
        return Ok(result[..|result| - padlen]);
    }
  }

  // ----- round trip -----

  // The reconstruction of the shards at hand is ideal: it gives back the encoding.
  predicate Ideal(codec: Codec, K: int, N: int, encoding: seq<Bytes>, shards: seq<Bytes>) {
    codec.reconstruct(K, N, shards) == Some(encoding)
  }

  // Decoding undoes encoding exactly when the pad count fits a byte.
  lemma RoundTripIff(codec: Codec, K: int, N: int, data: Bytes, shards: seq<Bytes>)
    requires Encoded(codec, K, N, data).Ok?
    requires Ideal(codec, K, N, Encoded(codec, K, N, data).value, shards)
    ensures Decoded(codec, K, N, shards) == Ok(data) <==> PadLen(K, |data|) <= 255
  {
    hide Join, DataShards, Split;
    EqualShards(K, data);
    var full := Encoded(codec, K, N, data).value;
    assert full[..K] == DataShards(K, data);
    var padded, padlen := Padded(K, data), PadLen(K, |data|);
    PaddedLength(K, |data|);
    assert padded[|padded| - 1] == Wrap(padlen);
    if padlen <= 255 {
      assert padded[..|padded| - padlen] == data;
    } else {
      assert |padded[..|padded| - Wrap(padlen) as int]| > |data|;
    }
  }

  // So for K up to 255 it always does.
  lemma RoundTrip(codec: Codec, K: int, N: int, data: Bytes, shards: seq<Bytes>)
    requires K <= 255 && Encoded(codec, K, N, data).Ok?
    requires Ideal(codec, K, N, Encoded(codec, K, N, data).value, shards)
    ensures Decoded(codec, K, N, shards) == Ok(data)
  {
    PaddedLength(K, |data|);
    RoundTripIff(codec, K, N, data, shards);
  }

  // For every K above 255 that the library accepts, some data does not come back:
  // no data at all is padded with K bytes.
  lemma NoRoundTripAbove(codec: Codec, K: int, N: int, shards: seq<Bytes>)
    requires K > 255 && Encoded(codec, K, N, []).Ok?
    requires Ideal(codec, K, N, Encoded(codec, K, N, []).value, shards)
    ensures Decoded(codec, K, N, shards) != Ok([])
  {
    EmptyPad(K);
    RoundTripIff(codec, K, N, [], shards);
  }

  lemma EmptyPad(K: nat)
    requires K > 0
    ensures PadLen(K, 0) == K
  {
  }
}
