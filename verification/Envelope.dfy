/** Envelope encryption of stored objects: [IV(12) || ciphertext || tag(16)].

    AES-GCM itself is a parameter: a keystream that is XORed with the data (GCTR,
    section 6.5 of NIST SP 800-38D) and an authentication tag that is a function of
    key, IV and ciphertext (sections 7.1 and 7.2). */
module Envelope {
  import opened Common

  const IV_LEN: nat := 12
  const TAG_LEN: nat := 16
  /** What the layout adds to the plaintext length. */
  const OVERHEAD: nat := IV_LEN + TAG_LEN

  // ---------------------------------------------------------------- XOR of two bytes

  function XorBits(a: nat, b: nat): nat
    decreases a + b
  {
    if a == 0 && b == 0 then 0
    else (if a % 2 == b % 2 then 0 else 1) + 2 * XorBits(a / 2, b / 2)
  }

  lemma XorBelow(a: nat, b: nat, half: nat)
    requires a < 2 * half && b < 2 * half && half > 0
    requires XorBits(a / 2, b / 2) < half
    ensures XorBits(a, b) < 2 * half
  {
  }

  lemma XorOfBytes(a: Byte, b: Byte)
    ensures XorBits(a, b) < 256
  {
    assert XorBits(a / 2 / 2 / 2 / 2 / 2 / 2 / 2 / 2, b / 2 / 2 / 2 / 2 / 2 / 2 / 2 / 2) < 1;
    XorBelow(a / 2 / 2 / 2 / 2 / 2 / 2 / 2, b / 2 / 2 / 2 / 2 / 2 / 2 / 2, 1);
    XorBelow(a / 2 / 2 / 2 / 2 / 2 / 2, b / 2 / 2 / 2 / 2 / 2 / 2, 2);
    XorBelow(a / 2 / 2 / 2 / 2 / 2, b / 2 / 2 / 2 / 2 / 2, 4);
    XorBelow(a / 2 / 2 / 2 / 2, b / 2 / 2 / 2 / 2, 8);
    XorBelow(a / 2 / 2 / 2, b / 2 / 2 / 2, 16);
    XorBelow(a / 2 / 2, b / 2 / 2, 32);
    XorBelow(a / 2, b / 2, 64);
    XorBelow(a, b, 128);
  }

  function Xor(a: Byte, b: Byte): Byte
  {
    XorOfBytes(a, b);
    XorBits(a, b)
  }

  lemma {:induction false} XorBitsTwice(a: nat, b: nat)
    ensures XorBits(XorBits(a, b), b) == a
    decreases a + b
  {
    if a != 0 || b != 0 {
      XorBitsTwice(a / 2, b / 2);
      var x := XorBits(a, b);
      assert x / 2 == XorBits(a / 2, b / 2);
      assert x % 2 == (if a % 2 == b % 2 then 0 else 1);
    }
  }

  /** Bit `k` of a number. */
  function Bit(n: nat, k: nat): nat
  {
    if k == 0 then n % 2 else Bit(n / 2, k - 1)
  }

  /** A bit of the XOR is set exactly when the bits differ. */
  lemma {:induction false} XorIsBitwise(a: nat, b: nat, k: nat)
    ensures Bit(XorBits(a, b), k) == if Bit(a, k) == Bit(b, k) then 0 else 1
  {
    if k == 0 {
      assert a == 0 && b == 0 ==> XorBits(a, b) == 0;
    } else {
      XorIsBitwise(a / 2, b / 2, k - 1);
      assert XorBits(a, b) / 2 == XorBits(a / 2, b / 2);
    }
  }

  // ---------------------------------------------------------------- the cipher

  datatype Gcm = Gcm(keystream: (Bytes, Bytes, nat) -> Byte, tag: (Bytes, Bytes, Bytes) -> Bytes)
  {
    /** Full-length tags are 16 bytes long. */
    ghost predicate Valid()
    {
      forall key, iv, data :: |tag(key, iv, data)| == TAG_LEN
    }

    /** What `update(data)` returns once `offset` bytes have been processed; the same
        operation enciphers and deciphers. */
    function Gctr(key: Bytes, iv: Bytes, offset: nat, data: Bytes): Bytes
    {
      seq(|data|, i requires 0 <= i < |data| => Xor(data[i], keystream(key, iv, offset + i)))
    }

    lemma GctrSplits(key: Bytes, iv: Bytes, offset: nat, a: Bytes, b: Bytes)
      ensures Gctr(key, iv, offset, a + b) == Gctr(key, iv, offset, a) + Gctr(key, iv, offset + |a|, b)
    {
    }

    lemma GctrTwice(key: Bytes, iv: Bytes, offset: nat, data: Bytes)
      ensures Gctr(key, iv, offset, Gctr(key, iv, offset, data)) == data
    {
      forall i | 0 <= i < |data|
        ensures Gctr(key, iv, offset, Gctr(key, iv, offset, data))[i] == data[i]
      {
        XorBitsTwice(data[i], keystream(key, iv, offset + i));
      }
    }

    /** The stored object for `plain`. */
    function Seal(key: Bytes, iv: Bytes, plain: Bytes): Bytes
    {
      var body := Gctr(key, iv, 0, plain);
      iv + body + tag(key, iv, body)
    }

    /** `setAuthTag(given)` followed by `final()`: Node accepts GCM tags of 4, 8 and
        12 to 16 bytes and compares that many bytes. */
    predicate Verifies(key: Bytes, iv: Bytes, body: Bytes, given: Bytes)
    {
      var full := tag(key, iv, body);
      && (|given| == 4 || |given| == 8 || 12 <= |given| <= TAG_LEN)
      && |given| <= |full|
      && given == full[..|given|]
    }

    /** Whole-buffer decrypt, with JavaScript's slicing on every length. */
    function Decrypt(key: Bytes, obj: Bytes): Option<Bytes>
    {
      var n := |obj|;
      var iv := Subarray(obj, 0, IV_LEN);
      var given := Subarray(obj, n - TAG_LEN, n);
      var body := Subarray(obj, IV_LEN, n - TAG_LEN);
      if iv == [] || !Verifies(key, iv, body, given) then None
      else Some(Gctr(key, iv, 0, body))
    }

    /** What the streaming decrypt delivers for the whole input, whatever the chunking:
        the bytes it fed to the cipher and the bytes it withheld for the tag. */
    function OpenStream(key: Bytes, obj: Bytes): Option<Bytes>
    {
      if |obj| < IV_LEN then None
      else
        var iv := obj[..IV_LEN];
        if Verifies(key, iv, Fed(obj), Withheld(obj)) then Some(Gctr(key, iv, 0, Fed(obj)))
        else None
    }

    // ------------------------------------------------------------ laws

    /** Above 27 bytes the streaming and the whole-buffer decrypt agree on every object,
        on the plaintext as well as on failure. */
    lemma StreamMatchesBuffer(key: Bytes, obj: Bytes)
      requires |obj| >= OVERHEAD
      ensures OpenStream(key, obj) == Decrypt(key, obj)
      ensures obj == obj[..IV_LEN] + Fed(obj) + Withheld(obj)
      ensures |Withheld(obj)| == TAG_LEN
    {
      var n := |obj|;
      assert Subarray(obj, n - TAG_LEN, n) == Withheld(obj);
      assert Subarray(obj, IV_LEN, n - TAG_LEN) == Fed(obj);
      assert Subarray(obj, 0, IV_LEN) == obj[..IV_LEN];
    }

    /** Decryption inverts sealing, and nothing else decrypts: an object of at least
        28 bytes opens to `plain` exactly when it is the sealing of `plain` under the
        IV it carries. */
    lemma OpensExactlyWhatWasSealed(key: Bytes, obj: Bytes, plain: Bytes)
      requires Valid() && |obj| >= OVERHEAD
      ensures Decrypt(key, obj) == Some(plain) <==> obj == Seal(key, obj[..IV_LEN], plain)
    {
      StreamMatchesBuffer(key, obj);
      var iv := obj[..IV_LEN];
      if Decrypt(key, obj) == Some(plain) {
        GctrTwice(key, iv, 0, Fed(obj));
        assert obj == iv + Fed(obj) + tag(key, iv, Fed(obj));
      }
      if obj == Seal(key, iv, plain) {
        var body := Gctr(key, iv, 0, plain);
        assert |obj| == IV_LEN + |body| + TAG_LEN;
        assert Fed(obj) == body;
        assert Withheld(obj) == tag(key, iv, body);
        GctrTwice(key, iv, 0, plain);
      }
    }

    /** The length of the sealed object, and the round trip of file contents
        as well as of the data key that `wrapDek` seals under the master key. */
    lemma SealRoundTrip(key: Bytes, iv: Bytes, plain: Bytes)
      requires Valid() && |iv| == IV_LEN
      ensures var obj := Seal(key, iv, plain);
              && |obj| == |plain| + 28 && obj[..12] == iv
              && (forall i :: 0 <= i < |plain| ==> obj[12 + i] == Xor(plain[i], keystream(key, iv, i)))
              && obj[12 + |plain|..] == tag(key, iv, obj[12..12 + |plain|])
      ensures Decrypt(key, Seal(key, iv, plain)) == Some(plain)
      ensures OpenStream(key, Seal(key, iv, plain)) == Some(plain)
    {
      var obj := Seal(key, iv, plain);
      assert obj[..IV_LEN] == iv && obj[12..12 + |plain|] == Gctr(key, iv, 0, plain);
      OpensExactlyWhatWasSealed(key, obj, plain);
      StreamMatchesBuffer(key, obj);
    }

    /** Between 12 and 27 bytes the stream feeds nothing to the cipher, so it delivers
        the empty plaintext or fails. */
    lemma ShortObjectsStreamNothing(key: Bytes, obj: Bytes)
      requires IV_LEN <= |obj| < OVERHEAD
      ensures OpenStream(key, obj) ==
              if Verifies(key, obj[..IV_LEN], [], obj[IV_LEN..]) then Some([]) else None
    {
      assert Fed(obj) == [];
      assert Withheld(obj) == obj[IV_LEN..];
      assert Gctr(key, obj[..IV_LEN], 0, []) == [];
    }

    /** The stream opens an object of fewer than 28 bytes: what follows the IV has a tag
        length that Node accepts and is the beginning of the tag of the empty ciphertext. */
    predicate StreamOpensShort(key: Bytes, obj: Bytes)
      requires Valid() && |obj| < OVERHEAD
    {
      && (|obj| == 16 || |obj| == 20 || 24 <= |obj|)
      && obj[IV_LEN..] == tag(key, obj[..IV_LEN], [])[..|obj| - IV_LEN]
    }

    /** The buffer decrypt opens it: from 16 bytes on, the last 16 bytes are the whole tag,
        even where they overlap the IV; below, negative indices make the object itself (4 and
        8 bytes) or its last third (12 bytes) the tag under an IV that overlaps it. */
    predicate BufferOpensShort(key: Bytes, obj: Bytes)
      requires Valid() && |obj| < OVERHEAD
    {
      var n := |obj|;
      if n >= TAG_LEN then obj[n - TAG_LEN..] == tag(key, obj[..IV_LEN], [])
      else if n == 12 then obj[8..] == tag(key, obj, [])[..4]
      else (n == 4 || n == 8) && obj == tag(key, obj, [])[..n]
    }

    lemma ShortStream(key: Bytes, obj: Bytes)
      requires Valid() && |obj| < OVERHEAD
      ensures OpenStream(key, obj) == if StreamOpensShort(key, obj) then Some([]) else None
    {
      if |obj| >= IV_LEN { ShortObjectsStreamNothing(key, obj); }
    }

    lemma ShortBuffer(key: Bytes, obj: Bytes)
      requires Valid() && |obj| < OVERHEAD
      ensures Decrypt(key, obj) == if BufferOpensShort(key, obj) then Some([]) else None
    {
      var n := |obj|;
      var iv, given, body := Subarray(obj, 0, IV_LEN), Subarray(obj, n - TAG_LEN, n),
        Subarray(obj, IV_LEN, n - TAG_LEN);
      if n >= TAG_LEN {
        assert iv == obj[..IV_LEN] && given == obj[n - TAG_LEN..] && body == [];
        assert tag(key, iv, []) == tag(key, iv, [])[..TAG_LEN];
      } else {
        assert n <= 12 ==> iv == obj && body == [];
        assert n <= 8 ==> given == obj;
        assert 8 < n ==> given == obj[2 * n - TAG_LEN..] && |given| == TAG_LEN - n;
      }
      assert Gctr(key, iv, 0, []) == [];
    }

    /** Below 28 bytes the two decrypts yield the empty plaintext or fail, and they agree
        exactly when both or neither find their tag. So they can differ only at 4, 8, 12 and
        from 16 bytes on. */
    lemma ShortObjectsAgreeExactlyWhen(key: Bytes, obj: Bytes)
      requires Valid() && |obj| < OVERHEAD
      ensures OpenStream(key, obj) == Decrypt(key, obj) <==>
              (StreamOpensShort(key, obj) <==> BufferOpensShort(key, obj))
      ensures OpenStream(key, obj) in {None, Some([])} && Decrypt(key, obj) in {None, Some([])}
      ensures |obj| !in {4, 8, 12} && |obj| < TAG_LEN ==> OpenStream(key, obj) == Decrypt(key, obj) == None
    {
      ShortStream(key, obj);
      ShortBuffer(key, obj);
    }

    /** Under every cipher, key and IV, cutting the tag of the empty plaintext to a length
        that Node accepts gives an object that the stream opens, while the buffer decrypt
        does so only if the last 16 bytes of IV and cut tag happen to be the tag. */
    lemma CutTagsOpenOnlyInTheStream(key: Bytes, iv: Bytes, cut: nat)
      requires Valid() && |iv| == IV_LEN && (cut == 4 || cut == 8 || 12 <= cut < TAG_LEN)
      ensures var full := tag(key, iv, []);
              var obj := iv + full[..cut];
              && OpenStream(key, obj) == Some([])
              && Decrypt(key, obj) == if iv[cut - 4..] + full[..cut] == full then Some([]) else None
    {
      var full := tag(key, iv, []);
      var obj := iv + full[..cut];
      assert obj[..IV_LEN] == iv && obj[IV_LEN..] == full[..cut];
      ShortStream(key, obj);
      ShortBuffer(key, obj);
      assert obj[cut - 4..] == iv[cut - 4..] + full[..cut];
    }
  }

  /** `buf.subarray(start, end)`: negative indices count from the end, then clamp. */
  function Subarray(b: Bytes, start: int, end: int): Bytes
  {
    var lo := Clamp(if start < 0 then |b| + start else start, |b|);
    var hi := Clamp(if end < 0 then |b| + end else end, |b|);
    if lo <= hi then b[lo..hi] else []
  }

  function Clamp(i: int, n: nat): (r: nat)
    ensures r <= n
  {
    if i < 0 then 0 else if i > n then n else i
  }

  /** Bytes of an object (or of a prefix of it) that have reached the decipher. */
  function Fed(obj: Bytes): Bytes
    requires |obj| >= IV_LEN
  {
    if |obj| <= OVERHEAD then [] else obj[IV_LEN..|obj| - TAG_LEN]
  }

  /** Bytes held back because they may be the tag. */
  function Withheld(obj: Bytes): Bytes
    requires |obj| >= IV_LEN
  {
    if |obj| <= OVERHEAD then obj[IV_LEN..] else obj[|obj| - TAG_LEN..]
  }

  /** What the decrypt stream holds after appending `chunk` to its buffer, and how the
      next feed splits it. */
  lemma Rebuffered(seen: Bytes, chunk: Bytes, pending: Bytes)
    requires |seen + chunk| >= IV_LEN
    requires pending == if |seen| < IV_LEN then (seen + chunk)[IV_LEN..] else Withheld(seen) + chunk
    ensures |seen| >= IV_LEN ==> (seen + chunk)[..IV_LEN] == seen[..IV_LEN]
    ensures var before := if |seen| < IV_LEN then [] else Fed(seen);
            if |pending| > TAG_LEN
            then Fed(seen + chunk) == before + pending[..|pending| - TAG_LEN]
                 && Withheld(seen + chunk) == pending[|pending| - TAG_LEN..]
            else Fed(seen + chunk) == before && Withheld(seen + chunk) == pending
  {
    var before := if |seen| < IV_LEN then [] else Fed(seen);
    var iv := (seen + chunk)[..IV_LEN];
    assert seen + chunk == iv + before + pending;
    SlicedAt(iv, before, pending);
  }

  /** The slices of an object given as IV, bytes fed so far and bytes pending. */
  lemma SlicedAt(iv: Bytes, before: Bytes, pending: Bytes)
    requires |iv| == IV_LEN && (|before| > 0 ==> |pending| >= TAG_LEN)
    ensures var obj := iv + before + pending;
            if |pending| > TAG_LEN
            then Fed(obj) == before + pending[..|pending| - TAG_LEN] && Withheld(obj) == pending[|pending| - TAG_LEN..]
            else Fed(obj) == before && Withheld(obj) == pending
  {
  }

  /** No byte of the trailing tag is ever fed: what has been fed for a prefix of the
      object is a prefix of the object's ciphertext, and at most 16 bytes wait. */
  lemma NeverFeedsTheTag(obj: Bytes, seen: nat)
    requires IV_LEN <= seen <= |obj| && |obj| >= OVERHEAD
    ensures Fed(obj[..seen]) <= obj[IV_LEN..|obj| - TAG_LEN]
    ensures |Withheld(obj[..seen])| <= TAG_LEN
    ensures Fed(obj[..seen]) + Withheld(obj[..seen]) == obj[IV_LEN..seen]
  {
    var prefix := obj[..seen];
    if seen > OVERHEAD {
      assert Fed(prefix) == obj[IV_LEN..seen - TAG_LEN];
      assert Withheld(prefix) == obj[seen - TAG_LEN..seen];
    } else {
      assert Withheld(prefix) == obj[IV_LEN..seen];
    }
  }

  /** A concrete object on which the two decrypts disagree. */
  lemma ShortObjectsDisagree() returns (gcm: Gcm, key: Bytes, obj: Bytes)
    ensures gcm.Valid() && |obj| == TAG_LEN < OVERHEAD
    ensures gcm.OpenStream(key, obj) == Some([])
    ensures gcm.Decrypt(key, obj) == None
  {
    gcm := Gcm((_, _, _) => 0, (_, _, _) => seq(TAG_LEN, _ => 7));
    key := [];
    var iv: Bytes := seq(IV_LEN, _ => 0);
    obj := iv + gcm.tag(key, iv, [])[..4];
    gcm.CutTagsOpenOnlyInTheStream(key, iv, 4);
    assert (iv[0..] + gcm.tag(key, iv, [])[..4])[0] == 0 != gcm.tag(key, iv, [])[0];
  }

  // ---------------------------------------------------------------- the streams

  /** `createEncryptStream`: the Transform and the cipher it drives. */
  class EncryptStream {
    const gcm: Gcm
    const dek: Bytes
    const iv: Bytes
    var ivEmitted: bool
    var enciphered: Bytes     // everything the cipher has produced
    var output: Bytes         // everything pushed downstream
    ghost var input: Bytes    // everything written to the stream

    ghost predicate Valid()
      reads this
    {
      && enciphered == gcm.Gctr(dek, iv, 0, input)
      && output == (if ivEmitted then iv else []) + enciphered
      && (!ivEmitted ==> input == [])
    }

    constructor (gcm: Gcm, dek: Bytes, iv: Bytes)
      ensures Valid() && input == [] && !ivEmitted
      ensures this.gcm == gcm && this.dek == dek && this.iv == iv
    {
      this.gcm, this.dek, this.iv := gcm, dek, iv;
      ivEmitted, enciphered, output, input := false, [], [], [];
    }

    method Transform(chunk: Bytes)
      requires Valid()
      modifies this
      ensures Valid() && ivEmitted && input == old(input) + chunk
    {
      if !ivEmitted {
        output := output + iv;
        ivEmitted := true;
      }
      gcm.GctrSplits(dek, iv, 0, input, chunk);
      var produced := gcm.Gctr(dek, iv, |enciphered|, chunk);
      enciphered := enciphered + produced;
      output := output + produced;
      input := input + chunk;
    }

    method Flush()
      requires Valid()
      modifies this
      ensures output == gcm.Seal(dek, iv, input) && input == old(input)
    {
      if !ivEmitted {
        output := output + iv;
        ivEmitted := true;
      }
      output := output + gcm.tag(dek, iv, enciphered);
    }
  }

  /** Piping a file through the encrypt stream stores the same object however the
      read stream was chunked: the IV once and first, the ciphertext, then the tag. */
  method EncryptChunks(gcm: Gcm, dek: Bytes, iv: Bytes, chunks: seq<Bytes>) returns (obj: Bytes)
    ensures obj == gcm.Seal(dek, iv, Concat(chunks))
  {
    var stream := new EncryptStream(gcm, dek, iv);
    for i := 0 to |chunks|
      invariant stream.Valid() && stream.input == Concat(chunks[..i])
    {
      ConcatSnoc(chunks[..i], chunks[i]);
      assert chunks[..i + 1] == chunks[..i] + [chunks[i]];
      stream.Transform(chunks[i]);
    }
    assert chunks[..|chunks|] == chunks;
    stream.Flush();
    obj := stream.output;
  }

  /** `createDecryptStream`: buffers until the IV is complete, then withholds the last
      16 bytes seen so far. */
  class DecryptStream {
    const gcm: Gcm
    const dek: Bytes
    var decipherIv: Option<Bytes>   // set once the decipher exists
    var buffered: Bytes
    var fed: Bytes                  // everything the decipher has been given
    var output: Bytes               // everything pushed downstream
    ghost var input: Bytes

    ghost predicate Valid()
      reads this
    {
      if |input| < IV_LEN then
        decipherIv == None && buffered == input && fed == [] && output == []
      else
        && decipherIv == Some(input[..IV_LEN])
        && fed == Fed(input)
        && buffered == Withheld(input)
        && output == gcm.Gctr(dek, input[..IV_LEN], 0, fed)
    }

    constructor (gcm: Gcm, dek: Bytes)
      ensures Valid() && input == []
      ensures this.gcm == gcm && this.dek == dek
    {
      this.gcm, this.dek := gcm, dek;
      decipherIv, buffered, fed, output, input := None, [], [], [], [];
    }

    method Transform(chunk: Bytes)
      requires Valid()
      modifies this
      ensures Valid() && input == old(input) + chunk
    {
      ghost var seen, before := input + chunk, fed;
      buffered := buffered + chunk;
      if decipherIv == None {
        if |buffered| < IV_LEN {
          input := seen;
          return;
        }
        decipherIv := Some(buffered[..IV_LEN]);
        buffered := buffered[IV_LEN..];
      }
      Rebuffered(input, chunk, buffered);
      if |buffered| > TAG_LEN {
        var feed := buffered[..|buffered| - TAG_LEN];
        buffered := buffered[|buffered| - TAG_LEN..];
        output := output + gcm.Gctr(dek, decipherIv.value, |fed|, feed);
        fed := fed + feed;
        gcm.GctrSplits(dek, decipherIv.value, 0, before, feed);
      }
      input := seen;
    }

    method Flush() returns (plain: Option<Bytes>)
      requires Valid()
      ensures plain == gcm.OpenStream(dek, input)
    {
      if decipherIv == None || !gcm.Verifies(dek, decipherIv.value, fed, buffered) {
        plain := None;
      } else {
        plain := Some(output);
      }
    }
  }

  /** The streaming decrypt computes `OpenStream` of the object under every chunking,
      so above 27 bytes it refines the whole-buffer decrypt. */
  method DecryptChunks(gcm: Gcm, dek: Bytes, chunks: seq<Bytes>) returns (plain: Option<Bytes>)
    ensures plain == gcm.OpenStream(dek, Concat(chunks))
    ensures |Concat(chunks)| >= OVERHEAD ==> plain == gcm.Decrypt(dek, Concat(chunks))
    ensures |Concat(chunks)| < IV_LEN ==> plain == None
  {
    var stream := new DecryptStream(gcm, dek);
    for i := 0 to |chunks|
      invariant stream.Valid() && stream.input == Concat(chunks[..i])
    {
      ConcatSnoc(chunks[..i], chunks[i]);
      assert chunks[..i + 1] == chunks[..i] + [chunks[i]];
      stream.Transform(chunks[i]);
    }
    assert chunks[..|chunks|] == chunks;
    plain := stream.Flush();
    if |Concat(chunks)| >= OVERHEAD {
      gcm.StreamMatchesBuffer(dek, Concat(chunks));
    }
  }
}
