/** Every order in which the parts of a download can arrive
    (src/transfer_manager.cpp, src/download_task.h). */
module DownloadRuns {
  import opened Bytes
  import opened Download
  import opened Ige
  import opened Parts
  import opened Wrappers

  // What is fixed in one transfer: the plain file and its padding, what the server
  // stores, and the chaining values in front of every stored byte.
  datatype File = File(cipher: Cipher<byte>, iv: Iv<byte>, plain: seq<byte>, pad: seq<byte>,
                       stored: seq<byte>, ivAt: nat -> Iv<byte>)

  ghost predicate GoodFile(f: File) {
    && f.cipher.size == 16 && f.plain != [] && |f.pad| < 16
    && |f.stored| == |f.plain| + |f.pad| && Whole(|f.stored|, 16)
    && f.ivAt(0) == f.iv
    && forall k: nat | IsOffset(k) && k < |f.plain| :: PartDecrypts(f, k)
  }

  // The part at k decrypts to the padded file's bytes from k on.
  ghost predicate PartDecrypts(f: File, k: nat) { StretchDecrypts(f, k, Slice(f.stored, k)) }

  ghost predicate StretchDecrypts(f: File, k: nat, part: seq<byte>) {
    && k + |part| <= |f.plain| + |f.pad|
    && Decrypts(f.cipher, f.ivAt(k), part, (f.plain + f.pad)[k..k + |part|], f.ivAt(k + |part|))
  }

  predicate Decrypts(c: Cipher<byte>, iv: Iv<byte>, part: seq<byte>, clear: seq<byte>, next: Iv<byte>) {
    WholeBlocks(c, part) && Decrypt(c, iv, part).data == clear && Decrypt(c, iv, part).iv == next
  }

  // A plain download needs nothing of the cipher.
  ghost predicate CanDownload(f: File, encrypted: bool) { f.plain != [] && (encrypted ==> GoodFile(f)) }

  // ---- The file that an upload leaves on the server ----

  ghost function IvAfter(c: Cipher<byte>, iv: Iv<byte>, stored: seq<byte>, n: nat): Iv<byte> {
    if n <= |stored| && WholeBlocks(c, stored[..n]) then Decrypt(c, iv, stored[..n]).iv else iv
  }

  // What the server stores is the encrypted padded file.
  ghost predicate IsUpload(f: File) {
    && Lawful(f.cipher) && f.cipher.size == 16 && GoodIv(f.cipher, f.iv)
    && f.plain != [] && |f.pad| < 16 && WholeBlocks(f.cipher, f.plain + f.pad)
    && f.stored == Encrypt(f.cipher, f.iv, f.plain + f.pad).data
    && forall n: nat :: f.ivAt(n) == IvAfter(f.cipher, f.iv, f.stored, n)
  }

  lemma {:induction false} UploadIsGood(f: File)
    requires IsUpload(f)
    ensures GoodFile(f)
  {
    EncryptShape(f.cipher, f.iv, f.plain + f.pad);
    assert f.stored[..0] == [];
    forall k: nat | IsOffset(k) && k < |f.plain| ensures PartDecrypts(f, k) {
      UploadedPart(f, k, Slice(f.stored, k));
    }
  }

  lemma {:induction false} UploadedPart(f: File, k: nat, part: seq<byte>)
    requires IsUpload(f) && IsOffset(k) && k < |f.plain| && part == Slice(f.stored, k)
    ensures StretchDecrypts(f, k, part)
  {
    EncryptShape(f.cipher, f.iv, f.plain + f.pad);
    RoundTrip(f.cipher, f.iv, f.plain + f.pad);
    PartOfUpload(f.cipher, f.iv, f.plain + f.pad, f.stored, k, part);
  }

  lemma {:induction false} PartOfUpload(c: Cipher<byte>, iv: Iv<byte>, data: seq<byte>, stored: seq<byte>, k: nat, part: seq<byte>)
    requires Lawful(c) && c.size == 16 && GoodIv(c, iv) && WholeBlocks(c, stored)
    requires Decrypt(c, iv, stored).data == data && |stored| == |data| && IsOffset(k) && k < |data|
    requires part == Slice(stored, k)
    ensures k + |part| <= |data|
    ensures Decrypts(c, IvAfter(c, iv, stored, k), part, data[k..k + |part|], IvAfter(c, iv, stored, k + |part|))
  {
    hide Decrypt, Whole, Lawful;
    AroundPart(c, stored, k);
    PieceAt(c, iv, data, stored, k, part);
  }

  lemma {:induction false} PieceAt(c: Cipher<byte>, iv: Iv<byte>, data: seq<byte>, stored: seq<byte>, k: nat, part: seq<byte>)
    requires Lawful(c) && GoodIv(c, iv) && WholeBlocks(c, stored)
    requires Decrypt(c, iv, stored).data == data && |stored| == |data|
    requires k + |part| <= |stored| && part == stored[k..k + |part|]
    requires WholeBlocks(c, stored[..k]) && WholeBlocks(c, part) && WholeBlocks(c, stored[k + |part|..])
    requires Whole(k + |part|, c.size)
    ensures Decrypts(c, IvAfter(c, iv, stored, k), part, data[k..k + |part|], IvAfter(c, iv, stored, k + |part|))
  {
    hide Decrypt, Whole;
    IvsAround(c, iv, stored, k, part);
    CutInThree(stored, k, part);
    PieceBetween(c, iv, data, stored[..k], part, stored[k + |part|..]);
  }

  lemma {:induction false} PieceBetween(c: Cipher<byte>, iv: Iv<byte>, data: seq<byte>, before: seq<byte>, part: seq<byte>, behind: seq<byte>)
    requires Lawful(c) && GoodIv(c, iv) && WholeBlocks(c, (before + part) + behind)
    requires WholeBlocks(c, before) && WholeBlocks(c, part) && WholeBlocks(c, behind)
    requires Decrypt(c, iv, (before + part) + behind).data == data && |data| >= |before| + |part|
    ensures WholeBlocks(c, before + part)
    ensures Decrypts(c, Decrypt(c, iv, before).iv, part, data[|before|..|before| + |part|], Decrypt(c, iv, before + part).iv)
  {
    PieceOfThree(c, iv, before, part, behind, data);
  }

  lemma CutInThree(s: seq<byte>, k: nat, part: seq<byte>)
    requires k + |part| <= |s| && part == s[k..k + |part|]
    ensures (s[..k] + part) + s[k + |part|..] == s
  {
  }

  lemma {:induction false} IvsAround(c: Cipher<byte>, iv: Iv<byte>, stored: seq<byte>, k: nat, part: seq<byte>)
    requires k + |part| <= |stored| && part == stored[k..k + |part|]
    requires WholeBlocks(c, stored[..k]) && Whole(k + |part|, c.size)
    ensures WholeBlocks(c, stored[..k] + part)
    ensures IvAfter(c, iv, stored, k) == Decrypt(c, iv, stored[..k]).iv
    ensures IvAfter(c, iv, stored, k + |part|) == Decrypt(c, iv, stored[..k] + part).iv
  {
    assert stored[..k + |part|] == stored[..k] + part;
  }

  // The three stretches of the stored file around the part at offset k.
  lemma {:induction false} AroundPart(c: Cipher<byte>, s: seq<byte>, k: nat)
    requires c.size == 16 && WholeBlocks(c, s) && IsOffset(k) && k < |s|
    ensures var n := |Slice(s, k)|;
            && n > 0 && k + n <= |s| && Slice(s, k) == s[k..k + n]
            && Whole(k, 16) && Whole(k + n, 16)
            && WholeBlocks(c, s[..k]) && WholeBlocks(c, Slice(s, k)) && WholeBlocks(c, s[k + n..])
            && (s[..k] + Slice(s, k)) + s[k + n..] == s
  {
    SliceIsWhole(s, k);
    WholeSum(k, |Slice(s, k)|, 16);
  }

  lemma {:induction false} SliceIsWhole(s: seq<byte>, k: nat)
    requires Whole(|s|, 16) && IsOffset(k) && k < |s|
    ensures var n := |Slice(s, k)|;
            && n > 0 && k + n <= |s| && Slice(s, k) == s[k..k + n]
            && Whole(k, 16) && Whole(n, 16) && Whole(|s[k + n..]|, 16)
            && (s[..k] + Slice(s, k)) + s[k + n..] == s
  {
    OffsetsAreWhole(k);
    WholeRest(k, |s|, 16);
    MultipleIsWhole(MAX_PART_SIZE, 16);
    if k + MAX_PART_SIZE < |s| {
      WholeSum(k, MAX_PART_SIZE, 16);
      WholeRest(k + MAX_PART_SIZE, |s|, 16);
    }
  }

  // ---- The invariant ----

  // The parts whose answers are still to come.
  function Outstanding(d: Task): set<int> { set k | k in d.runningParts && d.runningParts[k].Pending? }

  ghost predicate Alive(f: File, d: Task) {
    && d.size == |f.plain| && d.listed && d.ends == 0 && d.named && !d.cancelRequested
    && d.status in {Waiting, Downloading} && (d.open || d.file == []) && !d.broken
    && IsOffset(d.offset) && 0 < d.offset
  }

  // Issued and not yet decrypted; every part that has arrived owns its bytes.
  ghost predicate Chain(f: File, d: Task) {
    && d.encrypted && !d.broken && d.decryptionOffset <= d.size == |f.plain| && d.decryptionOffset <= d.offset
    && IsOffset(d.offset)
    && (forall k :: k in d.runningParts <==> IsOffset(k) && d.decryptionOffset <= k < d.offset && k < d.size)
    && (d.decryptionOffset < d.size ==> IsOffset(d.decryptionOffset) && IvAt(f, d))
    && d.file == f.plain[..d.decryptionOffset]
  }

  ghost predicate IvAt(f: File, d: Task) {
    d.iv == f.ivAt(d.decryptionOffset)
  }

  ghost predicate Holds(f: File, d: Task) {
    forall k | k in d.runningParts && !d.runningParts[k].Pending? ::
      0 <= k && d.runningParts[k].bytes == Slice(f.stored, k)
  }

  // No part that has arrived waits where the chain stands, and none borrows its bytes.
  ghost predicate Decrypting(f: File, d: Task) {
    && Chain(f, d) && Holds(f, d)
    && (forall k | k in d.runningParts :: !d.runningParts[k].Borrowed?)
    && d.decryptionOffset in Outstanding(d)
  }

  // ---- Decrypting the chain ----

  lemma AppendAtEnd(file: seq<byte>, data: seq<byte>)
    ensures WriteAt(file, |file|, data) == file + data
  {
  }

  lemma CutPadding(plain: seq<byte>, pad: seq<byte>, k: nat, n: nat, length: nat)
    requires k + length <= |plain| && length <= n && k + n <= |plain| + |pad|
    ensures Prefix((plain + pad)[k..k + n], length) == plain[k..k + length]
    ensures WriteAt(plain[..k], k, plain[k..k + length]) == plain[..k + length]
  {
    AppendAtEnd(plain[..k], plain[k..k + length]);
    assert plain[..k] + plain[k..k + length] == plain[..k + length];
  }

  lemma {:induction false} FrontPart(f: File, d: Task)
    requires Chain(f, d) && Holds(f, d) && FrontReady(d)
    ensures IsOffset(d.decryptionOffset) && d.decryptionOffset < d.size == |f.plain| && IvAt(f, d)
    ensures d.decryptionOffset in d.runningParts && !d.runningParts[d.decryptionOffset].Pending?
    ensures d.runningParts[d.decryptionOffset].bytes == Slice(f.stored, d.decryptionOffset)
  {
  }

  // Decrypting the front part appends exactly its plain bytes, padding cut off.
  lemma {:induction false} FrontDecrypts(f: File, d: Task)
    requires GoodFile(f) && Chain(f, d) && Holds(f, d)
    requires FrontReady(d) && Aligned(f.cipher, d)
    ensures NextChunk(f, d, DecryptFront(f.cipher, d))
  {
    FrontPart(f, d);
    FrontAdvance(f, d, Slice(f.stored, d.decryptionOffset));
  }

  ghost predicate NextChunk(f: File, d: Task, e: Task) {
    && e.decryptionOffset == (if d.decryptionOffset + MAX_PART_SIZE < d.size then d.decryptionOffset + MAX_PART_SIZE else d.size)
    && e.decryptionOffset <= |f.plain| && e.file == f.plain[..e.decryptionOffset]
    && (e.decryptionOffset < e.size ==> IvAt(f, e))
  }

  lemma {:induction false} FrontAdvance(f: File, d: Task, part: seq<byte>)
    requires GoodFile(f) && d.decryptionOffset < d.size == |f.plain| && IsOffset(d.decryptionOffset)
    requires part == Slice(f.stored, d.decryptionOffset)
    requires IvAt(f, d) && !d.broken && d.file == f.plain[..d.decryptionOffset]
    ensures WholeBlocks(f.cipher, part) && NextChunk(f, d, Advance(d, Decrypt(f.cipher, d.iv, part), |part|))
  {
    FrontLength(f, d);
    assert PartDecrypts(f, d.decryptionOffset);
    AdvanceFile(f, d, Decrypt(f.cipher, d.iv, part), |part|);
  }

  lemma {:induction false} AdvanceFile(f: File, d: Task, clear: Chained<byte>, n: nat)
    requires d.decryptionOffset + n <= |f.plain| + |f.pad| && d.decryptionOffset < d.size == |f.plain|
    requires clear.data == (f.plain + f.pad)[d.decryptionOffset..d.decryptionOffset + n]
    requires clear.iv == f.ivAt(d.decryptionOffset + n) && !d.broken
    requires d.file == f.plain[..d.decryptionOffset]
    requires Kept(d, d.decryptionOffset, n) <= n && d.decryptionOffset + Kept(d, d.decryptionOffset, n) <= d.size
    requires d.decryptionOffset + Kept(d, d.decryptionOffset, n) < d.size ==> Kept(d, d.decryptionOffset, n) == n
    ensures var e := Advance(d, clear, n);
            && e.decryptionOffset == d.decryptionOffset + Kept(d, d.decryptionOffset, n)
            && e.file == f.plain[..e.decryptionOffset]
            && (e.decryptionOffset < e.size ==> IvAt(f, e))
  {
    CutPadding(f.plain, f.pad, d.decryptionOffset, n, Kept(d, d.decryptionOffset, n));
  }

  lemma {:induction false} FrontLength(f: File, d: Task)
    requires GoodFile(f) && d.size == |f.plain| && d.decryptionOffset < d.size
    ensures var k := d.decryptionOffset;
            var part := Slice(f.stored, k);
            && k + Kept(d, k, |part|) == (if k + MAX_PART_SIZE < d.size then k + MAX_PART_SIZE else d.size)
            && Kept(d, k, |part|) <= |part| && k + |part| <= |f.plain| + |f.pad|
            && (k + Kept(d, k, |part|) < d.size ==> Kept(d, k, |part|) == |part|)
  {
  }

  lemma {:induction false} FrontKeepsChain(f: File, d: Task)
    requires GoodFile(f) && Chain(f, d) && Holds(f, d)
    requires FrontReady(d) && Aligned(f.cipher, d)
    ensures var e := DecryptFront(f.cipher, d);
            Chain(f, e) && Holds(f, e) && Aligned(f.cipher, e)
  {
    FrontDecrypts(f, d);
    FrontKeys(f, d, DecryptFront(f.cipher, d));
  }

  lemma {:induction false} FrontKeys(f: File, d: Task, e: Task)
    requires GoodFile(f) && Chain(f, d) && d.decryptionOffset in d.runningParts
    requires e.runningParts == d.runningParts - {d.decryptionOffset}
    requires e.decryptionOffset == (if d.decryptionOffset + MAX_PART_SIZE < d.size then d.decryptionOffset + MAX_PART_SIZE else d.size)
    requires e.offset == d.offset && e.size == d.size
    ensures forall k :: k in e.runningParts <==> IsOffset(k) && e.decryptionOffset <= k < e.offset && k < e.size
    ensures e.decryptionOffset < e.size ==> IsOffset(e.decryptionOffset)
    ensures IsOffset(d.offset) ==> e.decryptionOffset <= e.offset
  {
    assert IsOffset(d.decryptionOffset + MAX_PART_SIZE);
    forall k | IsOffset(k) && k > d.decryptionOffset ensures k >= d.decryptionOffset + MAX_PART_SIZE {
      NextOffset(d.decryptionOffset, k);
    }
  }

  // Draining stops in front of a part that has not arrived.
  lemma {:induction false} DrainKeepsChain(f: File, d: Task)
    requires GoodFile(f) && Chain(f, d) && Holds(f, d) && Aligned(f.cipher, d)
    ensures var e := Drain(f.cipher, d);
            Chain(f, e) && Holds(f, e) && !FrontReady(e) && Drained(d, e)
    decreases |d.runningParts|
  {
    if FrontReady(d) {
      FrontKeepsChain(f, d);
      var m := DecryptFront(f.cipher, d);
      assert Drained(d, m);
      hide Chain, Holds, GoodFile, Aligned, FrontReady, Drained, DecryptFront;
      DrainKeepsChain(f, m);
      DrainedOn(d, m, Drain(f.cipher, m));
    }
  }

  // Only parts from the front are gone, none of them awaited.
  predicate Drained(d: Task, e: Task) {
    && e == d.(iv := e.iv, file := e.file, decryptionOffset := e.decryptionOffset, runningParts := e.runningParts)
    && e.decryptionOffset >= d.decryptionOffset
    && (forall k | k in e.runningParts :: k in d.runningParts && e.runningParts[k] == d.runningParts[k])
    && (forall k | k in d.runningParts && d.runningParts[k].Pending? :: k in e.runningParts)
  }

  lemma DrainedOn(d: Task, m: Task, e: Task)
    requires Drained(d, m) && Drained(m, e)
    ensures Drained(d, e)
  {
  }

  // ---- One arrival ----

  // What the server answers for the part at offset k.
  function Answer(f: File, d: Task, k: int): seq<byte> {
    if k < 0 then [] else Slice(if d.encrypted then f.stored else f.plain, k)
  }

  predicate CanTake(f: File, d: Task, k: int) {
    k >= 0 && Aligned(f.cipher, d) && (d.encrypted ==> WholeBlocks(f.cipher, Answer(f, d, k)))
  }

  function Arrive(f: File, d: Task, k: int): Task {
    if CanTake(f, d, k) then Finished(f.cipher, d, k, Some(Answer(f, d, k))) else d
  }

  // The other fields while parts are stored and decrypted.
  predicate SameTask(d: Task, e: Task) {
    e == d.(iv := e.iv, file := e.file, decryptionOffset := e.decryptionOffset, runningParts := e.runningParts)
  }

  lemma {:induction false} AlignedParts(f: File, d: Task)
    requires GoodFile(f) && Chain(f, d) && Holds(f, d)
    ensures Aligned(f.cipher, d)
  {
    forall k | k in d.runningParts && HasData(d.runningParts[k])
      ensures WholeBlocks(f.cipher, d.runningParts[k].bytes)
    {
      assert PartDecrypts(f, k);
    }
  }

  // A part that arrives ahead of the chain is kept.
  lemma {:induction false} StoreBehind(f: File, d: Task, k: nat)
    requires GoodFile(f) && Decrypting(f, d) && k in Outstanding(d) && k != d.decryptionOffset
    requires CanTake(f, d, k)
    ensures StoreEncrypted(f.cipher, d, k, Answer(f, d, k)) == d.(runningParts := d.runningParts[k := Owned(Answer(f, d, k))])
  {
  }

  function Lent(f: File, d: Task, k: int): Task {
    d.(runningParts := d.runningParts[k := Borrowed(Answer(f, d, k))])
  }

  lemma {:induction false} LendFront(f: File, d: Task, k: nat)
    requires GoodFile(f) && Decrypting(f, d) && k == d.decryptionOffset
    ensures Chain(f, Lent(f, d, k)) && Holds(f, Lent(f, d, k)) && FrontReady(Lent(f, d, k))
    ensures Aligned(f.cipher, Lent(f, d, k))
  {
    assert PartDecrypts(f, k);
    assert Chain(f, Lent(f, d, k)) && Holds(f, Lent(f, d, k));
    AlignedParts(f, Lent(f, d, k));
  }

  // The part the chain waits for is decrypted, and so is what was kept behind it.
  lemma {:induction false} StoreFront(f: File, d: Task, k: nat)
    requires GoodFile(f) && Decrypting(f, d) && k == d.decryptionOffset && CanTake(f, d, k)
    ensures var e := StoreEncrypted(f.cipher, d, k, Answer(f, d, k));
            && Chain(f, e) && Holds(f, e) && !FrontReady(e) && SameTask(d, e)
            && (forall j | j in e.runningParts :: j != k && j in d.runningParts && e.runningParts[j] == d.runningParts[j])
            && (forall j | j in d.runningParts && d.runningParts[j].Pending? && j != k :: j in e.runningParts)
  {
    var here := Lent(f, d, k);
    LendFront(f, d, k);
    FrontKeepsChain(f, here);
    DrainKeepsChain(f, DecryptFront(f.cipher, here));
    assert StoreEncrypted(f.cipher, d, k, Answer(f, d, k)) == Drain(f.cipher, DecryptFront(f.cipher, here));
    hide Chain, Holds, Drain, FrontReady, GoodFile, Aligned;
  }

  // Nothing is ready at the front: the chain is done or waits for an answer.
  lemma {:induction false} FrontWaits(f: File, d: Task)
    requires GoodFile(f) && Chain(f, d) && Holds(f, d) && !FrontReady(d)
    ensures d.decryptionOffset < d.size && d.decryptionOffset < d.offset ==> d.decryptionOffset in Outstanding(d)
    ensures d.decryptionOffset == d.size ==> d.runningParts == map[]
  {
    var k := d.decryptionOffset;
    if k < d.size && k < d.offset {
      assert k in d.runningParts;
    }
  }

  ghost predicate Running(f: File, d: Task) {
    Alive(f, d) && (if d.encrypted then Decrypting(f, d) else Filling(f, d))
  }

  // Ended once, with the whole file.
  ghost predicate Complete(f: File, d: Task) {
    && !d.listed && d.ends == 1 && d.status == Succeeded && !d.open
    && d.file == f.plain && d.runningParts == map[] && d.offset >= d.size == |f.plain|
  }

  // Plain parts are written where they belong as they arrive.
  ghost predicate Filling(f: File, d: Task) {
    && !d.encrypted && !d.broken && |d.file| <= d.size && d.runningParts != map[]
    && (forall k | k in d.runningParts :: d.runningParts[k].Pending? && IsOffset(k) && k < d.offset && k < d.size)
    && (forall k: int | IsOffset(k) && k < d.offset && k < d.size && k !in d.runningParts :: Written(f.plain, d.file, k))
  }

  ghost predicate Written(plain: seq<byte>, file: seq<byte>, k: nat) {
    forall j | k <= j < k + MAX_PART_SIZE && j < |plain| :: ByteWritten(plain, file, j)
  }

  predicate ByteWritten(plain: seq<byte>, file: seq<byte>, j: nat)
    requires j < |plain|
  {
    j < |file| && file[j] == plain[j]
  }

  // How the bookkeeping moves when the part at k arrives.
  ghost predicate Counted(d: Task, e: Task, k: int) {
    && e.size == d.size && e.encrypted == d.encrypted
    && e.offset == (if d.offset < d.size then d.offset + MAX_PART_SIZE else d.offset)
    && Outstanding(e) == Outstanding(d) - {k} + (if d.offset < d.size then {d.offset} else {})
  }

  lemma {:induction false} Arrival(f: File, d: Task, k: int)
    requires CanDownload(f, d.encrypted) && Running(f, d) && k in Outstanding(d)
    ensures Running(f, Arrive(f, d, k)) || Complete(f, Arrive(f, d, k))
    ensures Counted(d, Arrive(f, d, k), k)
  {
    if d.encrypted {
      EncryptedArrival(f, d, k);
    } else {
      PlainArrival(f, d, k);
    }
  }

  lemma {:induction false} EncryptedArrival(f: File, d: Task, k: int)
    requires GoodFile(f) && Alive(f, d) && d.encrypted && Decrypting(f, d) && k in Outstanding(d)
    ensures Running(f, Arrive(f, d, k)) || Complete(f, Arrive(f, d, k))
    ensures Counted(d, Arrive(f, d, k), k)
  {
    CanTakeNext(f, d, k);
    ArrivalStores(f, d, k);
    var e := StoreEncrypted(f.cipher, d.(open := true), k, Answer(f, d, k));
    StoredNext(f, d, k);
    hide Stored, Decrypting, Alive, GoodFile, StoreEncrypted, AfterStore, Arrive, Running, Complete;
    EncryptedNext(f, e, |Answer(f, d, k)|);
  }

  lemma {:induction false} ArrivalStores(f: File, d: Task, k: int)
    requires Alive(f, d) && d.encrypted && CanTake(f, d, k) && Answer(f, d, k) != []
    ensures Aligned(f.cipher, d.(open := true))
    ensures Arrive(f, d, k) == AfterStore(StoreEncrypted(f.cipher, d.(open := true), k, Answer(f, d, k)), |Answer(f, d, k)|)
  {
    hide StoreEncrypted, AfterStore;
    assert Opened(d) == d.(open := true);
  }

  lemma {:induction false} StoredNext(f: File, d: Task, k: int)
    requires GoodFile(f) && Alive(f, d) && d.encrypted && Decrypting(f, d) && k in Outstanding(d)
    requires CanTake(f, d, k)
    ensures Aligned(f.cipher, d.(open := true))
    ensures var e := StoreEncrypted(f.cipher, d.(open := true), k, Answer(f, d, k));
            && Stored(f, e) && Outstanding(e) == Outstanding(d) - {k}
            && e.size == d.size && e.encrypted && e.offset == d.offset
  {
    var o := d.(open := true);
    assert Decrypting(f, o) && CanTake(f, o, k) && Answer(f, o, k) == Answer(f, d, k);
    hide Drain, StoreEncrypted, Chain, Holds, FrontReady, GoodFile;
    if k == d.decryptionOffset {
      StoreFront(f, o, k);
    } else {
      StoreBehind(f, o, k);
    }
    EncryptedStored(f, d, k, StoreEncrypted(f.cipher, o, k, Answer(f, d, k)));
  }

  lemma {:induction false} CanTakeNext(f: File, d: Task, k: int)
    requires GoodFile(f) && Alive(f, d) && d.encrypted && Decrypting(f, d) && k in Outstanding(d)
    ensures CanTake(f, d, k) && Answer(f, d, k) != []
  {
    AlignedParts(f, d);
    assert PartDecrypts(f, k);
  }

  // After storing: the chain holds, nothing is ready, one answer fewer is awaited.
  ghost predicate Stored(f: File, d: Task) {
    && d.size == |f.plain| && d.listed && d.ends == 0 && d.named && !d.cancelRequested && d.open
    && d.status in {Waiting, Downloading} && IsOffset(d.offset) && 0 < d.offset
    && Chain(f, d) && Holds(f, d) && !FrontReady(d)
    && (forall k | k in d.runningParts :: !d.runningParts[k].Borrowed?)
  }

  lemma {:induction false} EncryptedStored(f: File, d: Task, k: nat, e: Task)
    requires GoodFile(f) && Alive(f, d) && Decrypting(f, d) && k in Outstanding(d) && SameTask(d.(open := true), e)
    requires if k == d.decryptionOffset then
               && Chain(f, e) && Holds(f, e) && !FrontReady(e)
               && (forall j | j in e.runningParts :: j != k && j in d.runningParts && e.runningParts[j] == d.runningParts[j])
               && (forall j | j in d.runningParts && d.runningParts[j].Pending? && j != k :: j in e.runningParts)
             else e == d.(open := true, runningParts := d.runningParts[k := Owned(Answer(f, d, k))])
    ensures Stored(f, e) && Outstanding(e) == Outstanding(d) - {k}
  {
    forall j ensures j in Outstanding(e) <==> j in Outstanding(d) && j != k {
    }
    if k != d.decryptionOffset {
      assert !FrontReady(e);
    }
  }

  lemma {:induction false} EncryptedNext(f: File, e: Task, n: nat)
    requires GoodFile(f) && Stored(f, e)
    ensures Running(f, AfterStore(e, n)) || Complete(f, AfterStore(e, n))
    ensures CountedOn(e, AfterStore(e, n))
  {
    FrontWaits(f, e);
    if e.offset < e.size {
      EncryptedAsked(f, e, n);
    } else if e.runningParts == map[] {
      hide FrontReady, Holds, GoodFile;
      assert f.plain[..|f.plain|] == f.plain;
    } else {
      EncryptedWaits(f, e, n);
    }
  }

  lemma {:induction false} EncryptedWaits(f: File, e: Task, n: nat)
    requires Stored(f, e) && e.offset >= e.size && e.runningParts != map[]
    requires e.decryptionOffset in Outstanding(e) || e.decryptionOffset == e.size
    requires e.decryptionOffset == e.size ==> e.runningParts == map[]
    ensures Running(f, AfterStore(e, n)) && CountedOn(e, AfterStore(e, n))
  {
    var g := AfterStore(e, n);
    assert Chain(f, g) && Holds(f, g);
    hide Chain, Holds, FrontReady;
    assert Outstanding(g) == Outstanding(e);
  }

  // Asking for one more part where there is one.
  ghost predicate CountedOn(e: Task, g: Task) {
    && g.size == e.size && g.encrypted == e.encrypted
    && g.offset == (if e.offset < e.size then e.offset + MAX_PART_SIZE else e.offset)
    && Outstanding(g) == Outstanding(e) + (if e.offset < e.size then {e.offset} else {})
  }

  lemma {:induction false} EncryptedAsked(f: File, e: Task, n: nat)
    requires GoodFile(f) && Stored(f, e) && e.offset < e.size
    requires e.decryptionOffset < e.offset ==> e.decryptionOffset in Outstanding(e)
    ensures Running(f, AfterStore(e, n))
    ensures CountedOn(e, AfterStore(e, n))
  {
    var g := AfterStore(e, n);
    assert e.encrypted && !e.broken;
    hide Chain, Holds, GoodFile, FrontReady;
    assert g.runningParts == e.runningParts[e.offset := Pending];
    ChainAsked(f, e, g);
  }

  lemma {:induction false} ChainAsked(f: File, e: Task, g: Task)
    requires Chain(f, e) && Holds(f, e) && e.offset < e.size
    requires e.decryptionOffset < e.offset ==> e.decryptionOffset in Outstanding(e)
    requires g.runningParts == e.runningParts[e.offset := Pending] && g.offset == e.offset + MAX_PART_SIZE
    requires g.encrypted && !g.broken && g.decryptionOffset == e.decryptionOffset && g.size == e.size && g.iv == e.iv && g.file == e.file
    ensures Chain(f, g) && Holds(f, g) && g.decryptionOffset in Outstanding(g)
  {
    NoneBetween(e.offset);
  }

  lemma WriteAtBytes(file: seq<byte>, pos: nat, data: seq<byte>)
    requires data != []
    ensures var r := WriteAt(file, pos, data);
            && |r| == (if |file| < pos + |data| then pos + |data| else |file|)
            && (forall j | pos <= j < pos + |data| :: r[j] == data[j - pos])
            && (forall j | 0 <= j < |file| && !(pos <= j < pos + |data|) :: r[j] == file[j])
  {
  }

  // The offset of the part that the byte at x belongs to.
  function OffsetOf(x: nat): (k: nat)
    ensures IsOffset(k) && k <= x < k + MAX_PART_SIZE
  {
    if x < MAX_PART_SIZE then 0 else OffsetOf(x - MAX_PART_SIZE) + MAX_PART_SIZE
  }

  lemma {:induction false} WrittenOut(plain: seq<byte>, file: seq<byte>)
    requires |file| <= |plain|
    requires forall k: int | IsOffset(k) && k < |plain| :: Written(plain, file, k)
    ensures file == plain
  {
    forall j: nat | j < |plain| ensures ByteWritten(plain, file, j) {
      assert Written(plain, file, OffsetOf(j));
    }
    assert plain == [] || ByteWritten(plain, file, |plain| - 1);
    forall j: nat | j < |file| ensures file[j] == plain[j] {
      assert ByteWritten(plain, file, j);
    }
  }

  lemma {:induction false} PlainStored(f: File, d: Task, k: nat)
    requires d.size == |f.plain| && Filling(f, d) && k in d.runningParts
    ensures var e := StorePlain(d, k, Slice(f.plain, k));
            && |e.file| <= e.size
            && forall j: int | IsOffset(j) && j < e.offset && j < e.size && j !in e.runningParts :: Written(f.plain, e.file, j)
  {
    var part := Slice(f.plain, k);
    WriteAtBytes(d.file, k, part);
    var e := StorePlain(d, k, part);
    forall j: int | IsOffset(j) && j < e.offset && j < e.size && j !in e.runningParts ensures Written(f.plain, e.file, j) {
      assert j == k || Written(f.plain, d.file, j);
      forall x | j <= x < j + MAX_PART_SIZE && x < |f.plain| ensures ByteWritten(f.plain, e.file, x) {
        assert j == k || ByteWritten(f.plain, d.file, x);
      }
    }
  }

  lemma {:induction false} PlainArrival(f: File, d: Task, k: int)
    requires Alive(f, d) && Filling(f, d) && k in Outstanding(d)
    ensures Running(f, Arrive(f, d, k)) || Complete(f, Arrive(f, d, k))
    ensures Counted(d, Arrive(f, d, k), k)
  {
    var o := d.(open := true);
    PlainStored(f, o, k);
    var e := StorePlain(o, k, Slice(f.plain, k));
    assert Saved(f, e) && Outstanding(e) == Outstanding(d) - {k};
    assert Arrive(f, d, k) == AfterStore(e, |Slice(f.plain, k)|) by {
      hide AfterStore;
      assert Aligned(f.cipher, d) && Opened(d) == o;
    }
    hide AfterStore, Saved, Filling, StorePlain, Arrive;
    PlainNext(f, e, |Slice(f.plain, k)|);
  }

  ghost predicate Saved(f: File, d: Task) {
    && d.size == |f.plain| && d.listed && d.ends == 0 && d.named && !d.cancelRequested && d.open && !d.broken && !d.encrypted
    && d.status in {Waiting, Downloading} && IsOffset(d.offset) && 0 < d.offset
    && |d.file| <= d.size
    && (forall k | k in d.runningParts :: d.runningParts[k].Pending? && IsOffset(k) && k < d.offset && k < d.size)
    && (forall k: int | IsOffset(k) && k < d.offset && k < d.size && k !in d.runningParts :: Written(f.plain, d.file, k))
  }

  lemma {:induction false} PlainNext(f: File, e: Task, n: nat)
    requires Saved(f, e)
    ensures Running(f, AfterStore(e, n)) || Complete(f, AfterStore(e, n))
    ensures CountedOn(e, AfterStore(e, n))
  {
    if e.offset < e.size {
      PlainAsked(f, e, n);
    } else if e.runningParts == map[] {
      WrittenOut(f.plain, e.file);
    }
  }

  lemma {:induction false} PlainAsked(f: File, e: Task, n: nat)
    requires Saved(f, e) && e.offset < e.size
    ensures Running(f, AfterStore(e, n))
  {
    NoneBetween(e.offset);
    var g := AfterStore(e, n);
    forall k: int | IsOffset(k) && k < g.offset && k < g.size && k !in g.runningParts
      ensures Written(f.plain, g.file, k)
    {
      assert k < e.offset;
    }
    assert e.offset in g.runningParts;
  }

  // ---- Whole runs ----

  ghost function Begin(f: File, encrypted: bool, count: nat): Task {
    AskParts(NewTask(|f.plain|, encrypted, f.iv), count)
  }

  // The answers arrive in the order ks; ds are the states around them.
  ghost predicate IsRun(f: File, encrypted: bool, count: nat, ds: seq<Task>, ks: seq<int>) {
    && |ds| == |ks| + 1 && ds[0] == Begin(f, encrypted, count)
    && forall i | 0 <= i < |ks| :: ks[i] in Outstanding(ds[i]) && ds[i + 1] == Arrive(f, ds[i], ks[i])
  }

  // Each part issued so far has either arrived or is awaited.
  ghost predicate Accounted(d: Task, ks: seq<int>) {
    && (forall k | k in Outstanding(d) :: IsOffset(k) && k < d.offset && k < d.size)
    && (forall k | k in ks :: IsOffset(k) && k < d.size)
    && forall k: int | IsOffset(k) && k < d.size :: k in ks <==> k < d.offset && k !in Outstanding(d)
  }

  // Parts are being asked for and none has arrived.
  ghost predicate Asking(f: File, encrypted: bool, d: Task) {
    && d == NewTask(|f.plain|, encrypted, f.iv).(named := d.named, runningParts := d.runningParts, offset := d.offset)
    && IsOffset(d.offset) && (d.named <==> d.offset > 0)
    && (forall k :: k in d.runningParts <==> IsOffset(k) && k < d.offset && k < d.size)
    && (forall k | k in d.runningParts :: d.runningParts[k].Pending?)
  }

  lemma {:induction false} AskKeeps(f: File, encrypted: bool, d: Task, count: nat)
    requires Asking(f, encrypted, d)
    ensures Asking(f, encrypted, AskParts(d, count))
    ensures count > 0 && d.size > 0 ==> AskParts(d, count).offset > 0
    decreases count
  {
    if count > 0 && d.offset < d.size {
      NoneBetween(d.offset);
      AskKeeps(f, encrypted, AskPart(d), count - 1);
    }
  }

  lemma {:induction false} BeginRunning(f: File, encrypted: bool, count: nat)
    requires CanDownload(f, encrypted) && count > 0
    ensures Running(f, Begin(f, encrypted, count)) && Accounted(Begin(f, encrypted, count), [])
  {
    AskKeeps(f, encrypted, NewTask(|f.plain|, encrypted, f.iv), count);
    var d := Begin(f, encrypted, count);
    assert 0 in d.runningParts;
    assert f.plain[..0] == [];
  }

  // Offsets come in steps of a part, so the next one to ask for is the only one
  // between the old and the new offset.
  lemma {:induction false} AccountedNext(d: Task, e: Task, ks: seq<int>, k: int)
    requires Accounted(d, ks) && k in Outstanding(d) && Counted(d, e, k) && IsOffset(d.offset)
    ensures Accounted(e, ks + [k]) && k !in ks
  {
    NoneBetween(d.offset);
    forall j: int | IsOffset(j) && j < e.size
      ensures j in ks + [k] <==> j < e.offset && j !in Outstanding(e)
    {
    }
  }

  // Whatever the order of arrival: while parts are awaited the invariant holds, no
  // part arrives twice, and every part issued has arrived or is awaited.
  lemma {:induction false} RunHolds(f: File, encrypted: bool, count: nat, ds: seq<Task>, ks: seq<int>)
    requires CanDownload(f, encrypted) && count > 0 && IsRun(f, encrypted, count, ds, ks)
    ensures Running(f, ds[|ks|]) || Complete(f, ds[|ks|])
    ensures Accounted(ds[|ks|], ks) && ds[|ks|].encrypted == encrypted
    ensures forall i, j | 0 <= i < j < |ks| :: ks[i] != ks[j]
    decreases |ks|
  {
    if ks == [] {
      AskKeeps(f, encrypted, NewTask(|f.plain|, encrypted, f.iv), count);
      BeginRunning(f, encrypted, count);
    } else {
      var n := |ks| - 1;
      var before, k := ks[..n], ks[n];
      RunHolds(f, encrypted, count, ds[..n + 1], before);
      assert ks == before + [k];
      hide Running, Complete, Accounted, Counted, CanDownload, Arrive;
      StepHolds(f, ds[n], before, k);
    }
  }

  lemma {:induction false} StepHolds(f: File, d: Task, ks: seq<int>, k: int)
    requires CanDownload(f, d.encrypted) && (Running(f, d) || Complete(f, d)) && Accounted(d, ks) && k in Outstanding(d)
    ensures Running(f, Arrive(f, d, k)) || Complete(f, Arrive(f, d, k))
    ensures Accounted(Arrive(f, d, k), ks + [k]) && k !in ks
    ensures Arrive(f, d, k).encrypted == d.encrypted
  {
    assert Running(f, d);
    Arrival(f, d, k);
    AccountedNext(d, Arrive(f, d, k), ks, k);
  }

  // The download ends exactly when the last part arrives, once, and the file is then
  // the original byte for byte; until then some part is still awaited.
  lemma {:induction false} EndsWithTheLastPart(f: File, encrypted: bool, count: nat, ds: seq<Task>, ks: seq<int>)
    requires CanDownload(f, encrypted) && count > 0 && IsRun(f, encrypted, count, ds, ks)
    ensures var d := ds[|ks|];
            && d.ends == (if forall k: int | IsOffset(k) && k < |f.plain| :: k in ks then 1 else 0)
            && (d.ends == 1 ==> d.status == Succeeded && d.file == f.plain && d.runningParts == map[])
            && (d.ends == 0 ==> Outstanding(d) != {})
  {
    RunHolds(f, encrypted, count, ds, ks);
    var d := ds[|ks|];
    if Running(f, d) {
      var k := Awaited(f, d);
      assert k !in ks;
    }
  }

  lemma {:induction false} Awaited(f: File, d: Task) returns (k: int)
    requires Running(f, d)
    ensures k in Outstanding(d)
  {
    if d.encrypted {
      k := d.decryptionOffset;
    } else {
      assert d.runningParts.Keys != {};
      k := ElementOf(d.runningParts.Keys);
    }
  }

  // In an encrypted download the parts in hand are the issued ones that are not yet
  // decrypted, the one the chain waits for has not arrived, the others own their bytes.
  lemma {:induction false} PartsInHand(f: File, count: nat, ds: seq<Task>, ks: seq<int>)
    requires GoodFile(f) && count > 0 && IsRun(f, true, count, ds, ks) && ds[|ks|].listed
    ensures var d := ds[|ks|];
            && (forall k :: k in d.runningParts <==> IsOffset(k) && d.decryptionOffset <= k < d.offset && k < d.size)
            && (forall k | k in d.runningParts :: d.runningParts[k] == if k in ks then Owned(Slice(f.stored, k)) else Pending)
            && d.decryptionOffset !in ks && d.decryptionOffset <= |f.plain| && d.file == f.plain[..d.decryptionOffset]
  {
    RunHolds(f, true, count, ds, ks);
    var d := ds[|ks|];
    assert Decrypting(f, d);
    forall k | k in d.runningParts ensures d.runningParts[k] == if k in ks then Owned(Slice(f.stored, k)) else Pending {
      assert k in ks <==> k !in Outstanding(d);
    }
  }

  // ---- Downloads that break off ----

  ghost predicate Over(d: Task) {
    && !d.listed && d.ends == 1 && !d.named && !d.open && d.file == [] && d.status in {Failed, Cancelled}
    && 0 < d.offset
  }

  // A lost answer or a cancellation ends the download once and leaves no file.
  lemma {:induction false} BreaksOff(f: File, d: Task, k: nat, answer: Option<seq<byte>>)
    requires Running(f, d.(cancelRequested := false)) && Aligned(f.cipher, d)
    requires d.encrypted && answer.Some? ==> WholeBlocks(f.cipher, answer.value)
    requires answer.None? || d.cancelRequested || answer.value == []
    ensures Over(Finished(f.cipher, d, k, answer))
    ensures Finished(f.cipher, d, k, answer).runningParts == map[]
    ensures Finished(f.cipher, d, k, answer).status == if answer.Some? && d.cancelRequested then Cancelled else Failed
  {
    hide Drain, Decrypting, Filling;
  }

  // Answers that come in after that change neither the outcome nor the disk.
  lemma {:induction false} OverStaysOver(f: File, d: Task, k: nat, answer: Option<seq<byte>>)
    requires Over(d) && Aligned(f.cipher, d)
    requires d.encrypted && answer.Some? ==> WholeBlocks(f.cipher, answer.value)
    ensures Over(Finished(f.cipher, d, k, answer))
  {
    if Continues(d, answer) {
      OverStores(f, d, k, answer.value);
    }
    hide StoreEncrypted;
  }

  // The first late answer of a download that has failed leaves a stream that could not
  // be opened; from then on answers are taken like any others.
  predicate Continues(d: Task, answer: Option<seq<byte>>) {
    d.broken && answer.Some? && answer.value != [] && !Cancelling(d)
  }

  lemma {:induction false} DrainLeaves(c: Cipher<byte>, d: Task)
    requires Aligned(c, d)
    ensures var e := Drain(c, d);
            && (d.broken ==> e.file == d.file)
            && e == d.(iv := e.iv, file := e.file, decryptionOffset := e.decryptionOffset, runningParts := e.runningParts)
    decreases |d.runningParts|
  {
    if FrontReady(d) {
      DrainLeaves(c, DecryptFront(c, d));
    }
  }

  lemma {:induction false} OverStores(f: File, d: Task, k: nat, bytes: seq<byte>)
    requires Over(d) && d.broken && Aligned(f.cipher, d) && (d.encrypted ==> WholeBlocks(f.cipher, bytes))
    ensures var e := if d.encrypted then StoreEncrypted(f.cipher, d, k, bytes) else StorePlain(d, k, bytes);
            Over(e) && e.broken && e.offset == d.offset && e.size == d.size
  {
    if d.encrypted {
      var here := d.(runningParts := d.runningParts[k := Borrowed(bytes)]);
      assert Aligned(f.cipher, here);
      DrainLeaves(f.cipher, here);
      hide Drain;
    }
  }

  // So a download that has ended asks for another part if and only if it had failed, one
  // answer had come too late before, and another with bytes comes while there are parts
  // that were never asked for.
  lemma {:induction false} LateAnswersAskAgain(f: File, d: Task, k: nat, answer: Option<seq<byte>>)
    requires Over(d) && Aligned(f.cipher, d)
    requires d.encrypted && answer.Some? ==> WholeBlocks(f.cipher, answer.value)
    ensures var e := Finished(f.cipher, d, k, answer);
            && (e.offset != d.offset <==> Continues(d, answer) && d.offset < d.size)
            && (e.offset != d.offset ==> d.offset in Outstanding(e))
            && (e.broken <==> d.broken || (answer.Some? && !Cancelling(d)))
  {
    if Continues(d, answer) {
      OverStores(f, d, k, answer.value);
    }
    hide StoreEncrypted;
  }
}
