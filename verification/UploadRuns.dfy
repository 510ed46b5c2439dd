/** Every order in which the parts of an upload can be acknowledged, and the way of a
    file through the server (src/transfer_manager.cpp). */
module UploadRuns {
  import opened Bytes
  import Download
  import opened DownloadRuns
  import opened Ige
  import opened ModArith
  import opened Parts
  import opened Upload
  import opened Wrappers

  datatype Event = Acked(part: nat, success: bool) | CancelAsked

  // What one upload starts from: the cipher and the initial iv, the bytes that a
  // padding is taken from, and the number of parts sent at once.
  datatype Source = Source(cipher: Cipher<byte>, iv: Iv<byte>, plain: seq<byte>, encrypted: bool,
                           random: seq<byte>, count: nat)

  ghost predicate GoodSource(s: Source) {
    && s.plain != [] && |s.random| >= 15 && s.count > 0
    && s.cipher.size == 16 && Lawful(s.cipher) && GoodIv(s.cipher, s.iv)
  }

  function Pad(s: Source): seq<byte> {
    if s.encrypted then Prefix(s.random, PadSize(|s.plain|)) else []
  }

  function Start(s: Source): UploadState {
    NextParts(s.cipher, NewUpload(s.plain, s.encrypted, s.iv), s.random, s.count)
  }

  function Step(s: Source, u: UploadState, e: Event): UploadState {
    match e
    case Acked(part, success) => PartFinished(s.cipher, u, part, success, s.random)
    case CancelAsked => u.(cancelRequested := true)
  }

  // Only parts on their way are acknowledged.
  ghost predicate IsRun(s: Source, us: seq<UploadState>, es: seq<Event>) {
    && |us| == |es| + 1 && us[0] == Start(s)
    && forall i | 0 <= i < |es| ::
         us[i + 1] == Step(s, us[i], es[i]) && (es[i].Acked? ==> es[i].part in us[i].runningParts)
  }

  // ---- What has been sent ----

  // The parts the server holds, one behind the other.
  function Joined(parts: map<nat, seq<byte>>, n: nat): seq<byte> {
    if n == 0 then [] else Joined(parts, n - 1) + (if n - 1 in parts then parts[n - 1] else [])
  }

  // The first n parts before encryption.
  function Sent(s: Source, n: nat): seq<byte> {
    if n * MAX_PART_SIZE >= |s.plain| then s.plain + Pad(s) else s.plain[..n * MAX_PART_SIZE]
  }

  predicate Encrypts(c: Cipher<byte>, iv: Iv<byte>, data: seq<byte>, out: seq<byte>, next: Iv<byte>) {
    WholeBlocks(c, data) && Encrypt(c, iv, data).data == out && Encrypt(c, iv, data).iv == next
  }

  ghost predicate SentInv(s: Source, u: UploadState) {
    && u.size == |s.plain| && u.encrypted == s.encrypted
    && u.unread == (if u.partNum * MAX_PART_SIZE >= u.size then [] else s.plain[u.partNum * MAX_PART_SIZE..])
    && (u.partNum > 0 ==> (u.partNum - 1) * MAX_PART_SIZE < u.size)
    && (forall p: nat :: p in u.parts <==> p < u.partNum)
    && PartsMatch(s, u.partNum, u.parts, u.iv)
  }

  ghost predicate PartsMatch(s: Source, n: nat, parts: map<nat, seq<byte>>, iv: Iv<byte>) {
    if s.encrypted then Encrypts(s.cipher, s.iv, Sent(s, n), Joined(parts, n), iv)
    else Joined(parts, n) == Sent(s, n)
  }

  lemma {:induction false} JoinedFrame(parts: map<nat, seq<byte>>, n: nat, k: nat, part: seq<byte>)
    requires n <= k
    ensures Joined(parts[k := part], n) == Joined(parts, n)
  {
    if n > 0 {
      JoinedFrame(parts, n - 1, k, part);
    }
  }

  function Rest(s: seq<byte>, k: nat): seq<byte> { if k < |s| then s[k..] else [] }

  // The next chunk, padded where it is the last, continues what has been sent.
  lemma {:induction false} SentNext(s: Source, u: UploadState)
    requires GoodSource(s) && SentInv(s, u) && u.partNum * MAX_PART_SIZE < u.size
    ensures Chunk(u.unread) != []
    ensures Sent(s, u.partNum + 1) == Sent(s, u.partNum) + Padded(u, s.random)
    ensures u.unread[|Chunk(u.unread)|..] == Rest(s.plain, (u.partNum + 1) * MAX_PART_SIZE)
  {
    hide PartsMatch, GoodSource;
    if (u.partNum + 1) * MAX_PART_SIZE < u.size {
      SentMiddle(s, u, u.partNum * MAX_PART_SIZE);
    } else {
      SentLast(s, u, u.partNum * MAX_PART_SIZE);
    }
  }

  lemma {:induction false} SentMiddle(s: Source, u: UploadState, k: nat)
    requires k == u.partNum * MAX_PART_SIZE && k + MAX_PART_SIZE < |s.plain| && u.unread == s.plain[k..]
    ensures Chunk(u.unread) != []
    ensures Sent(s, u.partNum + 1) == Sent(s, u.partNum) + Padded(u, s.random)
    ensures u.unread[|Chunk(u.unread)|..] == s.plain[(u.partNum + 1) * MAX_PART_SIZE..]
  {
    MiddleChunk(s.plain, k);
    assert PadSize(MAX_PART_SIZE) == 0;
    assert Padded(u, s.random) == Chunk(u.unread);
  }

  lemma {:induction false} SentLast(s: Source, u: UploadState, k: nat)
    requires k == u.partNum * MAX_PART_SIZE && k < |s.plain| <= k + MAX_PART_SIZE && u.unread == s.plain[k..]
    requires u.encrypted == s.encrypted
    ensures Chunk(u.unread) != []
    ensures Sent(s, u.partNum + 1) == Sent(s, u.partNum) + Padded(u, s.random)
    ensures u.unread[|Chunk(u.unread)|..] == []
  {
    LastChunk(s.plain, k);
    LastPad(u.partNum, |s.plain|);
    assert Padded(u, s.random) == s.plain[k..] + Pad(s);
    assert s.plain[..k] + (s.plain[k..] + Pad(s)) == s.plain + Pad(s);
  }

  lemma MiddleChunk(plain: seq<byte>, k: nat)
    requires k + MAX_PART_SIZE < |plain|
    ensures Chunk(plain[k..]) == plain[k..k + MAX_PART_SIZE]
    ensures plain[..k] + plain[k..k + MAX_PART_SIZE] == plain[..k + MAX_PART_SIZE]
    ensures plain[k..][MAX_PART_SIZE..] == plain[k + MAX_PART_SIZE..]
  {
  }

  lemma LastChunk(plain: seq<byte>, k: nat)
    requires k < |plain| <= k + MAX_PART_SIZE
    ensures Chunk(plain[k..]) == plain[k..]
  {
  }

  lemma LastPad(n: nat, size: nat)
    requires n * MAX_PART_SIZE <= size
    ensures PadSize(size - n * MAX_PART_SIZE) == PadSize(size)
  {
    var q := n * (MAX_PART_SIZE / 16);
    assert n * MAX_PART_SIZE == q * 16;
    ModAddMultiple(size - q * 16, q, 16);
  }

  lemma {:induction false} SentIsWhole(s: Source, n: nat)
    requires GoodSource(s) && s.encrypted
    ensures WholeBlocks(s.cipher, Sent(s, n))
  {
    if n * MAX_PART_SIZE >= |s.plain| {
      PaddedIsWhole(|s.plain|);
    } else {
      assert n * MAX_PART_SIZE == 16 * (n * (MAX_PART_SIZE / 16));
      MultipleIsWhole(n * MAX_PART_SIZE, 16);
    }
  }

  lemma {:induction false} PaddedChunk(s: Source, u: UploadState)
    requires GoodSource(s) && u.encrypted
    ensures WholeBlocks(s.cipher, Padded(u, s.random))
  {
    PaddedIsWhole(|Chunk(u.unread)|);
  }

  lemma {:induction false} NextPartMatches(s: Source, u: UploadState)
    requires GoodSource(s) && SentInv(s, u) && u.partNum * MAX_PART_SIZE < u.size
    ensures SentInv(s, NextPart(s.cipher, u, s.random))
    ensures NextPart(s.cipher, u, s.random) == u.(
      runningParts := u.runningParts + {u.partNum}, partNum := u.partNum + 1,
      unread := u.unread[|Chunk(u.unread)|..], iv := NextPart(s.cipher, u, s.random).iv,
      parts := NextPart(s.cipher, u, s.random).parts)
  {
    SentNext(s, u);
    PartContinues(s, u);
    hide PartsMatch, CipherPart, Padded;
  }

  lemma {:induction false} PartContinues(s: Source, u: UploadState)
    requires GoodSource(s) && u.encrypted == s.encrypted && PartsMatch(s, u.partNum, u.parts, u.iv)
    requires Sent(s, u.partNum + 1) == Sent(s, u.partNum) + Padded(u, s.random)
    ensures var out := CipherPart(s.cipher, u, s.random);
            PartsMatch(s, u.partNum + 1, u.parts[u.partNum := out.data], out.iv)
  {
    var out := CipherPart(s.cipher, u, s.random);
    JoinedFrame(u.parts, u.partNum, u.partNum, out.data);
    if s.encrypted {
      SentIsWhole(s, u.partNum);
      PaddedChunk(s, u);
      hide Encrypt, Whole, Sent, Padded;
      EncryptInPieces(s.cipher, s.iv, Sent(s, u.partNum), Padded(u, s.random));
    }
  }

  // ---- Acknowledgements ----

  predicate Confirmed(es: seq<Event>, p: nat) { Acked(p, true) in es }

  predicate Refused(es: seq<Event>, p: nat) { Acked(p, false) in es }

  // Nothing failed and nobody cancelled.
  ghost predicate Clean(es: seq<Event>) {
    CancelAsked !in es && forall p: nat :: !Refused(es, p)
  }

  // A part is on its way exactly until it is acknowledged; the upload is listed until
  // the last confirmation or the first mishap, and posted only in the former case.
  ghost predicate BookInv(u: UploadState, es: seq<Event>) {
    && (forall p | p in u.runningParts :: p < u.partNum)
    && (forall p: nat | p < u.partNum :: p in u.runningParts <==> !Confirmed(es, p) && !Refused(es, p))
    && (forall p: nat | p >= u.partNum :: !Confirmed(es, p) && !Refused(es, p))
    && (u.cancelRequested <==> CancelAsked in es) && (u.status == Cancelled ==> u.cancelRequested)
    && (if u.listed then
          && u.status in {Waiting, Uploading} && u.posted == 0 && u.runningParts != {}
          && (forall p: nat :: !Refused(es, p))
        else if u.posted > 0 then
          && u.posted == 1 && u.partNum * MAX_PART_SIZE >= u.size && u.runningParts == {}
          && (forall p: nat :: !Refused(es, p))
        else u.status in {Failed, Cancelled} && !Clean(es))
  }

  ghost predicate Inv(s: Source, u: UploadState, es: seq<Event>) { SentInv(s, u) && BookInv(u, es) }

  // Before the first acknowledgement.
  ghost predicate Fresh(s: Source, u: UploadState) {
    && SentInv(s, u) && u.listed && u.posted == 0 && u.status == Waiting && !u.cancelRequested
    && (forall p: nat :: p in u.runningParts <==> p < u.partNum)
  }

  lemma {:induction false} StartFresh(s: Source, u: UploadState, count: nat)
    requires GoodSource(s) && Fresh(s, u)
    ensures Fresh(s, NextParts(s.cipher, u, s.random, count))
    ensures count > 0 ==> NextParts(s.cipher, u, s.random, count).partNum > 0
    decreases count
  {
    hide SentInv, GoodSource, NextPart;
    if count > 0 && u.partNum * MAX_PART_SIZE < u.size {
      FreshNext(s, u);
      StartFresh(s, NextPart(s.cipher, u, s.random), count - 1);
    } else if count > 0 {
      FreshStarted(s, u);
    }
  }

  lemma {:induction false} FreshStarted(s: Source, u: UploadState)
    requires GoodSource(s) && SentInv(s, u) && u.partNum * MAX_PART_SIZE >= u.size
    ensures u.partNum > 0
  {
  }

  lemma {:induction false} FreshNext(s: Source, u: UploadState)
    requires GoodSource(s) && Fresh(s, u) && u.partNum * MAX_PART_SIZE < u.size
    ensures Fresh(s, NextPart(s.cipher, u, s.random)) && NextPart(s.cipher, u, s.random).partNum == u.partNum + 1
  {
    hide NextPart;
    NextPartMatches(s, u);
    hide SentInv;
  }

  lemma {:induction false} NothingSent(s: Source)
    requires GoodSource(s)
    ensures SentInv(s, NewUpload(s.plain, s.encrypted, s.iv))
  {
    var u := NewUpload(s.plain, s.encrypted, s.iv);
    assert s.plain[0..] == s.plain;
    assert Sent(s, 0) == s.plain[..0] == [];
    assert Joined(u.parts, 0) == [];
  }

  lemma {:induction false} StartInv(s: Source)
    requires GoodSource(s)
    ensures Inv(s, Start(s), [])
  {
    NothingSent(s);
    hide SentInv;
    StartFresh(s, NewUpload(s.plain, s.encrypted, s.iv), s.count);
    assert 0 in Start(s).runningParts;
  }

  lemma {:induction false} StepInv(s: Source, u: UploadState, es: seq<Event>, e: Event)
    requires GoodSource(s) && Inv(s, u, es) && (e.Acked? ==> e.part in u.runningParts)
    ensures Inv(s, Step(s, u, e), es + [e])
  {
    match e
    case CancelAsked =>
      SentSame(s, u, u.(cancelRequested := true));
      CancelRecorded(es);
      hide SentInv;
    case Acked(part, success) =>
      AckInv(s, u, es, part, success);
  }

  lemma {:induction false} SentSame(s: Source, u: UploadState, v: UploadState)
    requires SentInv(s, u)
    requires v.size == u.size && v.encrypted == u.encrypted && v.unread == u.unread && v.partNum == u.partNum
    requires v.parts == u.parts && v.iv == u.iv
    ensures SentInv(s, v)
  {
  }

  // An acknowledgement moves its part from the running ones to the acknowledged ones.
  lemma AckRecorded(es: seq<Event>, part: nat, success: bool)
    ensures var fs := es + [Acked(part, success)];
            && (CancelAsked in fs <==> CancelAsked in es)
            && (forall p: nat :: Confirmed(fs, p) <==> Confirmed(es, p) || (p == part && success))
            && (forall p: nat :: Refused(fs, p) <==> Refused(es, p) || (p == part && !success))
  {
  }

  lemma CancelRecorded(es: seq<Event>)
    ensures var fs := es + [CancelAsked];
            && CancelAsked in fs
            && (forall p: nat :: (Confirmed(fs, p) <==> Confirmed(es, p)) && (Refused(fs, p) <==> Refused(es, p)))
  {
  }

  lemma {:induction false} AckInv(s: Source, u: UploadState, es: seq<Event>, part: nat, success: bool)
    requires GoodSource(s) && Inv(s, u, es) && part in u.runningParts
    ensures Inv(s, PartFinished(s.cipher, u, part, success, s.random), es + [Acked(part, success)])
  {
    var e := CountUp(u, part);
    AckRecorded(es, part, success);
    if !success || e.cancelRequested || e.status == Cancelled {
      SentSame(s, u, EndUpload(e.(status := if !success then Failed else Cancelled)));
      hide SentInv, NextPart;
    } else {
      GoOn(s, u, es, part);
    }
  }

  lemma {:induction false} GoOn(s: Source, u: UploadState, es: seq<Event>, part: nat)
    requires GoodSource(s) && Inv(s, u, es) && part in u.runningParts
    requires !u.cancelRequested && u.status != Cancelled
    ensures Inv(s, PartFinished(s.cipher, u, part, true, s.random), es + [Acked(part, true)])
  {
    var e := CountUp(u, part);
    var g := e.(status := if e.status in {Waiting, Connecting} then Uploading else e.status);
    hide SentInv, NextPart, GoodSource;
    AckRecorded(es, part, true);
    SentSame(s, u, g);
    SentSame(s, u, EndUpload(g));
    if g.partNum * MAX_PART_SIZE < g.size {
      NextPartMatches(s, g);
    }
  }

  lemma {:induction false} RunInv(s: Source, us: seq<UploadState>, es: seq<Event>)
    requires GoodSource(s) && IsRun(s, us, es)
    ensures Inv(s, us[|es|], es)
    decreases |es|
  {
    if es == [] {
      StartInv(s);
    } else {
      var n := |es| - 1;
      RunInv(s, us[..n + 1], es[..n]);
      assert es == es[..n] + [es[n]];
      hide Inv, GoodSource, Step;
      StepInv(s, us[n], es[..n], es[n]);
    }
  }

  // ---- Results ----

  // The file as the server has it once every part is there.
  function Stored(s: Source, u: UploadState): seq<byte> { Joined(u.parts, u.partNum) }

  // Every part is confirmed, and the parts make up the file, encrypted in one piece.
  ghost predicate AllThere(s: Source, u: UploadState, es: seq<Event>) {
    && (forall p: nat | p * MAX_PART_SIZE < |s.plain| :: Confirmed(es, p))
    && (if s.encrypted then
          && WholeBlocks(s.cipher, s.plain + Pad(s)) && |Pad(s)| < 16
          && Stored(s, u) == Encrypt(s.cipher, s.iv, s.plain + Pad(s)).data
        else Stored(s, u) == s.plain)
  }

  // The message with the file goes out at most once, and only when all of it is there.
  lemma {:induction false} PostedMeansStored(s: Source, us: seq<UploadState>, es: seq<Event>)
    requires GoodSource(s) && IsRun(s, us, es)
    ensures us[|es|].posted <= 1 && (us[|es|].posted == 1 ==> AllThere(s, us[|es|], es))
  {
    RunInv(s, us, es);
    hide IsRun, AllThere, Inv, SentInv, BookInv, GoodSource;
    PostedInv(s, us[|es|], es);
  }

  lemma {:induction false} PostedInv(s: Source, u: UploadState, es: seq<Event>)
    requires GoodSource(s) && Inv(s, u, es)
    ensures u.posted <= 1 && (u.posted == 1 ==> AllThere(s, u, es))
  {
    if u.posted > 0 {
      SizeKept(s, u);
      AllSent(s, u);
      hide SentInv, Encrypts, Encrypt, Stored, Pad, GoodSource, Confirmed, Refused;
      forall p: nat | p * MAX_PART_SIZE < |s.plain| ensures Confirmed(es, p) {
        assert p < u.partNum;
      }
    }
  }

  lemma {:induction false} AllSent(s: Source, u: UploadState)
    requires GoodSource(s) && SentInv(s, u) && u.partNum * MAX_PART_SIZE >= u.size
    ensures if s.encrypted then
              && WholeBlocks(s.cipher, s.plain + Pad(s)) && |Pad(s)| < 16
              && Stored(s, u) == Encrypt(s.cipher, s.iv, s.plain + Pad(s)).data
            else Stored(s, u) == s.plain
  {
    PaddedIsWhole(|s.plain|);
    hide GoodSource, Encrypt, Joined;
  }

  // When nothing fails, the message goes out exactly with the last confirmation.
  lemma {:induction false} CleanRunPosts(s: Source, us: seq<UploadState>, es: seq<Event>)
    requires GoodSource(s) && |us| == |es| + 1 && IsRun(s, us, es) && Clean(es)
    ensures us[|es|].posted == 1 <==> forall p: nat | p * MAX_PART_SIZE < |s.plain| :: Confirmed(es, p)
  {
    hide GoodSource, IsRun, PartsMatch, Encrypt, Whole, Stored, Pad;
    PostedMeansStored(s, us, es);
    RunInv(s, us, es);
    var u := us[|es|];
    if u.listed {
      var p := ElementOf(u.runningParts);
      assert p < u.partNum && p * MAX_PART_SIZE < |s.plain|;
      assert !Confirmed(es, p);
    }
  }

  // An upload of which a part has failed is over and will not be posted. Yet a later
  // success sends another part, the next of the chain, if and only if nobody has
  // cancelled and parts are left.
  lemma {:induction false} LateSuccessSendsOn(s: Source, us: seq<UploadState>, es: seq<Event>, failed: nat, part: nat)
    requires GoodSource(s) && IsRun(s, us, es) && Refused(es, failed) && part in us[|es|].runningParts
    ensures var u := us[|es|];
            var v := Step(s, u, Acked(part, true));
            && !u.listed && u.posted == 0 && !v.listed && v.posted == 0 && SentInv(s, v)
            && (v.partNum == u.partNum + 1 <==> CancelAsked !in es && u.partNum * MAX_PART_SIZE < |s.plain|)
            && (v.partNum != u.partNum + 1 ==> v.parts == u.parts)
            && (v.partNum == u.partNum + 1 ==> u.partNum in v.runningParts && u.partNum in v.parts)
  {
    hide GoodSource, SentInv, NextPart;
    RunInv(s, us, es);
    var u := us[|es|];
    hide IsRun;
    assert u.size == |s.plain| by {
      SizeKept(s, u);
    }
    AckInv(s, u, es, part, true);
    if CancelAsked !in es && u.partNum * MAX_PART_SIZE < u.size {
      var e := CountUp(u, part);
      SentSame(s, u, e);
      NextPartMatches(s, e);
      assert PartFinished(s.cipher, u, part, true, s.random) == NextPart(s.cipher, e, s.random);
      PartSent(s, u, PartFinished(s.cipher, u, part, true, s.random));
    }
  }

  lemma SizeKept(s: Source, u: UploadState)
    requires SentInv(s, u)
    ensures u.size == |s.plain|
  {
  }

  lemma PartSent(s: Source, u: UploadState, v: UploadState)
    requires SentInv(s, v) && v.partNum == u.partNum + 1
    ensures u.partNum in v.parts
  {
  }

  // ---- Through the server and back ----

  ghost function Uploaded(s: Source, u: UploadState): File {
    File(s.cipher, s.iv, s.plain, Pad(s), Stored(s, u), (n: nat) => IvAfter(s.cipher, s.iv, Stored(s, u), n))
  }

  // A file uploaded part by part and downloaded with the same key, initial iv and size
  // is the original byte for byte, in whatever order the parts were acknowledged and
  // arrive, and the download ends with the last part.
  lemma {:induction false} ThroughTheServer(s: Source, us: seq<UploadState>, es: seq<Event>,
                                            count: nat, ds: seq<Download.Task>, ks: seq<int>)
    requires GoodSource(s) && IsRun(s, us, es) && us[|es|].posted == 1
    requires count > 0 && DownloadRuns.IsRun(Uploaded(s, us[|es|]), s.encrypted, count, ds, ks)
    ensures var d := ds[|ks|];
            && (d.ends == 1 <==> forall k: int | IsOffset(k) && k < |s.plain| :: k in ks)
            && (d.ends == 1 ==> d.status == Download.Succeeded && d.file == s.plain)
  {
    PostedMeansStored(s, us, es);
    var f := Uploaded(s, us[|es|]);
    if s.encrypted {
      assert IsUpload(f) by {
        hide Encrypt, Whole;
      }
      UploadIsGood(f);
    }
    hide GoodFile, Encrypt, Whole;
    EndsWithTheLastPart(f, s.encrypted, count, ds, ks);
  }
}
