/** Uploading a file in parts that are encrypted as one chain
    (src/transfer_manager.cpp, src/upload_task.h). */
module Upload {
  import opened Bytes
  import opened Ige
  import opened Parts

  datatype Progress = Waiting | Connecting | Uploading | Failed | Cancelled

  // unread: what the read callback still has to give; parts: what the server was sent,
  // by part number; posted: how often the message with the file was sent.
  datatype UploadState = UploadState(
    size: nat, encrypted: bool, unread: seq<byte>, partNum: nat, runningParts: set<nat>,
    uploadedBytes: nat, iv: Iv<byte>, status: Progress, cancelRequested: bool, listed: bool,
    parts: map<nat, seq<byte>>, posted: nat)

  function NewUpload(plain: seq<byte>, encrypted: bool, iv: Iv<byte>): UploadState {
    UploadState(|plain|, encrypted, plain, 0, {}, 0, iv, Waiting, false, true, map[], 0)
  }

  function Chunk(unread: seq<byte>): seq<byte> { Prefix(unread, if |unread| < MAX_PART_SIZE then |unread| else MAX_PART_SIZE) }

  // The number of bytes missing to a whole number of blocks.
  function PadSize(n: nat): nat { (16 - n % 16) % 16 }

  function Padded(u: UploadState, random: seq<byte>): seq<byte> {
    var chunk := Chunk(u.unread);
    if u.encrypted then chunk + Prefix(random, PadSize(|chunk|)) else chunk
  }

  function EndUpload(u: UploadState): UploadState {
    if !u.listed then u
    else u.(listed := false, posted := if u.status == Uploading then u.posted + 1 else u.posted)
  }

  function CipherPart(c: Cipher<byte>, u: UploadState, random: seq<byte>): Chained<byte> {
    var data := Padded(u, random);
    if u.encrypted && WholeBlocks(c, data) then Encrypt(c, u.iv, data) else Chained(data, u.iv)
  }

  // upload_part: read, pad, encrypt and send the next part.
  function NextPart(c: Cipher<byte>, u: UploadState, random: seq<byte>): UploadState {
    var chunk := Chunk(u.unread);
    var e := u.(runningParts := u.runningParts + {u.partNum}, partNum := u.partNum + 1, unread := u.unread[|chunk|..]);
    if chunk == [] then EndUpload(e.(status := Failed))
    else
      var out := CipherPart(c, u, random);
      e.(iv := out.iv, parts := u.parts[u.partNum := out.data])
  }

  function NextParts(c: Cipher<byte>, u: UploadState, random: seq<byte>, count: nat): UploadState
    decreases count
  {
    if count == 0 || u.partNum * MAX_PART_SIZE >= u.size then u
    else NextParts(c, NextPart(c, u, random), random, count - 1)
  }

  function CountUp(u: UploadState, part: nat): UploadState {
    var n := u.uploadedBytes + MAX_PART_SIZE;
    u.(runningParts := u.runningParts - {part}, uploadedBytes := if n > u.size then u.size else n)
  }

  // upload_part_finished
  function PartFinished(c: Cipher<byte>, u: UploadState, part: nat, success: bool, random: seq<byte>): UploadState {
    var e := CountUp(u, part);
    if !success then EndUpload(e.(status := Failed))
    else if e.cancelRequested || e.status == Cancelled then EndUpload(e.(status := Cancelled))
    else
      var g := e.(status := if e.status in {Waiting, Connecting} then Uploading else e.status);
      if g.partNum * MAX_PART_SIZE < g.size then NextPart(c, g, random)
      else if g.runningParts == {} then EndUpload(g)
      else g
  }

  // What is left to read is the rest of the announced size or a number of full parts.
  predicate InSize(u: UploadState) {
    u.partNum * MAX_PART_SIZE + |u.unread| == u.size || Whole(|u.unread|, MAX_PART_SIZE)
  }

  lemma {:induction false} NextInSize(c: Cipher<byte>, u: UploadState, random: seq<byte>)
    requires InSize(u)
    ensures InSize(NextPart(c, u, random))
  {
    hide CipherPart;
  }

  // ---- The task object as the manager drives it ----

  class UploadTask {
    const size: nat
    const encrypted: bool
    const cipher: Cipher<byte>
    var unread: seq<byte>
    var partNum: nat
    var runningParts: set<nat>
    var uploadedBytes: nat
    var iv: Iv<byte>
    var status: Progress
    var cancelRequested: bool
    var listed: bool
    ghost var parts: map<nat, seq<byte>>
    ghost var posted: nat

    ghost function View(): UploadState
      reads this
    {
      UploadState(size, encrypted, unread, partNum, runningParts, uploadedBytes, iv, status,
                  cancelRequested, listed, parts, posted)
    }

    constructor (plain: seq<byte>, encrypted: bool, cipher: Cipher<byte>, iv: Iv<byte>)
      ensures this.cipher == cipher
      ensures View() == NewUpload(plain, encrypted, iv)
    {
      this.size, this.encrypted, this.cipher, this.iv := |plain|, encrypted, cipher, iv;
      unread, partNum, runningParts, uploadedBytes := plain, 0, {}, 0;
      status, cancelRequested, listed, parts, posted := Waiting, false, true, map[], 0;
    }

    method UploadEnd()
      modifies this`listed, this`posted
      ensures View() == EndUpload(old(View()))
    {
      if !listed {
        return;
      }
      listed := false;
      if status != Uploading {
        return;
      }
      posted := posted + 1;
    }

    method Read(max: nat) returns (buffer: seq<byte>)
      modifies this`unread
      ensures buffer == Prefix(old(unread), if |old(unread)| < max then |old(unread)| else max)
      ensures unread == old(unread)[|buffer|..]
    {
      var n := if |unread| < max then |unread| else max;
      buffer := unread[..n];
      unread := unread[n..];
    }

    // Pads and encrypts what was read, where the file goes to a secret chat.
    method Encipher(chunk: seq<byte>, random: seq<byte>) returns (buffer: seq<byte>)
      requires cipher.size == 16 && |random| >= 15 && chunk == Chunk(unread)
      modifies this`iv
      ensures buffer == CipherPart(cipher, old(View()), random).data
      ensures iv == CipherPart(cipher, old(View()), random).iv
    {
      buffer := chunk;
      if encrypted {
        PaddedIsWhole(|chunk|);
        buffer := buffer + random[..PadSize(|chunk|)];
        var out := Encrypt(cipher, iv, buffer);
        buffer := out.data;
        iv := out.iv;
      }
    }

    // The assertions are the ones the source makes about what it has read.
    method UploadPart(random: seq<byte>)
      requires cipher.size == 16 && |random| >= 15
      requires InSize(View())
      modifies this
      ensures View() == NextPart(cipher, old(View()), random)
      ensures InSize(View())
    {
      var number := partNum;
      runningParts := runningParts + {number};
      partNum := partNum + 1;
      var chunk := Chunk(unread);
      NextInSize(cipher, old(View()), random);
      if chunk == [] {
        status := Failed;
        UploadEnd();
        return;
      }
      var offset := number * MAX_PART_SIZE + |chunk|;
      assert |chunk| % 16 != 0 ==> offset == size by {
        MultipleIsWhole(MAX_PART_SIZE, 16);
      }
      assert offset != size ==> |chunk| == MAX_PART_SIZE;
      hide Whole, CipherPart;
      var buffer := Encipher(chunk, random);
      unread := unread[|chunk|..];
      parts := parts[number := buffer];
    }

    method UploadMultipleParts(random: seq<byte>, count: nat)
      requires cipher.size == 16 && |random| >= 15 && InSize(View())
      modifies this
      ensures View() == NextParts(cipher, old(View()), random, count)
      ensures InSize(View())
    {
      var i := 0;
      while partNum * MAX_PART_SIZE < size && i < count
        invariant 0 <= i <= count && InSize(View())
        invariant NextParts(cipher, View(), random, count - i) == NextParts(cipher, old(View()), random, count)
        decreases count - i
      {
        UploadPart(random);
        i := i + 1;
      }
    }

    method UploadPartFinished(part: nat, success: bool, random: seq<byte>)
      requires cipher.size == 16 && |random| >= 15 && InSize(View())
      modifies this
      ensures View() == PartFinished(cipher, old(View()), part, success, random)
      ensures InSize(View())
    {
      hide NextPart, Whole;
      CountPart(part);
      if !success || cancelRequested || status == Cancelled {
        status := if !success then Failed else Cancelled;
        UploadEnd();
        return;
      }
      if status == Waiting || status == Connecting {
        status := Uploading;
      }
      if partNum * MAX_PART_SIZE < size {
        UploadPart(random);
      } else if runningParts == {} {
        UploadEnd();
      }
    }

    method CountPart(part: nat)
      modifies this`runningParts, this`uploadedBytes
      ensures View() == CountUp(old(View()), part)
    {
      runningParts := runningParts - {part};
      uploadedBytes := uploadedBytes + MAX_PART_SIZE;
      if uploadedBytes > size {
        uploadedBytes := size;
      }
    }
  }

  // Padding makes a whole number of blocks and is shorter than one.
  lemma PaddedIsWhole(n: nat)
    ensures Whole(n + PadSize(n), 16) && PadSize(n) < 16
  {
    MultipleIsWhole(n + PadSize(n), 16);
  }
}
