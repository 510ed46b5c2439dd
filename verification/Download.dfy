/** Downloading a file in parts that arrive in any order
    (src/transfer_manager.cpp, src/download_task.h). */
module Download {
  import opened Bytes
  import opened Ige
  import opened Parts
  import opened Wrappers

  // A part that was asked for, one whose bytes still lie in the network answer,
  // and one that keeps its own copy.
  datatype PartData = Pending | Borrowed(bytes: seq<byte>) | Owned(bytes: seq<byte>)

  datatype Status = Waiting | Connecting | Downloading | Succeeded | Failed | Cancelled

  // broken: the stream is there but could not be opened; listed: the manager still knows
  // the download; ends: how often it was ended.
  datatype Task = Task(
    size: nat, encrypted: bool, named: bool, open: bool, broken: bool, file: seq<byte>,
    offset: nat, decryptionOffset: nat, iv: Iv<byte>, runningParts: map<int, PartData>,
    downloadedBytes: nat, status: Status, cancelRequested: bool, listed: bool, ends: nat)

  function NewTask(size: nat, encrypted: bool, iv: Iv<byte>): Task {
    Task(size, encrypted, false, false, false, [], 0, 0, iv, map[], 0, Waiting, false, true, 0)
  }

  predicate HasData(p: PartData) { !p.Pending? && p.bytes != [] }

  // seekp and write: a gap before pos is filled with zeros.
  function WriteAt(file: seq<byte>, pos: nat, data: seq<byte>): seq<byte> {
    if data == [] then file
    else
      var room := if |file| < pos then file + seq(pos - |file|, i => 0) else file;
      room[..pos] + data + (if pos + |data| < |room| then room[pos + |data|..] else [])
  }

  // Nothing gets through a broken stream.
  function AfterWrite(d: Task, pos: nat, data: seq<byte>): seq<byte> { if d.broken then d.file else WriteAt(d.file, pos, data) }

  // download_part: ask for the bytes at offset.
  function AskPart(d: Task): Task {
    d.(named := d.named || d.offset == 0,
       runningParts := d.runningParts[d.offset := Pending],
       offset := d.offset + MAX_PART_SIZE)
  }

  function AskParts(d: Task, count: nat): Task
    decreases count
  {
    if count == 0 || d.offset >= d.size then d else AskParts(AskPart(d), count - 1)
  }

  // download_end: the first call closes the file, and removes it unless all went well.
  function End(d: Task): Task {
    if !d.listed then d
    else
      var e := d.(listed := false, open := false, broken := false, ends := d.ends + 1);
      if e.status != Downloading && e.named then e.(named := false, file := []) else e.(status := Succeeded)
  }

  function Fail(d: Task, status: Status): Task { End(d.(status := status, runningParts := map[])) }

  // The part the chain has reached is here.
  predicate FrontReady(d: Task) {
    d.runningParts != map[]
    && var k := Least(d.runningParts.Keys); k == d.decryptionOffset && HasData(d.runningParts[k])
  }

  predicate Aligned(c: Cipher<byte>, d: Task) {
    forall k | k in d.runningParts && HasData(d.runningParts[k]) :: WholeBlocks(c, d.runningParts[k].bytes)
  }

  function Kept(d: Task, k: nat, length: nat): nat {
    if k <= d.size && length > d.size - k then d.size - k else length
  }

  // Writes the decrypted front part of n bytes, cut at the end of the file.
  function Advance(d: Task, clear: Chained<byte>, n: nat): Task {
    var k := d.decryptionOffset;
    var length := Kept(d, k, n);
    d.(iv := clear.iv, file := AfterWrite(d, k, Prefix(clear.data, length)),
       decryptionOffset := k + length, runningParts := d.runningParts - {k})
  }

  function DecryptFront(c: Cipher<byte>, d: Task): Task
    requires FrontReady(d) && Aligned(c, d)
  {
    var data := d.runningParts[d.decryptionOffset].bytes;
    Advance(d, Decrypt(c, d.iv, data), |data|)
  }

  function Drain(c: Cipher<byte>, d: Task): Task
    requires Aligned(c, d)
    decreases |d.runningParts|
  {
    if FrontReady(d) then Drain(c, DecryptFront(c, d)) else d
  }

  function Cancelling(d: Task): bool { d.cancelRequested || d.status == Cancelled }

  function StoreEncrypted(c: Cipher<byte>, d: Task, at: nat, bytes: seq<byte>): Task
    requires Aligned(c, d) && WholeBlocks(c, bytes)
  {
    var here := d.(runningParts := d.runningParts[at := Borrowed(bytes)]);
    if FrontReady(here) then Drain(c, here)
    else d.(runningParts := d.runningParts[at := Owned(bytes)])
  }

  function StorePlain(d: Task, at: nat, bytes: seq<byte>): Task {
    d.(file := AfterWrite(d, at, bytes), runningParts := d.runningParts - {at})
  }

  function Opened(d: Task): Task { if d.open || d.broken then d else d.(open := true, file := []) }

  function AfterStore(d: Task, length: nat): Task {
    var e := d.(downloadedBytes := d.downloadedBytes + length,
                status := if d.status in {Waiting, Connecting} then Downloading else d.status);
    if e.offset < e.size then AskPart(e)
    else if e.runningParts == map[] then End(e)
    else e
  }

  // download_part_finished; no answer means that the query failed.
  function Finished(c: Cipher<byte>, d: Task, at: nat, answer: Option<seq<byte>>): Task
    requires Aligned(c, d)
    requires d.encrypted && answer.Some? ==> WholeBlocks(c, answer.value)
  {
    if answer.None? then Fail(d, Failed)
    else if Cancelling(d) then Fail(d, Cancelled)
    else if !d.open && !d.broken && !d.named then Fail(d.(broken := true), Failed)
    else if answer.value == [] then Fail(Opened(d), Failed)
    else if d.encrypted then AfterStore(StoreEncrypted(c, Opened(d), at, answer.value), |answer.value|)
    else AfterStore(StorePlain(Opened(d), at, answer.value), |answer.value|)
  }

  // ---- The task object as the manager drives it ----

  class DownloadTask {
    const size: nat
    const encrypted: bool
    const cipher: Cipher<byte>
    var named: bool
    var open: bool
    var broken: bool
    var file: seq<byte>
    var offset: nat
    var decryptionOffset: nat
    var iv: Iv<byte>
    var runningParts: map<int, PartData>
    var downloadedBytes: nat
    var status: Status
    var cancelRequested: bool
    var listed: bool
    ghost var ends: nat

    ghost function View(): Task
      reads this
    {
      Task(size, encrypted, named, open, broken, file, offset, decryptionOffset, iv, runningParts,
           downloadedBytes, status, cancelRequested, listed, ends)
    }

    constructor (size: nat, encrypted: bool, cipher: Cipher<byte>, iv: Iv<byte>)
      ensures this.cipher == cipher
      ensures View() == NewTask(size, encrypted, iv)
    {
      this.size, this.encrypted, this.cipher, this.iv := size, encrypted, cipher, iv;
      named, open, broken, file := false, false, false, [];
      offset, decryptionOffset, runningParts := 0, 0, map[];
      downloadedBytes, status, cancelRequested, listed, ends := 0, Waiting, false, true, 0;
    }

    method DownloadPart()
      modifies this
      ensures View() == AskPart(old(View()))
    {
      if offset == 0 {
        named := true;
      }
      runningParts := runningParts[offset := Pending];
      offset := offset + MAX_PART_SIZE;
    }

    method DownloadMultipleParts(count: nat)
      modifies this
      ensures View() == AskParts(old(View()), count)
    {
      var i := 0;
      while offset < size && i < count
        invariant 0 <= i <= count
        invariant AskParts(View(), count - i) == AskParts(old(View()), count)
        decreases count - i
      {
        DownloadPart();
        i := i + 1;
      }
    }

    method DownloadEnd()
      modifies this
      ensures View() == End(old(View()))
    {
      if !listed {
        return;
      }
      listed := false;
      open, broken := false, false;
      ends := ends + 1;
      if status != Downloading && named {
        named := false;
        file := [];
      } else {
        status := Succeeded;
      }
    }

    method GiveUp(newStatus: Status)
      modifies this
      ensures View() == Fail(old(View()), newStatus)
    {
      status := newStatus;
      runningParts := map[];
      DownloadEnd();
    }

    method DownloadPartFinished(at: nat, answer: Option<seq<byte>>)
      requires Aligned(cipher, View())
      requires encrypted && answer.Some? ==> WholeBlocks(cipher, answer.value)
      modifies this
      ensures View() == Finished(cipher, old(View()), at, answer)
    {
      if answer.None? {
        GiveUp(Failed);
        return;
      }
      if cancelRequested || status == Cancelled {
        GiveUp(Cancelled);
        return;
      }
      if !open && !broken && !named {
        broken := true;
        GiveUp(Failed);
        return;
      }
      OpenStream();
      if answer.value == [] {
        GiveUp(Failed);
        return;
      }
      if encrypted {
        StoreEncryptedPart(at, answer.value);
      } else {
        StorePlainPart(at, answer.value);
      }
      Proceed(|answer.value|);
    }

    method OpenStream()
      modifies this`open, this`file
      ensures View() == Opened(old(View()))
    {
      if !open && !broken {
        open := true;
        file := [];
      }
    }

    method WriteOut(pos: nat, data: seq<byte>)
      modifies this`file
      ensures file == AfterWrite(old(View()), pos, data)
    {
      if !broken {
        file := WriteAt(file, pos, data);
      }
    }

    method StorePlainPart(at: nat, bytes: seq<byte>)
      modifies this`file, this`runningParts
      ensures View() == StorePlain(old(View()), at, bytes)
    {
      WriteOut(at, bytes);
      runningParts := runningParts - {at};
    }

    method Proceed(length: nat)
      modifies this
      ensures View() == AfterStore(old(View()), length)
    {
      downloadedBytes := downloadedBytes + length;
      if status == Waiting || status == Connecting {
        status := Downloading;
      }
      if offset < size {
        DownloadPart();
      } else if runningParts == map[] {
        DownloadEnd();
      }
    }

    method StoreEncryptedPart(at: nat, bytes: seq<byte>)
      requires Aligned(cipher, View()) && WholeBlocks(cipher, bytes)
      modifies this`runningParts, this`iv, this`file, this`decryptionOffset
      ensures View() == StoreEncrypted(cipher, old(View()), at, bytes)
    {
      runningParts := runningParts[at := Borrowed(bytes)];
      var moved := DrainParts();
      if !moved {
        runningParts := runningParts[at := Owned(bytes)];
        assert View() == old(View()).(runningParts := old(runningParts)[at := Owned(bytes)]);
      }
    }

    // Decrypts from the front for as long as the next part of the chain is here.
    method DrainParts() returns (moved: bool)
      requires Aligned(cipher, View())
      modifies this`runningParts, this`iv, this`file, this`decryptionOffset
      ensures moved == FrontReady(old(View()))
      ensures View() == Drain(cipher, old(View()))
    {
      ghost var here := View();
      moved := false;
      while runningParts != map[] && Least(runningParts.Keys) == decryptionOffset
            && HasData(runningParts[decryptionOffset])
        invariant Aligned(cipher, View())
        invariant Drain(cipher, View()) == Drain(cipher, here)
        invariant if moved then FrontReady(here) else View() == here
        decreases |runningParts|
      {
        DecryptFrontPart();
        moved := true;
      }
    }

    method DecryptFrontPart()
      requires FrontReady(View()) && Aligned(cipher, View())
      modifies this`runningParts, this`iv, this`file, this`decryptionOffset
      ensures View() == DecryptFront(cipher, old(View()))
    {
      var first := decryptionOffset;
      var data := runningParts[first].bytes;
      var clear := Decrypt(cipher, iv, data);
      iv := clear.iv;
      var length := |data|;
      if first <= size && length > size - first {
        length := size - first;
      }
      WriteOut(first, Prefix(clear.data, length));
      decryptionOffset := decryptionOffset + length;
      runningParts := runningParts - {first};
    }
  }
}
