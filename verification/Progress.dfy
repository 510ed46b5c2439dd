/** What a transfer reports about its progress, in every run (src/transfer_manager.cpp,
    src/download_task.h, src/upload_task.h). */
module Progress {
  import opened Bytes
  import Download
  import DownloadRuns
  import opened Ige
  import opened Parts
  import Upload
  import UploadRuns
  import opened Wrappers

  // ---- Uploads ----

  // How many acknowledgements there are.
  function Acks(es: seq<UploadRuns.Event>): nat {
    if es == [] then 0 else Acks(es[..|es| - 1]) + if es[|es| - 1].Acked? then 1 else 0
  }

  function AtMost(n: nat, size: nat): nat { if n > size then size else n }

  lemma {:induction false} SentKeepsCount(c: Cipher<byte>, u: Upload.UploadState, random: seq<byte>)
    ensures var v := Upload.NextPart(c, u, random); v.uploadedBytes == u.uploadedBytes && v.size == u.size
  {
    hide Upload.CipherPart;
  }

  lemma {:induction false} StartedAtNothing(c: Cipher<byte>, u: Upload.UploadState, random: seq<byte>, count: nat)
    ensures var v := Upload.NextParts(c, u, random, count); v.uploadedBytes == u.uploadedBytes && v.size == u.size
    decreases count
  {
    if count > 0 && u.partNum * MAX_PART_SIZE < u.size {
      SentKeepsCount(c, u, random);
      StartedAtNothing(c, Upload.NextPart(c, u, random), random, count - 1);
    }
  }

  lemma {:induction false} StepCounts(s: UploadRuns.Source, u: Upload.UploadState, e: UploadRuns.Event)
    ensures var v := UploadRuns.Step(s, u, e);
            v.size == u.size && v.uploadedBytes == if e.Acked? then AtMost(u.uploadedBytes + MAX_PART_SIZE, u.size) else u.uploadedBytes
  {
    if e.Acked? {
      var g := Upload.CountUp(u, e.part);
      SentKeepsCount(s.cipher, g, s.random);
      SentKeepsCount(s.cipher, g.(status := Upload.Uploading), s.random);
      hide Upload.NextPart;
    }
  }

  // In every run the bytes reported are those of as many full parts as were acknowledged,
  // whether they arrived or not, and never more than the file has.
  lemma {:induction false} UploadedBytesAreExact(s: UploadRuns.Source, us: seq<Upload.UploadState>, es: seq<UploadRuns.Event>, n: nat)
    requires UploadRuns.IsRun(s, us, es) && n <= |es|
    ensures us[n].size == |s.plain| && us[n].uploadedBytes == AtMost(Acks(es[..n]) * MAX_PART_SIZE, |s.plain|)
  {
    if n == 0 {
      StartedAtNothing(s.cipher, Upload.NewUpload(s.plain, s.encrypted, s.iv), s.random, s.count);
    } else {
      UploadedBytesAreExact(s, us, es, n - 1);
      assert us[n - 1 + 1] == UploadRuns.Step(s, us[n - 1], es[n - 1]);
      hide UploadRuns.IsRun, UploadRuns.Step;
      StepCounts(s, us[n - 1], es[n - 1]);
      assert es[..n][..n - 1] == es[..n - 1];
      Capped(Acks(es[..n - 1]), |s.plain|);
    }
  }

  lemma Capped(acks: nat, size: nat)
    ensures AtMost(AtMost(acks * MAX_PART_SIZE, size) + MAX_PART_SIZE, size) == AtMost((acks + 1) * MAX_PART_SIZE, size)
  {
  }

  // Should the reader give nothing although more was announced, the upload fails and ends.
  lemma {:induction false} NothingReadFails(c: Cipher<byte>, u: Upload.UploadState, random: seq<byte>)
    requires u.unread == []
    ensures var v := Upload.NextPart(c, u, random);
            v.status == Upload.Failed && !v.listed && v.posted == u.posted && v.parts == u.parts
  {
  }

  // An upload that has ended stays ended, and its message is not sent once more.
  lemma LaterEndsDoNothing(u: Upload.UploadState)
    ensures Upload.EndUpload(Upload.EndUpload(u)) == Upload.EndUpload(u)
  {
  }

  // ---- Downloads ----

  // The bytes of the parts that have arrived.
  function Total(f: DownloadRuns.File, encrypted: bool, ks: seq<int>): nat {
    if ks == [] then 0
    else
      var k := ks[|ks| - 1];
      Total(f, encrypted, ks[..|ks| - 1]) + if k < 0 then 0 else |Slice(if encrypted then f.stored else f.plain, k)|
  }

  lemma {:induction false} ArrivalCounts(f: DownloadRuns.File, d: Download.Task, k: int)
    requires DownloadRuns.CanDownload(f, d.encrypted) && DownloadRuns.Running(f, d) && k in DownloadRuns.Outstanding(d)
    ensures DownloadRuns.Arrive(f, d, k).downloadedBytes == d.downloadedBytes + |DownloadRuns.Answer(f, d, k)|
  {
    var n := |DownloadRuns.Answer(f, d, k)|;
    if d.encrypted {
      DownloadRuns.CanTakeNext(f, d, k);
      DownloadRuns.ArrivalStores(f, d, k);
      var o := d.(open := true);
      StoreKeepsCount(f.cipher, o, k, DownloadRuns.Answer(f, d, k));
      hide Download.StoreEncrypted, DownloadRuns.Arrive;
    } else {
      var o := d.(open := true);
      assert Download.Opened(d) == o;
      assert DownloadRuns.Arrive(f, d, k) == Download.AfterStore(Download.StorePlain(o, k, DownloadRuns.Answer(f, d, k)), n) by {
        hide Download.AfterStore;
        assert Download.Aligned(f.cipher, d);
      }
      hide DownloadRuns.Arrive;
    }
  }

  lemma {:induction false} StoreKeepsCount(c: Cipher<byte>, d: Download.Task, at: nat, bytes: seq<byte>)
    requires Download.Aligned(c, d) && WholeBlocks(c, bytes)
    ensures Download.StoreEncrypted(c, d, at, bytes).downloadedBytes == d.downloadedBytes
  {
    var here := d.(runningParts := d.runningParts[at := Download.Borrowed(bytes)]);
    assert Download.Aligned(c, here);
    DownloadRuns.DrainLeaves(c, here);
    hide Download.Drain;
  }

  // An answer with bytes that finds the file closed, though it was named before, writes
  // it anew from the start.
  lemma {:induction false} ClosedFileIsWrittenAnew(c: Cipher<byte>, d: Download.Task, at: nat, bytes: seq<byte>)
    requires !d.encrypted && !d.open && !d.broken && d.named && !Download.Cancelling(d) && bytes != []
    requires d.offset < d.size && Download.Aligned(c, d)
    ensures var e := Download.Finished(c, d, at, Some(bytes));
            e.open && e.file == Download.WriteAt([], at, bytes)
  {
  }

  // In every order of arrival the bytes reported are those of the parts that have arrived.
  lemma {:induction false} DownloadedBytesAreExact(f: DownloadRuns.File, encrypted: bool, count: nat,
                                                   ds: seq<Download.Task>, ks: seq<int>)
    requires DownloadRuns.CanDownload(f, encrypted) && count > 0 && DownloadRuns.IsRun(f, encrypted, count, ds, ks)
    ensures ds[|ks|].downloadedBytes == Total(f, encrypted, ks)
    decreases |ks|
  {
    if ks == [] {
      AskedForNothing(Download.NewTask(|f.plain|, encrypted, f.iv), count);
    } else {
      var n := |ks| - 1;
      DownloadedBytesAreExact(f, encrypted, count, ds[..n + 1], ks[..n]);
      DownloadRuns.RunHolds(f, encrypted, count, ds[..n + 1], ks[..n]);
      assert DownloadRuns.Running(f, ds[n]);
      hide DownloadRuns.Running, DownloadRuns.Complete, DownloadRuns.Arrive, DownloadRuns.CanDownload;
      ArrivalCounts(f, ds[n], ks[n]);
    }
  }

  lemma {:induction false} AskedForNothing(d: Download.Task, count: nat)
    ensures Download.AskParts(d, count).downloadedBytes == d.downloadedBytes
    decreases count
  {
    if count > 0 && d.offset < d.size {
      AskedForNothing(Download.AskPart(d), count - 1);
    }
  }
}
