/** The parts in which files are uploaded and downloaded (src/transfer_manager.cpp). */
module Parts {
  import opened Bytes
  import opened Ige

  const MAX_PART_SIZE: nat := 512 * 1024

  // What the server returns for the part at offset k of the stored file.
  function Slice(stored: seq<byte>, k: nat): seq<byte> {
    if k >= |stored| then []
    else stored[k..if k + MAX_PART_SIZE < |stored| then k + MAX_PART_SIZE else |stored|]
  }

  predicate IsOffset(k: int) { k >= 0 && Whole(k, MAX_PART_SIZE) }

  lemma {:induction false} NextOffset(j: int, k: int)
    requires IsOffset(j) && IsOffset(k) && j < k
    ensures j + MAX_PART_SIZE <= k
  {
    WholeGap(j, k, MAX_PART_SIZE);
  }

  lemma {:induction false} NoneBetween(offset: nat)
    requires IsOffset(offset)
    ensures IsOffset(offset + MAX_PART_SIZE)
    ensures forall j | IsOffset(j) && offset < j :: offset + MAX_PART_SIZE <= j
  {
    forall j | IsOffset(j) && offset < j ensures offset + MAX_PART_SIZE <= j {
      NextOffset(offset, j);
    }
  }

  lemma {:induction false} OffsetsAreWhole(k: nat)
    requires IsOffset(k)
    ensures Whole(k, 16)
  {
    MultipleIsWhole(MAX_PART_SIZE, 16);
    WholeOfWhole(k, MAX_PART_SIZE, 16);
  }
}
