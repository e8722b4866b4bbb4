/**
  The popup's receiver for archives sent in chunks. A `transfer-start` message opens a session
  under its transfer id; each `chunk` message stores its bytes in the slot at its chunk index;
  `transfer-end` concatenates the filled slots in index order into one buffer, lists the archive
  as a download, closes the session and releases whoever waits for the transfer.

  Slots are JavaScript array elements, so storing past the end leaves holes, which contribute
  nothing to the merge. The waiting promise is reduced to whether a resolver is pending; calling
  it also clears it, as the resolver installed by waitForTransfer does.
 */
module Transfer {
  import opened Wrappers

  type Byte = bv8
  type Bytes = seq<Byte>

  /** `metadata` of a transfer: the archive's file name and what it holds. */
  datatype Metadata = Metadata(filename: string, chatCount: nat, imageCount: nat)

  /** One entry of `transferSessions`. */
  datatype Session = Session(metadata: Metadata, chunks: seq<Option<Bytes>>, receivedChunks: nat, totalChunks: nat, startTime: int)

  /** One entry of `downloadedBatches`, as addDownloadToList records it. */
  datatype BatchInfo = BatchInfo(filename: string, chatCount: nat, imageCount: nat, createdAt: string)

  /** How a `transfer-end` went. */
  datatype EndOutcome = NoSession | NoData | Merged(buffer: Bytes) | MergeFailed

  // ---------------------------------------------------------------------------
  // Slots and their merge
  // ---------------------------------------------------------------------------

  /** `chunks[index] = data`: assigning past the end grows the array, leaving holes before the new slot. */
  function Store(chunks: seq<Option<Bytes>>, index: nat, data: Bytes): (r: seq<Option<Bytes>>)
    ensures |r| == if index < |chunks| then |chunks| else index + 1
    ensures r[index] == Some(data)
    ensures forall i :: 0 <= i < |r| && i != index ==> r[i] == if i < |chunks| then chunks[i] else None
  {
    if index < |chunks| then chunks[index := Some(data)]
    else chunks + seq(index - |chunks|, _ => None) + [Some(data)]
  }

  /** The filled slots' bytes, concatenated in index order. */
  function Merge(chunks: seq<Option<Bytes>>): Bytes {
    if chunks == [] then []
    else
      Merge(chunks[..|chunks| - 1]) + match chunks[|chunks| - 1] case Some(c) => c case None => []
  }

  /** The sum of the filled slots' lengths. */
  function TotalSize(chunks: seq<Option<Bytes>>): nat {
    if chunks == [] then 0
    else
      TotalSize(chunks[..|chunks| - 1]) + match chunks[|chunks| - 1] case Some(c) => |c| case None => 0
  }

  /** The merged buffer is exactly as long as the filled slots together. */
  lemma {:induction false} MergeLength(chunks: seq<Option<Bytes>>)
    ensures |Merge(chunks)| == TotalSize(chunks)
  {
    if chunks != [] {
      MergeLength(chunks[..|chunks| - 1]);
    }
  }

  /** Concatenation of a list of byte strings. */
  function Concat(pieces: seq<Bytes>): Bytes {
    if pieces == [] then [] else Concat(pieces[..|pieces| - 1]) + pieces[|pieces| - 1]
  }

  /** When every slot is filled, the merge is the concatenation of the chunks in index order. */
  lemma {:induction false} MergeAllFilled(chunks: seq<Option<Bytes>>, pieces: seq<Bytes>)
    requires |chunks| == |pieces|
    requires forall i :: 0 <= i < |chunks| ==> chunks[i] == Some(pieces[i])
    ensures Merge(chunks) == Concat(pieces)
  {
    if chunks != [] {
      MergeAllFilled(chunks[..|chunks| - 1], pieces[..|pieces| - 1]);
    }
  }

  /** Holes contribute nothing: the merge equals that of the filled slots alone. */
  lemma {:induction false} MergeSkipsHoles(chunks: seq<Option<Bytes>>)
    ensures Merge(chunks) == Concat(Filled(chunks))
  {
    if chunks != [] {
      var front := chunks[..|chunks| - 1];
      MergeSkipsHoles(front);
      if chunks[|chunks| - 1].Some? {
        var c := chunks[|chunks| - 1].value;
        assert Filled(chunks) == Filled(front) + [c];
        assert (Filled(front) + [c])[..|Filled(front)|] == Filled(front);
        assert Concat(Filled(chunks)) == Concat(Filled(front)) + c;
      } else {
        assert Filled(chunks) == Filled(front);
      }
    }
  }

  /** The bytes of the filled slots, in index order. */
  function Filled(chunks: seq<Option<Bytes>>): seq<Bytes> {
    if chunks == [] then []
    else
      Filled(chunks[..|chunks| - 1]) + match chunks[|chunks| - 1] case Some(c) => [c] case None => []
  }

  /** The slots after storing `pieces[order[0]]`, `pieces[order[1]]`, ... at their indices. */
  function StoreInOrder(chunks: seq<Option<Bytes>>, pieces: seq<Bytes>, order: seq<nat>): seq<Option<Bytes>>
    requires forall j :: 0 <= j < |order| ==> order[j] < |pieces|
  {
    if order == [] then chunks
    else
      var front := order[..|order| - 1];
      var last := order[|order| - 1];
      Store(StoreInOrder(chunks, pieces, front), last, pieces[last])
  }

  lemma {:induction false} StoreInOrderSlots(pieces: seq<Bytes>, order: seq<nat>)
    requires forall j :: 0 <= j < |order| ==> order[j] < |pieces|
    ensures var r := StoreInOrder([], pieces, order);
      && |r| <= |pieces|
      && (forall i :: 0 <= i < |r| ==> (r[i] == Some(pieces[i]) <==> i in order))
      && (forall i :: 0 <= i < |r| ==> r[i].None? <==> i !in order)
      && (forall j :: 0 <= j < |order| ==> order[j] < |r|)
  {
    if order != [] {
      var front := order[..|order| - 1];
      var last := order[|order| - 1];
      StoreInOrderSlots(pieces, front);
      var before := StoreInOrder([], pieces, front);
      var r := Store(before, last, pieces[last]);
      assert order == front + [last];
      forall i | 0 <= i < |r|
        ensures (r[i] == Some(pieces[i]) <==> i in order) && (r[i].None? <==> i !in order)
      {
        if i != last && i < |before| {
          assert r[i] == before[i];
        }
      }
      forall j | 0 <= j < |order|
        ensures order[j] < |r|
      {
        if j < |front| {
          assert order[j] == front[j];
        }
      }
    }
  }

  /**
    Chunks may arrive in any order: once each of the indices 0..n-1 has arrived (with repeats
    allowed), the merge is the concatenation of the n chunks in index order.
   */
  lemma ArrivalOrderIrrelevant(pieces: seq<Bytes>, order: seq<nat>)
    requires forall j :: 0 <= j < |order| ==> order[j] < |pieces|
    requires forall i :: 0 <= i < |pieces| ==> i in order
    ensures Merge(StoreInOrder([], pieces, order)) == Concat(pieces)
  {
    var r := StoreInOrder([], pieces, order);
    StoreInOrderSlots(pieces, order);
    if |pieces| > 0 {
      assert |pieces| - 1 in order;
      var k :| 0 <= k < |order| && order[k] == |pieces| - 1;
      assert order[k] < |r|;
    }
    assert |r| == |pieces|;
    forall i | 0 <= i < |r|
      ensures r[i] == Some(pieces[i])
    {
      assert i in order;
    }
    MergeAllFilled(r, pieces);
  }

  // ---------------------------------------------------------------------------
  // The receiver
  // ---------------------------------------------------------------------------

  class Receiver {
    /** `transferSessions`. */
    var sessions: map<string, Session>
    /** `downloadedBatches`, newest first. */
    var downloads: seq<BatchInfo>
    /** Whether `pendingTransferResolve` is set. */
    var resolverPending: bool

    constructor ()
      ensures sessions == map[] && downloads == [] && !resolverPending
    {
      sessions := map[];
      downloads := [];
      resolverPending := false;
    }

    /** waitForTransfer: installs the resolver. */
    method WaitForTransfer()
      modifies this
      ensures resolverPending
      ensures sessions == old(sessions) && downloads == old(downloads)
    {
      resolverPending := true;
    }

    /** Calls the resolver when one is pending; it clears itself. */
    method Resolve() returns (resolved: bool)
      modifies this
      ensures resolved == old(resolverPending) && !resolverPending
      ensures sessions == old(sessions) && downloads == old(downloads)
    {
      resolved := resolverPending;
      resolverPending := false;
    }

    /** handleTransferStart: a fresh session, replacing any under the same id. */
    method HandleTransferStart(transferId: string, metadata: Metadata, now: int)
      modifies this
      ensures sessions == old(sessions)[transferId := Session(metadata, [], 0, 0, now)]
      ensures downloads == old(downloads) && resolverPending == old(resolverPending)
    {
      sessions := sessions[transferId := Session(metadata, [], 0, 0, now)];
    }

    /** handleChunk: store the bytes, count the chunk and take the sender's total; ignored without a session. */
    method HandleChunk(transferId: string, chunkIndex: nat, totalChunks: nat, data: Bytes)
      modifies this
      ensures transferId !in old(sessions) ==> sessions == old(sessions)
      ensures transferId in old(sessions) ==>
        var s := old(sessions)[transferId];
        sessions == old(sessions)[transferId := s.(chunks := Store(s.chunks, chunkIndex, data),
                                                    receivedChunks := s.receivedChunks + 1,
                                                    totalChunks := totalChunks)]
      ensures downloads == old(downloads) && resolverPending == old(resolverPending)
    {
      if transferId !in sessions {
        return;
      }
      var session := sessions[transferId];
      var chunks := Store(session.chunks, chunkIndex, data);
      session := session.(chunks := chunks, receivedChunks := session.receivedChunks + 1, totalChunks := totalChunks);
      sessions := sessions[transferId := session];
    }

    /**
      handleTransferEnd. `mergeFails` says whether building the buffer or its download throws;
      `now` is the time the download entry records.
     */
    method HandleTransferEnd(transferId: string, mergeFails: bool, now: string) returns (outcome: EndOutcome, resolved: bool)
      modifies this
      ensures transferId !in sessions
      ensures !resolverPending && resolved == old(resolverPending)
      ensures transferId !in old(sessions) ==> outcome == NoSession && sessions == old(sessions) && downloads == old(downloads)
      ensures transferId in old(sessions) ==> sessions == old(sessions) - {transferId}
      ensures transferId in old(sessions) ==>
        var s := old(sessions)[transferId];
        if TotalSize(s.chunks) == 0 then outcome == NoData && downloads == old(downloads)
        else if mergeFails then outcome == MergeFailed && downloads == old(downloads)
        else
          && outcome == Merged(Merge(s.chunks))
          && downloads == [BatchInfo(s.metadata.filename, s.metadata.chatCount, s.metadata.imageCount, now)] + old(downloads)
    {
      if transferId !in sessions {
        resolved := Resolve();
        return NoSession, resolved;
      }
      var session := sessions[transferId];
      var totalSize := SumSizes(session.chunks);
      if totalSize == 0 {
        sessions := sessions - {transferId};
        resolved := Resolve();
        return NoData, resolved;
      }
      if mergeFails {
        sessions := sessions - {transferId};
        resolved := Resolve();
        return MergeFailed, resolved;
      }
      var buffer := MergeChunks(session.chunks, totalSize);
      downloads := [BatchInfo(session.metadata.filename, session.metadata.chatCount, session.metadata.imageCount, now)] + downloads;
      sessions := sessions - {transferId};
      resolved := Resolve();
      outcome := Merged(buffer[..]);
    }

    /**
      The `transfer-complete` message: the sender built the file itself, so it is listed as it is
      and a waiting transfer is released; the session table is not consulted.
     */
    method HandleTransferComplete(filename: string, chatCount: nat, imageCount: nat, now: string) returns (resolved: bool)
      modifies this
      ensures downloads == [BatchInfo(filename, chatCount, imageCount, now)] + old(downloads)
      ensures sessions == old(sessions)
      ensures !resolverPending && resolved == old(resolverPending)
    {
      downloads := [BatchInfo(filename, chatCount, imageCount, now)] + downloads;
      resolved := Resolve();
    }
  }

  /** The size loop: the filled slots' lengths added up. */
  method SumSizes(chunks: seq<Option<Bytes>>) returns (totalSize: nat)
    ensures totalSize == TotalSize(chunks)
  {
    totalSize := 0;
    for i := 0 to |chunks|
      invariant totalSize == TotalSize(chunks[..i])
    {
      assert chunks[..i + 1][..i] == chunks[..i];
      if chunks[i].Some? {
        totalSize := totalSize + |chunks[i].value|;
      }
    }
    assert chunks[..|chunks|] == chunks;
  }

  /** The merge loop: each filled slot copied into a fresh buffer at a moving offset. */
  method MergeChunks(chunks: seq<Option<Bytes>>, totalSize: nat) returns (buffer: array<Byte>)
    requires totalSize == TotalSize(chunks)
    ensures fresh(buffer)
    ensures buffer[..] == Merge(chunks)
  {
    buffer := new Byte[totalSize](_ => 0);
    var offset := 0;
    MergeLength(chunks);
    for i := 0 to |chunks|
      invariant offset == |Merge(chunks[..i])|
      invariant offset <= buffer.Length
      invariant buffer[..offset] == Merge(chunks[..i])
    {
      assert chunks[..i + 1][..i] == chunks[..i];
      PrefixMergeFits(chunks, i + 1);
      if chunks[i].Some? {
        var chunk := chunks[i].value;
        CopyInto(buffer, chunk, offset);
        offset := offset + |chunk|;
      }
    }
    assert chunks[..|chunks|] == chunks;
  }

  /** The merge of a prefix of the slots fits in the whole merge. */
  lemma PrefixMergeFits(chunks: seq<Option<Bytes>>, k: nat)
    requires k <= |chunks|
    ensures |Merge(chunks[..k])| <= |Merge(chunks)|
  {
    MergeLength(chunks[..k]);
    MergeLength(chunks);
    TotalSizePrefix(chunks, k);
  }

  lemma {:induction false} TotalSizePrefix(chunks: seq<Option<Bytes>>, k: nat)
    requires k <= |chunks|
    ensures TotalSize(chunks[..k]) <= TotalSize(chunks)
    decreases |chunks|
  {
    if k < |chunks| {
      assert chunks[..|chunks| - 1][..k] == chunks[..k];
      TotalSizePrefix(chunks[..|chunks| - 1], k);
    } else {
      assert chunks[..k] == chunks;
    }
  }

  /** `buffer.set(chunk, offset)`. */
  method CopyInto(buffer: array<Byte>, chunk: Bytes, offset: nat)
    requires offset + |chunk| <= buffer.Length
    modifies buffer
    ensures buffer[..offset] == old(buffer[..offset])
    ensures buffer[offset..offset + |chunk|] == chunk
    ensures buffer[offset + |chunk|..] == old(buffer[offset + |chunk|..])
  {
    forall i | 0 <= i < |chunk| {
      buffer[offset + i] := chunk[i];
    }
  }
}
