/** Properties of the TRX container reference definition: the header and directory checks,
    which packet kinds are accepted, and what the loaded terrain holds. */
module TrxProperties {
  import opened Wrappers
  import opened Bytes
  import opened TrxSpec

  /** The TRX signature is the four bytes 'N', 'W', 'N', '2'. */
  lemma TrxMagicBytes(s: seq<u8>)
    requires 4 <= |s|
    ensures U32BE(s, 0) == kTrxMagic <==> s[..4] == [0x4E, 0x57, 0x4E, 0x32]
  {
    TagBytes(s, 0, 0x4E, 0x57, 0x4E, 0x32);
  }

  // ---- The directory guard --------------------------------------------------------

  /** The guard as written lets a directory through that does not fit: 0x2000_0000 entries
      need 2^32 bytes, which the 32-bit product turns into 0. */
  lemma DirectoryGuardWraps()
    ensures exists count: nat ::
      (count < 0x1_0000_0000 && DirectoryFitsAsWritten(0, count) && !DirectoryFits(0, count))
  {
    assert DirectoryFitsAsWritten(0, 0x2000_0000) && !DirectoryFits(0, 0x2000_0000);
  }

  /** The corrected guard is stricter than the one as written, and the two agree whenever the
      product does not wrap. */
  lemma DirectoryGuardsAgree(remaining: nat, count: nat)
    requires count < 0x1_0000_0000
    ensures DirectoryFits(remaining, count) ==> DirectoryFitsAsWritten(remaining, count)
    ensures count < 0x2000_0000 ==> (DirectoryFits(remaining, count) <==> DirectoryFitsAsWritten(remaining, count))
  {
    if count < 0x2000_0000 {
      assert count * kDirectoryEntrySize < 0x1_0000_0000;
    }
  }

  /** load with the guard as written. */
  function ParseTrxAsWritten(s: seq<u8>): Option<Terrain>
  {
    if !HeaderOk(s) then None
    else
      var count := PacketCount(s);
      if !DirectoryFitsAsWritten(|s| - kTrxHeaderSize, count) then None
      else if !DirectoryOk(s, kTrxHeaderSize, count) then None
      else PacketsRun(s, DirectoryAt(s, kTrxHeaderSize, count), EmptyTerrain)
  }

  /** The wrap never changes what loads: a directory the corrected guard refuses cannot be read
      either, so the as-written loader fails too, only later and with a read error. */
  lemma WrapChangesOnlyTheError(s: seq<u8>)
    ensures ParseTrxAsWritten(s) == ParseTrx(s)
  {
    if HeaderOk(s) {
      DirectoryGuardsAgree(|s| - kTrxHeaderSize, PacketCount(s));
    }
  }

  // ---- The index-buffer size of a geometry packet -----------------------------------

  /** The size as written can be too small for the faces that are copied into it: with
      0x5555_5556 faces the 32-bit product wraps to 2 slots, and the first face, which the
      payload can hold, already writes its third index past them. */
  lemma IndexBufferWraps()
    ensures exists count: nat ::
      (1 <= count < 0x1_0000_0000 && IndexCountAsWritten(count) < FaceSlotsEnd(0)
       && !FaceSlotsFit(IndexCountAsWritten(count), count))
  {
    var count := 0x5555_5556;
    assert IndexCountAsWritten(count) == 2;
    assert FaceSlotsEnd(0) == 3;
  }

  /** The corrected size holds every face, and it is the size as written whenever the product
      does not wrap. */
  lemma IndexCountsAgree(count: nat)
    requires count < 0x1_0000_0000
    ensures FaceSlotsFit(IndexCount(count), count)
    ensures count < 0x5555_5556 <==> IndexCountAsWritten(count) == IndexCount(count)
  {
    if count >= 0x5555_5556 {
      assert IndexCount(count) >= 0x1_0000_0002;
    }
  }

  /** On every mesh payload that loads, whose size is a 32-bit word, the face table alone
      bounds the face count below 0x5555_5556, so the index-buffer size as written is the
      corrected one: the wrap cannot change a mesh that loads. */
  lemma MeshIndexCountUnwrapped(s: seq<u8>, b: nat, size: nat, countsAt: nat, vertexSize: nat)
    requires b + size <= |s| && size < 0x1_0000_0000
    requires MeshFits(s, b, size, countsAt, vertexSize)
    ensures MeshAt(s, b, countsAt).faceCount < 0x5555_5556
    ensures MeshAt(s, b, countsAt).indexCount == IndexCountAsWritten(MeshAt(s, b, countsAt).faceCount)
  {
    var faces := U32LE(s, b + countsAt + 4);
    assert kFaceSize * faces <= size;
    IndexCountsAgree(faces);
  }

  // ---- Packets ------------------------------------------------------------------

  /** Every packet of a run that loads has a sound head, a known tag, and, for TRWH, size 12. */
  lemma {:induction false} PacketsRunAccepted(s: seq<u8>, ps: seq<Packet>, st0: Terrain)
    requires PacketsRun(s, ps, st0).Some?
    ensures forall i :: 0 <= i < |ps| ==>
      PacketHeadOk(s, ps[i]) && KnownTag(ps[i].tag)
      && (ps[i].tag == kTagTRWH ==> PacketSize(s, ps[i]) == kTrwhSize)
  {
    if ps != [] {
      var init := ps[..|ps| - 1];
      PacketsRunAccepted(s, init, st0);
      assert forall i :: 0 <= i < |init| ==> ps[i] == init[i];
    }
  }

  /** An ASWM packet with a sound head leaves the loaded terrain as it was. */
  lemma AswmChangesNothing(s: seq<u8>, ps: seq<Packet>, p: Packet, st0: Terrain)
    requires p.tag == kTagASWM && PacketHeadOk(s, p)
    ensures PacketsRun(s, ps + [p], st0) == PacketsRun(s, ps, st0)
  {
    PacketsRunSnoc(s, ps, p, st0);
  }

  /** How many packets of ps carry tag. */
  function CountTag(ps: seq<Packet>, tag: nat): (n: nat)
    ensures n <= |ps|
  {
    if ps == [] then 0
    else CountTag(ps[..|ps| - 1], tag) + (if ps[|ps| - 1].tag == tag then 1 else 0)
  }

  /** The last packet of ps that carries tag. */
  function LastTagged(ps: seq<Packet>, tag: nat): (r: Option<Packet>)
    ensures r.Some? ==> r.value in ps && r.value.tag == tag
  {
    if ps == [] then None
    else if ps[|ps| - 1].tag == tag then Some(ps[|ps| - 1])
    else LastTagged(ps[..|ps| - 1], tag)
  }

  /** Each TRRN packet adds one terrain mesh and each WATR packet one water mesh, after those
      already present. */
  lemma {:induction false} PacketsRunMeshes(s: seq<u8>, ps: seq<Packet>, st0: Terrain)
    requires PacketsRun(s, ps, st0).Some?
    ensures var t := PacketsRun(s, ps, st0).value;
      |t.terrain| == |st0.terrain| + CountTag(ps, kTagTRRN) && t.terrain[..|st0.terrain|] == st0.terrain
      && |t.water| == |st0.water| + CountTag(ps, kTagWATR) && t.water[..|st0.water|] == st0.water
  {
    if ps != [] {
      PacketsRunMeshes(s, ps[..|ps| - 1], st0);
    }
  }

  /** The dimensions are those of the last TRWH packet, or the initial ones when there is none. */
  lemma {:induction false} PacketsRunDimensions(s: seq<u8>, ps: seq<Packet>, st0: Terrain)
    requires PacketsRun(s, ps, st0).Some?
    ensures var t := PacketsRun(s, ps, st0).value;
      match LastTagged(ps, kTagTRWH)
      case None => t.width == st0.width && t.height == st0.height
      case Some(p) =>
        p.offset + kPacketHeadSize + kTrwhSize <= |s|
        && t.width == U32LE(s, p.offset + kPacketHeadSize) && t.height == U32LE(s, p.offset + kPacketHeadSize + 4)
  {
    if ps != [] {
      PacketsRunDimensions(s, ps[..|ps| - 1], st0);
    }
  }

  // ---- The whole file ------------------------------------------------------------

  /** A file that loads has the NWN2 2.3 header, a directory that fits after it, offsets and
      packet heads inside the file, only known tags, and TRWH packets of size 12. */
  lemma TrxLayout(s: seq<u8>)
    requires ParseTrx(s).Some?
    ensures HeaderOk(s)
    ensures kTrxHeaderSize + kDirectoryEntrySize * PacketCount(s) <= |s|
    ensures var dir := DirectoryAt(s, kTrxHeaderSize, PacketCount(s));
      forall i :: 0 <= i < |dir| ==>
        dir[i].offset < |s| && PacketHeadOk(s, dir[i]) && KnownTag(dir[i].tag)
        && (dir[i].tag == kTagTRWH ==> PacketSize(s, dir[i]) == kTrwhSize)
  {
    PacketsRunAccepted(s, DirectoryAt(s, kTrxHeaderSize, PacketCount(s)), EmptyTerrain);
  }

  /** A directory entry with a tag other than TRWH, TRRN, WATR and ASWM makes the file fail. */
  lemma UnknownTagRefused(s: seq<u8>, i: nat)
    requires kTrxHeaderSize <= |s| && i < PacketCount(s)
    requires kTrxHeaderSize + kDirectoryEntrySize * PacketCount(s) <= |s|
    requires !KnownTag(EntryAt(s, kTrxHeaderSize, i).tag)
    ensures ParseTrx(s).None?
  {
    assert DirectoryAt(s, kTrxHeaderSize, PacketCount(s))[i] == EntryAt(s, kTrxHeaderSize, i);
    if ParseTrx(s).Some? {
      TrxLayout(s);
    }
  }

  /** What a loaded file holds: one terrain mesh per TRRN packet, one water mesh per WATR packet,
      and the dimensions of the last TRWH packet (zero when there is none). */
  lemma TrxContents(s: seq<u8>)
    requires ParseTrx(s).Some?
    ensures kTrxHeaderSize + kDirectoryEntrySize * PacketCount(s) <= |s|
    ensures var dir, t := DirectoryAt(s, kTrxHeaderSize, PacketCount(s)), ParseTrx(s).value;
      |t.terrain| == CountTag(dir, kTagTRRN) && |t.water| == CountTag(dir, kTagWATR)
      && match LastTagged(dir, kTagTRWH)
         case None => t.width == 0 && t.height == 0
         case Some(p) =>
           p.offset + kPacketHeadSize + kTrwhSize <= |s|
           && t.width == U32LE(s, p.offset + kPacketHeadSize) && t.height == U32LE(s, p.offset + kPacketHeadSize + 4)
  {
    var dir := DirectoryAt(s, kTrxHeaderSize, PacketCount(s));
    PacketsRunMeshes(s, dir, EmptyTerrain);
    PacketsRunDimensions(s, dir, EmptyTerrain);
  }
}
