/** Reference definition of the container layer of NWN2 baked terrain files (TRX), as read by
    src/engines/nwn2/trxfile.cpp: a 12-byte header, a directory of (tag, offset) entries, and
    one packet per entry, each an 8-byte head (tag, size) followed by its payload. */
module TrxSpec {
  import opened Wrappers
  import opened Bytes

  const kTrxMagic: nat := 0x4E57_4E32      // MKTAG('N', 'W', 'N', '2')
  const kVersionMajor: nat := 2
  const kVersionMinor: nat := 3
  const kTrxHeaderSize: nat := 12          // magic, major, minor, packet count
  const kDirectoryEntrySize: nat := 8      // big-endian tag, little-endian offset
  const kPacketHeadSize: nat := 8          // big-endian tag, little-endian size

  const kTagTRWH: nat := 0x5452_5748       // MKTAG('T', 'R', 'W', 'H'): terrain width and height
  const kTagTRRN: nat := 0x5452_524E       // MKTAG('T', 'R', 'R', 'N'): one terrain mesh
  const kTagWATR: nat := 0x5741_5452       // MKTAG('W', 'A', 'T', 'R'): one water mesh
  const kTagASWM: nat := 0x4153_574D       // MKTAG('A', 'S', 'W', 'M'): walk mesh, ignored

  const kTrwhSize: nat := 12

  /** Where the vertex and face counts sit in a TRRN payload: after a 128-byte name, six
      32-byte texture names and six RGB float triples. */
  const kTrrnCountsAt: nat := 392
  /** A TRRN vertex: position and normal (six floats), three colour bytes, one alpha byte and
      16 bytes of what are probably texture coordinates. */
  const kTrrnVertexSize: nat := 44
  /** Where the counts sit in a WATR payload: after a 128-byte name, an RGB float triple, seven
      skipped words, three (32-byte texture name, four skipped words) groups and two more
      skipped words. */
  const kWatrCountsAt: nat := 320
  /** A WATR vertex: a position (three floats) and 16 skipped bytes. */
  const kWatrVertexSize: nat := 28
  /** A face: three 16-bit vertex indices. */
  const kFaceSize: nat := 6

  /** A directory entry: the packet's tag and the offset of its head. */
  datatype Packet = Packet(tag: nat, offset: nat)

  /** What a geometry packet contributes: its vertex and face counts, and the number of 16-bit
      slots of the index buffer its faces are copied into. */
  datatype Mesh = Mesh(vertexCount: nat, faceCount: nat, indexCount: nat)

  /** The state the loader fills: the TRWH dimensions and one mesh per TRRN and WATR packet. */
  datatype Terrain = Terrain(width: nat, height: nat, terrain: seq<Mesh>, water: seq<Mesh>)

  /** The state of a terrain before any packet has been loaded. */
  const EmptyTerrain := Terrain(0, 0, [], [])

  predicate KnownTag(tag: nat)
  {
    tag == kTagTRWH || tag == kTagTRRN || tag == kTagWATR || tag == kTagASWM
  }

  // ---- Header and directory -----------------------------------------------------

  /** The file starts with the NWN2 tag and version 2.3. */
  predicate HeaderOk(s: seq<u8>)
  {
    kTrxHeaderSize <= |s| && U32BE(s, 0) == kTrxMagic && U16LE(s, 4) == kVersionMajor
    && U16LE(s, 6) == kVersionMinor
  }

  function PacketCount(s: seq<u8>): nat
    requires kTrxHeaderSize <= |s|
  {
    U32LE(s, 8)
  }

  /** The directory of count entries, each 8 bytes, fits in the bytes that remain. */
  predicate DirectoryFits(remaining: nat, count: nat)
  {
    kDirectoryEntrySize * count <= remaining
  }

  /** The same guard with the entry-table size computed in 32-bit unsigned arithmetic, as
      trxfile.cpp computes it. */
  predicate DirectoryFitsAsWritten(remaining: nat, count: nat)
    requires count < 0x1_0000_0000
  {
    (count * kDirectoryEntrySize) % 0x1_0000_0000 <= remaining
  }

  function EntryAt(s: seq<u8>, start: nat, i: nat): Packet
    requires start + kDirectoryEntrySize * i + kDirectoryEntrySize <= |s|
  {
    Packet(U32BE(s, start + kDirectoryEntrySize * i), U32LE(s, start + kDirectoryEntrySize * i + 4))
  }

  /** The count entries of the directory at start, in file order. */
  function DirectoryAt(s: seq<u8>, start: nat, count: nat): (dir: seq<Packet>)
    requires start + kDirectoryEntrySize * count <= |s|
    ensures |dir| == count
  {
    seq(count, i requires 0 <= i < count => EntryAt(s, start, i))
  }

  /** Every entry points inside the file. */
  predicate OffsetsInside(s: seq<u8>, dir: seq<Packet>)
  {
    forall i :: 0 <= i < |dir| ==> dir[i].offset < |s|
  }

  /** The directory at start can be read and every offset in it lies inside the file. */
  predicate DirectoryOk(s: seq<u8>, start: nat, count: nat)
  {
    start + kDirectoryEntrySize * count <= |s| && OffsetsInside(s, DirectoryAt(s, start, count))
  }

  // ---- Packets ------------------------------------------------------------------

  /** The head of the packet p can be read, repeats the directory's tag, and announces a size
      that fits in the bytes after it. */
  predicate PacketHeadOk(s: seq<u8>, p: Packet)
  {
    p.offset + kPacketHeadSize <= |s| && U32BE(s, p.offset) == p.tag
    && U32LE(s, p.offset + 4) <= |s| - (p.offset + kPacketHeadSize)
  }

  function PacketSize(s: seq<u8>, p: Packet): nat
    requires p.offset + kPacketHeadSize <= |s|
  {
    U32LE(s, p.offset + 4)
  }

  /** A geometry payload of size bytes at b, whose vertex and face counts sit at b + countsAt,
      holds all of its vertices and faces. */
  predicate MeshFits(s: seq<u8>, b: nat, size: nat, countsAt: nat, vertexSize: nat)
    requires b + size <= |s|
  {
    countsAt + 8 <= size
    && countsAt + 8 + vertexSize * U32LE(s, b + countsAt) + kFaceSize * U32LE(s, b + countsAt + 4) <= size
  }

  /** The slots face i writes its three vertex indices into end here. */
  function FaceSlotsEnd(i: nat): nat
  {
    3 * i + 3
  }

  /** An index buffer of n slots holds the indices of count faces, written three per face. */
  predicate FaceSlotsFit(n: nat, count: nat)
  {
    forall i :: 0 <= i < count ==> FaceSlotsEnd(i) <= n
  }

  /** The index-buffer size for count faces: three slots per face. */
  function IndexCount(count: nat): (n: nat)
    ensures FaceSlotsFit(n, count)
  {
    3 * count
  }

  /** The same size with the product computed in 32-bit unsigned arithmetic, as trxfile.cpp
      computes it for setSize. */
  function IndexCountAsWritten(count: nat): (n: nat)
    requires count < 0x1_0000_0000
    ensures n < 0x1_0000_0000
  {
    (count * 3) % 0x1_0000_0000
  }

  function MeshAt(s: seq<u8>, b: nat, countsAt: nat): Mesh
    requires b + countsAt + 8 <= |s|
  {
    Mesh(U32LE(s, b + countsAt), U32LE(s, b + countsAt + 4), IndexCount(U32LE(s, b + countsAt + 4)))
  }

  /** loadPacket: what the payload of size bytes at b, under tag, does to the terrain. TRWH sets
      the dimensions, TRRN and WATR each add a mesh, ASWM changes nothing; every other tag, and
      a payload that does not hold what its kind needs, is refused. */
  function ApplyPacket(s: seq<u8>, st: Terrain, tag: nat, b: nat, size: nat): (r: Option<Terrain>)
    requires b + size <= |s|
    ensures r.Some? ==> KnownTag(tag)
    ensures tag == kTagASWM ==> r == Some(st)
  {
    if tag == kTagTRWH then
      if size != kTrwhSize then None else Some(st.(width := U32LE(s, b), height := U32LE(s, b + 4)))
    else if tag == kTagTRRN then
      if MeshFits(s, b, size, kTrrnCountsAt, kTrrnVertexSize)
      then Some(st.(terrain := st.terrain + [MeshAt(s, b, kTrrnCountsAt)])) else None
    else if tag == kTagWATR then
      if MeshFits(s, b, size, kWatrCountsAt, kWatrVertexSize)
      then Some(st.(water := st.water + [MeshAt(s, b, kWatrCountsAt)])) else None
    else if tag == kTagASWM then Some(st)
    else None
  }

  /** loadPackets: the packets of the directory, loaded in directory order from st0; None as
      soon as one head or one payload is refused. */
  function PacketsRun(s: seq<u8>, ps: seq<Packet>, st0: Terrain): Option<Terrain>
  {
    if ps == [] then Some(st0)
    else
      match PacketsRun(s, ps[..|ps| - 1], st0)
      case None => None
      case Some(st) =>
        var p := ps[|ps| - 1];
        if !PacketHeadOk(s, p) then None
        else ApplyPacket(s, st, p.tag, p.offset + kPacketHeadSize, PacketSize(s, p))
  }

  /** Loading one more packet is one more step of the fold. */
  lemma PacketsRunSnoc(s: seq<u8>, ps: seq<Packet>, p: Packet, st0: Terrain)
    ensures PacketsRun(s, ps + [p], st0)
         == match PacketsRun(s, ps, st0)
            case None => None
            case Some(st) =>
              if !PacketHeadOk(s, p) then None
              else ApplyPacket(s, st, p.tag, p.offset + kPacketHeadSize, PacketSize(s, p))
  {
    assert (ps + [p])[..|ps|] == ps;
  }

  /** Once a packet is refused, loading more packets cannot recover. */
  lemma {:induction false} PacketsRunStuck(s: seq<u8>, ps: seq<Packet>, i: nat, st0: Terrain)
    requires i <= |ps| && PacketsRun(s, ps[..i], st0).None?
    ensures PacketsRun(s, ps, st0).None?
    decreases |ps| - i
  {
    if i < |ps| {
      PacketsRunSnoc(s, ps[..i], ps[i], st0);
      assert ps[..i] + [ps[i]] == ps[..i + 1];
      PacketsRunStuck(s, ps, i + 1, st0);
    } else {
      assert ps[..i] == ps;
    }
  }

  /** load: header, directory guard, directory, then the packets. */
  function ParseTrx(s: seq<u8>): Option<Terrain>
  {
    if !HeaderOk(s) then None
    else
      var count := PacketCount(s);
      if !DirectoryFits(|s| - kTrxHeaderSize, count) then None
      else if !DirectoryOk(s, kTrxHeaderSize, count) then None
      else PacketsRun(s, DirectoryAt(s, kTrxHeaderSize, count), EmptyTerrain)
  }
}
