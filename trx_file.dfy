/** The TRX loader of src/engines/nwn2/trxfile.cpp: a class whose dimensions and mesh lists the
    loading methods fill while they walk one read stream. Each method is proved to compute what
    the reference definition in TrxSpec describes, and to fail exactly when that definition has
    no value. */
module TrxFile {
  import opened Wrappers
  import opened Bytes
  import opened Stream
  import opened TrxSpec

  /** The part of loadTRRN and loadWATR that decides whether a geometry payload loads: the fixed
      fields up to the counts (names, colours and unused words, not decoded here), the vertex and
      face counts, then each vertex and each face in turn. The stream is the payload window. */
  method ReadMesh(sub: ReadStream, countsAt: nat, vertexSize: nat) returns (r: Result<Mesh>)
    requires sub.Valid() && sub.pos == 0
    modifies sub
    ensures sub.Valid()
    ensures r.Ok? <==> MeshFits(sub.data, 0, |sub.data|, countsAt, vertexSize)
    ensures r.Ok? ==> r.value == MeshAt(sub.data, 0, countsAt)
  {
    var moved := sub.Skip(countsAt);
    if moved.Fail? { return Err(moved.error); }
    var vertexCount :- sub.ReadUint32LE();
    var faceCount :- sub.ReadUint32LE();
    ghost var facesAt := countsAt + 8 + vertexSize * vertexCount;
    for i := 0 to vertexCount
      invariant sub.Valid() && sub.pos == countsAt + 8 + vertexSize * i
    {
      MulMonotone(vertexSize, i + 1, vertexCount);
      :- sub.Skip(vertexSize);
    }
    for k := 0 to faceCount
      invariant sub.Valid() && sub.pos == facesAt + kFaceSize * k
    {
      var moved := sub.Skip(kFaceSize);
      if moved.Fail? { return Err(moved.error); }
    }
    return Ok(Mesh(vertexCount, faceCount, IndexCount(faceCount)));
  }

  lemma MulMonotone(a: nat, i: nat, n: nat)
    requires i <= n
    ensures a * i <= a * n
  {
  }

  class TRXFile {
    var width: nat
    var height: nat
    var terrain: seq<Mesh>
    var water: seq<Mesh>

    /** The loaded state, as the reference definition describes it. */
    function State(): Terrain
      reads this
    {
      Terrain(width, height, terrain, water)
    }

    constructor ()
      ensures State() == EmptyTerrain
    {
      width, height, terrain, water := 0, 0, [], [];
    }

    /** load: the NWN2 tag, version 2.3, the packet count, the directory guard, then the
        directory and the packets. */
    method Load(trx: ReadStream) returns (r: Result<()>)
      requires trx.Valid() && trx.pos == 0 && State() == EmptyTerrain
      modifies this, trx
      ensures trx.Valid()
      ensures r.Ok? <==> ParseTrx(trx.data).Some?
      ensures r.Ok? ==> State() == ParseTrx(trx.data).value
      ensures 4 <= |trx.data| && U32BE(trx.data, 0) != kTrxMagic ==> r.Err? && r.error.Malformed?
      ensures (8 <= |trx.data| && U32BE(trx.data, 0) == kTrxMagic
               && (U16LE(trx.data, 4) != kVersionMajor || U16LE(trx.data, 6) != kVersionMinor))
              ==> r.Err? && r.error.Malformed?
      ensures (kTrxHeaderSize <= |trx.data| && HeaderOk(trx.data)
               && !DirectoryFits(|trx.data| - kTrxHeaderSize, PacketCount(trx.data)))
              ==> r.Err? && r.error.Malformed?
    {
      var magic :- trx.ReadUint32BE();
      if magic != kTrxMagic {
        return Err(Malformed("Invalid magic"));
      }
      var versionMajor :- trx.ReadUint16LE();
      var versionMinor :- trx.ReadUint16LE();
      if versionMajor != kVersionMajor || versionMinor != kVersionMinor {
        return Err(Malformed("Invalid version"));
      }
      var packetCount :- trx.ReadUint32LE();
      if !DirectoryFits(trx.Size() - trx.Pos(), packetCount) {
        return Err(Malformed("TRX won't fit the packet packets"));
      }
      var packets :- LoadDirectory(trx, packetCount);
      r := LoadPackets(trx, packets);
    }

    /** loadDirectory: count entries of a big-endian tag and a little-endian offset, read in
        order from the current position; an offset at or past the end of the file is refused. */
    method LoadDirectory(trx: ReadStream, count: nat) returns (r: Result<seq<Packet>>)
      requires trx.Valid()
      modifies trx
      ensures trx.Valid()
      ensures r.Ok? <==> DirectoryOk(trx.data, old(trx.pos), count)
      ensures r.Ok? ==> r.value == DirectoryAt(trx.data, old(trx.pos), count)
    {
      ghost var start := trx.pos;
      var packets: seq<Packet> := [];
      for i := 0 to count
        invariant trx.Valid() && trx.pos == start + kDirectoryEntrySize * i
        invariant packets == DirectoryAt(trx.data, start, i) && OffsetsInside(trx.data, packets)
      {
        MulMonotone(kDirectoryEntrySize, i + 1, count);
        var tag :- trx.ReadUint32BE();
        var offset :- trx.ReadUint32LE();
        if offset >= trx.Size() {
          if start + kDirectoryEntrySize * count <= |trx.data| {
            assert DirectoryAt(trx.data, start, count)[i] == Packet(tag, offset);
          }
          return Err(Malformed("Offset of packet too big"));
        }
        assert DirectoryAt(trx.data, start, i + 1) == packets + [Packet(tag, offset)];
        packets := packets + [Packet(tag, offset)];
      }
      return Ok(packets);
    }

    /** loadPackets: for each entry in order, seek to its head, check that the head repeats the
        entry's tag and that the announced size fits after the head, then load the payload. */
    method LoadPackets(trx: ReadStream, packets: seq<Packet>) returns (r: Result<()>)
      requires trx.Valid()
      modifies this, trx
      ensures trx.Valid()
      ensures r.Ok? <==> PacketsRun(trx.data, packets, old(State())).Some?
      ensures r.Ok? ==> State() == PacketsRun(trx.data, packets, old(State())).value
    {
      ghost var st0 := State();
      for i := 0 to |packets|
        invariant trx.Valid()
        invariant PacketsRun(trx.data, packets[..i], st0) == Some(State())
      {
        var p := packets[i];
        PacketsRunSnoc(trx.data, packets[..i], p, st0);
        assert packets[..i] + [p] == packets[..i + 1];
        var step := LoadPacketAt(trx, p);
        if step.Err? {
          PacketsRunStuck(trx.data, packets, i + 1, st0);
          return Err(step.error);
        }
      }
      assert packets[..|packets|] == packets;
      return Ok(());
    }

    /** One pass of loadPackets' loop: the head of packet p and then its payload. */
    method LoadPacketAt(trx: ReadStream, p: Packet) returns (r: Result<()>)
      requires trx.Valid()
      modifies this, trx
      ensures trx.Valid()
      ensures r.Ok? <==> (PacketHeadOk(trx.data, p)
        && ApplyPacket(trx.data, old(State()), p.tag, p.offset + kPacketHeadSize, PacketSize(trx.data, p)).Some?)
      ensures r.Ok? ==>
        State() == ApplyPacket(trx.data, old(State()), p.tag, p.offset + kPacketHeadSize, PacketSize(trx.data, p)).value
    {
      var moved := trx.Seek(p.offset);
      if moved.Fail? { return Err(moved.error); }
      var tag :- trx.ReadUint32BE();
      if tag != p.tag {
        return Err(Malformed("Packet type mismatch"));
      }
      var size :- trx.ReadUint32LE();
      if trx.Size() - trx.Pos() < size {
        return Err(Malformed("Size of packet too big"));
      }
      r := LoadPacket(trx, p.tag, size);
    }

    /** loadPacket: dispatch on the tag; any tag but the four known ones is refused. */
    method LoadPacket(trx: ReadStream, tag: nat, size: nat) returns (r: Result<()>)
      requires trx.Valid() && trx.pos + size <= |trx.data|
      modifies this, trx
      ensures trx.Valid()
      ensures r.Ok? <==> ApplyPacket(trx.data, old(State()), tag, old(trx.pos), size).Some?
      ensures r.Ok? ==> State() == ApplyPacket(trx.data, old(State()), tag, old(trx.pos), size).value
      ensures !KnownTag(tag) ==> r.Err? && r.error.Malformed?
    {
      if tag == kTagTRWH {
        r := LoadTRWH(trx, size);
      } else if tag == kTagTRRN {
        r := LoadTRRN(trx, size);
      } else if tag == kTagWATR {
        r := LoadWATR(trx, size);
      } else if tag == kTagASWM {
        LoadASWM(trx, size);
        r := Ok(());
      } else {
        r := Err(Malformed("Unknown packet type"));
      }
    }

    /** loadTRWH: a payload of exactly 12 bytes whose first two words are the width and height. */
    method LoadTRWH(trx: ReadStream, size: nat) returns (r: Result<()>)
      requires trx.Valid() && trx.pos + size <= |trx.data|
      modifies this, trx
      ensures trx.Valid()
      ensures r.Ok? <==> size == kTrwhSize
      ensures r.Ok? ==> width == U32LE(trx.data, old(trx.pos)) && height == U32LE(trx.data, old(trx.pos) + 4)
      ensures terrain == old(terrain) && water == old(water)
      ensures r.Err? ==> width == old(width) && height == old(height)
    {
      if size != kTrwhSize {
        return Err(Malformed("Invalid TRWH size"));
      }
      var w := trx.ReadUint32LE();
      var h := trx.ReadUint32LE();
      if w.Ok? && h.Ok? {
        width, height := w.value, h.value;
        return Ok(());
      }
      // A 12-byte payload that fits in the file holds both words.
      assert false;
    }

    /** loadTRRN: the payload window must hold the fixed fields, both counts, every 44-byte
        vertex and every 6-byte face; the terrain gains one mesh. */
    method LoadTRRN(trx: ReadStream, size: nat) returns (r: Result<()>)
      requires trx.Valid() && trx.pos + size <= |trx.data|
      modifies this, trx
      ensures trx.Valid()
      ensures r.Ok? <==> MeshFits(trx.data, old(trx.pos), size, kTrrnCountsAt, kTrrnVertexSize)
      ensures r.Ok? ==> terrain == old(terrain) + [MeshAt(trx.data, old(trx.pos), kTrrnCountsAt)]
      ensures width == old(width) && height == old(height) && water == old(water)
    {
      var mesh :- ReadWindowMesh(trx, size, kTrrnCountsAt, kTrrnVertexSize);
      terrain := terrain + [mesh];
      return Ok(());
    }

    /** loadWATR: the payload window must hold the fixed fields, both counts, every 28-byte
        vertex and every 6-byte face; the water gains one mesh. */
    method LoadWATR(trx: ReadStream, size: nat) returns (r: Result<()>)
      requires trx.Valid() && trx.pos + size <= |trx.data|
      modifies this, trx
      ensures trx.Valid()
      ensures r.Ok? <==> MeshFits(trx.data, old(trx.pos), size, kWatrCountsAt, kWatrVertexSize)
      ensures r.Ok? ==> water == old(water) + [MeshAt(trx.data, old(trx.pos), kWatrCountsAt)]
      ensures width == old(width) && height == old(height) && terrain == old(terrain)
    {
      var mesh :- ReadWindowMesh(trx, size, kWatrCountsAt, kWatrVertexSize);
      water := water + [mesh];
      return Ok(());
    }

    /** loadASWM: walk meshes are not loaded. */
    method LoadASWM(trx: ReadStream, size: nat)
    {
    }
  }

  /** The geometry payload of size bytes at the current position, read through a window of its
      own as the source's sub-stream does. */
  method ReadWindowMesh(trx: ReadStream, size: nat, countsAt: nat, vertexSize: nat) returns (r: Result<Mesh>)
    requires trx.Valid() && trx.pos + size <= |trx.data|
    ensures r.Ok? <==> MeshFits(trx.data, trx.pos, size, countsAt, vertexSize)
    ensures r.Ok? ==> r.value == MeshAt(trx.data, trx.pos, countsAt)
  {
    var b := trx.pos;
    var window := new ReadStream(trx.data[b..b + size]);
    if countsAt + 8 <= size {
      U32LEWindow(trx.data, b, b + size, countsAt);
      U32LEWindow(trx.data, b, b + size, countsAt + 4);
    }
    r := ReadMesh(window, countsAt, vertexSize);
  }
}
