/** A seekable, bounds-checked read stream over an immutable byte buffer.
    Every reader of both decoders advances the one shared cursor `pos`. */
module Stream {
  import opened Wrappers
  import opened Bytes

  class ReadStream {
    const data: seq<u8>
    var pos: nat

    ghost predicate Valid()
      reads this
    {
      pos <= |data|
    }

    constructor (bytes: seq<u8>)
      ensures data == bytes && pos == 0 && Valid()
    {
      data := bytes;
      pos := 0;
    }

    function Size(): nat
    {
      |data|
    }

    function Pos(): nat
      reads this
    {
      pos
    }

    /** Move the cursor to an absolute offset; the end of the buffer itself is a legal position. */
    method Seek(offset: int) returns (o: Outcome)
      requires Valid()
      modifies this
      ensures Valid()
      ensures o.Pass? <==> 0 <= offset <= |data|
      ensures o.Pass? ==> pos == offset
      ensures o.Fail? ==> o.error == SeekPastEnd && pos == old(pos)
    {
      if offset < 0 || offset > |data| {
        return Fail(SeekPastEnd);
      }
      pos := offset;
      return Pass;
    }

    /** Move the cursor forward by n bytes. */
    method Skip(n: nat) returns (o: Outcome)
      requires Valid()
      modifies this
      ensures Valid()
      ensures o.Pass? <==> old(pos) + n <= |data|
      ensures o.Pass? ==> pos == old(pos) + n
    {
      o := Seek(pos + n);
    }

    method ReadByte() returns (r: Result<u8>)
      requires Valid()
      modifies this
      ensures Valid()
      ensures r.Ok? <==> old(pos) + 1 <= |data|
      ensures r.Ok? ==> r.value == data[old(pos)] && pos == old(pos) + 1
    {
      if pos + 1 > |data| {
        return Err(ReadPastEnd);
      }
      r := Ok(data[pos]);
      pos := pos + 1;
    }

    method ReadUint16LE() returns (r: Result<nat>)
      requires Valid()
      modifies this
      ensures Valid()
      ensures r.Ok? <==> old(pos) + 2 <= |data|
      ensures r.Ok? ==> r.value == U16LE(data, old(pos)) && pos == old(pos) + 2
    {
      if pos + 2 > |data| {
        return Err(ReadPastEnd);
      }
      r := Ok(U16LE(data, pos));
      pos := pos + 2;
    }

    method ReadSint16LE() returns (r: Result<int>)
      requires Valid()
      modifies this
      ensures Valid()
      ensures r.Ok? <==> old(pos) + 2 <= |data|
      ensures r.Ok? ==> r.value == S16LE(data, old(pos)) && pos == old(pos) + 2
    {
      if pos + 2 > |data| {
        return Err(ReadPastEnd);
      }
      r := Ok(S16LE(data, pos));
      pos := pos + 2;
    }

    method ReadUint32LE() returns (r: Result<nat>)
      requires Valid()
      modifies this
      ensures Valid()
      ensures r.Ok? <==> old(pos) + 4 <= |data|
      ensures r.Ok? ==> r.value == U32LE(data, old(pos)) && pos == old(pos) + 4
    {
      if pos + 4 > |data| {
        return Err(ReadPastEnd);
      }
      r := Ok(U32LE(data, pos));
      pos := pos + 4;
    }

    method ReadUint32BE() returns (r: Result<nat>)
      requires Valid()
      modifies this
      ensures Valid()
      ensures r.Ok? <==> old(pos) + 4 <= |data|
      ensures r.Ok? ==> r.value == U32BE(data, old(pos)) && pos == old(pos) + 4
    {
      if pos + 4 > |data| {
        return Err(ReadPastEnd);
      }
      r := Ok(U32BE(data, pos));
      pos := pos + 4;
    }

    /** A fixed-width ASCII field of n bytes: all n bytes are consumed, the text ends at the first NUL. */
    method ReadStringFixed(n: nat) returns (r: Result<string>)
      requires Valid()
      modifies this
      ensures Valid()
      ensures r.Ok? <==> old(pos) + n <= |data|
      ensures r.Ok? ==> r.value == TextBeforeNul(data[old(pos)..old(pos) + n]) && pos == old(pos) + n
    {
      if pos + n > |data| {
        return Err(ReadPastEnd);
      }
      r := Ok(TextBeforeNul(data[pos..pos + n]));
      pos := pos + n;
    }

    /** A NUL-terminated ASCII string: the text runs to the first NUL (which is consumed)
        or to the end of the buffer. */
    method ReadString() returns (t: string)
      requires Valid()
      modifies this
      ensures Valid()
      ensures t == TextBeforeNul(data[old(pos)..])
      ensures pos == if old(pos) + |t| < |data| then old(pos) + |t| + 1 else |data|
    {
      t := TextBeforeNul(data[pos..]);
      pos := if pos + |t| < |data| then pos + |t| + 1 else |data|;
    }
  }

}
