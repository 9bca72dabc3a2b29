/** The emitter's output buffer, for UTF-8: a fixed array that is handed to the write handler when it is nearly full. */
module YamlOutput {

  type Byte = b: int | 0 <= b < 256

  datatype LineBreak = CR | LN | CRLN

  const BUFFER_SIZE := 128

  class OutputBuffer {
    const buffer: array<Byte>
    var pos: nat
    // what the write handler has been given, and whether it never fails
    var flushed: seq<Byte>
    const reliable: bool

    constructor (reliable: bool)
      ensures Valid() && Logical() == [] && this.reliable == reliable && fresh(buffer)
    {
      buffer, pos, flushed := new Byte[BUFFER_SIZE](_ => 0), 0, [];
      this.reliable := reliable;
    }

    ghost predicate Valid()
      reads this
    {
      buffer.Length == BUFFER_SIZE && pos <= buffer.Length
    }

    /** All that has been written. */
    ghost function Logical(): (r: seq<Byte>)
      reads this, buffer
      requires Valid()
    {
      flushed + buffer[..pos]
    }

    /** yaml_emitter_flush; false if the write handler fails. */
    method Flush() returns (ok: bool)
      requires Valid()
      modifies this`pos, this`flushed
      ensures Valid() && Logical() == old(Logical())
      ensures ok ==> pos == 0
      ensures reliable ==> ok
    {
      if pos == 0 {
        return true;
      }
      var fails: bool := *;
      if fails && !reliable {
        return false;
      }
      flushed := flushed + buffer[..pos];
      pos := 0;
      ok := true;
    }

    /** Room for one more character. */
    method Reserve() returns (ok: bool)
      requires Valid()
      modifies this`pos, this`flushed
      ensures Valid() && Logical() == old(Logical())
      ensures ok ==> pos + 5 <= buffer.Length
      ensures reliable ==> ok
    {
      ok := true;
      if pos + 5 >= buffer.Length {
        ok := Flush();
      }
    }

    method Put(b: Byte) returns (ok: bool)
      requires Valid()
      modifies this`pos, this`flushed, buffer
      ensures Valid() && (reliable ==> ok)
      ensures Logical() == if ok then old(Logical()) + [b] else old(Logical())
    {
      ok := Reserve();
      if ok {
        buffer[pos] := b;
        pos := pos + 1;
        assert buffer[..pos] == buffer[..pos - 1] + [b];
      }
    }

    method PutBreak(lineBreak: LineBreak) returns (ok: bool)
      requires Valid()
      modifies this`pos, this`flushed, buffer
      ensures Valid() && (reliable ==> ok)
      ensures Logical() == old(Logical()) + (if !ok then [] else match lineBreak case CR => [0x0D] case LN => [0x0A] case CRLN => [0x0D, 0x0A])
    {
      ok := Reserve();
      if !ok {
        return;
      }
      ghost var before := buffer[..pos];
      match lineBreak {
        case CR =>
          buffer[pos] := 0x0D;
          pos := pos + 1;
          assert buffer[..pos] == before + [0x0D];
        case LN =>
          buffer[pos] := 0x0A;
          pos := pos + 1;
          assert buffer[..pos] == before + [0x0A];
        case CRLN =>
          buffer[pos] := 0x0D;
          buffer[pos + 1] := 0x0A;
          pos := pos + 2;
          assert buffer[..pos] == before + [0x0D, 0x0A];
      }
    }

    /** Copies a character of one to four bytes, the last byte first. */
    method Write(c: seq<Byte>) returns (ok: bool)
      requires Valid() && 1 <= |c| <= 4
      modifies this`pos, this`flushed, buffer
      ensures Valid() && (reliable ==> ok)
      ensures Logical() == if ok then old(Logical()) + c else old(Logical())
    {
      ok := Reserve();
      if !ok {
        return;
      }
      ghost var before := buffer[..pos];
      var p := pos;
      if |c| == 4 {
        buffer[p + 3] := c[3];
      }
      if |c| >= 3 {
        buffer[p + 2] := c[2];
      }
      if |c| >= 2 {
        buffer[p + 1] := c[1];
      }
      buffer[p] := c[0];
      pos := pos + |c|;
      assert buffer[..pos] == before + c;
    }
  }
}
