/** The copying future (src/utils/io.rs) that relays bytes between two connections. */
module BufCopies {
  import opened Bytes

  datatype Poll<T> = Pending | Failed | Ready(value: T)

  /** The reading side: it hands out its bytes in arbitrary pieces, and nothing only at the end
      of the stream or into an empty buffer. */
  class Reader {
    ghost const all: Bytes
    var rest: Bytes
    /** Polls that were not ready, and that failed. */
    ghost var pendings: nat
    ghost var failures: nat

    constructor (bytes: Bytes)
      ensures all == rest == bytes
    {
      all, rest, pendings, failures := bytes, bytes, 0, 0;
    }

    method PollRead(buf: array<byte>) returns (r: Poll<nat>)
      modifies this, buf
      ensures pendings == old(pendings) + (if r.Pending? then 1 else 0)
      ensures failures == old(failures) + (if r.Failed? then 1 else 0)
      ensures !r.Ready? ==> rest == old(rest) && unchanged(buf)
      ensures r.Ready? ==>
        && r.value <= buf.Length && old(rest) == buf[..r.value] + rest
        && (r.value == 0 <==> old(rest) == [] || buf.Length == 0)
    {
      if * {
        pendings := pendings + 1;
        return Pending;
      } else if * {
        failures := failures + 1;
        return Failed;
      }
      var n: nat :| n <= buf.Length && n <= |rest| && (n == 0 <==> rest == [] || buf.Length == 0);
      for i := 0 to n
        invariant rest == old(rest) && n <= |rest| && buf[..i] == rest[..i]
        invariant pendings == old(pendings) && failures == old(failures)
      {
        buf[i] := rest[i];
      }
      rest := rest[n..];
      return Ready(n);
    }
  }

  /** The writing side, for callers that never offer it nothing: `offer_data` at the far end of a
      multiplexed stream asserts that no chunk is empty. */
  class Writer {
    ghost var taken: Bytes
    ghost var flushed: Bytes
    /** Polls that were not ready; and that failed or took nothing. */
    ghost var pendings: nat
    ghost var failures: nat

    constructor ()
      ensures taken == flushed == []
    {
      taken, flushed, pendings, failures := [], [], 0, 0;
    }

    method PollWrite(data: Bytes) returns (r: Poll<nat>)
      requires data != []
      modifies this`taken, this`pendings, this`failures
      ensures pendings == old(pendings) + (if r.Pending? then 1 else 0)
      ensures failures == old(failures) + (if r.Failed? || r == Ready(0) then 1 else 0)
      ensures if r.Ready? then r.value <= |data| && taken == old(taken) + data[..r.value] else taken == old(taken)
    {
      if * {
        pendings := pendings + 1;
        return Pending;
      } else if * {
        failures := failures + 1;
        return Failed;
      }
      var n: nat :| n <= |data|;
      taken := taken + data[..n];
      failures := if n == 0 then failures + 1 else failures;
      return Ready(n);
    }

    method PollFlush() returns (r: Poll<()>)
      modifies this`flushed, this`pendings, this`failures
      ensures pendings == old(pendings) + (if r.Pending? then 1 else 0)
      ensures failures == old(failures) + (if r.Failed? then 1 else 0)
      ensures flushed == if r.Ready? then taken else old(flushed)
    {
      if * {
        pendings := pendings + 1;
        return Pending;
      } else if * {
        failures := failures + 1;
        return Failed;
      }
      flushed := taken;
      return Ready(());
    }
  }

  lemma MoveOver(had: Bytes, waiting: Bytes, n: nat)
    requires n <= |waiting|
    ensures had + waiting == (had + waiting[..n]) + waiting[n..]
  {
  }

  lemma AddMod(a: nat, b: nat)
    ensures (a % TWO_64 + b) % TWO_64 == (a + b) % TWO_64
  {
  }

  class BufCopy {
    const reader: Reader
    const writer: Writer
    const buf: array<byte>
    var readDone: bool
    var pos: nat
    var cap: nat
    var amt: u64
    /** What the writer had taken before. */
    ghost const start: Bytes

    constructor (reader: Reader, writer: Writer, buf: array<byte>)
      requires reader.rest == reader.all
      ensures Valid() && this.reader == reader && this.writer == writer && this.buf == buf
      ensures Written() == [] && Read() == []
    {
      this.reader, this.writer, this.buf, start := reader, writer, buf, writer.taken;
      readDone, pos, cap, amt := false, 0, 0, 0;
    }

    /** Everything the reader has returned so far. */
    ghost function Read(): Bytes
      requires |reader.rest| <= |reader.all|
      reads reader
    {
      reader.all[..|reader.all| - |reader.rest|]
    }

    ghost function Written(): Bytes
      requires start <= writer.taken
      reads writer
    {
      writer.taken[|start|..]
    }

    /** How often the reader or the writer was not ready, and how often one failed or the writer took
        nothing. */
    ghost function Pendings(): nat
      reads reader, writer
    {
      reader.pendings + writer.pendings
    }

    ghost function Failures(): nat
      reads reader, writer
    {
      reader.failures + writer.failures
    }

    /** What was read is what was written and what waits in the buffer; the amount counts what
        was written; the end has been seen only if nothing is left to read. */
    ghost predicate Valid()
      reads this, reader, writer, buf
    {
      && pos <= cap <= buf.Length
      && |reader.rest| <= |reader.all| && reader.all == Read() + reader.rest
      && start <= writer.taken
      && Read() == Written() + buf[pos..cap]
      && amt == |Written()| % TWO_64
      && (readDone ==> reader.rest == [] || buf.Length == 0)
    }

    method Drain() returns (r: Poll<nat>)
      requires Valid() && pos < cap
      modifies this`pos, this`amt, writer
      ensures Valid() && cap == old(cap) && old(Written()) <= Written()
      ensures if r.Ready? then pos == old(pos) + r.value else pos == old(pos)
      ensures Pendings() == old(Pendings()) + (if r.Pending? then 1 else 0)
      ensures Failures() == old(Failures()) + (if r.Failed? || r == Ready(0) then 1 else 0)
    {
      ghost var before, had := buf[pos..cap], Written();
      r := writer.PollWrite(buf[pos..cap]);
      if r.Ready? {
        assert Written() == had + before[..r.value] && before[r.value..] == buf[pos + r.value..cap];
        MoveOver(had, before, r.value);
        AddMod(|had|, r.value);
        pos := pos + r.value;
        amt := (amt + r.value) % TWO_64;
      }
    }

    /** The inner loop: the buffer is written out, unless the writer stops it. */
    method DrainAll() returns (r: Poll<()>)
      requires Valid()
      modifies this`pos, this`amt, writer
      ensures Valid() && old(Written()) <= Written()
      ensures r.Ready? ==> pos == cap
      ensures Pendings() == old(Pendings()) + (if r.Pending? then 1 else 0)
      ensures Failures() == old(Failures()) + (if r.Failed? then 1 else 0)
    {
      while pos < cap
        invariant Valid() && old(Written()) <= Written()
        invariant Pendings() == old(Pendings()) && Failures() == old(Failures())
        decreases cap - pos
      {
        var i := Drain();
        match i {
          case Pending => return Pending;
          case Failed => return Failed;
          case Ready(k) =>
            if k == 0 {
              return Failed;
            }
        }
      }
      return Ready(());
    }

    method Fill() returns (r: Poll<nat>)
      requires Valid() && pos == cap && !readDone
      modifies this, reader, buf
      ensures Valid() && Written() == old(Written()) && old(Read()) <= Read()
      ensures r.Ready? && r.value > 0 ==> pos < cap && |reader.rest| < |old(reader.rest)|
      ensures !(r.Ready? && r.value > 0) ==> pos == cap && reader.rest == old(reader.rest)
      ensures readDone == (r.Ready? && r.value == 0)
      ensures Pendings() == old(Pendings()) + (if r.Pending? then 1 else 0)
      ensures Failures() == old(Failures()) + (if r.Failed? then 1 else 0)
    {
      ghost var had := Read();
      assert buf[pos..cap] == [];
      r := reader.PollRead(buf);
      if r.Ready? {
        if r.value == 0 {
          readDone := true;
        } else {
          pos, cap := 0, r.value;
          assert Read() == had + buf[..r.value] by {
            assert reader.all == had + (buf[..r.value] + reader.rest);
          }
          assert buf[0..cap] == buf[..r.value];
        }
      }
    }

    /** Everything was read and written: it remains to flush. */
    method Flush() returns (r: Poll<u64>)
      requires Valid() && pos == cap && readDone
      modifies writer`flushed, writer`pendings, writer`failures
      ensures Pendings() == old(Pendings()) + (if r.Pending? then 1 else 0)
      ensures Failures() == old(Failures()) + (if r.Failed? then 1 else 0)
      ensures Valid() && Read() == old(Read()) && Written() == old(Written())
      ensures r.Ready? ==>
        && Written() == Read() && writer.flushed == writer.taken && r.value == |Written()| % TWO_64
        && (buf.Length > 0 ==> Written() == reader.all)
    {
      assert buf[pos..cap] == [];
      var f := writer.PollFlush();
      match f {
        case Pending => return Pending;
        case Failed => return Failed;
        case Ready(_) => return Ready(amt);
      }
    }

    /** One round of the loop: read if the buffer is empty, write it out, and flush at the end. */
    method Round() returns (r: Option<Poll<u64>>)
      requires Valid()
      modifies this, reader, writer, buf
      ensures Valid() && old(Read()) <= Read() && old(Written()) <= Written()
      ensures r.None? ==> !readDone && pos == cap && |reader.rest| <= |old(reader.rest)|
      ensures r.None? ==> |reader.rest| < |old(reader.rest)| || old(pos) < old(cap)
      ensures r.Some? && r.value.Ready? ==>
        && readDone && Written() == Read() && writer.flushed == writer.taken && r.value.value == |Written()| % TWO_64
        && (buf.Length > 0 ==> Written() == reader.all)
      ensures Pendings() == old(Pendings()) + (if r == Some(Pending) then 1 else 0)
      ensures Failures() == old(Failures()) + (if r == Some(Failed) then 1 else 0)
    {
      if pos == cap && !readDone {
        var n := Fill();
        match n {
          case Pending => return Some(Pending);
          case Failed => return Some(Failed);
          case Ready(_) =>
        }
      }
      var d := DrainAll();
      match d {
        case Pending => return Some(Pending);
        case Failed => return Some(Failed);
        case Ready(_) =>
      }
      if pos == cap && readDone {
        var f := Flush();
        return Some(f);
      }
      return None;
    }

    /** One poll. It is pending exactly if the reader or the writer is, and fails exactly if one of them
        does or the writer takes nothing; it may be polled again. When it is ready with an amount,
        everything the reader had was written in order and flushed. */
    method Poll() returns (r: Poll<u64>)
      requires Valid()
      modifies this, reader, writer, buf
      ensures Valid() && old(Read()) <= Read() && old(Written()) <= Written()
      ensures r.Ready? ==>
        && readDone && Written() == Read() && writer.flushed == writer.taken && r.value == |Written()| % TWO_64
        && (buf.Length > 0 ==> Written() == reader.all)
      ensures Pendings() == old(Pendings()) + (if r.Pending? then 1 else 0)
      ensures Failures() == old(Failures()) + (if r.Failed? then 1 else 0)
    {
      while true
        invariant Valid() && old(Read()) <= Read() && old(Written()) <= Written()
        invariant Pendings() == old(Pendings()) && Failures() == old(Failures())
        decreases |reader.rest|, cap - pos
      {
        var done := Round();
        if done.Some? {
          return done.value;
        }
      }
    }
  }
}
