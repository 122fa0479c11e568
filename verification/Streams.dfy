/** Verified streaming: the two checking readers and the copy loop that drains
    them, under every chunking of a body and every way it may end. */
module Streams {
  import opened Wrappers

  newtype Byte = x: int | 0 <= x < 256
  type Bytes = seq<Byte>

  /** Errors a reader returns. Wrapped is an error that errors.Is unwraps. */
  datatype ReadError =
    | Eof
    | UnexpectedEof
    | Wrapped(cause: ReadError)
    | SizeMismatch(expected: int, actual: int)
    | HashMismatch(wanted: string, got: string)
    | OtherError

  /** What one Read returns: n bytes, possibly together with an error. */
  datatype Chunk = Chunk(data: Bytes, err: Option<ReadError>)

  /** errors.Is(err, io.EOF) || errors.Is(err, io.ErrUnexpectedEOF). */
  predicate EndsStream(err: ReadError) {
    match err
    case Wrapped(cause) => EndsStream(cause)
    case e => e.Eof? || e.UnexpectedEof?
  }

  predicate IsEnd(err: Option<ReadError>) {
    err.Some? && EndsStream(err.value)
  }

  /** An incremental hash: its state is fed piece by piece. */
  datatype Digest<!S> = Digest(init: S, write: (S, Bytes) -> S, sum: S -> string)

  /** Feeding pieces is feeding their concatenation. */
  ghost predicate Incremental<S(!new)>(d: Digest<S>) {
    && (forall s: S, a: Bytes, b: Bytes {:trigger d.write(d.write(s, a), b)} :: d.write(d.write(s, a), b) == d.write(s, a + b))
    && (forall s: S :: d.write(s, []) == s)
  }

  function Sha<S>(d: Digest<S>): Bytes -> string {
    (data: Bytes) => d.sum(d.write(d.init, data))
  }

  // ------------------------------------------------------------ what a stream is

  /** A body is the list of answers its Read calls give; past its end it
      answers a clean EOF. */
  function First(script: seq<Chunk>): Chunk {
    if script == [] then Chunk([], Some(Eof)) else script[0]
  }

  function Rest(script: seq<Chunk>): seq<Chunk> {
    if script == [] then [] else script[1..]
  }

  /** All the bytes of a body up to its first error, and that error. */
  function Flow(script: seq<Chunk>): (Bytes, ReadError)
    decreases |script|
  {
    var c := First(script);
    if c.err.Some? then (c.data, c.err.value)
    else (c.data + Flow(Rest(script)).0, Flow(Rest(script)).1)
  }

  /** The bytes that get through before the copy stops: whole chunks up to the
      first error or the first chunk that takes the total past `size`. */
  function Delivered(script: seq<Chunk>, size: int): Bytes
    decreases |script|
  {
    var c := First(script);
    if c.err.Some? || |c.data| > size then c.data
    else c.data + Delivered(Rest(script), size - |c.data|)
  }

  /** The outcome of copying a body of declared size and digest: None is success. */
  function CopyResult(sha: Bytes -> string, script: seq<Chunk>, size: int, oid: string): Option<ReadError> {
    var (data, err) := Flow(script);
    if |data| > size then Some(SizeMismatch(size, |Delivered(script, size)|))
    else if IsEnd(Some(err)) && |data| != size then Some(SizeMismatch(size, |data|))
    else if IsEnd(Some(err)) && sha(data) != oid then Some(HashMismatch(oid, sha(data)))
    else if err == Eof then None
    else Some(err)
  }

  /** How many chunks the copy has to write. Empty ones are not written. */
  function Writes(script: seq<Chunk>, size: int): nat
    decreases |script|
  {
    var c := First(script);
    (if |c.data| > 0 then 1 else 0) + if c.err.Some? || |c.data| > size then 0 else Writes(Rest(script), size - |c.data|)
  }

  /** The bytes in the sink when its n-th write fails. */
  function WrittenBefore(script: seq<Chunk>, size: int, n: nat): Bytes
    decreases |script|
  {
    var c := First(script);
    if (n <= 1 && |c.data| > 0) || c.err.Some? || |c.data| > size then []
    else c.data + WrittenBefore(Rest(script), size - |c.data|, if |c.data| > 0 then n - 1 else n)
  }

  /** The copy gets as far as the n-th write, 0 for none. */
  predicate GetsTo(script: seq<Chunk>, size: int, n: nat) {
    0 < n <= Writes(script, size)
  }

  // ------------------------------------------------------------ what it means

  lemma {:induction false} DeliveredIsPrefix(script: seq<Chunk>, size: int)
    ensures Delivered(script, size) <= Flow(script).0
    ensures |Flow(script).0| <= size ==> Delivered(script, size) == Flow(script).0
    ensures |Flow(script).0| > size ==> |Delivered(script, size)| > size
    decreases |script|
  {
    var c := First(script);
    if c.err.None? && |c.data| <= size {
      DeliveredIsPrefix(Rest(script), size - |c.data|);
    }
  }

  /** The copy succeeds exactly when the body ends in a plain EOF after exactly
      `size` bytes that hash to `oid`, and then the sink holds those bytes. How
      the body was cut into chunks does not matter. */
  lemma CopySucceedsIff(sha: Bytes -> string, script: seq<Chunk>, size: int, oid: string)
    ensures CopyResult(sha, script, size, oid).None? <==>
            Flow(script).1 == Eof && |Flow(script).0| == size && sha(Flow(script).0) == oid
    ensures CopyResult(sha, script, size, oid).None? ==> Delivered(script, size) == Flow(script).0
  {
    DeliveredIsPrefix(script, size);
  }

  /** Two bodies with the same bytes and the same end have the same outcome,
      except for the count an overrun reports. */
  lemma ChunkingDoesNotMatter(sha: Bytes -> string, a: seq<Chunk>, b: seq<Chunk>, size: int, oid: string)
    requires Flow(a) == Flow(b)
    ensures CopyResult(sha, a, size, oid).None? <==> CopyResult(sha, b, size, oid).None?
    ensures CopyResult(sha, a, size, oid) != CopyResult(sha, b, size, oid) ==>
              |Flow(a).0| > size && |Delivered(a, size)| > size && |Delivered(b, size)| > size
  {
    DeliveredIsPrefix(a, size);
    DeliveredIsPrefix(b, size);
  }

  function Total(script: seq<Chunk>): nat {
    if script == [] then 0 else Total(script[..|script| - 1]) + |script[|script| - 1].data|
  }

  lemma {:induction false} TotalCons(c: Chunk, script: seq<Chunk>)
    ensures Total([c] + script) == |c.data| + Total(script)
  {
    var all := [c] + script;
    if script == [] {
      assert all[..0] == [];
    } else {
      assert all[..|all| - 1] == [c] + script[..|script| - 1];
      TotalCons(c, script[..|script| - 1]);
    }
  }

  /** On an overrun the total before the last chunk had not passed `size`: the
      copy stops at the very chunk that crosses it. */
  lemma {:induction false} OverrunStopsAtOnce(script: seq<Chunk>, size: nat) returns (k: nat)
    requires |Flow(script).0| > size
    ensures k < |script| && Total(script[..k]) <= size < Total(script[..k + 1])
    ensures |Delivered(script, size)| == Total(script[..k + 1])
    decreases |script|
  {
    var c := First(script);
    assert script != [];
    assert script[..1] == [c] && script[..0] == [];
    TotalCons(c, []);
    assert [c] + [] == [c];
    if c.err.Some? || |c.data| > size {
      k := 0;
    } else {
      var j := OverrunStopsAtOnce(Rest(script), size - |c.data|);
      k := j + 1;
      assert script[..k] == [c] + Rest(script)[..j];
      assert script[..k + 1] == [c] + Rest(script)[..j + 1];
      TotalCons(c, Rest(script)[..j]);
      TotalCons(c, Rest(script)[..j + 1]);
    }
  }

  // ------------------------------------------------------------ the readers

  /** The request body. */
  class Source {
    var script: seq<Chunk>

    constructor (script: seq<Chunk>)
      ensures this.script == script
    {
      this.script := script;
    }

    method Read() returns (c: Chunk)
      modifies this
      ensures c == First(old(script)) && script == Rest(old(script))
    {
      if script == [] {
        c := Chunk([], Some(Eof));
      } else {
        c := script[0];
        script := script[1..];
      }
    }
  }

  /** What ExactSizeReader makes of a chunk when `total` bytes have been read. */
  function SizeChecked(c: Chunk, total: int, expected: int): Chunk {
    if total > expected || (IsEnd(c.err) && total != expected)
    then c.(err := Some(SizeMismatch(expected, total)))
    else c
  }

  /** What SHA256Reader makes of it when `actual` is the digest so far. */
  function HashChecked(c: Chunk, actual: string, expected: string): Chunk {
    if IsEnd(c.err) && actual != expected then c.(err := Some(HashMismatch(expected, actual))) else c
  }

  class ExactSizeReader {
    const r: Source
    const expected: int
    var read: int

    constructor (r: Source, expected: int)
      ensures this.r == r && this.expected == expected && read == 0
    {
      this.r := r;
      this.expected := expected;
      read := 0;
    }

    method Read() returns (c: Chunk)
      modifies this, r
      ensures r.script == Rest(old(r.script))
      ensures read == old(read) + |First(old(r.script)).data|
      ensures c == SizeChecked(First(old(r.script)), read, expected)
    {
      c := r.Read();
      read := read + |c.data|;
      if read > expected {
        return c.(err := Some(SizeMismatch(expected, read)));
      }
      if IsEnd(c.err) && read != expected {
        return c.(err := Some(SizeMismatch(expected, read)));
      }
    }
  }

  class Sha256Reader<S(!new)> {
    const r: ExactSizeReader
    const digest: Digest<S>
    const expected: string
    var hasher: S

    constructor (r: ExactSizeReader, digest: Digest<S>, expected: string)
      ensures this.r == r && this.digest == digest && this.expected == expected && hasher == digest.init
    {
      this.r := r;
      this.digest := digest;
      this.expected := expected;
      hasher := digest.init;
    }

    method Read() returns (c: Chunk)
      requires Incremental(digest)
      modifies this, r, r.r
      ensures r.r.script == Rest(old(r.r.script))
      ensures r.read == old(r.read) + |First(old(r.r.script)).data|
      ensures hasher == digest.write(old(hasher), First(old(r.r.script)).data)
      ensures c == HashChecked(SizeChecked(First(old(r.r.script)), r.read, r.expected), digest.sum(hasher), expected)
    {
      c := r.Read();
      if |c.data| > 0 {
        hasher := digest.write(hasher, c.data);
      }
      if IsEnd(c.err) {
        var actual := digest.sum(hasher);
        if actual != expected {
          c := c.(err := Some(HashMismatch(expected, actual)));
        }
      }
    }
  }

  /** The temporary file being written. */
  class Sink {
    var data: Bytes

    constructor ()
      ensures data == []
    {
      data := [];
    }
  }

  /** How far a copy is: `done` has been delivered and `left` is unread. */
  ghost predicate Midway(script: seq<Chunk>, size: int, done: Bytes, left: seq<Chunk>) {
    && (|done| <= size || done == [])
    && Delivered(script, size) == done + Delivered(left, size - |done|)
    && Flow(script) == (done + Flow(left).0, Flow(left).1)
  }

  lemma CopyStarts(script: seq<Chunk>, size: int)
    ensures Midway(script, size, [], script)
  {
    assert [] + Flow(script).0 == Flow(script).0 && [] + Delivered(script, size) == Delivered(script, size);
  }

  lemma CopyGoesOn(script: seq<Chunk>, size: int, done: Bytes, left: seq<Chunk>)
    requires Midway(script, size, done, left)
    requires SizeChecked(First(left), |done| + |First(left).data|, size).err.None?
    ensures left != [] && Midway(script, size, done + First(left).data, Rest(left))
  {
    var c := First(left);
    assert done + (c.data + Flow(Rest(left)).0) == done + c.data + Flow(Rest(left)).0;
    assert done + (c.data + Delivered(Rest(left), size - |done| - |c.data|))
        == done + c.data + Delivered(Rest(left), size - |done| - |c.data|);
  }

  lemma CopyStops(sha: Bytes -> string, script: seq<Chunk>, size: int, oid: string, done: Bytes, left: seq<Chunk>, c: Chunk)
    requires Midway(script, size, done, left)
    requires var data := done + First(left).data;
             c == HashChecked(SizeChecked(First(left), |data|, size), sha(data), oid)
    requires c.err.Some?
    ensures Delivered(script, size) == done + First(left).data
    ensures CopyResult(sha, script, size, oid) == if c.err == Some(Eof) then None else c.err
  {
    var data := done + First(left).data;
    if |data| > size {
      assert Flow(left).0[..|First(left).data|] == First(left).data;
    } else {
      assert First(left).err.Some?;
      assert Flow(script) == (data, First(left).err.value);
    }
  }

  /** The n-th write is still to come: n - done of them are left. */
  ghost predicate StillAhead(script: seq<Chunk>, size: int, n: nat, done: Bytes, left: seq<Chunk>, count: nat) {
    && Writes(script, size) == count + Writes(left, size - |done|)
    && (0 < n ==> count < n && WrittenBefore(script, size, n) == done + WrittenBefore(left, size - |done|, n - count))
  }

  lemma AheadStarts(script: seq<Chunk>, size: int, n: nat)
    ensures StillAhead(script, size, n, [], script, 0)
  {
    assert [] + WrittenBefore(script, size, n) == WrittenBefore(script, size, n);
  }

  lemma AheadGoesOn(script: seq<Chunk>, size: int, n: nat, done: Bytes, left: seq<Chunk>, count: nat)
    requires StillAhead(script, size, n, done, left, count)
    requires First(left).err.None? && |done| + |First(left).data| <= size
    requires |First(left).data| > 0 ==> count + 1 != n
    ensures StillAhead(script, size, n, done + First(left).data, Rest(left), if |First(left).data| > 0 then count + 1 else count)
  {
    if 0 < n {
      var c, m := First(left), if |First(left).data| > 0 then n - count - 1 else n - count;
      var rest := WrittenBefore(Rest(left), size - |done| - |c.data|, m);
      assert done + (c.data + rest) == done + c.data + rest;
    }
  }

  /** One round of io.Copy: the bytes of a chunk are written before its error
      is looked at. A write that fails leaves the sink as it was. */
  method CopyChunk<S(!new)>(sink: Sink, reader: Sha256Reader<S>, fails: bool) returns (c: Chunk, written: bool)
    requires Incremental(reader.digest)
    requires reader.r.read == |sink.data| && reader.hasher == reader.digest.write(reader.digest.init, sink.data)
    modifies sink, reader, reader.r, reader.r.r
    ensures reader.r.r.script == Rest(old(reader.r.r.script))
    ensures var data := old(sink.data) + First(old(reader.r.r.script)).data;
            && reader.r.read == |data|
            && reader.hasher == reader.digest.write(reader.digest.init, data)
            && c == HashChecked(SizeChecked(First(old(reader.r.r.script)), |data|, reader.r.expected), Sha(reader.digest)(data), reader.expected)
            && written == !(fails && |First(old(reader.r.r.script)).data| > 0)
            && sink.data == if written then data else old(sink.data)
  {
    c := reader.Read();
    written := true;
    if |c.data| > 0 {
      if fails {
        written := false;
      } else {
        sink.data := sink.data + c.data;
      }
    }
  }

  /** io.Copy from a fresh reader chain into a new file: it goes on until an
      error, and only a plain EOF is a success. `failing` is the number of the
      write that fails, 0 for none. */
  method Copy<S(!new)>(sink: Sink, reader: Sha256Reader<S>, failing: nat) returns (err: Option<ReadError>, written: bool)
    requires Incremental(reader.digest)
    requires sink.data == [] && reader.r.read == 0 && reader.hasher == reader.digest.init
    modifies sink, reader, reader.r, reader.r.r
    ensures var script, size := old(reader.r.r.script), reader.r.expected;
            if GetsTo(script, size, failing)
            then !written && err == Some(OtherError) && sink.data == WrittenBefore(script, size, failing)
            else written && err == CopyResult(Sha(reader.digest), script, size, reader.expected) && sink.data == Delivered(script, size)
  {
    ghost var script, size := reader.r.r.script, reader.r.expected;
    CopyStarts(script, size);
    AheadStarts(script, size, failing);
    err, written := None, true;
    var count := 0;
    while true
      invariant reader.r.read == |sink.data|
      invariant reader.hasher == reader.digest.write(reader.digest.init, sink.data)
      invariant Midway(script, size, sink.data, reader.r.r.script)
      invariant StillAhead(script, size, failing, sink.data, reader.r.r.script, count)
      invariant err.None? && written
      decreases |reader.r.r.script|
    {
      ghost var done, left := sink.data, reader.r.r.script;
      var c;
      c, written := CopyChunk(sink, reader, count + 1 == failing);
      if !written {
        WriteFailsHere(script, size, failing, done, left, count);
        err := Some(OtherError);
        break;
      }
      if c.err.Some? {
        CopyStops(Sha(reader.digest), script, size, reader.expected, done, left, c);
        NeverReached(script, size, failing, done, left, count);
        if c.err != Some(Eof) {
          err := c.err;
        }
        break;
      }
      CopyGoesOn(script, size, done, left);
      AheadGoesOn(script, size, failing, done, left, count);
      if |c.data| > 0 {
        count := count + 1;
      }
    }
  }

  lemma WriteFailsHere(script: seq<Chunk>, size: int, n: nat, done: Bytes, left: seq<Chunk>, count: nat)
    requires StillAhead(script, size, n, done, left, count) && count + 1 == n && |First(left).data| > 0
    ensures GetsTo(script, size, n) && WrittenBefore(script, size, n) == done
  {
    assert done + [] == done;
  }

  lemma NeverReached(script: seq<Chunk>, size: int, n: nat, done: Bytes, left: seq<Chunk>, count: nat)
    requires StillAhead(script, size, n, done, left, count)
    requires |First(left).data| > 0 ==> count + 1 != n
    requires First(left).err.Some? || |First(left).data| > size - |done|
    ensures !GetsTo(script, size, n)
  {}
}
