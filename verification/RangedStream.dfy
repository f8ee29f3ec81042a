/** The ranged file stream: a clamped cursor over the bytes start..end of a file,
    both ends included. */
module RangedStream {
  import opened Common

  newtype byte = x: int | 0 <= x < 256

  type Bytes = seq<byte>

  datatype StreamError = InvalidWhence

  /** An open file. */
  class FileHandle {
    const data: Bytes
    var pos: nat

    constructor (data: Bytes)
      ensures this.data == data && pos == 0
    {
      this.data := data;
      pos := 0;
    }

    method Seek(p: nat)
      modifies this
      ensures pos == p
    {
      pos := p;
    }

    method Read(n: nat) returns (r: Bytes)
      modifies this
      ensures r == Cut(data, old(pos), old(pos) + n) && pos == old(pos) + |r|
    {
      r := Cut(data, pos, pos + n);
      pos := pos + |r|;
    }
  }

  /** The bytes from a up to but not including b, as far as there are any. */
  function Cut(data: Bytes, a: nat, b: int): (r: Bytes)
    ensures |r| == Max(0, Min(b, |data|) - a)
    ensures forall k :: 0 <= k < |r| ==> a + k < |data| && r[k] == data[a + k]
  {
    var hi := Min(b, |data|);
    if a < hi then data[a..hi] else []
  }

  /** A cut of a cut is a cut, ended by both ends. */
  lemma CutOfCut(data: Bytes, a: nat, b: int, i: nat, j: int)
    ensures Cut(Cut(data, a, b), i, j) == Cut(data, a + i, Min(a + j, b))
    ensures Cut(Cut(data, a, b), i, |Cut(data, a, b)|) == Cut(data, a + i, b)
  {
    hide Cut;
    CutSame(data, a, b, i, j);
    CutSame(data, a, b, i, |Cut(data, a, b)|);
    var x, y := Cut(data, a + i, Min(a + |Cut(data, a, b)|, b)), Cut(data, a + i, b);
    assert |x| == |y| && forall k :: 0 <= k < |x| ==> x[k] == y[k];
  }

  lemma CutSame(data: Bytes, a: nat, b: int, i: nat, j: int)
    ensures Cut(Cut(data, a, b), i, j) == Cut(data, a + i, Min(a + j, b))
  {
    hide Cut;
    var c := Cut(data, a, b);
    var x, y := Cut(c, i, j), Cut(data, a + i, Min(a + j, b));
    assert |x| == |y|;
    forall k | 0 <= k < |x|
      ensures x[k] == y[k]
    {
      assert x[k] == c[i + k] == data[a + (i + k)];
      assert y[k] == data[a + i + k];
    }
  }

  function Clamp(x: int, limit: nat): nat {
    Max(0, Min(x, limit))
  }

  class RangedFileStream {
    const handle: FileHandle
    const start: nat
    const end: int
    var pos: int

    ghost predicate Valid()
      reads this, handle
    {
      start <= pos <= start + Limit() && handle.pos == pos
    }

    /** Length of the range. */
    ghost function Limit(): nat {
      Max(0, end + 1 - start)
    }

    /** The bytes of the range. */
    ghost function Window(): Bytes {
      Cut(handle.data, start, end + 1)
    }

    ghost function Cursor(): int
      reads this
    {
      pos - start
    }

    constructor (handle: FileHandle, start: nat, end: int)
      modifies handle
      ensures Valid() && Cursor() == 0
      ensures this.handle == handle && this.start == start && this.end == end
    {
      this.handle, this.start, this.end, pos := handle, start, end, start;
      new;
      handle.Seek(start);
    }

    /** Reads at most size bytes from the cursor on, all that are left if negative. */
    method Read(size: int) returns (r: Bytes)
      requires Valid()
      modifies this, handle
      ensures Valid()
      ensures r == Cut(Window(), old(Cursor()), if size < 0 then |Window()| else old(Cursor()) + size)
      ensures Cursor() == old(Cursor()) + |r|
    {
      hide Cut;
      CutOfCut(handle.data, start, end + 1, pos - start, if size < 0 then |Window()| else pos - start + size);
      var bytesLeft := end - pos + 1;
      if bytesLeft <= 0 {
        return [];
      }
      var readSize := if size < 0 then bytesLeft else Min(size, bytesLeft);
      r := handle.Read(readSize);
      pos := pos + |r|;
    }

    /** Moves the cursor within the range; an unknown origin is refused. */
    method Seek(offset: int, whence: int) returns (r: Result<nat, StreamError>)
      requires Valid()
      modifies this, handle
      ensures Valid()
      ensures whence == 0 ==> r == Ok(Clamp(offset, Limit()))
      ensures whence == 1 ==> r == Ok(Clamp(old(Cursor()) + offset, Limit()))
      ensures whence == 2 ==> r == Ok(Clamp(Limit() + offset, Limit()))
      ensures whence !in {0, 1, 2} ==> r == Err(InvalidWhence) && Cursor() == old(Cursor())
      ensures r.Ok? ==> Cursor() == r.value
    {
      var target := pos;
      if whence == 0 {
        target := start + offset;
      } else if whence == 1 {
        target := target + offset;
      } else if whence == 2 {
        target := end + 1 + offset;
      } else {
        return Err(InvalidWhence);
      }
      pos := Max(start, Min(target, end + 1));
      handle.Seek(pos);
      return Ok(pos - start);
    }

    method Tell() returns (r: nat)
      requires Valid()
      ensures r == Cursor()
    {
      return pos - start;
    }
  }

  /** A read of at least one byte is empty only at the end, and stops where it says. */
  lemma ReadFacts(data: Bytes, c: nat, size: nat)
    requires size > 0
    ensures |Cut(data, c, c + size)| <= size
    ensures |Cut(data, c, c + size)| == 0 <==> c >= |data|
    ensures Cut(data, c, c + size) == Cut(data, c, c + |Cut(data, c, c + size)|)
  {
  }

  /** The chunks and what is left from c on make up everything from first on. */
  ghost predicate Drained(w: Bytes, first: nat, c: int, chunks: seq<Bytes>) {
    c >= 0 && Flatten(chunks) + Cut(w, c, |w|) == Cut(w, first, |w|)
  }

  lemma NothingDrained(w: Bytes, first: nat)
    ensures Drained(w, first, first, [])
  {
    hide Cut;
    assert Flatten([]) + Cut(w, first, |w|) == Cut(w, first, |w|);
  }

  lemma {:induction false} AllDrained(w: Bytes, first: nat, c: int, chunks: seq<Bytes>)
    requires Drained(w, first, c, chunks) && c >= |w|
    ensures Flatten(chunks) == Cut(w, first, |w|)
  {
    hide Flatten;
    assert Flatten(chunks) + [] == Flatten(chunks);
  }

  lemma CutJoins(data: Bytes, a: nat, b: nat)
    requires a <= b
    ensures Cut(data, a, b) + Cut(data, b, |data|) == Cut(data, a, |data|)
  {
  }

  /** Reads chunk after chunk until one comes back empty; whatever the size, the
      chunks are together the rest of the range. */
  method Drain(stream: RangedFileStream, chunkSize: nat) returns (chunks: seq<Bytes>)
    requires stream.Valid() && chunkSize > 0
    modifies stream, stream.handle
    ensures Flatten(chunks) == Cut(stream.Window(), old(stream.Cursor()), |stream.Window()|)
    ensures forall k :: 0 <= k < |chunks| ==> 0 < |chunks[k]| <= chunkSize
  {
    hide Cut, Flatten, Drained;
    chunks := [];
    ghost var w, first := stream.Window(), stream.Cursor();
    NothingDrained(w, first);
    var more := true;
    while more
      invariant stream.Valid() && first <= stream.Cursor()
      invariant stream.Window() == w && Drained(w, first, stream.Cursor(), chunks)
      invariant !more ==> stream.Cursor() >= |w|
      invariant forall k :: 0 <= k < |chunks| ==> 0 < |chunks[k]| <= chunkSize
      decreases more, Max(0, |w| - stream.Cursor())
    {
      ghost var c := stream.Cursor();
      var chunk := stream.Read(chunkSize);
      ReadFacts(w, c, chunkSize);
      if |chunk| == 0 {
        more := false;
      } else {
        DrainStep(w, first, c, chunks, chunk);
        chunks := chunks + [chunk];
      }
    }
    AllDrained(w, first, stream.Cursor(), chunks);
  }

  lemma DrainStep(w: Bytes, first: nat, c: nat, chunks: seq<Bytes>, chunk: Bytes)
    requires Drained(w, first, c, chunks) && chunk == Cut(w, c, c + |chunk|)
    ensures Drained(w, first, c + |chunk|, chunks + [chunk])
  {
    hide Cut, Flatten;
    CutJoins(w, c, c + |chunk|);
    FlattenSnoc(chunks, chunk);
    assert Flatten(chunks) + chunk + Cut(w, c + |chunk|, |w|)
        == Flatten(chunks) + (chunk + Cut(w, c + |chunk|, |w|));
  }

  // ----- Sequences of operations -----

  datatype StreamOp = ReadOp(size: int) | SeekOp(offset: int, whence: int) | TellOp

  datatype StreamAnswer = Data(bytes: Bytes) | Position(at: int) | Refused

  /** A cursor over a slice: the new cursor and the answer. */
  function CursorStep(w: Bytes, limit: nat, c: nat, op: StreamOp): (r: (nat, StreamAnswer)) {
    match op
    case ReadOp(size) =>
      var bytes := Cut(w, c, if size < 0 then |w| else c + size);
      (c + |bytes|, Data(bytes))
    case SeekOp(offset, whence) =>
      if whence !in {0, 1, 2} then (c, Refused)
      else
        var origin := if whence == 0 then 0 else if whence == 1 then c else limit;
        (Clamp(origin + offset, limit), Position(Clamp(origin + offset, limit)))
    case TellOp => (c, Position(c))
  }

  function CursorRun(w: Bytes, limit: nat, c: nat, ops: seq<StreamOp>): (nat, seq<StreamAnswer>)
    decreases |ops|
  {
    if ops == [] then (c, [])
    else
      var first := CursorStep(w, limit, c, ops[0]);
      var rest := CursorRun(w, limit, first.0, ops[1..]);
      (rest.0, [first.1] + rest.1)
  }

  /** Over every sequence of operations the stream is a cursor over its slice. */
  method RunStream(stream: RangedFileStream, ops: seq<StreamOp>) returns (answers: seq<StreamAnswer>)
    requires stream.Valid()
    modifies stream, stream.handle
    ensures stream.Valid()
    ensures (stream.Cursor(), answers) == CursorRun(stream.Window(), stream.Limit(), old(stream.Cursor()), ops)
  {
    hide Cut, Clamp, CursorRun;
    ghost var w, limit, first := stream.Window(), stream.Limit(), stream.Cursor();
    answers := [];
    assert ops[0..] == ops;
    for i := 0 to |ops|
      invariant stream.Valid() && stream.Cursor() >= 0
      invariant CursorRun(w, limit, first, ops).0 == CursorRun(w, limit, stream.Cursor(), ops[i..]).0
      invariant CursorRun(w, limit, first, ops).1 == answers + CursorRun(w, limit, stream.Cursor(), ops[i..]).1
    {
      CursorRunUnfolds(w, limit, stream.Cursor(), ops, i);
      var answer;
      match ops[i] {
        case ReadOp(size) =>
          var bytes := stream.Read(size);
          answer := Data(bytes);
        case SeekOp(offset, whence) =>
          var r := stream.Seek(offset, whence);
          answer := if r.Ok? then Position(r.value) else Refused;
        case TellOp =>
          var at := stream.Tell();
          answer := Position(at);
      }
      answers := answers + [answer];
    }
    CursorRunUnfolds(w, limit, stream.Cursor(), ops, |ops|);
    assert answers + [] == answers;
  }

  lemma {:induction false} CursorRunUnfolds(w: Bytes, limit: nat, c: nat, ops: seq<StreamOp>, i: nat)
    requires i <= |ops|
    ensures i == |ops| ==> CursorRun(w, limit, c, ops[i..]) == (c, [])
    ensures i < |ops| ==>
              var first := CursorStep(w, limit, c, ops[i]);
              var rest := CursorRun(w, limit, first.0, ops[i + 1..]);
              CursorRun(w, limit, c, ops[i..]) == (rest.0, [first.1] + rest.1)
  {
    hide CursorStep;
    if i < |ops| {
      assert ops[i..][1..] == ops[i + 1..];
    }
  }

  function AllBytes(answers: seq<StreamAnswer>): Bytes {
    if answers == [] then []
    else (if answers[0].Data? then answers[0].bytes else []) + AllBytes(answers[1..])
  }

  /** Reads of any sizes, one after the other, give consecutive bytes of the slice. */
  lemma {:induction false} ReadsAreConsecutive(w: Bytes, limit: nat, c: nat, ops: seq<StreamOp>)
    requires c <= |w| && forall op <- ops :: op.ReadOp?
    ensures var (last, answers) := CursorRun(w, limit, c, ops);
            c <= last <= |w| && AllBytes(answers) == w[c..last]
    decreases |ops|
  {
    hide Cut;
    if ops != [] {
      var first := CursorStep(w, limit, c, ops[0]);
      assert ops[0] in ops && forall op <- ops[1..] :: op in ops;
      ReadStep(w, limit, c, ops[0]);
      ReadsAreConsecutive(w, limit, first.0, ops[1..]);
      var rest := CursorRun(w, limit, first.0, ops[1..]);
      hide CursorStep, CursorRun;
      CursorRunUnfolds(w, limit, c, ops, 0);
      assert ops[0..] == ops && ([first.1] + rest.1)[1..] == rest.1;
      assert w[c..first.0] + w[first.0..rest.0] == w[c..rest.0];
    }
  }

  lemma ReadStep(w: Bytes, limit: nat, c: nat, op: StreamOp)
    requires c <= |w| && op.ReadOp?
    ensures var (next, answer) := CursorStep(w, limit, c, op);
            c <= next <= |w| && answer == Data(w[c..next])
  {
  }
}
