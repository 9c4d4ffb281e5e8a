/** Request-body storage (common/body_storage.go, common/disk_cache_config.go, common/gin.go): the in-memory
    and the on-disk storage refine one machine, its contents survive every retry, and the usage counters
    describe exactly the storages that are open. */
module BodyStorage {
  import opened Basics

  // ---------------------------------------------------------------- the abstract machine

  /** What a storage is to its user. */
  datatype Body = Body(contents: Bytes, pos: nat, closed: bool)

  datatype Op = Read(len: nat) | Seek(offset: int, whence: int) | ReadBytes | Close

  datatype Out = Data(data: Bytes) | EndOfFile | At(pos: nat) | Whole(bytes: Bytes) | Done | ErrClosed | ErrInvalid

  function Min(a: int, b: int): int {
    if a < b then a else b
  }

  /** The position a seek asks for: whence 0 is the start, 1 the current position, 2 the end. */
  function Target(b: Body, offset: int, whence: int): Option<nat> {
    var base := if whence == 0 then 0 else if whence == 1 then b.pos else |b.contents|;
    if 0 <= whence <= 2 && base + offset >= 0 then Some(base + offset) else None
  }

  function Exec(b: Body, op: Op): Body {
    if b.closed then b
    else
      match op
      case Read(len) => if b.pos >= |b.contents| then b else b.(pos := Min(b.pos + len, |b.contents|))
      case Seek(offset, whence) =>
        var t := Target(b, offset, whence);
        if t.Some? then b.(pos := t.value) else b
      case ReadBytes => b
      case Close => b.(closed := true)
  }

  function Answer(b: Body, op: Op): Out {
    if op.Close? then Done
    else if b.closed then ErrClosed
    else
      match op
      case Read(len) =>
        if b.pos >= |b.contents| then EndOfFile else Data(b.contents[b.pos..Min(b.pos + len, |b.contents|)])
      case Seek(offset, whence) =>
        var t := Target(b, offset, whence);
        if t.Some? then At(t.value) else ErrInvalid
      case _ => Whole(b.contents)
  }

  // ---------------------------------------------------------------- counters

  datatype Counters = Counters(diskFiles: int, diskBytes: int, memoryBuffers: int, memoryBytes: int)

  function AtLeastZero(n: int): int {
    if n < 0 then 0 else n
  }

  function Opened(c: Counters, disk: bool, size: int): Counters {
    if disk then c.(diskFiles := c.diskFiles + 1, diskBytes := c.diskBytes + size)
    else c.(memoryBuffers := c.memoryBuffers + 1, memoryBytes := c.memoryBytes + size)
  }

  /** Only the disk counters are clamped at zero. */
  function Released(c: Counters, disk: bool, size: int): Counters {
    if disk then c.(diskFiles := AtLeastZero(c.diskFiles - 1), diskBytes := AtLeastZero(c.diskBytes - size))
    else c.(memoryBuffers := c.memoryBuffers - 1, memoryBytes := c.memoryBytes - size)
  }

  class Stats {
    var activeDiskFiles: int
    var currentDiskUsageBytes: int
    var activeMemoryBuffers: int
    var currentMemoryUsageBytes: int

    function Counts(): Counters
      reads this
    {
      Counters(activeDiskFiles, currentDiskUsageBytes, activeMemoryBuffers, currentMemoryUsageBytes)
    }

    constructor ()
      ensures Counts() == Counters(0, 0, 0, 0)
    {
      activeDiskFiles, currentDiskUsageBytes, activeMemoryBuffers, currentMemoryUsageBytes := 0, 0, 0, 0;
    }

    method IncrementDiskFiles(size: int)
      modifies this
      ensures Counts() == Opened(old(Counts()), true, size)
    {
      activeDiskFiles := activeDiskFiles + 1;
      currentDiskUsageBytes := currentDiskUsageBytes + size;
    }

    method DecrementDiskFiles(size: int)
      modifies this
      ensures Counts() == Released(old(Counts()), true, size)
    {
      activeDiskFiles := activeDiskFiles - 1;
      if activeDiskFiles < 0 {
        activeDiskFiles := 0;
      }
      currentDiskUsageBytes := currentDiskUsageBytes - size;
      if currentDiskUsageBytes < 0 {
        currentDiskUsageBytes := 0;
      }
    }

    method IncrementMemoryBuffers(size: int)
      modifies this
      ensures Counts() == Opened(old(Counts()), false, size)
    {
      activeMemoryBuffers := activeMemoryBuffers + 1;
      currentMemoryUsageBytes := currentMemoryUsageBytes + size;
    }

    method DecrementMemoryBuffers(size: int)
      modifies this
      ensures Counts() == Released(old(Counts()), false, size)
    {
      activeMemoryBuffers := activeMemoryBuffers - 1;
      currentMemoryUsageBytes := currentMemoryUsageBytes - size;
    }
  }

  // ---------------------------------------------------------------- in memory

  class MemoryStorage {
    var data: Bytes
    var index: nat
    var size: nat
    var closed: bool

    function Abs(): Body
      reads this
    {
      Body(data, index, closed)
    }

    predicate Valid()
      reads this
    {
      size == |data|
    }

    constructor (contents: Bytes, stats: Stats)
      modifies stats
      ensures Valid() && Abs() == Body(contents, 0, false)
      ensures stats.Counts() == Opened(old(stats.Counts()), false, |contents|)
    {
      data, index, size, closed := contents, 0, |contents|, false;
      new;
      stats.IncrementMemoryBuffers(|contents|);
    }

    method Do(op: Op, stats: Stats) returns (out: Out)
      requires Valid()
      modifies this`index, this`closed, stats
      ensures Valid() && Abs() == Exec(old(Abs()), op) && out == Answer(old(Abs()), op)
      ensures stats.Counts() ==
              if op.Close? && !old(closed) then Released(old(stats.Counts()), false, size) else old(stats.Counts())
    {
      match op {
        case Close =>
          if !closed {
            closed := true;
            stats.DecrementMemoryBuffers(size);
          }
          return Done;
        case Read(len) =>
          if closed { return ErrClosed; }
          if index >= |data| { return EndOfFile; }
          var n := Min(len, |data| - index);
          out := Data(data[index..index + n]);
          index := index + n;
        case Seek(offset, whence) =>
          if closed { return ErrClosed; }
          var abs;
          if whence == 0 {
            abs := offset;
          } else if whence == 1 {
            abs := index + offset;
          } else if whence == 2 {
            abs := |data| + offset;
          } else {
            return ErrInvalid;
          }
          if abs < 0 { return ErrInvalid; }
          index := abs;
          out := At(abs);
        case ReadBytes =>
          if closed { return ErrClosed; }
          out := Whole(data);
      }
    }
  }

  // ---------------------------------------------------------------- on disk

  /** An open regular file. */
  class File {
    var contents: Bytes
    var pos: nat

    constructor (written: Bytes)
      ensures contents == written && pos == |written|
    {
      contents, pos := written, |written|;
    }

    /** A zero-length read answers nothing at all, even at the end of the file. */
    method Read(len: nat) returns (out: Out)
      modifies this`pos
      ensures out == (if len == 0 then Data([])
                      else if old(pos) >= |contents| then EndOfFile
                      else Data(contents[old(pos)..Min(old(pos) + len, |contents|)]))
      ensures pos == old(pos) + if out.Data? then |out.data| else 0
    {
      if len == 0 { return Data([]); }
      if pos >= |contents| { return EndOfFile; }
      var end := Min(pos + len, |contents|);
      out := Data(contents[pos..end]);
      pos := end;
    }

    method Seek(offset: int, whence: int) returns (out: Out)
      modifies this`pos
      ensures var t := Target(Body(contents, old(pos), false), offset, whence);
              if t.Some? then out == At(t.value) && pos == t.value else out == ErrInvalid && pos == old(pos)
    {
      if whence < 0 || whence > 2 { return ErrInvalid; }
      var base := if whence == 0 then 0 else if whence == 1 then pos else |contents|;
      if base + offset < 0 { return ErrInvalid; }
      pos := base + offset;
      out := At(pos);
    }
  }

  class DiskStorage {
    const file: File
    var size: nat
    var closed: bool
    var removed: bool

    function Abs(): Body
      reads this, file
    {
      Body(file.contents, file.pos, closed)
    }

    /** The file stays on disk exactly while the storage is open. */
    predicate Valid()
      reads this, file
    {
      size == |file.contents| && removed == closed
    }

    /** newDiskStorage and newDiskStorageFromReader once the bytes are written. */
    constructor (contents: Bytes, stats: Stats)
      modifies stats
      ensures Valid() && fresh(file) && Abs() == Body(contents, 0, false)
      ensures stats.Counts() == Opened(old(stats.Counts()), true, |contents|)
    {
      var f := new File(contents);
      var _ := f.Seek(0, 0);
      file, size, closed, removed := f, |contents|, false, false;
      new;
      stats.IncrementDiskFiles(|contents|);
    }

    method Do(op: Op, stats: Stats) returns (out: Out)
      requires Valid()
      modifies this, file`pos, stats
      ensures Valid() && Abs() == Exec(old(Abs()), op) && out == DiskAnswer(old(Abs()), op)
      ensures stats.Counts() ==
              if op.Close? && !old(closed) then Released(old(stats.Counts()), true, size) else old(stats.Counts())
    {
      match op {
        case Close =>
          if !closed {
            closed := true;
            removed := true;
            stats.DecrementDiskFiles(size);
          }
          return Done;
        case Read(len) =>
          if closed { return ErrClosed; }
          out := file.Read(len);
        case Seek(offset, whence) =>
          if closed { return ErrClosed; }
          out := file.Seek(offset, whence);
        case ReadBytes =>
          if closed { return ErrClosed; }
          out := ReadWhole();
      }
    }

    /** diskStorage.Bytes: remember the position, read the whole file from its start, go back. */
    method ReadWhole() returns (out: Out)
      requires Valid()
      modifies file`pos
      ensures out == Whole(file.contents) && file.pos == old(file.pos)
    {
      var current := file.Seek(0, 1);
      var _ := file.Seek(0, 0);
      var data: Bytes := [];
      while |data| < size
        invariant |data| == file.pos <= size && data == file.contents[..file.pos]
      {
        var chunk := file.Read(size - |data|);
        data := data + chunk.data;
      }
      var _ := file.Seek(current.pos, 0);
      out := Whole(data);
    }
  }

  // ---------------------------------------------------------------- one machine

  /** The disk storage answers a zero-length read at the end with no data instead of the end of file. */
  function DiskAnswer(b: Body, op: Op): Out {
    if EmptyReadAtEnd(b, op) then Data([]) else Answer(b, op)
  }

  predicate EmptyReadAtEnd(b: Body, op: Op) {
    !b.closed && op == Read(0) && b.pos >= |b.contents|
  }

  function ExecAll(b: Body, ops: seq<Op>): Body
    decreases |ops|
  {
    if ops == [] then b else ExecAll(Exec(b, ops[0]), ops[1..])
  }

  function Answers(b: Body, ops: seq<Op>): seq<Out>
    decreases |ops|
  {
    if ops == [] then [] else [Answer(b, ops[0])] + Answers(Exec(b, ops[0]), ops[1..])
  }

  function DiskAnswers(b: Body, ops: seq<Op>): seq<Out>
    decreases |ops|
  {
    if ops == [] then [] else [DiskAnswer(b, ops[0])] + DiskAnswers(Exec(b, ops[0]), ops[1..])
  }

  /** Some zero-length read happens while the storage is open and at or past its end. */
  predicate ReadsNothingAtEnd(b: Body, ops: seq<Op>)
    decreases |ops|
  {
    ops != [] && (EmptyReadAtEnd(b, ops[0]) || ReadsNothingAtEnd(Exec(b, ops[0]), ops[1..]))
  }

  /** THE TWO STORAGES ARE INTERCHANGEABLE: over every sequence of operations they go through the same states,
      and they give the same answers exactly when no zero-length read is made at the end. */
  lemma {:induction false} SameAnswers(b: Body, ops: seq<Op>)
    ensures Answers(b, ops) == DiskAnswers(b, ops) <==> !ReadsNothingAtEnd(b, ops)
    decreases |ops|
  {
    if ops != [] {
      var b' := Exec(b, ops[0]);
      SameAnswers(b', ops[1..]);
      assert Answers(b, ops)[1..] == Answers(b', ops[1..]);
      assert DiskAnswers(b, ops)[1..] == DiskAnswers(b', ops[1..]);
      assert Answers(b, ops)[0] == Answer(b, ops[0]) && DiskAnswers(b, ops)[0] == DiskAnswer(b, ops[0]);
    }
  }

  /** Seeking, written out: from the start, from where one is, and from the end; never before the start. */
  lemma SeekWrittenOut(b: Body, offset: int)
    requires !b.closed
    ensures offset >= 0 ==> Answer(b, Seek(offset, 0)) == At(offset) && Exec(b, Seek(offset, 0)).pos == offset
    ensures b.pos + offset >= 0 ==>
              Answer(b, Seek(offset, 1)) == At(b.pos + offset) && Exec(b, Seek(offset, 1)).pos == b.pos + offset
    ensures |b.contents| + offset >= 0 ==>
              var p := |b.contents| + offset; Answer(b, Seek(offset, 2)) == At(p) && Exec(b, Seek(offset, 2)).pos == p
    ensures offset < 0 ==> Answer(b, Seek(offset, 0)) == ErrInvalid && Exec(b, Seek(offset, 0)) == b
    ensures b.pos + offset < 0 ==> Answer(b, Seek(offset, 1)) == ErrInvalid && Exec(b, Seek(offset, 1)) == b
    ensures |b.contents| + offset < 0 ==> Answer(b, Seek(offset, 2)) == ErrInvalid && Exec(b, Seek(offset, 2)) == b
    ensures forall whence :: !(0 <= whence <= 2) ==> Answer(b, Seek(offset, whence)) == ErrInvalid
  {
  }

  /** A closed storage answers every operation but Close with an error and stays as it is; the bytes of an open one are
      all its contents, wherever its position is. */
  lemma ClosedAndWhole(b: Body, op: Op)
    ensures b.closed ==> Exec(b, op) == b && Answer(b, op) == if op.Close? then Done else ErrClosed
    ensures !b.closed ==> Answer(b, ReadBytes) == Whole(b.contents) && Exec(b, ReadBytes) == b
    ensures Exec(b, Close).closed && Answer(b, Close) == Done
  {
  }

  // ---------------------------------------------------------------- retries

  const REWIND := Seek(0, 0)

  predicate NeverCloses(ops: seq<Op>) {
    forall i :: 0 <= i < |ops| ==> !ops[i].Close?
  }

  /** No operation changes the contents, and only Close closes. */
  lemma {:induction false} ContentsStay(b: Body, ops: seq<Op>)
    ensures ExecAll(b, ops).contents == b.contents
    ensures ExecAll(b, ops).closed <==> b.closed || !NeverCloses(ops)
    decreases |ops|
  {
    if ops != [] {
      ContentsStay(Exec(b, ops[0]), ops[1..]);
      assert NeverCloses(ops) <==> !ops[0].Close? && NeverCloses(ops[1..]) by {
        assert forall i :: 0 < i < |ops| ==> ops[i] == ops[1..][i - 1];
      }
    }
  }

  function Reads(sizes: seq<nat>): seq<Op> {
    seq(|sizes|, i requires 0 <= i < |sizes| => Read(sizes[i]))
  }

  /** The bytes a sequence of answers delivered. */
  function Delivered(outs: seq<Out>): Bytes {
    if outs == [] then [] else (if outs[0].Data? then outs[0].data else []) + Delivered(outs[1..])
  }

  /** Non-empty reads deliver the contents in order with nothing skipped; once the end is reported, all of them. */
  lemma {:induction false} ReadsDeliver(b: Body, sizes: seq<nat>)
    requires !b.closed && b.pos <= |b.contents| && forall i :: 0 <= i < |sizes| ==> sizes[i] > 0
    ensures var outs := Answers(b, Reads(sizes)); var end := ExecAll(b, Reads(sizes)).pos;
            && |outs| == |sizes| && b.pos <= end <= |b.contents|
            && Delivered(outs) == b.contents[b.pos..end]
            && (EndOfFile in outs ==> end == |b.contents|)
    decreases |sizes|
  {
    if sizes != [] {
      var b' := Exec(b, Read(sizes[0]));
      assert Reads(sizes)[0] == Read(sizes[0]) && Reads(sizes)[1..] == Reads(sizes[1..]);
      ReadsDeliver(b', sizes[1..]);
      var outs := Answers(b, Reads(sizes));
      assert outs[1..] == Answers(b', Reads(sizes[1..])) && outs[0] == Answer(b, Read(sizes[0]));
    }
  }

  /** EVERY RETRY SEES THE WHOLE BODY. After any history, rewinding succeeds exactly when nothing closed the
      storage, and then any non-empty reads up to the end deliver the whole body, in memory and on disk. */
  lemma RetryReadsWholeBody(contents: Bytes, history: seq<Op>, sizes: seq<nat>)
    requires forall i :: 0 <= i < |sizes| ==> sizes[i] > 0
    ensures var b := ExecAll(Body(contents, 0, false), history);
            && (Answer(b, REWIND) == At(0) <==> NeverCloses(history))
            && (NeverCloses(history) ==>
                  var start := Exec(b, REWIND);
                  && start == Body(contents, 0, false)
                  && DiskAnswers(start, Reads(sizes)) == Answers(start, Reads(sizes))
                  && (EndOfFile in Answers(start, Reads(sizes)) ==>
                        Delivered(Answers(start, Reads(sizes))) == contents))
  {
    ContentsStay(Body(contents, 0, false), history);
    if NeverCloses(history) {
      var start := Body(contents, 0, false);
      ReadsDeliver(start, sizes);
      NoEmptyReads(start, sizes);
      SameAnswers(start, Reads(sizes));
    }
  }

  lemma {:induction false} NoEmptyReads(b: Body, sizes: seq<nat>)
    requires forall i :: 0 <= i < |sizes| ==> sizes[i] > 0
    ensures !ReadsNothingAtEnd(b, Reads(sizes))
    decreases |sizes|
  {
    if sizes != [] {
      assert Reads(sizes)[0] == Read(sizes[0]) && Reads(sizes)[1..] == Reads(sizes[1..]);
      NoEmptyReads(Exec(b, Read(sizes[0])), sizes[1..]);
    }
  }
}
