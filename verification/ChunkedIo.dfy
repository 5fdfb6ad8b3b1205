/** Chunked reads and writes over a server that may fail, answer short, or fail
    after doing part of the work. Every call to the server takes its outcome
    from an oracle, so a result for all oracles covers every pattern. */
module ChunkedIo {
  import opened Status
  import opened Attempts
  import opened Collections

  newtype byte = x: int | 0 <= x < 256

  const TWO_32: int := 0x1_0000_0000

  // ---- Reading ----

  datatype ReadOutcome =
    | NoContext            // the talloc context could not be created
    | ReadFailed(status: uint32)
    | Data(count: nat)     // at most this many of the bytes asked for

  ghost function Available(file: seq<byte>, offset: nat): nat {
    if offset < |file| then |file| - offset else 0
  }

  /** The `n` bytes of a stable file that start at `offset`. */
  ghost function Range(file: seq<byte>, offset: nat, n: nat): (r: seq<byte>)
    requires n <= Available(file, offset)
    ensures |r| == n && forall i :: 0 <= i < n ==> r[i] == file[offset + i]
  {
    if n == 0 then [] else file[offset..offset + n]
  }

  /** std::string::replace of `|d|` characters at `at` by `d`. */
  function Replace(buf: seq<byte>, at: nat, d: seq<byte>): (r: seq<byte>)
    requires at <= |buf|
    ensures |r| == if at + |d| < |buf| then |buf| else at + |d|
    ensures forall i :: 0 <= i < |r| ==> r[i] == if at <= i < at + |d| then d[i - at] else buf[i]
  {
    buf[..at] + d + buf[Min(at + |d|, |buf|)..]
  }

  /** Overwriting with two prefixes of one range leaves the longer of the two. */
  lemma ReplaceTwice(file: seq<byte>, offset: nat, buf: seq<byte>, at: nat, j: nat, k: nat)
    requires at <= |buf| && j <= Available(file, offset) && k <= Available(file, offset)
    ensures Replace(Replace(buf, at, Range(file, offset, j)), at, Range(file, offset, k))
         == Replace(buf, at, Range(file, offset, if j < k then k else j))
  {}

  lemma ReplaceNothing(buf: seq<byte>, at: nat)
    requires at <= |buf|
    ensures Replace(buf, at, []) == buf
  {}

  function ReadEnding(outcome: ReadOutcome, size: uint32, available: nat): Ending {
    match outcome
    case NoContext => Abort
    case ReadFailed(status) => if AbortsOn(status) then Abort else Again
    case Data(n) => if Min(n, Min(size as int, available)) == size as int then Complete else Again
  }

  /** An attempt without a memory context does not reach the server. */
  function ReadAttempt(outcome: ReadOutcome, opens: Option<Fnum>, size: uint32, available: nat): Attempt {
    Attempt(if outcome.NoContext? then None else opens, ReadEnding(outcome, size, available))
  }

  ghost predicate IsReadTrail(trail: seq<Attempt>, oracle: nat -> ReadOutcome, opens: nat -> Option<Fnum>,
                              clock: nat, size: uint32, available: nat) {
    forall i: nat :: i < |trail| ==> trail[i] == ReadAttempt(oracle(clock + i), opens(clock + i), size, available)
  }

  /** A read loop under way: every attempt so far is to be followed by another. */
  ghost predicate Reading(trail: seq<Attempt>, cached: Option<Fnum>, fnum: Option<Fnum>, oracle: nat -> ReadOutcome,
                          opens: nat -> Option<Fnum>, clock: nat, size: uint32, available: nat) {
    && AllAgain(trail) && IsReadTrail(trail, oracle, opens, clock, size, available)
    && fnum == HandleAfter(cached, trail)
  }

  /** A read loop that has ended, and the handle it gives to the cache. */
  ghost predicate HasRead(trail: seq<Attempt>, cached: Option<Fnum>, kept: Option<Fnum>, oracle: nat -> ReadOutcome,
                          opens: nat -> Option<Fnum>, clock: nat, size: uint32, available: nat, maxRetries: nat) {
    && IsTrail(trail, maxRetries) && IsReadTrail(trail, oracle, opens, clock, size, available)
    && kept == if Aborted(trail) then None else HandleAfter(cached, trail)
  }

  lemma ReadTrailPush(trail: seq<Attempt>, oracle: nat -> ReadOutcome, opens: nat -> Option<Fnum>, clock: nat,
                      size: uint32, available: nat)
    requires IsReadTrail(trail, oracle, opens, clock, size, available)
    ensures var n := clock + |trail|;
            var a := ReadAttempt(oracle(n), opens(n), size, available);
            IsReadTrail(trail + [a], oracle, opens, clock, size, available)
  {
  }

  lemma ReadingStep(trail: seq<Attempt>, cached: Option<Fnum>, fnum: Option<Fnum>, oracle: nat -> ReadOutcome,
                    opens: nat -> Option<Fnum>, clock: nat, size: uint32, available: nat, maxRetries: nat)
    returns (trail': seq<Attempt>)
    requires Reading(trail, cached, fnum, oracle, opens, clock, size, available) && |trail| <= maxRetries
    ensures var n := clock + |trail|;
            var a := ReadAttempt(oracle(n), opens(n), size, available);
            var fnum' := if fnum.Some? then fnum else a.opens;
            && |trail'| == |trail| + 1
            && (a.ending == Again ==> Reading(trail', cached, fnum', oracle, opens, clock, size, available))
            && (a.ending != Again || |trail| == maxRetries ==>
                  HasRead(trail', cached, if a.ending == Abort then None else fnum', oracle, opens, clock, size,
                          available, maxRetries))
            && Last(trail').ending == a.ending
  {
    var n := clock + |trail|;
    var a := ReadAttempt(oracle(n), opens(n), size, available);
    trail' := trail + [a];
    TrailStep(cached, trail, a, maxRetries);
    ReadTrailPush(trail, oracle, opens, clock, size, available);
  }

  /** What one attempt to read returns: the error of the failed call, or the count, with
      an error if it is short. */
  ghost predicate ReadTold(outcome: ReadOutcome, size: uint32, available: nat, count: uint32, error: Error) {
    match outcome
    case NoContext => count == 0 && error == Invalid
    case ReadFailed(status) => count == 0 && error == FromSmbErrorMessage(status)
    case Data(n) =>
      count as int == Min(n, Min(size as int, available)) && error == if count == size then NoError else Invalid
  }

  /** A failure after which the loops try again. */
  ghost predicate MayPass(status: uint32) {
    && !IsConnectionUnusable(status)
    && FromSmbErrorMessage(status) != NonExistent && FromSmbErrorMessage(status) != PermissionDenied
  }

  /** An attempt that is worth another one: a failure that may pass, or a short read. */
  ghost predicate ReadGoesOn(outcome: ReadOutcome, size: uint32, available: nat) {
    match outcome
    case NoContext => false
    case ReadFailed(status) => MayPass(status)
    case Data(n) => Min(n, Min(size as int, available)) < size as int
  }

  /** The calls of one loop, from `clock` on: all but the last are worth another one, and
      the last is only if there may be no more. */
  ghost predicate ReadsEnd(oracle: nat -> ReadOutcome, clock: nat, clock': nat, size: uint32, available: nat,
                           maxRetries: nat) {
    && clock < clock' <= clock + maxRetries + 1
    && (forall i :: clock <= i < clock' - 1 ==> ReadGoesOn(oracle(i), size, available))
    && (ReadGoesOn(oracle(clock' - 1), size, available) ==> clock' == clock + maxRetries + 1)
  }

  /** Copies what one attempt has read over what earlier attempts left in the
      buffer. */
  method CopyIn(file: seq<byte>, offset: nat, size: uint32, n: nat, ghost buf: seq<byte>, sofar: seq<byte>, at: nat,
                ghost longest: nat)
    returns (count: uint32, buf': seq<byte>, ghost longest': nat)
    requires at <= |buf| && longest <= size as int && longest <= Available(file, offset)
    requires sofar == Replace(buf, at, Range(file, offset, longest))
    ensures count as int == Min(n, Min(size as int, Available(file, offset)))
    ensures count as int <= longest' <= size as int && longest' <= Available(file, offset)
    ensures buf' == Replace(buf, at, Range(file, offset, longest'))
  {
    count := Min(n, Min(size as int, if offset < |file| then |file| - offset else 0)) as uint32;
    ReplaceTwice(file, offset, buf, at, longest, count as nat);
    buf' := Replace(sofar, at, if count == 0 then [] else file[offset..offset + count as int]);
    longest' := if longest < count as nat then count as nat else longest;
  }

  /** One attempt to read: `sofar` is what earlier attempts made of the buffer. */
  method TryRead(file: seq<byte>, offset: nat, size: uint32, ghost buf: seq<byte>, sofar: seq<byte>, at: nat,
                 outcome: ReadOutcome, ghost longest: nat)
    returns (count: uint32, error: Error, buf': seq<byte>, ending: Ending, ghost longest': nat)
    requires at <= |buf| && longest <= size as int && longest <= Available(file, offset)
    requires sofar == Replace(buf, at, Range(file, offset, longest))
    ensures ending == ReadEnding(outcome, size, Available(file, offset))
    ensures ReadTold(outcome, size, Available(file, offset), count, error)
    ensures ending == Again <==> ReadGoesOn(outcome, size, Available(file, offset))
    ensures count as int <= longest' <= size as int && longest' <= Available(file, offset)
    ensures buf' == Replace(buf, at, Range(file, offset, longest'))
    ensures error.Ok() <==> ending == Complete
    ensures ending == Complete ==> count == size
  {
    count, error, buf', ending, longest' := 0, Invalid, sofar, Again, longest;
    match outcome {
      case NoContext =>
        ending := Abort;
      case ReadFailed(status) =>
        error := FromSmbErrorMessage(status);
        if IsConnectionUnusable(status) || error == NonExistent || error == PermissionDenied {
          ending := Abort;
        }
      case Data(n) =>
        count, buf', longest' := CopyIn(file, offset, size, n, buf, sofar, at, longest);
        if size == count {
          error, ending := NoError, Complete;
        }
    }
  }

  /** One chunk with retries. The buffer ends up with the longest prefix of the
      range that any attempt produced, although only the last one is counted.
      `cached` is the handle found in the cache; `kept` is the handle handed to
      the cache afterwards, unless the loop is left early. */
  method ReadBytesFromOffset(file: seq<byte>, offset: nat, size: uint32, buf: seq<byte>, at: nat,
                             oracle: nat -> ReadOutcome, opens: nat -> Option<Fnum>, clock: nat, maxRetries: nat,
                             cached: Option<Fnum>)
    returns (count: uint32, error: Error, buf': seq<byte>, kept: Option<Fnum>, clock': nat,
             ghost longest: nat, ghost trail: seq<Attempt>)
    requires at <= |buf|
    ensures count as int <= longest <= size as int && longest <= Available(file, offset)
    ensures buf' == Replace(buf, at, Range(file, offset, longest))
    ensures error.Ok() ==> count == size
    ensures HasRead(trail, cached, kept, oracle, opens, clock, size, Available(file, offset), maxRetries)
    ensures trail != [] && clock' == clock + |trail| && (error.Ok() <==> Last(trail).ending == Complete)
    ensures ReadsEnd(oracle, clock, clock', size, Available(file, offset), maxRetries)
    ensures ReadTold(oracle(clock' - 1), size, Available(file, offset), count, error)
  {
    var fnum, retries, ending := cached, 0, Again;
    ghost var available := Available(file, offset);
    count, error, buf', clock', longest, trail := 0, Invalid, buf, clock, 0, [];
    ReplaceNothing(buf, at);
    while true
      invariant retries == |trail| <= maxRetries && clock' == clock + retries
      invariant longest <= size as int && longest <= Available(file, offset)
      invariant buf' == Replace(buf, at, Range(file, offset, longest))
      invariant Reading(trail, cached, fnum, oracle, opens, clock, size, available)
      invariant forall i :: clock <= i < clock' ==> ReadGoesOn(oracle(i), size, available)
      decreases maxRetries - retries
    {
      var outcome := oracle(clock');
      trail := ReadingStep(trail, cached, fnum, oracle, opens, clock, size, available, maxRetries);
      if fnum.None? && !outcome.NoContext? {
        fnum := opens(clock');
      }
      count, error, buf', ending, longest := TryRead(file, offset, size, buf, buf', at, outcome, longest);
      clock', retries := clock' + 1, retries + 1;
      if ending == Abort {
        return 0, error, buf', None, clock', longest, trail;
      }
      if ending == Complete || retries > maxRetries {
        break;
      }
    }
    kept := fnum;
  }

  /** A server that answers in full makes the first attempt the last. */
  lemma FullAnswerCompletes(trail: seq<Attempt>, oracle: nat -> ReadOutcome, opens: nat -> Option<Fnum>,
                            clock: nat, size: uint32, available: nat, maxRetries: nat)
    requires IsTrail(trail, maxRetries) && IsReadTrail(trail, oracle, opens, clock, size, available)
    requires oracle(clock) == Data(TWO_32) && size as int <= available
    ensures |trail| == 1 && Last(trail).ending == Complete
  {
    assert trail[0] == ReadAttempt(oracle(clock + 0), opens(clock + 0), size, available);
  }

  /** A chunk read at its place continues the range read so far. */
  lemma RangeExtends(file: seq<byte>, offset: nat, buf: seq<byte>, read: nat, n: nat)
    requires read <= |buf| <= Available(file, offset) && buf == Range(file, offset, |buf|)
    requires n <= Available(file, offset + read)
    ensures var b := Replace(buf, read, Range(file, offset + read, n));
            IsRange(file, offset, b) && |b| == if |buf| < read + n then read + n else |buf|
  {
    var b, m := Replace(buf, read, Range(file, offset + read, n)), if |buf| < read + n then read + n else |buf|;
    var r := Range(file, offset, m);
    forall i | 0 <= i < m ensures b[i] == r[i] {
      if read <= i < read + n {
        assert Range(file, offset + read, n)[i - read] == file[offset + read + (i - read)];
      }
    }
  }

  /** The error that goes with the last server call. */
  ghost predicate ReadReported(outcome: ReadOutcome, error: Error) {
    match outcome
    case NoContext => error == Invalid
    case ReadFailed(status) => error == FromSmbErrorMessage(status)
    case Data(_) => error.Ok() || error == Invalid
  }

  ghost predicate LostConnection(outcome: ReadOutcome) {
    outcome.ReadFailed? && IsConnectionUnusable(outcome.status)
  }

  /** The whole request: on success exactly the requested range, on any error a
      prefix of it, even though retries overwrite the same buffer region. The error is
      that of the last of the `calls` to the server; it asks for a retry exactly if that
      call found the connection unusable. What was read before an error is returned with it. */
  method FetchFileData(file: seq<byte>, offset: nat, size: int, maxReadSize: uint32,
                       oracle: nat -> ReadOutcome, opens: nat -> Option<Fnum>, maxRetries: nat)
    returns (data: seq<byte>, error: Error, ghost calls: nat)
    requires 0 < maxReadSize
    ensures size <= 0 ==> error == Invalid && data == []
    ensures error.Ok() ==> size % TWO_32 <= Available(file, offset) && data == Range(file, offset, size % TWO_32)
    ensures |data| <= Available(file, offset) && data == Range(file, offset, |data|)
    ensures size > 0 ==> |data| <= size % TWO_32
    ensures 0 < size && size % TWO_32 <= Available(file, offset) && (forall i :: oracle(i) == Data(TWO_32))
            ==> error.Ok()
    ensures size > 0 ==> if calls == 0 then error.Ok() else ReadReported(oracle(calls - 1), error)
    ensures error == Retry <==> size > 0 && calls > 0 && LostConnection(oracle(calls - 1))
    ensures size > 0 && oracle(0) == Data(TWO_32) ==>
              var first := Min(maxReadSize as int, size % TWO_32);
              first <= Available(file, offset) ==> first <= |data|
  {
    calls := 0;
    if size <= 0 {
      return [], Invalid, 0;
    }
    ghost var first := Min(maxReadSize as int, size % TWO_32);
    var requested: uint32 := (size % TWO_32) as uint32;
    var toRead: uint32, read: uint32, buf, clock := requested, 0, [], 0;
    var fnum: Option<Fnum> := None;
    while toRead > 0
      invariant read as int + toRead as int == requested as int
      invariant read as int <= |buf| <= requested as int && IsRange(file, offset, buf)
      invariant clock == calls && (calls > 0 ==> ReadReported(oracle(calls - 1), NoError))
      invariant calls == 0 ==> read == 0
      invariant calls > 0 && oracle(0) == Data(TWO_32) && first <= Available(file, offset) ==> first <= read as int
    {
      var chunk := if toRead < maxReadSize then toRead else maxReadSize;
      var count, e;
      count, e, buf, fnum, clock := ReadChunk(file, offset, read, chunk, buf, oracle, opens, clock, maxRetries, fnum);
      toRead, read, calls := toRead - count, read + count, clock;
      if !e.Ok() {
        return if read > 0 then buf else [], e, calls;
      }
    }
    return buf, NoError, calls;
  }

  ghost predicate IsRange(file: seq<byte>, offset: nat, buf: seq<byte>) {
    |buf| <= Available(file, offset) && buf == Range(file, offset, |buf|)
  }

  /** One step of the chunk loop: the buffer stays a range of the file. */
  method ReadChunk(file: seq<byte>, offset: nat, read: uint32, chunk: uint32, buf: seq<byte>,
                   oracle: nat -> ReadOutcome, opens: nat -> Option<Fnum>, clock: nat, maxRetries: nat,
                   fnum: Option<Fnum>)
    returns (count: uint32, error: Error, buf': seq<byte>, kept: Option<Fnum>, clock': nat)
    requires read as int <= |buf| && IsRange(file, offset, buf)
    ensures count <= chunk && (error.Ok() ==> count == chunk)
    ensures IsRange(file, offset, buf') && read as int + count as int <= |buf'|
    ensures |buf'| <= if |buf| < read as int + chunk as int then read as int + chunk as int else |buf|
    ensures oracle(clock) == Data(TWO_32) && read as int + chunk as int <= Available(file, offset) ==> error.Ok()
    ensures clock < clock' && ReadReported(oracle(clock' - 1), error)
  {
    ghost var longest, trail;
    count, error, buf', kept, clock', longest, trail := ReadBytesFromOffset(
      file, offset + read as nat, chunk, buf, read as nat, oracle, opens, clock, maxRetries, fnum);
    RangeExtends(file, offset, buf, read as nat, longest);
    if oracle(clock) == Data(TWO_32) && read as int + chunk as int <= Available(file, offset) {
      FullAnswerCompletes(trail, oracle, opens, clock, chunk, Available(file, offset + read as nat), maxRetries);
    }
  }

  // ---- Writing ----

  datatype WriteOutcome =
    | WriteFailed(status: uint32, done: nat)  // reports 0 although `done` bytes may have landed
    | Wrote(count: nat)

  function Zeros(n: nat): (z: seq<byte>)
    ensures |z| == n && forall i :: 0 <= i < n ==> z[i] == 0
  {
    seq(n, i => 0)
  }

  /** One logical write: bytes outside the range stay, a gap before it is zero. */
  function WriteAt(file: seq<byte>, offset: nat, d: seq<byte>): seq<byte> {
    if d == [] then file else
      var padded := if |file| < offset then file + Zeros(offset - |file|) else file;
      padded[..offset] + d + padded[Min(offset + |d|, |padded|)..]
  }

  lemma WriteAtIndex(file: seq<byte>, offset: nat, d: seq<byte>)
    ensures d != [] ==> |WriteAt(file, offset, d)| == if offset + |d| < |file| then |file| else offset + |d|
    ensures forall i :: 0 <= i < |WriteAt(file, offset, d)| ==>
              WriteAt(file, offset, d)[i] ==
              if offset <= i < offset + |d| then d[i - offset] else if i < |file| then file[i] else 0
  {}

  /** The byte at `i` after a write. */
  ghost function ByteAt(file: seq<byte>, offset: nat, d: seq<byte>, i: nat): byte {
    if offset <= i < offset + |d| then d[i - offset] else if i < |file| then file[i] else 0
  }

  lemma WriteAtByte(file: seq<byte>, offset: nat, d: seq<byte>, i: nat)
    requires i < |WriteAt(file, offset, d)|
    ensures WriteAt(file, offset, d)[i] == ByteAt(file, offset, d, i)
  {
    WriteAtIndex(file, offset, d);
  }

  lemma WriteAtSize(file: seq<byte>, offset: nat, d: seq<byte>)
    ensures |WriteAt(file, offset, d)| == if d == [] || offset + |d| < |file| then |file| else offset + |d|
  {
  }

  /** `piece` is the part of the data that starts at `from`. */
  ghost predicate IsPart(piece: seq<byte>, data: seq<byte>, from: nat) {
    from + |piece| <= |data| && forall i :: 0 <= i < |piece| ==> piece[i] == data[from + i]
  }

  lemma WriteOnByte(file: seq<byte>, offset: nat, data: seq<byte>, j: nat, from: nat, piece: seq<byte>, m: nat,
                    f: seq<byte>, i: nat)
    requires from <= j <= |data| && IsPart(piece, data, from)
    requires m == if j < from + |piece| then from + |piece| else j
    requires f == WriteAt(file, offset, data[..j])
    ensures ByteAt(f, offset + from, piece, i) == ByteAt(file, offset, data[..m], i)
  {
    WriteAtSize(file, offset, data[..j]);
    if i < |f| {
      WriteAtByte(file, offset, data[..j], i);
    }
  }

  lemma WriteOnSize(file: seq<byte>, offset: nat, data: seq<byte>, j: nat, from: nat, piece: seq<byte>, m: nat)
    requires from <= j <= |data| && piece != [] && from + |piece| <= |data|
    requires m == if j < from + |piece| then from + |piece| else j
    ensures |WriteAt(WriteAt(file, offset, data[..j]), offset + from, piece)| == |WriteAt(file, offset, data[..m])|
  {
    WriteAtSize(file, offset, data[..j]);
    WriteAtSize(file, offset, data[..m]);
    WriteAtSize(WriteAt(file, offset, data[..j]), offset + from, piece);
  }

  /** Writing on from any point already reached extends the prefix written. */
  lemma WriteOn(file: seq<byte>, offset: nat, data: seq<byte>, j: nat, from: nat, piece: seq<byte>)
    requires from <= j <= |data| && IsPart(piece, data, from)
    ensures WriteAt(WriteAt(file, offset, data[..j]), offset + from, piece)
         == WriteAt(file, offset, data[..if j < from + |piece| then from + |piece| else j])
  {
    if piece != [] {
      var m := if j < from + |piece| then from + |piece| else j;
      var f, w := WriteAt(file, offset, data[..j]), WriteAt(file, offset, data[..m]);
      var g := WriteAt(f, offset + from, piece);
      WriteOnSize(file, offset, data, j, from, piece, m);
      forall i | 0 <= i < |g| ensures g[i] == w[i] {
        WriteAtByte(f, offset + from, piece, i);
        WriteAtByte(file, offset, data[..m], i);
        WriteOnByte(file, offset, data, j, from, piece, m, f, i);
      }
    }
  }

  lemma NextChunk(file: seq<byte>, offset: nat, data: seq<byte>, j: nat, from: nat, k: nat)
    requires from <= j <= |data| && from + k <= |data|
    ensures WriteAt(WriteAt(file, offset, data[..j]), offset + from, data[from..][..k])
         == WriteAt(file, offset, data[..if j < from + k then from + k else j])
  {
    WriteOn(file, offset, data, j, from, data[from..][..k]);
  }

  /** What the server does on one write call: the bytes it stores. */
  function Stored(outcome: WriteOutcome, size: uint32): (n: nat)
    ensures n <= size as int
    ensures outcome.Wrote? && 0 < size ==> 0 < n
  {
    match outcome
    case WriteFailed(_, done) => Min(done, size as int)
    case Wrote(n) => Min(if n == 0 then 1 else n, size as int)
  }

  /** `f` is `file` with the first `n` bytes of the data written at the offset. */
  ghost predicate IsWritten(file: seq<byte>, f: seq<byte>, offset: nat, data: seq<byte>, n: nat) {
    n <= |data| && f == WriteAt(file, offset, data[..n])
  }

  function WriteEnding(outcome: WriteOutcome, size: uint32): Ending {
    match outcome
    case WriteFailed(status, _) => if AbortsOn(status) then Abort else Again
    case Wrote(_) => if Stored(outcome, size) == size as int then Complete else Again
  }

  ghost predicate IsWriteTrail(trail: seq<Attempt>, oracle: nat -> WriteOutcome, opens: nat -> Option<Fnum>,
                               clock: nat, size: uint32) {
    forall i: nat :: i < |trail| ==> trail[i] == Attempt(opens(clock + i), WriteEnding(oracle(clock + i), size))
  }

  ghost predicate Writing(trail: seq<Attempt>, cached: Option<Fnum>, fnum: Option<Fnum>, oracle: nat -> WriteOutcome,
                          opens: nat -> Option<Fnum>, clock: nat, size: uint32) {
    AllAgain(trail) && IsWriteTrail(trail, oracle, opens, clock, size) && fnum == HandleAfter(cached, trail)
  }

  ghost predicate HasWritten(trail: seq<Attempt>, cached: Option<Fnum>, kept: Option<Fnum>,
                             oracle: nat -> WriteOutcome, opens: nat -> Option<Fnum>, clock: nat, size: uint32,
                             maxRetries: nat) {
    && IsTrail(trail, maxRetries) && IsWriteTrail(trail, oracle, opens, clock, size)
    && kept == if Aborted(trail) then None else HandleAfter(cached, trail)
  }

  lemma WriteTrailPush(trail: seq<Attempt>, oracle: nat -> WriteOutcome, opens: nat -> Option<Fnum>, clock: nat,
                       size: uint32)
    requires IsWriteTrail(trail, oracle, opens, clock, size)
    ensures var n := clock + |trail|;
            IsWriteTrail(trail + [Attempt(opens(n), WriteEnding(oracle(n), size))], oracle, opens, clock, size)
  {
  }

  lemma WritingStep(trail: seq<Attempt>, cached: Option<Fnum>, fnum: Option<Fnum>, oracle: nat -> WriteOutcome,
                    opens: nat -> Option<Fnum>, clock: nat, size: uint32, maxRetries: nat)
    returns (trail': seq<Attempt>)
    requires Writing(trail, cached, fnum, oracle, opens, clock, size) && |trail| <= maxRetries
    ensures var n := clock + |trail|;
            var a := Attempt(opens(n), WriteEnding(oracle(n), size));
            var fnum' := if fnum.Some? then fnum else a.opens;
            && |trail'| == |trail| + 1
            && (a.ending == Again ==> Writing(trail', cached, fnum', oracle, opens, clock, size))
            && (a.ending != Again || |trail| == maxRetries ==>
                  HasWritten(trail', cached, if a.ending == Abort then None else fnum', oracle, opens, clock, size,
                             maxRetries))
            && Last(trail').ending == a.ending
  {
    var n := clock + |trail|;
    var a := Attempt(opens(n), WriteEnding(oracle(n), size));
    trail' := trail + [a];
    TrailStep(cached, trail, a, maxRetries);
    WriteTrailPush(trail, oracle, opens, clock, size);
  }

  lemma StoreMore(file: seq<byte>, offset: nat, data: seq<byte>, landed: nat, n: nat)
    requires landed <= |data| && n <= |data|
    ensures WriteAt(WriteAt(file, offset, data[..landed]), offset, data[..n])
         == WriteAt(file, offset, data[..if landed < n then n else landed])
  {
    WriteOn(file, offset, data, landed, 0, data[..n]);
  }

  /** One write call: the server stores a prefix of the chunk over what earlier
      attempts stored. */
  method StoreOnce(ghost file: seq<byte>, sofar: seq<byte>, offset: nat, size: uint32, data: seq<byte>,
                   outcome: WriteOutcome, ghost landed: nat)
    returns (count: uint32, file': seq<byte>, ghost landed': nat)
    requires 0 < size as int <= |data| && landed <= size as int && IsWritten(file, sofar, offset, data, landed)
    ensures count as int == if outcome.Wrote? then Stored(outcome, size) else 0
    ensures count as int <= landed' <= size as int && IsWritten(file, file', offset, data, landed')
  {
    var n := Stored(outcome, size);
    StoreMore(file, offset, data, landed, n);
    file' := WriteAt(sofar, offset, data[..n]);
    landed' := if landed < n then n else landed;
    count := if outcome.Wrote? then n as uint32 else 0;
  }

  /** A write call that is worth another one. A write reports at least one byte. */
  ghost predicate WriteGoesOn(outcome: WriteOutcome, size: uint32) {
    match outcome
    case WriteFailed(status, _) => MayPass(status)
    case Wrote(n) => n < size as int && 1 < size
  }

  ghost predicate WritesGoOn(oracle: nat -> WriteOutcome, from: nat, to: nat, size: uint32) {
    forall i :: from <= i < to ==> WriteGoesOn(oracle(i), size)
  }

  ghost predicate WritesEnd(oracle: nat -> WriteOutcome, clock: nat, clock': nat, size: uint32, maxRetries: nat) {
    && clock < clock' <= clock + maxRetries + 1 && WritesGoOn(oracle, clock, clock' - 1, size)
    && (WriteGoesOn(oracle(clock' - 1), size) ==> clock' == clock + maxRetries + 1)
  }

  /** The calls from `from` up to `to` leave the error of call `j`, after which there were
      only short writes. */
  ghost predicate LeftBy(oracle: nat -> WriteOutcome, j: nat, to: nat, error: Error) {
    j < to && oracle(j).WriteFailed? && error == FromSmbErrorMessage(oracle(j).status)
    && forall k :: j < k < to ==> oracle(k).Wrote?
  }

  /** The error after the calls from `from` up to `to`: that of the last one that failed,
      because a short write leaves the error as it was, and none if none failed or after
      a full write. */
  ghost predicate WriteReported(oracle: nat -> WriteOutcome, from: nat, to: nat, size: uint32, error: Error) {
    if error.Ok() then (from < to && oracle(to - 1).Wrote? && !WriteGoesOn(oracle(to - 1), size))
                       || forall j :: from <= j < to ==> oracle(j).Wrote?
    else exists j :: from <= j && LeftBy(oracle, j, to, error)
  }

  ghost predicate LostOnWrite(outcome: WriteOutcome) {
    outcome.WriteFailed? && IsConnectionUnusable(outcome.status)
  }

  /** One more call after some that were worth it. */
  lemma ReportOneMore(oracle: nat -> WriteOutcome, from: nat, to: nat, size: uint32, before: Error, error: Error)
    requires from <= to && WriteReported(oracle, from, to, size, before) && WritesGoOn(oracle, from, to, size)
    requires error == if oracle(to).WriteFailed? then FromSmbErrorMessage(oracle(to).status)
                      else if WriteGoesOn(oracle(to), size) then before else NoError
    ensures WriteReported(oracle, from, to + 1, size, error)
  {
    if oracle(to).WriteFailed? {
      assert LeftBy(oracle, to, to + 1, error);
    } else if !error.Ok() {
      var j :| from <= j && LeftBy(oracle, j, to, before);
      assert LeftBy(oracle, j, to + 1, error);
    }
  }

  lemma EndOneMore(oracle: nat -> WriteOutcome, from: nat, to: nat, size: uint32, maxRetries: nat)
    requires from <= to <= from + maxRetries && WritesGoOn(oracle, from, to, size)
    ensures WriteGoesOn(oracle(to), size) ==> WritesGoOn(oracle, from, to + 1, size)
    ensures !WriteGoesOn(oracle(to), size) || to == from + maxRetries ==>
              WritesEnd(oracle, from, to + 1, size, maxRetries)
  {
  }

  /** What the error says of the last call: only failures that end the loop at once leave
      these three errors. */
  ghost predicate WriteTold(outcome: WriteOutcome, error: Error) {
    && (error == Retry <==> LostOnWrite(outcome))
    && (error == NonExistent || error == PermissionDenied ==> outcome.WriteFailed?)
    && (outcome.WriteFailed? ==> error == FromSmbErrorMessage(outcome.status))
  }

  lemma ReportedAtLast(oracle: nat -> WriteOutcome, from: nat, to: nat, size: uint32, maxRetries: nat, error: Error)
    requires WritesEnd(oracle, from, to, size, maxRetries) && WriteReported(oracle, from, to, size, error)
    ensures WriteTold(oracle(to - 1), error)
    ensures !error.Ok() ==> exists j :: LeftBy(oracle, j, to, error)
  {
    if !error.Ok() {
      var j :| from <= j && LeftBy(oracle, j, to, error);
      if j < to - 1 {
        assert WriteGoesOn(oracle(j), size);
      }
    }
  }

  /** One attempt to write. A short write leaves the error as it was. */
  method TryWrite(ghost file: seq<byte>, sofar: seq<byte>, offset: nat, size: uint32, data: seq<byte>,
                  outcome: WriteOutcome, before: Error, ghost landed: nat)
    returns (count: uint32, error: Error, file': seq<byte>, ending: Ending, ghost landed': nat)
    requires 0 < size as int <= |data| && landed <= size as int && IsWritten(file, sofar, offset, data, landed)
    ensures ending == WriteEnding(outcome, size) && (ending == Again <==> WriteGoesOn(outcome, size))
    ensures error == if outcome.WriteFailed? then FromSmbErrorMessage(outcome.status)
                     else if WriteGoesOn(outcome, size) then before else NoError
    ensures count as int <= landed' <= size as int && IsWritten(file, file', offset, data, landed')
    ensures error.Ok() ==> 0 < count
    ensures ending == Complete ==> error.Ok()
    ensures ending == Abort ==> !error.Ok()
  {
    error, ending := before, Again;
    count, file', landed' := StoreOnce(file, sofar, offset, size, data, outcome, landed);
    if count == 0 {
      error := FromSmbErrorMessage(outcome.status);
      if IsConnectionUnusable(outcome.status) || error == NonExistent || error == PermissionDenied {
        ending := Abort;
      }
    } else if size == count {
      error, ending := NoError, Complete;
    }
  }

  /** One chunk with retries: some prefix of the chunk is on the share, at least
      as long as the count returned; without an error the count is positive. The
      handles are as for a read. */
  method WriteBytesToOffset(file: seq<byte>, offset: nat, size: uint32, data: seq<byte>,
                            oracle: nat -> WriteOutcome, opens: nat -> Option<Fnum>, clock: nat, maxRetries: nat,
                            cached: Option<Fnum>)
    returns (count: uint32, error: Error, file': seq<byte>, kept: Option<Fnum>, clock': nat,
             ghost landed: nat, ghost trail: seq<Attempt>)
    requires 0 < size as int <= |data|
    ensures count as int <= landed <= size as int && IsWritten(file, file', offset, data, landed)
    ensures error.Ok() ==> 0 < count
    ensures HasWritten(trail, cached, kept, oracle, opens, clock, size, maxRetries)
    ensures trail != [] && clock' == clock + |trail| && (Last(trail).ending == Complete ==> error.Ok())
    ensures WritesEnd(oracle, clock, clock', size, maxRetries) && WriteReported(oracle, clock, clock', size, error)
  {
    var fnum, retries, ending := cached, 0, Again;
    count, error, file', clock', landed, trail := 0, NoError, file, clock, 0, [];
    assert data[..0] == [];
    while true
      invariant retries == |trail| <= maxRetries && clock' == clock + retries
      invariant landed <= size as int && IsWritten(file, file', offset, data, landed)
      invariant Writing(trail, cached, fnum, oracle, opens, clock, size)
      invariant WritesGoOn(oracle, clock, clock', size)
      invariant WriteReported(oracle, clock, clock', size, error)
      decreases maxRetries - retries
    {
      var outcome := oracle(clock');
      trail := WritingStep(trail, cached, fnum, oracle, opens, clock, size, maxRetries);
      if fnum.None? {
        fnum := opens(clock');
      }
      ghost var before := error;
      count, error, file', ending, landed := TryWrite(file, file', offset, size, data, outcome, error, landed);
      ReportOneMore(oracle, clock, clock', size, before, error);
      EndOneMore(oracle, clock, clock', size, maxRetries);
      clock', retries := clock' + 1, retries + 1;
      if ending == Abort {
        return 0, error, file', None, clock', landed, trail;
      }
      if ending == Complete || retries > maxRetries {
        break;
      }
    }
    kept := fnum;
  }

  lemma FullWriteCompletes(trail: seq<Attempt>, oracle: nat -> WriteOutcome, opens: nat -> Option<Fnum>,
                           clock: nat, size: uint32, maxRetries: nat)
    requires IsTrail(trail, maxRetries) && IsWriteTrail(trail, oracle, opens, clock, size)
    requires oracle(clock) == Wrote(TWO_32)
    ensures Last(trail).ending == Complete
  {
    assert trail[0] == Attempt(opens(clock + 0), WriteEnding(oracle(clock + 0), size));
  }

  /** The size kept of a stubbed file: trailing zero bytes go, but never the
      first byte. */
  ghost function StubSize(data: seq<byte>, size: nat): (n: nat)
    requires size <= |data|
    ensures n <= size
    ensures forall i :: n <= i < size ==> data[i] == 0
    ensures 1 < n ==> data[n - 1] != 0
    ensures 0 < size ==> 0 < n
  {
    if size <= 1 || data[size - 1] != 0 then size else StubSize(data, size - 1)
  }

  /** `memory` is the memory that begins at the request's data; nothing checks that
      the size stays within the data. */
  method TrimStub(memory: seq<byte>, size: nat) returns (kept: int)
    requires size <= |memory|
    ensures kept == StubSize(memory, size)
  {
    kept := size - 1;
    while kept > 0 && memory[kept] == 0
      invariant -1 <= kept < size && (kept == -1 ==> size == 0)
      invariant kept >= 0 ==> StubSize(memory, size) == StubSize(memory, kept + 1)
    {
      kept := kept - 1;
    }
    assert kept >= 0 ==> StubSize(memory, kept + 1) == kept + 1;
    kept := kept + 1;
  }

  /** The number of bytes a request really writes. */
  ghost function Requested(data: seq<byte>, size: nat, isStubbed: bool): nat
    requires size <= |data|
  {
    (if isStubbed then StubSize(data, size) else size) % TWO_32
  }

  /** One step of the chunk loop: what is on the share stays a prefix of the data. */
  method WriteChunk(ghost file: seq<byte>, sofar: seq<byte>, offset: nat, written: uint32, chunk: uint32,
                    data: seq<byte>, ghost landed: nat, oracle: nat -> WriteOutcome, opens: nat -> Option<Fnum>,
                    clock: nat, maxRetries: nat, fnum: Option<Fnum>)
    returns (count: uint32, error: Error, file': seq<byte>, kept: Option<Fnum>, clock': nat, ghost landed': nat)
    requires 0 < chunk && written as int + chunk as int <= |data| && written as int <= landed <= |data|
    requires sofar == WriteAt(file, offset, data[..landed])
    ensures count <= chunk && landed <= landed' <= Max(landed, written as int + chunk as int)
    ensures written as int + count as int <= landed' && file' == WriteAt(file, offset, data[..landed'])
    ensures error.Ok() ==> 0 < count
    ensures oracle(clock) == Wrote(TWO_32) ==> error.Ok()
    ensures clock < clock' && WriteTold(oracle(clock' - 1), error)
    ensures !error.Ok() ==> exists j :: LeftBy(oracle, j, clock', error)
  {
    ghost var k, trail;
    count, error, file', kept, clock', k, trail := WriteBytesToOffset(
      sofar, offset + written as nat, chunk, data[written as int..], oracle, opens, clock, maxRetries, fnum);
    NextChunk(file, offset, data, landed, written as nat, k);
    ReportedAtLast(oracle, clock, clock', chunk, maxRetries, error);
    if oracle(clock) == Wrote(TWO_32) {
      FullWriteCompletes(trail, oracle, opens, clock, chunk, maxRetries);
    }
    landed' := Max(landed, written as nat + k);
  }

  /** The chunk loop over `requested` bytes. */
  method WriteChunks(file: seq<byte>, data: seq<byte>, requested: uint32, offset: nat,
                     maxWriteSize: uint32, oracle: nat -> WriteOutcome, opens: nat -> Option<Fnum>, maxRetries: nat)
    returns (error: Error, file': seq<byte>, ghost landed: nat, ghost calls: nat)
    requires 0 < maxWriteSize && requested as int <= |data|
    ensures landed <= requested as int && file' == WriteAt(file, offset, data[..landed])
    ensures error.Ok() ==> landed == requested as int
    ensures (forall i :: oracle(i) == Wrote(TWO_32)) ==> error.Ok()
    ensures if calls == 0 then error.Ok() else WriteTold(oracle(calls - 1), error)
    ensures !error.Ok() ==> exists j :: LeftBy(oracle, j, calls, error)
  {
    var toWrite: uint32, written: uint32, clock := requested, 0, 0;
    var fnum: Option<Fnum> := None;
    error, file', landed, calls := NoError, file, 0, 0;
    while toWrite > 0
      invariant error.Ok()
      invariant written as int + toWrite as int == requested as int
      invariant written as int <= landed <= requested as int
      invariant file' == WriteAt(file, offset, data[..landed])
      invariant clock == calls && (calls > 0 ==> WriteTold(oracle(calls - 1), NoError))
    {
      var chunk := if toWrite < maxWriteSize then toWrite else maxWriteSize;
      var count, e;
      count, e, file', fnum, clock, landed := WriteChunk(
        file, file', offset, written, chunk, data, landed, oracle, opens, clock, maxRetries, fnum);
      toWrite, written, calls := toWrite - count, written + count, clock;
      if !e.Ok() {
        return e, file', landed, calls;
      }
    }
  }

  /** Only bytes of the request's data are written exactly if the size stays within
      the data, or what lies behind the data is zero and trimmed. */
  lemma WritesOnlyDataIff(memory: seq<byte>, data: seq<byte>, size: nat, isStubbed: bool)
    requires data <= memory && data != [] && size <= |memory| && size < TWO_32
    ensures memory[..Requested(memory, size, isStubbed)] <= data <==>
            (size <= |data| || (isStubbed && forall i :: |data| <= i < size ==> memory[i] == 0))
  {
    var n := Requested(memory, size, isStubbed);
    if |data| < n && isStubbed {
      assert memory[n - 1] != 0;
    }
  }

  /** All chunks: on success one logical write of the requested bytes, on error
      one logical write of a prefix of them; never a byte outside the range. */
  method WriteFileDataHelper(file: seq<byte>, memory: seq<byte>, size: nat, offset: nat, isStubbed: bool,
                             maxWriteSize: uint32, oracle: nat -> WriteOutcome, opens: nat -> Option<Fnum>,
                             maxRetries: nat)
    returns (error: Error, file': seq<byte>, ghost landed: nat, ghost calls: nat)
    requires 0 < maxWriteSize && size <= |memory|
    ensures landed <= Requested(memory, size, isStubbed) <= size
    ensures file' == WriteAt(file, offset, memory[..landed])
    ensures error.Ok() ==> landed == Requested(memory, size, isStubbed)
    ensures (forall i :: oracle(i) == Wrote(TWO_32)) ==> error.Ok()
    ensures if calls == 0 then error.Ok() else WriteTold(oracle(calls - 1), error)
    ensures !error.Ok() ==> exists j :: LeftBy(oracle, j, calls, error)
  {
    var kept := size;
    if isStubbed {
      kept := TrimStub(memory, size);
    }
    error, file', landed, calls := WriteChunks(
      file, memory, (kept % TWO_32) as uint32, offset, maxWriteSize, oracle, opens, maxRetries);
  }

  ghost predicate ZeroIn(file: seq<byte>, lo: nat, hi: nat)
    requires hi <= |file|
  {
    forall i :: lo <= i < hi ==> file[i] == 0
  }

  /** Trimming trailing zeros of a stub gives the same file exactly when there
      was nothing to trim, or the trimmed part of the range already exists and
      is zero. */
  lemma StubbedWriteSameFile(file: seq<byte>, offset: nat, data: seq<byte>, size: nat)
    requires size <= |data|
    ensures var n := StubSize(data, size);
            WriteAt(file, offset, data[..n]) == WriteAt(file, offset, data[..size])
            <==> (n == size || (offset + size <= |file| && ZeroIn(file, offset + n, offset + size)))
  {
    var n := StubSize(data, size);
    if n == size {
      assert data[..n] == data[..size];
    } else {
      if WriteAt(file, offset, data[..n]) == WriteAt(file, offset, data[..size]) {
        SameMeansZeroTail(file, offset, data, n, size);
      }
      if offset + size <= |file| && ZeroIn(file, offset + n, offset + size) {
        ZeroTailMeansSame(file, offset, data, n, size);
      }
    }
  }

  lemma SameMeansZeroTail(file: seq<byte>, offset: nat, data: seq<byte>, n: nat, size: nat)
    requires 0 < n < size <= |data| && forall i :: n <= i < size ==> data[i] == 0
    requires WriteAt(file, offset, data[..n]) == WriteAt(file, offset, data[..size])
    ensures offset + size <= |file| && ZeroIn(file, offset + n, offset + size)
  {
    var a, b := WriteAt(file, offset, data[..n]), WriteAt(file, offset, data[..size]);
    WriteAtIndex(file, offset, data[..n]);
    WriteAtIndex(file, offset, data[..size]);
    assert offset + size <= |file|;
    forall j | offset + n <= j < offset + size ensures file[j] == 0 {
      assert a[j] == file[j] && b[j] == data[..size][j - offset];
    }
  }

  lemma ZeroTailMeansSame(file: seq<byte>, offset: nat, data: seq<byte>, n: nat, size: nat)
    requires 0 < n < size <= |data| && forall i :: n <= i < size ==> data[i] == 0
    requires offset + size <= |file| && ZeroIn(file, offset + n, offset + size)
    ensures WriteAt(file, offset, data[..n]) == WriteAt(file, offset, data[..size])
  {
    var a, b := WriteAt(file, offset, data[..n]), WriteAt(file, offset, data[..size]);
    WriteAtIndex(file, offset, data[..n]);
    WriteAtIndex(file, offset, data[..size]);
    assert |a| == |b| == |file|;
    forall j | 0 <= j < |a| ensures a[j] == b[j] {
      if offset + n <= j < offset + size {
        assert b[j] == data[..size][j - offset] == data[j - offset];
      }
    }
  }

  /** Writing a stub over a range that is already zero-filled loses nothing. */
  lemma StubOverZeros(file: seq<byte>, offset: nat, data: seq<byte>, size: nat)
    requires size <= |data| && offset + size <= |file|
    requires ZeroIn(file, offset, offset + size)
    ensures WriteAt(file, offset, data[..StubSize(data, size)]) == WriteAt(file, offset, data[..size])
  {
    var n := StubSize(data, size);
    if n < size {
      ZeroTailMeansSame(file, offset, data, n, size);
    }
  }

  // ---- Inputs at which less is written or read than was asked for ----

  /** The last byte of the stub [1, 0] is not written to an empty file. */
  lemma StubLosesLength()
    ensures StubSize([1, 0], 2) == 1
    ensures WriteAt([], 0, [1, 0][..1]) == [1] && WriteAt([], 0, [1, 0][..2]) == [1, 0]
  {
    assert StubSize([1, 0], 1) == 1;
    assert [1, 0][..1] == [1] && [1, 0][..2] == [1, 0];
    assert WriteAt([], 0, [1]) == [] + [1] + [] && WriteAt([], 0, [1, 0]) == [] + [1, 0] + [];
  }

  /** Of 2^32 bytes none is written. */
  lemma FourGigabytesWriteNothing(data: seq<byte>)
    requires |data| == TWO_32
    ensures Requested(data, |data|, false) == 0
  {
  }

  /** Of 2^32 bytes none is read, and the read is reported as a success, although the
      server does all it is asked to. */
  method FourGigabytesReadNothing(file: seq<byte>, offset: nat, maxReadSize: uint32, opens: nat -> Option<Fnum>,
                                  maxRetries: nat)
    returns (data: seq<byte>, error: Error)
    requires 0 < maxReadSize
    ensures error.Ok() && data == []
  {
    ghost var calls;
    data, error, calls := FetchFileData(file, offset, TWO_32, maxReadSize, n => Data(TWO_32), opens, maxRetries);
  }
}
