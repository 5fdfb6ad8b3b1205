/** Restoring a non-empty regular file: create the temporary file, write it, and
    rename it to its final path. Every call to the server may fail, with or
    without having taken effect; only reports that a path does not exist are
    trusted. Attributes are not part of the model. */
module Restore {
  import opened Status
  import ChunkedIo

  type Bytes = seq<ChunkedIo.byte>

  datatype Kind = FileKind | DirKind | LinkKind

  datatype Entity = Regular(data: Bytes) | Folder(entries: nat) | Link

  type Files = map<string, Entity>

  datatype Target = Target(final: string, tmp: string)

  /** What the client says is at the final path. */
  datatype Existing = NotGiven | Broken(error: Error) | Known(kind: Kind)

  datatype Request =
    | Create(target: Target, existing: Existing)
    | Write(target: Target, offset: nat, data: Bytes)
    | Finalize(target: Target, commit: bool)

  // ---- What a request does, as a relation between shares ----

  ghost predicate SameOutside(a: Files, b: Files, ps: set<string>) {
    forall p :: p !in ps ==> (p in a <==> p in b) && (p in a ==> a[p] == b[p])
  }

  /** `v` is what may be left of `u` while it is being deleted. */
  predicate Remnant(u: Entity, v: Entity) {
    match u
    case Folder(n) => v.Folder? && v.entries <= n
    case _ => u == v
  }

  /** At `p` there is nothing new. */
  predicate Withered(a: Files, b: Files, p: string) {
    p in b ==> p in a && Remnant(a[p], b[p])
  }

  predicate HasRegular(f: Files, p: string) { p in f && f[p].Regular? }

  function Renamed(f: Files, from: string, to: string): Files
    requires from in f
  {
    (f - {from})[to := f[from]]
  }

  ghost function Landed(f: Files, p: string, offset: nat, data: Bytes, n: nat): Files
    requires n <= |data|
  {
    if HasRegular(f, p) then f[p := Regular(ChunkedIo.WriteAt(f[p].data, offset, data[..n]))] else f
  }

  ghost predicate Created(t: Target, a: Files, b: Files, e: Error) {
    && SameOutside(a, b, {t.final, t.tmp})
    && Withered(a, b, t.final)
    && (t.tmp in b ==> b[t.tmp] == Regular([]) || (t.tmp in a && a[t.tmp] == b[t.tmp]))
    && (e.Ok() ==> t.final !in b && t.tmp in b && b[t.tmp] == Regular([]))
  }

  /** A prefix of the data is written, on success all of it. */
  ghost predicate Written(t: Target, offset: nat, data: Bytes, a: Files, b: Files, e: Error) {
    && (exists n :: 0 <= n <= |data| && (e.Ok() && |data| < ChunkedIo.TWO_32 ==> n == |data|)
                    && b == Landed(a, t.tmp, offset, data, n))
    && (e.Ok() ==> HasRegular(a, t.tmp))
  }

  /** Either nothing changes or the temporary file becomes the final one. */
  ghost predicate Committed(t: Target, a: Files, b: Files, e: Error) {
    && (b == a || (HasRegular(a, t.tmp) && b == Renamed(a, t.tmp, t.final)))
    && (e.Ok() ==> HasRegular(b, t.final) && t.tmp !in b)
  }

  ghost predicate Discarded(t: Target, a: Files, b: Files, e: Error) {
    && (b == a || b == a - {t.tmp})
    && (e.Ok() ==> t.tmp !in b)
  }

  // ---- When a request succeeds if no call goes wrong ----

  predicate IsFolder(f: Files, p: string) { p in f && f[p].Folder? }

  /** The temporary path can be cleared, and so can the final path, as what the
      client says it holds. */
  predicate CanCreate(f: Files, t: Target, existing: Existing) {
    && !IsFolder(f, t.tmp)
    && match existing
       case NotGiven => !IsFolder(f, t.final)
       case Broken(e) => e == NonExistent && !IsFolder(f, t.final)
       case Known(kind) => t.final in f ==> (kind == DirKind <==> IsFolder(f, t.final))
  }

  /** There is a temporary file to rename, or the final file is there already. */
  predicate CanCommit(f: Files, t: Target, overwrites: bool) {
    if t.tmp in f then f[t.tmp].Regular? && (overwrites || t.final !in f) else HasRegular(f, t.final)
  }

  predicate Succeeds(r: Request, f: Files, overwrites: bool) {
    match r
    case Create(t, existing) => CanCreate(f, t, existing)
    case Write(t, _, _) => HasRegular(f, t.tmp)
    case Finalize(t, commit) => if commit then CanCommit(f, t, overwrites) else !IsFolder(f, t.tmp)
  }

  /** How a request ends if no call goes wrong: with success exactly if it can; and no
      write or finalize asks for a retry, which would withhold the requests behind it. */
  ghost predicate FaultFree(r: Request, f: Files, e: Error, overwrites: bool) {
    (e.Ok() <==> Succeeds(r, f, overwrites)) && (e == Retry ==> r.Create?)
  }

  /** The error asks for a retry exactly if a call has found the connection unusable,
      where `before` and `after` count such calls. The clearing of a file's attributes
      does not count: if it fails, the error of the deletion before it is told. */
  ghost predicate Told(before: nat, after: nat, e: Error) {
    before <= after && (e == Retry <==> before < after)
  }

  /** When the handling of a request asks for a retry: when the client has stated just
      that error, or when a call has found the connection unusable. */
  ghost predicate RetryTold(r: Request, before: nat, after: nat, e: Error) {
    match r
    case Create(_, existing) =>
      match existing {
        case Broken(stated) => if stated == NonExistent then Told(before, after, e) else e == stated && after == before
        case _ => Told(before, after, e)
      }
    case Write(_, _, _) => Told(before, after, e)
    case Finalize(_, _) => Told(before, after, e)
  }

  ghost predicate Handled(r: Request, a: Files, b: Files, e: Error) {
    match r
    case Create(t, _) => Created(t, a, b, e)
    case Write(t, offset, data) => Written(t, offset, data, a, b, e)
    case Finalize(t, commit) => if commit then Committed(t, a, b, e) else Discarded(t, a, b, e)
  }

  datatype Operation = CreateFiles(requests: seq<Request>) | WriteOrFinalizeFiles(requests: seq<Request>)

  /** A temporary path is neither the request's own final path nor `p`. */
  predicate Sound(r: Request, p: string) {
    && r.target.tmp != p && r.target.tmp != r.target.final
    && (r.Create? ==> r.existing != Broken(NoError))
  }

  // ---- The history of the share ----

  /** Why the watched path holds what it holds. */
  datatype Source = Absent | FromPrior | FromRename(at: nat)

  /** The share after one call, and the request that the call was made for. */
  datatype Moment = Moment(files: Files, request: Option<Request>, source: Source)

  /** The request commits to path `p`. */
  predicate IsCommitTo(r: Option<Request>, p: string) {
    r.Some? && r.value.Finalize? && r.value.commit && r.value.target.final == p
  }

  /** The watched path holds nothing, or what is left of the entity that was there
      at first, or all that the temporary file of a request to commit to the path
      held just before a call made for that request. */
  ghost predicate Explained(h: seq<Moment>, i: nat, p: string)
    requires i < |h|
  {
    match h[i].source
    case Absent => p !in h[i].files
    case FromPrior => p in h[i].files && p in h[0].files && Remnant(h[0].files[p], h[i].files[p])
    case FromRename(j) =>
      && 0 < j <= i && IsCommitTo(h[j].request, p)
      && var tmp := h[j].request.value.target.tmp;
      && HasRegular(h[j - 1].files, tmp) && HasRegular(h[i].files, p) && h[i].files[p] == h[j - 1].files[tmp]
  }

  ghost predicate AllExplained(h: seq<Moment>, p: string) {
    h != [] && forall i :: 0 <= i < |h| ==> Explained(h, i, p)
  }

  ghost function Last(h: seq<Moment>): Files
    requires h != []
  {
    h[|h| - 1].files
  }

  /** `h` continues `h0` with calls for request `r` only. */
  ghost predicate Grown(h0: seq<Moment>, h: seq<Moment>, r: Option<Request>) {
    h0 <= h && forall i :: |h0| <= i < |h| ==> h[i].request == r
  }

  /** `h` continues `h0` with calls for some of `rs` only. */
  ghost predicate GrownBy(h0: seq<Moment>, h: seq<Moment>, rs: seq<Request>) {
    h0 <= h && forall i :: |h0| <= i < |h| ==> h[i].request.Some? && h[i].request.value in rs
  }

  lemma GrowMore(h0: seq<Moment>, h: seq<Moment>, h': seq<Moment>, rs: seq<Request>, r: Request)
    requires GrownBy(h0, h, rs) && Grown(h, h', Some(r)) && r in rs
    ensures GrownBy(h0, h', rs)
  {
    forall i | |h0| <= i < |h'| ensures h'[i].request.Some? && h'[i].request.value in rs {
      assert i < |h| ==> h'[i] == h[i];
    }
  }

  lemma GrowOn(h0: seq<Moment>, h: seq<Moment>, h': seq<Moment>, rs: seq<Request>, more: seq<Request>,
               all: seq<Request>)
    requires GrownBy(h0, h, rs) && GrownBy(h, h', more)
    requires (forall r :: r in rs ==> r in all) && (forall r :: r in more ==> r in all)
    ensures GrownBy(h0, h', all)
  {
    forall i | |h0| <= i < |h'| ensures h'[i].request.Some? && h'[i].request.value in all {
      assert i < |h| ==> h'[i] == h[i];
    }
  }

  /** The history after one more call. */
  ghost function Extended(h: seq<Moment>, files: Files, request: Option<Request>, published: bool,
                          p: string): seq<Moment>
    requires h != []
  {
    var source := if p !in files then Absent else if published then FromRename(|h|) else h[|h| - 1].source;
    h + [Moment(files, request, source)]
  }

  lemma ExplainedLater(h: seq<Moment>, m: Moment, i: nat, p: string)
    requires i < |h| && Explained(h, i, p)
    ensures Explained(h + [m], i, p)
  {
  }

  lemma ExtendedIsExplained(h: seq<Moment>, files: Files, r: Option<Request>, p: string)
    requires AllExplained(h, p) && Withered(Last(h), files, p)
    ensures AllExplained(Extended(h, files, r, false, p), p)
  {
    var h' := Extended(h, files, r, false, p);
    forall i | 0 <= i < |h'| ensures Explained(h', i, p) {
      if i < |h| {
        ExplainedLater(h, h'[|h|], i, p);
      } else {
        assert Explained(h, i - 1, p);
      }
    }
  }

  lemma RenameIsExplained(h: seq<Moment>, t: Target, p: string)
    requires AllExplained(h, p) && HasRegular(Last(h), t.tmp) && t.tmp != p && t.tmp != t.final
    ensures AllExplained(Extended(h, Renamed(Last(h), t.tmp, t.final), Some(Finalize(t, true)), t.final == p, p), p)
  {
    var h' := Extended(h, Renamed(Last(h), t.tmp, t.final), Some(Finalize(t, true)), t.final == p, p);
    forall i | 0 <= i < |h'| ensures Explained(h', i, p) {
      if i < |h| {
        ExplainedLater(h, h'[|h|], i, p);
      } else {
        assert Explained(h, i - 1, p);
      }
    }
  }

  function FirstError(es: seq<Error>): Error {
    if es == [] then NoError else if !es[0].Ok() then es[0] else FirstError(es[1..])
  }

  lemma {:induction false} FirstErrorPush(es: seq<Error>, e: Error)
    ensures FirstError(es + [e]) == if FirstError(es).Ok() then e else FirstError(es)
  {
    if es != [] {
      assert (es + [e])[1..] == es[1..] + [e];
      FirstErrorPush(es[1..], e);
    }
  }

  /** After an error that asks for a retry a request is not sent. */
  ghost predicate Outcome(rs: seq<Request>, states: seq<Files>, errors: seq<Error>, i: nat)
    requires i < |rs| && i < |errors| && i + 1 < |states|
  {
    if Retry in errors[..i] then errors[i] == Retry && states[i + 1] == states[i]
    else Handled(rs[i], states[i], states[i + 1], errors[i])
  }

  lemma OutcomeKept(rs: seq<Request>, states: seq<Files>, errors: seq<Error>, i: nat, f: Files, e: Error)
    requires i < |rs| && i < |errors| && i + 1 < |states| && Outcome(rs, states, errors, i)
    ensures Outcome(rs, states + [f], errors + [e], i)
  {
    assert (errors + [e])[..i] == errors[..i];
  }

  // ---- Runs of requests ----

  /** Once a commit has succeeded, committing again changes no name and no
      content, whether or not the second commit reports success. */
  lemma CommitTwice(t: Target, a: Files, b: Files, c: Files, e: Error)
    requires Handled(Finalize(t, true), a, b, NoError) && Handled(Finalize(t, true), b, c, e)
    ensures c == b
  {
  }

  /** A commit whose reply was lost can be sent again. */
  lemma CommitAfterLostReply(t: Target, a: Files, b: Files, c: Files, e: Error)
    requires t.tmp != t.final && HasRegular(a, t.tmp)
    requires Handled(Finalize(t, true), a, b, e) && Handled(Finalize(t, true), b, c, NoError)
    ensures c == Renamed(a, t.tmp, t.final)
  {
  }

  /** `n` writes of pieces of `data` to the temporary file of `t`, each followed
      by the share as it is then and the error reported. */
  ghost predicate IsWriteRun(t: Target, data: Bytes, ws: seq<Request>, states: seq<Files>, errors: seq<Error>) {
    && |states| == |ws| + 1 && |errors| == |ws|
    && forall i :: 0 <= i < |ws| ==> IsPiece(t, data, ws[i]) && Handled(ws[i], states[i], states[i + 1], errors[i])
  }

  /** Position `k` of the data lies in a piece whose write was reported as done. */
  ghost predicate Covered(ws: seq<Request>, errors: seq<Error>, k: nat)
    requires |errors| == |ws|
  {
    exists i :: 0 <= i < |ws| && ws[i].Write? && errors[i].Ok() && ws[i].offset <= k < ws[i].offset + |ws[i].data|
  }

  /** A file on the way to `data`: right or still zero everywhere. */
  ghost predicate Towards(file: Bytes, data: Bytes) {
    |file| <= |data| && forall k :: 0 <= k < |file| ==> file[k] == data[k] || file[k] == 0
  }

  lemma PieceLands(file: Bytes, data: Bytes, offset: nat, piece: Bytes)
    requires Towards(file, data) && offset + |piece| <= |data|
    requires forall i :: 0 <= i < |piece| ==> piece[i] == data[offset + i]
    ensures var f := ChunkedIo.WriteAt(file, offset, piece);
            && Towards(f, data) && |file| <= |f|
            && (forall k :: offset <= k < offset + |piece| ==> k < |f| && f[k] == data[k])
            && (forall k :: 0 <= k < |file| && file[k] == data[k] ==> f[k] == data[k])
  {
    ChunkedIo.WriteAtIndex(file, offset, piece);
    var f := ChunkedIo.WriteAt(file, offset, piece);
    forall k | offset <= k < offset + |piece| ensures k < |f| && f[k] == data[k] {
      assert f[k] == piece[k - offset];
    }
  }

  lemma PieceBytes(data: Bytes, offset: nat, whole: Bytes, piece: Bytes)
    requires offset + |whole| <= |data| && whole == data[offset..offset + |whole|] && piece <= whole
    ensures forall i :: 0 <= i < |piece| ==> piece[i] == data[offset + i]
  {
  }

  /** `w` writes a piece of `data` to the temporary file of `t`. */
  ghost predicate IsPiece(t: Target, data: Bytes, w: Request) {
    && w.Write? && w.target == t && |w.data| < ChunkedIo.TWO_32
    && w.offset + |w.data| <= |data| && w.data == data[w.offset..w.offset + |w.data|]
  }

  ghost predicate RightAt(f: Files, p: string, data: Bytes, k: nat) {
    HasRegular(f, p) && k < |f[p].data| && k < |data| && f[p].data[k] == data[k]
  }

  lemma WriteFills(t: Target, data: Bytes, w: Request, a: Files, b: Files, e: Error)
    requires IsPiece(t, data, w) && Handled(w, a, b, e)
    requires HasRegular(a, t.tmp) && Towards(a[t.tmp].data, data)
    ensures HasRegular(b, t.tmp) && Towards(b[t.tmp].data, data) && SameOutside(a, b, {t.tmp})
    ensures forall k :: RightAt(a, t.tmp, data, k) ==> RightAt(b, t.tmp, data, k)
    ensures e.Ok() ==> forall k :: w.offset <= k < w.offset + |w.data| ==> RightAt(b, t.tmp, data, k)
  {
    var landed :| 0 <= landed <= |w.data| && (e.Ok() ==> landed == |w.data|)
                  && b == Landed(a, t.tmp, w.offset, w.data, landed);
    PieceBytes(data, w.offset, w.data, w.data[..landed]);
    PieceLands(a[t.tmp].data, data, w.offset, w.data[..landed]);
  }

  lemma {:induction false} WritesFill(t: Target, data: Bytes, ws: seq<Request>, states: seq<Files>,
                                      errors: seq<Error>, n: nat)
    requires IsWriteRun(t, data, ws, states, errors) && n <= |ws|
    requires HasRegular(states[0], t.tmp) && states[0][t.tmp].data == []
    ensures HasRegular(states[n], t.tmp) && Towards(states[n][t.tmp].data, data)
    ensures SameOutside(states[0], states[n], {t.tmp})
    ensures forall k :: 0 <= k < |data| && Covered(ws[..n], errors[..n], k) ==> RightAt(states[n], t.tmp, data, k)
  {
    if n > 0 {
      WritesFill(t, data, ws, states, errors, n - 1);
      WriteFills(t, data, ws[n - 1], states[n - 1], states[n], errors[n - 1]);
      forall k | 0 <= k < |data| && Covered(ws[..n], errors[..n], k) ensures RightAt(states[n], t.tmp, data, k) {
        CoveredSplit(ws, errors, n, k);
      }
    }
  }

  lemma CoveredSplit(ws: seq<Request>, errors: seq<Error>, n: nat, k: nat)
    requires |errors| == |ws| && 0 < n <= |ws| && Covered(ws[..n], errors[..n], k)
    ensures Covered(ws[..n - 1], errors[..n - 1], k) ||
            (ws[n - 1].Write? && errors[n - 1].Ok() && ws[n - 1].offset <= k < ws[n - 1].offset + |ws[n - 1].data|)
  {
    var i :| 0 <= i < n && ws[..n][i].Write? && errors[..n][i].Ok()
             && ws[..n][i].offset <= k < ws[..n][i].offset + |ws[..n][i].data|;
    if i < n - 1 {
      assert ws[..n - 1][i] == ws[i] && errors[..n - 1][i] == errors[i];
    }
  }

  lemma AllRight(f: Files, p: string, data: Bytes)
    requires HasRegular(f, p) && Towards(f[p].data, data)
    requires forall k :: 0 <= k < |data| ==> RightAt(f, p, data, k)
    ensures f[p] == Regular(data)
  {
    var file := f[p].data;
    if |data| > 0 {
      assert RightAt(f, p, data, |data| - 1);
    }
    assert |file| == |data|;
    forall k | 0 <= k < |data| ensures file[k] == data[k] {
      assert RightAt(f, p, data, k);
    }
  }

  /** A whole restore: a successful create, writes of pieces in any order, some
      failing, and a successful commit. If the successful writes cover the data,
      the final path holds exactly the data, the temporary file is gone and
      nothing else has changed. */
  lemma RestoreIsExact(t: Target, existing: Existing, data: Bytes, start: Files,
                       ws: seq<Request>, states: seq<Files>, errors: seq<Error>, end: Files)
    requires t.tmp != t.final
    requires IsWriteRun(t, data, ws, states, errors)
    requires Handled(Create(t, existing), start, states[0], NoError)
    requires Handled(Finalize(t, true), states[|ws|], end, NoError)
    requires forall k :: 0 <= k < |data| ==> Covered(ws, errors, k)
    ensures t.final in end && end[t.final] == Regular(data) && t.tmp !in end
    ensures SameOutside(start, end, {t.final, t.tmp})
  {
    WritesFill(t, data, ws, states, errors, |ws|);
    assert ws[..|ws|] == ws && errors[..|ws|] == errors;
    forall k | 0 <= k < |data| ensures RightAt(states[|ws|], t.tmp, data, k) {
      assert Covered(ws[..|ws|], errors[..|ws|], k);
    }
    AllRight(states[|ws|], t.tmp, data);
  }

  // ---- The log of a run of operations ----

  /** What a request did: the share before and after it, the error reported for it,
      and whether it was sent to the server at all. */
  datatype Event = Event(op: nat, request: Request, before: Files, after: Files, error: Error, sent: bool)

  ghost function AllRequests(ops: seq<Operation>): seq<Request> {
    if ops == [] then [] else AllRequests(ops[..|ops| - 1]) + ops[|ops| - 1].requests
  }

  lemma NextRequests(ops: seq<Operation>, n: nat)
    requires n < |ops|
    ensures AllRequests(ops[..n + 1]) == AllRequests(ops[..n]) + ops[n].requests
  {
    assert ops[..n + 1][..n] == ops[..n];
  }

  /** Each event starts from the share that the one before it left. */
  ghost predicate Chained(log: seq<Event>, a: Files, b: Files) {
    if log == [] then a == b
    else
      && log[0].before == a && log[|log| - 1].after == b
      && forall i :: 0 <= i < |log| - 1 ==> log[i].after == log[i + 1].before
  }

  /** A request is withheld after a retry error in the same operation, unless the
      operation creates files. */
  ghost predicate Withheld(log: seq<Event>, ops: seq<Operation>, i: nat)
    requires i < |log| && log[i].op < |ops|
  {
    i > 0 && log[i - 1].op == log[i].op && log[i - 1].error == Retry && ops[log[i].op].WriteOrFinalizeFiles?
  }

  ghost predicate EventOk(e: Event, withheld: bool) {
    && (e.sent <==> !withheld)
    && (if e.sent then Handled(e.request, e.before, e.after, e.error) else e.after == e.before && e.error == Retry)
  }

  /** The log of the first `n` operations: every request has its event, in order. */
  ghost predicate IsLog(log: seq<Event>, ops: seq<Operation>, n: nat, a: Files, b: Files) {
    && n <= |ops| && |log| == |AllRequests(ops[..n])| && Chained(log, a, b)
    && forall i :: 0 <= i < |log| ==> LogEvent(log, ops, n, AllRequests(ops[..n]), i)
  }

  ghost function EventsOf(n: nat, op: Operation, states: seq<Files>, errors: seq<Error>): seq<Event>
    requires |errors| == |op.requests| && |states| == |errors| + 1
  {
    seq(|errors|, i requires 0 <= i < |errors| =>
          Event(n, op.requests[i], states[i], states[i + 1], errors[i], op.CreateFiles? || Retry !in errors[..i]))
  }

  /** The events of operation number `n`. */
  ghost predicate EventsOk(events: seq<Event>, n: nat, op: Operation) {
    && |events| == |op.requests|
    && forall j :: 0 <= j < |events| ==> EventIn(events, n, op, j)
  }

  ghost predicate EventIn(events: seq<Event>, n: nat, op: Operation, j: nat)
    requires j < |events| == |op.requests|
  {
    && events[j].op == n && events[j].request == op.requests[j]
    && EventOk(events[j], op.WriteOrFinalizeFiles? && j > 0 && events[j - 1].error == Retry)
  }

  lemma CreateEvents(n: nat, op: Operation, states: seq<Files>, errors: seq<Error>)
    requires op.CreateFiles? && |errors| == |op.requests| && |states| == |errors| + 1
    requires forall i :: 0 <= i < |errors| ==> Handled(op.requests[i], states[i], states[i + 1], errors[i])
    ensures var events := EventsOf(n, op, states, errors);
            EventsOk(events, n, op) && Chained(events, states[0], states[|errors|])
  {
    var events := EventsOf(n, op, states, errors);
    EventsChained(n, op, states, errors);
    forall j | 0 <= j < |events| ensures EventIn(events, n, op, j) {
      CreateEvent(n, op, states, errors, j);
    }
  }

  lemma EventsChained(n: nat, op: Operation, states: seq<Files>, errors: seq<Error>)
    requires |errors| == |op.requests| && |states| == |errors| + 1
    ensures Chained(EventsOf(n, op, states, errors), states[0], states[|errors|])
  {
  }

  lemma CreateEvent(n: nat, op: Operation, states: seq<Files>, errors: seq<Error>, j: nat)
    requires op.CreateFiles? && |errors| == |op.requests| && |states| == |errors| + 1 && j < |errors|
    requires Handled(op.requests[j], states[j], states[j + 1], errors[j])
    ensures EventIn(EventsOf(n, op, states, errors), n, op, j)
  {
  }

  lemma RetrySticks(rs: seq<Request>, states: seq<Files>, errors: seq<Error>, i: nat)
    requires |errors| == |rs| && |states| == |rs| + 1 && 0 < i < |rs|
    requires forall j :: 0 <= j < |rs| ==> Outcome(rs, states, errors, j)
    ensures Retry in errors[..i] <==> errors[i - 1] == Retry
  {
    assert errors[..i] == errors[..i - 1] + [errors[i - 1]];
    assert Outcome(rs, states, errors, i - 1);
  }

  lemma DataEvents(n: nat, op: Operation, states: seq<Files>, errors: seq<Error>)
    requires op.WriteOrFinalizeFiles? && |errors| == |op.requests| && |states| == |errors| + 1
    requires forall i :: 0 <= i < |errors| ==> Outcome(op.requests, states, errors, i)
    ensures var events := EventsOf(n, op, states, errors);
            EventsOk(events, n, op) && Chained(events, states[0], states[|errors|])
  {
    var events := EventsOf(n, op, states, errors);
    EventsChained(n, op, states, errors);
    forall j | 0 <= j < |events| ensures EventIn(events, n, op, j) {
      assert Outcome(op.requests, states, errors, j);
      if j > 0 {
        RetrySticks(op.requests, states, errors, j);
      }
    }
  }

  lemma ChainedJoin(x: seq<Event>, y: seq<Event>, a: Files, b: Files, c: Files)
    requires Chained(x, a, b) && Chained(y, b, c)
    ensures Chained(x + y, a, c)
  {
    if x == [] {
      assert x + y == y;
    } else if y == [] {
      assert x + y == x;
    }
  }

  lemma OldEvent(log: seq<Event>, ops: seq<Operation>, events: seq<Event>, i: nat)
    requires i < |log| && log[i].op < |ops| && EventOk(log[i], Withheld(log, ops, i))
    ensures var all := log + events; all[i] == log[i] && EventOk(all[i], Withheld(all, ops, i))
  {
    var all := log + events;
    assert all[i] == log[i] && (i > 0 ==> all[i - 1] == log[i - 1]);
    assert Withheld(all, ops, i) == Withheld(log, ops, i);
  }

  lemma NewEvent(log: seq<Event>, ops: seq<Operation>, n: nat, events: seq<Event>, j: nat)
    requires n < |ops| && EventsOk(events, n, ops[n]) && j < |events| && (log != [] ==> log[|log| - 1].op < n)
    ensures var all := log + events;
            && all[|log| + j] == events[j] && events[j].op == n && events[j].request == ops[n].requests[j]
            && EventOk(all[|log| + j], Withheld(all, ops, |log| + j))
  {
    var all, i := log + events, |log| + j;
    assert EventIn(events, n, ops[n], j);
    if j > 0 {
      assert EventIn(events, n, ops[n], j - 1);
      assert all[i - 1] == events[j - 1];
    } else if i > 0 {
      assert all[i - 1] == log[|log| - 1];
    }
    assert Withheld(all, ops, i) == (ops[n].WriteOrFinalizeFiles? && j > 0 && events[j - 1].error == Retry);
  }

  /** Event `i` of the log, where `rs` are the requests so far. */
  ghost predicate LogEvent(log: seq<Event>, ops: seq<Operation>, n: nat, rs: seq<Request>, i: nat)
    requires i < |log| == |rs| && n <= |ops|
  {
    log[i].request == rs[i] && log[i].op < n && EventOk(log[i], Withheld(log, ops, i))
  }

  lemma LogEventGrows(log: seq<Event>, ops: seq<Operation>, n: nat, events: seq<Event>, rs: seq<Request>, i: nat)
    requires n < |ops| && |log| == |rs| && EventsOk(events, n, ops[n]) && i < |log| + |events|
    requires forall j :: 0 <= j < |log| ==> LogEvent(log, ops, n, rs, j)
    ensures LogEvent(log + events, ops, n + 1, rs + ops[n].requests, i)
  {
    if i < |log| {
      assert LogEvent(log, ops, n, rs, i);
      OldEvent(log, ops, events, i);
    } else {
      if log != [] {
        assert LogEvent(log, ops, n, rs, |log| - 1);
      }
      NewEvent(log, ops, n, events, i - |log|);
    }
  }

  lemma LogGrows(log: seq<Event>, ops: seq<Operation>, n: nat, events: seq<Event>, a: Files, b: Files, c: Files)
    requires n < |ops| && IsLog(log, ops, n, a, b) && EventsOk(events, n, ops[n]) && Chained(events, b, c)
    ensures IsLog(log + events, ops, n + 1, a, c)
  {
    NextRequests(ops, n);
    ChainedJoin(log, events, a, b, c);
    var all, n' := log + events, n + 1;
    var rs := AllRequests(ops[..n']);
    forall i | 0 <= i < |all| ensures LogEvent(all, ops, n', rs, i) {
      LogEventGrows(log, ops, n, events, AllRequests(ops[..n]), i);
    }
  }

  /** Every request that is sent succeeds exactly if it can. */
  ghost predicate NoFaults(log: seq<Event>, overwrites: bool) {
    forall i :: 0 <= i < |log| && log[i].sent ==>
      FaultFree(log[i].request, log[i].before, log[i].error, overwrites)
  }

  // ---- What a run of operations publishes ----

  /** A request that leaves the temporary file of `t` alone, writes a piece of `data`
      to it, or finalizes it; not one that creates it again. */
  ghost predicate Benign(t: Target, data: Bytes, r: Request) {
    || IsPiece(t, data, r)
    || (r.Finalize? && r.target == t)
    || (r.target.tmp != t.tmp && r.target.final != t.tmp)
  }

  /** Position `k` lies in a piece that was written with success between events `i`
      and `j`. */
  ghost predicate CoveredIn(t: Target, log: seq<Event>, i: nat, j: nat, k: nat)
    requires j <= |log|
  {
    exists m :: i < m < j && WroteAt(t, log[m], k)
  }

  ghost predicate WroteAt(t: Target, e: Event, k: nat) {
    && e.sent && e.request.Write? && e.request.target == t && e.error.Ok()
    && e.request.offset <= k < e.request.offset + |e.request.data|
  }

  /** The temporary file, if it is there, is on the way to `data`. */
  ghost predicate OnTheWay(t: Target, data: Bytes, f: Files) {
    HasRegular(f, t.tmp) ==> Towards(f[t.tmp].data, data)
  }

  /** An event keeps the temporary file on the way, with all that is right in it, or
      removes it. */
  lemma EventFills(t: Target, data: Bytes, e: Event)
    requires t.tmp != t.final && Benign(t, data, e.request) && OnTheWay(t, data, e.before)
    requires EventOk(e, !e.sent)
    ensures OnTheWay(t, data, e.after)
    ensures HasRegular(e.after, t.tmp) ==> HasRegular(e.before, t.tmp)
    ensures HasRegular(e.after, t.tmp) ==> forall k ::
              RightAt(e.before, t.tmp, data, k) || WroteAt(t, e, k) ==> RightAt(e.after, t.tmp, data, k)
  {
    if e.sent {
      if IsPiece(t, data, e.request) {
        if HasRegular(e.before, t.tmp) {
          WriteFills(t, data, e.request, e.before, e.after, e.error);
        }
      } else if e.request.Finalize? && e.request.target == t {
        assert e.after == e.before || t.tmp !in e.after;
      } else {
        AloneKept(t, e);
      }
    }
  }

  /** A request for other paths leaves the temporary file alone. */
  lemma AloneKept(t: Target, e: Event)
    requires e.sent && Handled(e.request, e.before, e.after, e.error)
    requires e.request.target.tmp != t.tmp && e.request.target.final != t.tmp
    ensures t.tmp in e.after <==> t.tmp in e.before
    ensures t.tmp in e.before ==> e.after[t.tmp] == e.before[t.tmp]
  {
  }

  /** The share before event `j`. */
  ghost function Before(log: seq<Event>, j: nat, end: Files): Files
    requires j <= |log|
  {
    if j < |log| then log[j].before else end
  }

  /** The temporary file in `f`, if it is there, is right wherever the writes since
      event `i` and before event `j` succeeded, and on the way elsewhere. */
  ghost predicate Filled(t: Target, data: Bytes, log: seq<Event>, i: nat, j: nat, f: Files)
    requires j <= |log|
  {
    && OnTheWay(t, data, f)
    && (HasRegular(f, t.tmp) ==>
          forall k :: 0 <= k < |data| && CoveredIn(t, log, i, j, k) ==> RightAt(f, t.tmp, data, k))
  }

  lemma FilledStep(t: Target, data: Bytes, log: seq<Event>, i: nat, m: nat)
    requires t.tmp != t.final && i < m < |log| && Filled(t, data, log, i, m, log[m].before)
    requires Benign(t, data, log[m].request) && EventOk(log[m], !log[m].sent)
    ensures Filled(t, data, log, i, m + 1, log[m].after)
  {
    EventFills(t, data, log[m]);
    forall k | 0 <= k < |data| && CoveredIn(t, log, i, m + 1, k) && HasRegular(log[m].after, t.tmp)
      ensures RightAt(log[m].after, t.tmp, data, k)
    {
      CoveredEarlier(t, log, i, m + 1, k);
    }
  }

  lemma FilledStart(t: Target, data: Bytes, log: seq<Event>, i: nat)
    requires i < |log| && log[i].sent && log[i].error.Ok() && Created(t, log[i].before, log[i].after, log[i].error)
    ensures Filled(t, data, log, i, i + 1, log[i].after)
  {
    NothingCovered(t, log, i, i + 1);
  }

  lemma {:induction false} TmpFills(t: Target, data: Bytes, log: seq<Event>, a: Files, b: Files, i: nat, j: nat)
    requires t.tmp != t.final && Chained(log, a, b) && i < j <= |log|
    requires forall m :: 0 <= m < |log| ==> EventOk(log[m], !log[m].sent)
    requires log[i].request.Create? && log[i].request.target == t && log[i].sent && log[i].error.Ok()
    requires forall m :: i < m < j ==> Benign(t, data, log[m].request)
    ensures Filled(t, data, log, i, j, Before(log, j, b))
  {
    var m := j - 1;
    assert Before(log, j, b) == log[m].after;
    assert EventOk(log[m], !log[m].sent);
    if m == i {
      FilledStart(t, data, log, i);
    } else {
      TmpFills(t, data, log, a, b, i, m);
      FilledStep(t, data, log, i, m);
    }
  }

  lemma NothingCovered(t: Target, log: seq<Event>, i: nat, j: nat)
    requires j == i + 1 <= |log|
    ensures forall k :: !CoveredIn(t, log, i, j, k)
  {
  }

  lemma CoveredEarlier(t: Target, log: seq<Event>, i: nat, j: nat, k: nat)
    requires 0 < j <= |log| && CoveredIn(t, log, i, j, k)
    ensures CoveredIn(t, log, i, j - 1, k) || WroteAt(t, log[j - 1], k)
  {
    var x :| i < x < j && WroteAt(t, log[x], k);
  }

  /** In every run of operations: if the last create of a temporary file succeeded,
      and the writes of pieces of `data` that succeeded since then cover the data,
      then a request to commit that changes the share publishes exactly the data,
      whatever else failed or was sent again in between. */
  lemma PublishedIsExact(t: Target, data: Bytes, ops: seq<Operation>, log: seq<Event>, a: Files, b: Files, i: nat,
                         j: nat)
    requires t.tmp != t.final && IsLog(log, ops, |ops|, a, b) && i < j < |log|
    requires log[i].request.Create? && log[i].request.target == t && log[i].sent && log[i].error.Ok()
    requires forall m :: i < m < j ==> Benign(t, data, log[m].request)
    requires forall k :: 0 <= k < |data| ==> CoveredIn(t, log, i, j, k)
    requires log[j].request == Finalize(t, true) && log[j].after != log[j].before
    ensures t.final in log[j].after && log[j].after[t.final] == Regular(data) && t.tmp !in log[j].after
  {
    forall m | 0 <= m < |log| ensures EventOk(log[m], !log[m].sent) {
      assert LogEvent(log, ops, |ops|, AllRequests(ops[..|ops|]), m);
    }
    TmpFills(t, data, log, a, b, i, j);
    AllRight(log[j].before, t.tmp, data);
  }

  // ---- Runs in which no call goes wrong ----

  /** Before event `n` of such a run the create and the first writes have succeeded. */
  ghost predicate UnderWay(t: Target, log: seq<Event>, n: nat, f: Files)
    requires 0 < n <= |log|
  {
    && HasRegular(f, t.tmp) && t.final !in f
    && forall i :: 0 <= i < n ==> log[i].sent && log[i].error.Ok()
  }

  /** The requests of the log are a create, the writes `ws`, and a commit. */
  ghost predicate IsRestore(t: Target, existing: Existing, ws: seq<Request>, log: seq<Event>) {
    && |log| == |ws| + 2 && log[0].request == Create(t, existing) && log[|ws| + 1].request == Finalize(t, true)
    && forall i :: 0 <= i < |ws| ==> log[i + 1].request == ws[i]
  }

  lemma IsSent(log: seq<Event>, ops: seq<Operation>, a: Files, b: Files, n: nat)
    requires IsLog(log, ops, |ops|, a, b) && n < |log| && (n > 0 ==> log[n - 1].error.Ok())
    ensures log[n].sent && Handled(log[n].request, log[n].before, log[n].after, log[n].error)
  {
    assert LogEvent(log, ops, |ops|, AllRequests(ops[..|ops|]), n);
  }

  lemma {:induction false} WritesSucceed(t: Target, existing: Existing, ws: seq<Request>, ops: seq<Operation>,
                                         log: seq<Event>, a: Files, b: Files, overwrites: bool, n: nat)
    requires t.tmp != t.final && IsLog(log, ops, |ops|, a, b) && NoFaults(log, overwrites)
    requires IsRestore(t, existing, ws, log) && CanCreate(a, t, existing) && 0 < n <= |ws| + 1
    requires forall i :: 0 <= i < |ws| ==> ws[i].Write? && ws[i].target == t
    ensures UnderWay(t, log, n, log[n].before)
  {
    assert log[n].before == log[n - 1].after;
    if n == 1 {
      IsSent(log, ops, a, b, 0);
    } else {
      WritesSucceed(t, existing, ws, ops, log, a, b, overwrites, n - 1);
      IsSent(log, ops, a, b, n - 1);
      assert log[n - 2 + 1].request == ws[n - 2];
      WriteKeepsBoth(t, log[n - 1]);
    }
  }

  lemma WriteKeepsBoth(t: Target, e: Event)
    requires t.tmp != t.final && e.request.Write? && e.request.target == t
    requires Handled(e.request, e.before, e.after, e.error) && HasRegular(e.before, t.tmp) && t.final !in e.before
    ensures HasRegular(e.after, t.tmp) && t.final !in e.after
  {
  }

  /** Position `k` of the data lies in one of the pieces. */
  ghost predicate InPieces(ws: seq<Request>, k: nat) {
    exists i :: 0 <= i < |ws| && ws[i].Write? && ws[i].offset <= k < ws[i].offset + |ws[i].data|
  }

  /** A create that can succeed, writes of pieces that cover the data, and a commit:
      if no call goes wrong, every request succeeds, the final path holds exactly the
      data, the temporary file is gone and nothing else has changed. */
  lemma FaultFreeRestore(t: Target, existing: Existing, data: Bytes, ws: seq<Request>, ops: seq<Operation>,
                         log: seq<Event>, a: Files, b: Files, overwrites: bool)
    requires t.tmp != t.final && IsLog(log, ops, |ops|, a, b) && NoFaults(log, overwrites)
    requires IsRestore(t, existing, ws, log)
    requires CanCreate(a, t, existing) && forall i :: 0 <= i < |ws| ==> IsPiece(t, data, ws[i])
    requires forall k :: 0 <= k < |data| ==> InPieces(ws, k)
    ensures forall i :: 0 <= i < |log| ==> log[i].sent && log[i].error.Ok()
    ensures t.final in b && b[t.final] == Regular(data) && t.tmp !in b && SameOutside(a, b, {t.final, t.tmp})
  {
    var n := |ws| + 1;
    WritesSucceed(t, existing, ws, ops, log, a, b, overwrites, n);
    IsSent(log, ops, a, b, 0);
    IsSent(log, ops, a, b, n);
    var states := seq(n, i requires 0 <= i < n => log[i + 1].before);
    var errors := seq(|ws|, i requires 0 <= i < |ws| => log[i + 1].error);
    forall i | 0 <= i < |ws| ensures Handled(ws[i], states[i], states[i + 1], errors[i]) && errors[i].Ok() {
      IsSent(log, ops, a, b, i + 1);
      assert log[i + 1].request == ws[i] && log[i + 1].after == log[i + 1 + 1].before;
    }
    AllCovered(ws, errors, data);
    RestoreIsExact(t, existing, data, a, ws, states, errors, b);
  }

  lemma AllCovered(ws: seq<Request>, errors: seq<Error>, data: Bytes)
    requires |errors| == |ws| && (forall i :: 0 <= i < |ws| ==> errors[i].Ok())
    requires forall k :: 0 <= k < |data| ==> InPieces(ws, k)
    ensures forall k :: 0 <= k < |data| ==> Covered(ws, errors, k)
  {
    forall k | 0 <= k < |data| ensures Covered(ws, errors, k) {
      assert InPieces(ws, k);
    }
  }

  // ---- What a successful commit tells ----

  /** A commit that reports success has published if and only if the temporary file
      was there; without one it only finds a regular file at the final path. */
  lemma CommitPublishesIff(t: Target, a: Files, b: Files)
    requires t.tmp != t.final && Handled(Finalize(t, true), a, b, NoError)
    ensures HasRegular(a, t.tmp) && b == Renamed(a, t.tmp, t.final) <==> t.tmp in a
    ensures t.tmp !in a ==> b == a && HasRegular(a, t.final)
  {
  }

  /** A commit may report success and publish nothing: a prior file is taken for the
      restored one. */
  lemma SuccessWithoutPublishing(t: Target, prior: Bytes, overwrites: bool)
    requires t.tmp != t.final
    ensures var f := map[t.final := Regular(prior)];
            Succeeds(Finalize(t, true), f, overwrites) && Handled(Finalize(t, true), f, f, NoError)
  {
  }

  /** The data is complete in the temporary file, or at the final path. */
  ghost predicate Safe(t: Target, data: Bytes, f: Files) {
    || (t.tmp in f && f[t.tmp] == Regular(data))
    || (t.tmp !in f && t.final in f && f[t.final] == Regular(data))
  }

  /** A request that may come between the writes and a commit: not a discard, and
      nothing else for the two paths. */
  ghost predicate Gentle(t: Target, data: Bytes, r: Request) {
    || IsPiece(t, data, r)
    || r == Finalize(t, true)
    || (r.target.tmp !in {t.tmp, t.final} && r.target.final !in {t.tmp, t.final})
  }

  lemma WholeIsTowards(data: Bytes)
    ensures Towards(data, data)
  {
  }

  lemma WriteKeepsWhole(t: Target, data: Bytes, e: Event)
    requires IsPiece(t, data, e.request) && Handled(e.request, e.before, e.after, e.error)
    requires t.tmp in e.before && e.before[t.tmp] == Regular(data)
    ensures t.tmp in e.after && e.after[t.tmp] == Regular(data)
  {
    WholeIsTowards(data);
    WriteFills(t, data, e.request, e.before, e.after, e.error);
    assert forall k :: 0 <= k < |data| ==> RightAt(e.before, t.tmp, data, k);
    AllRight(e.after, t.tmp, data);
  }

  /** A request for other paths leaves path `p` alone. */
  lemma PathKept(p: string, e: Event)
    requires e.sent && Handled(e.request, e.before, e.after, e.error)
    requires e.request.target.tmp != p && e.request.target.final != p
    ensures p in e.after <==> p in e.before
    ensures p in e.before ==> e.after[p] == e.before[p]
  {
  }

  lemma SafeStep(t: Target, data: Bytes, e: Event)
    requires t.tmp != t.final && Gentle(t, data, e.request) && EventOk(e, !e.sent) && Safe(t, data, e.before)
    ensures Safe(t, data, e.after)
  {
    if e.sent {
      if IsPiece(t, data, e.request) {
        if t.tmp in e.before {
          WriteKeepsWhole(t, data, e);
        } else {
          assert e.after == e.before;
        }
      } else if e.request != Finalize(t, true) {
        PathKept(t.tmp, e);
        PathKept(t.final, e);
      }
    }
  }

  lemma {:induction false} SafeFrom(t: Target, data: Bytes, log: seq<Event>, a: Files, b: Files, c: nat, j: nat)
    requires t.tmp != t.final && Chained(log, a, b) && c <= j <= |log| && Safe(t, data, Before(log, c, b))
    requires forall m :: 0 <= m < |log| ==> EventOk(log[m], !log[m].sent)
    requires forall m :: c <= m < j ==> Gentle(t, data, log[m].request)
    ensures Safe(t, data, Before(log, j, b))
  {
    if c < j {
      SafeFrom(t, data, log, a, b, c, j - 1);
      assert Before(log, j, b) == log[j - 1].after;
      SafeStep(t, data, log[j - 1]);
    }
  }

  /** Until it is finalized the temporary file stays. */
  lemma {:induction false} TmpStays(t: Target, data: Bytes, log: seq<Event>, a: Files, b: Files, i: nat, c: nat)
    requires t.tmp != t.final && Chained(log, a, b) && i < c <= |log|
    requires forall m :: 0 <= m < |log| ==> EventOk(log[m], !log[m].sent)
    requires log[i].request.Create? && log[i].request.target == t && log[i].sent && log[i].error.Ok()
    requires forall m :: i < m < c ==> Gentle(t, data, log[m].request) && !log[m].request.Finalize?
    ensures HasRegular(Before(log, c, b), t.tmp)
  {
    assert Before(log, c, b) == log[c - 1].after;
    assert EventOk(log[c - 1], !log[c - 1].sent);
    if c - 1 > i {
      TmpStays(t, data, log, a, b, i, c - 1);
      StaysOnce(t, data, log[c - 1]);
    }
  }

  lemma StaysOnce(t: Target, data: Bytes, e: Event)
    requires Gentle(t, data, e.request) && !e.request.Finalize? && EventOk(e, !e.sent) && HasRegular(e.before, t.tmp)
    ensures HasRegular(e.after, t.tmp)
  {
    if e.sent && !IsPiece(t, data, e.request) {
      PathKept(t.tmp, e);
    }
  }

  /** In every run of operations: after a successful create (event `i`) and writes that
      cover the data (before event `c`), with no discard and no new create, every
      commit that reports success, sent once or again, has exactly the data at the
      final path. */
  lemma CommittedIsExact(t: Target, data: Bytes, ops: seq<Operation>, log: seq<Event>, a: Files, b: Files,
                         i: nat, c: nat, j: nat)
    requires t.tmp != t.final && IsLog(log, ops, |ops|, a, b) && i < c <= j < |log|
    requires log[i].request.Create? && log[i].request.target == t && log[i].sent && log[i].error.Ok()
    requires forall m :: i < m < c ==> Gentle(t, data, log[m].request) && !log[m].request.Finalize?
    requires forall m :: c <= m < j ==> Gentle(t, data, log[m].request)
    requires forall k :: 0 <= k < |data| ==> CoveredIn(t, log, i, c, k)
    requires log[j].request == Finalize(t, true) && log[j].sent && log[j].error.Ok()
    ensures t.final in log[j].after && log[j].after[t.final] == Regular(data) && t.tmp !in log[j].after
  {
    forall m | 0 <= m < |log| ensures EventOk(log[m], !log[m].sent) {
      assert LogEvent(log, ops, |ops|, AllRequests(ops[..|ops|]), m);
    }
    forall m | i < m < c ensures Benign(t, data, log[m].request) {
      GentleIsBenign(t, data, log[m].request);
    }
    TmpFills(t, data, log, a, b, i, c);
    TmpStays(t, data, log, a, b, i, c);
    AllRight(Before(log, c, b), t.tmp, data);
    SafeFrom(t, data, log, a, b, c, j);
    SafeStep(t, data, log[j]);
  }

  lemma GentleIsBenign(t: Target, data: Bytes, r: Request)
    requires Gentle(t, data, r)
    ensures Benign(t, data, r)
  {
  }

  /** Clearing the final path first does not change what a create may do. */
  lemma CreatedAfterFinal(t: Target, a: Files, b: Files, c: Files, e: Error)
    requires SameOutside(a, b, {t.final}) && Withered(a, b, t.final) && t.tmp != t.final
    requires Created(t, b, c, e)
    ensures Created(t, a, c, e)
  {
  }

  class Share {
    var files: Files
    ghost const watched: string
    ghost var history: seq<Moment>
    ghost var request: Option<Request>   // the request being served
    ghost var faults: nat                // calls that have gone wrong
    ghost var lost: nat                  // calls that have found the connection unusable, see Told
    const overwrites: bool                 // a rename overwrites an existing target

    constructor (files: Files, overwrites: bool, ghost watched: string)
      ensures Valid() && this.files == files && this.overwrites == overwrites && this.watched == watched
      ensures |history| == 1 && faults == 0 && lost == 0
    {
      this.files := files;
      this.overwrites := overwrites;
      faults, lost := 0, 0;
      this.watched := watched;
      request := None;
      history := [Moment(files, None, if watched in files then FromPrior else Absent)];
    }

    ghost predicate Valid()
      reads this
    {
      AllExplained(history, watched) && Last(history) == files
    }

    /** Applies the effect of one call and records it. */
    method Change(f: Files)
      requires Valid() && Withered(files, f, watched)
      modifies this
      ensures Valid() && files == f && request == old(request) && Grown(old(history), history, request)
      ensures faults == old(faults) && lost == old(lost)
    {
      files := f;
      ExtendedIsExplained(history, f, request, watched);
      history := Extended(history, f, request, false, watched);
    }

    /** A call goes wrong. */
    ghost method Failed(status: uint32)
      modifies this`faults, this`lost
      ensures faults == old(faults) + 1
      ensures lost == old(lost) + if IsConnectionUnusable(status) then 1 else 0
    {
      faults := faults + 1;
      if IsConnectionUnusable(status) {
        lost := lost + 1;
      }
    }

    /** smbc_wrapper_delete_object or smbc_wrapper_delete_entity. */
    method DeleteObject(p: string) returns (error: Error)
      requires Valid()
      modifies this
      ensures Valid() && request == old(request) && Grown(old(history), history, request) && faults >= old(faults)
      ensures Told(old(lost), lost, error)
      ensures files == old(files) || files == old(files) - {p}
      ensures error.Ok() || error == NonExistent ==> p !in files
      ensures faults == old(faults) ==>
                error == if p !in old(files) then NonExistent else if old(files)[p].Folder? then Invalid else NoError
    {
      var failure: Option<uint32>, effect: bool := *, *;
      if p !in files {
        return NonExistent;
      }
      if failure.Some? && FromSmbErrorMessage(failure.value) != NonExistent {
        Failed(failure.value);
        if effect {
          Change(files - {p});
        }
        return FromSmbErrorMessage(failure.value);
      }
      if files[p].Folder? {
        return Invalid;
      }
      Change(files - {p});
      return NoError;
    }

    method GetMetadata(p: string) returns (error: Error, kind: Kind)
      modifies this`faults, this`lost
      ensures faults >= old(faults)
      ensures Told(old(lost), lost, error)
      ensures error.Ok() ==> p in files && (kind == FileKind <==> files[p].Regular?)
      ensures error == NonExistent ==> p !in files
      ensures faults == old(faults) ==> error == if p in files then NoError else NonExistent
    {
      var failure: Option<uint32> := *;
      kind := FileKind;
      if failure.Some? && FromSmbErrorMessage(failure.value) != NonExistent {
        Failed(failure.value);
        error := FromSmbErrorMessage(failure.value);
      } else if p !in files {
        error := NonExistent;
      } else {
        error := NoError;
        kind := match files[p] case Regular(_) => FileKind case Folder(_) => DirKind case Link => LinkKind;
      }
    }

    /** smbc_wrapper_set_metadata changes neither names nor contents. */
    method SetMetadata(p: string) returns (error: Error)
      modifies this`faults, this`lost
      ensures faults >= old(faults)
      ensures Told(old(lost), lost, error)
      ensures error.Ok() ==> p in files
      ensures faults == old(faults) ==> error == if p in files then NoError else NonExistent
    {
      var failure: Option<uint32> := *;
      if failure.Some? {
        Failed(failure.value);
        error := FromSmbErrorMessage(failure.value);
      } else {
        error := if p in files then NoError else NonExistent;
      }
    }

    /** The same call before a second attempt to delete; its failure is not told. */
    method ClearAttributes(p: string) returns (error: Error)
      modifies this`faults
      ensures faults >= old(faults)
      ensures error.Ok() ==> p in files
      ensures faults == old(faults) ==> error == if p in files then NoError else NonExistent
    {
      var failure: Option<uint32> := *;
      if failure.Some? {
        faults := faults + 1;
        return FromSmbErrorMessage(failure.value);
      }
      return if p in files then NoError else NonExistent;
    }

    /** smbc_wrapper_rename_object. An existing target is replaced or refused,
        whichever the server does. */
    method RenameObject(t: Target) returns (error: Error)
      requires Valid() && HasRegular(files, t.tmp) && t.tmp != watched && t.tmp != t.final
      requires request == Some(Finalize(t, true))
      modifies this
      ensures Valid() && request == old(request) && Grown(old(history), history, request) && faults >= old(faults)
      ensures Told(old(lost), lost, error)
      ensures files == old(files) || files == Renamed(old(files), t.tmp, t.final)
      ensures error.Ok() ==> files == Renamed(old(files), t.tmp, t.final)
      ensures faults == old(faults) ==>
                error == if overwrites || t.final !in old(files) then NoError else AlreadyExists
    {
      var failure: Option<uint32>, effect: bool := *, *;
      var refused := !overwrites && t.final in files;
      if failure.Some? {
        Failed(failure.value);
      }
      if failure.Some? && (refused || !effect) {
        return FromSmbErrorMessage(failure.value);
      }
      if refused {
        return FromSmbErrorMessage(OBJECT_NAME_COLLISION);
      }
      RenameIsExplained(history, t, watched);
      files := Renamed(files, t.tmp, t.final);
      history := Extended(history, files, request, t.final == watched, watched);
      error := if failure.Some? then FromSmbErrorMessage(failure.value) else NoError;
    }

    method DeleteFile(p: string) returns (error: Error)
      requires Valid()
      modifies this
      ensures Valid() && request == old(request) && Grown(old(history), history, request) && faults >= old(faults)
      ensures Told(old(lost), lost, error)
      ensures files == old(files) || files == old(files) - {p}
      ensures error.Ok() || error == NonExistent ==> p !in files
      ensures faults == old(faults) ==>
                error == if p !in old(files) then NonExistent else if old(files)[p].Folder? then Invalid else NoError
    {
      error := DeleteObject(p);
      if error == CannotDelete {
        var clearError := ClearAttributes(p);
        if !clearError.Ok() {
          return;
        }
        error := DeleteObject(p);
      }
    }

    /** The recursive deletion of a directory: entries go one by one, then the
        directory itself; a call that goes wrong stops it. */
    method DeleteDir(p: string) returns (error: Error)
      requires Valid()
      modifies this
      ensures Valid() && request == old(request) && Grown(old(history), history, request) && faults >= old(faults)
      ensures Told(old(lost), lost, error)
      ensures SameOutside(old(files), files, {p}) && Withered(old(files), files, p)
      ensures error.Ok() || error == NonExistent ==> p !in files
      ensures faults == old(faults) ==>
                error == if p !in old(files) then NonExistent else if old(files)[p].Folder? then NoError else Invalid
    {
      ghost var before := files;
      if p !in files || !files[p].Folder? {
        return if p in files then Invalid else NonExistent;
      }
      while files[p].entries > 0
        invariant Valid() && request == old(request) && Grown(old(history), history, request)
        invariant faults == old(faults) && lost == old(lost) && p in files && files[p].Folder?
        invariant SameOutside(before, files, {p}) && Withered(before, files, p)
        decreases files[p].entries
      {
        var failure: Option<uint32> := *;
        if failure.Some? {
          Failed(failure.value);
          error := FromSmbErrorMessage(failure.value);
          return if error == NonExistent then Invalid else error;
        }
        Change(files[p := Folder(files[p].entries - 1)]);
      }
      var failure: Option<uint32>, effect: bool := *, *;
      var fails := failure.Some? && FromSmbErrorMessage(failure.value) != NonExistent;
      if fails {
        Failed(failure.value);
      }
      if effect || !fails {
        Change(files - {p});
      }
      return if fails then FromSmbErrorMessage(failure.value) else NoError;
    }

    // ---- Create ----

    method HandleEntity(t: Target, existing: Existing) returns (error: Error)
      requires Valid() && existing != Broken(NoError) && t.tmp != watched && t.tmp != t.final
      modifies this
      ensures Valid() && request == old(request) && Grown(old(history), history, request) && faults >= old(faults)
      ensures RetryTold(Create(t, existing), old(lost), lost, error)
      ensures Created(t, old(files), files, error)
      ensures faults == old(faults) ==> (error.Ok() <==> CanCreate(old(files), t, existing))
    {
      if existing.NotGiven? || existing == Broken(NonExistent) {
        error := DeleteTmpEntity(t);
        return;
      }
      if existing.Broken? {
        return existing.error;
      }
      error := DeleteExistingEntity(t, existing.kind);
    }

    method DeleteExistingEntity(t: Target, kind: Kind) returns (error: Error)
      requires Valid() && t.tmp != watched && t.tmp != t.final
      modifies this
      ensures Valid() && request == old(request) && Grown(old(history), history, request) && faults >= old(faults)
      ensures Told(old(lost), lost, error)
      ensures Created(t, old(files), files, error)
      ensures faults == old(faults) ==> (error.Ok() <==> CanCreate(old(files), t, Known(kind)))
    {
      ghost var f0 := files;
      match kind {
        case DirKind => error := DeleteDir(t.final);
        case FileKind => error := DeleteFile(t.final);
        case LinkKind => error := DeleteObject(t.final);
      }
      if !error.Ok() && error != NonExistent {
        return;
      }
      ghost var f1 := files;
      error := DeleteTmpEntity(t);
      CreatedAfterFinal(t, f0, f1, files, error);
    }

    method DeleteTmpEntity(t: Target) returns (error: Error)
      requires Valid() && t.tmp != watched && t.tmp != t.final
      modifies this
      ensures Valid() && request == old(request) && Grown(old(history), history, request) && faults >= old(faults)
      ensures Told(old(lost), lost, error)
      ensures Created(t, old(files), files, error)
      ensures faults == old(faults) ==> (error.Ok() <==> CanCreate(old(files), t, NotGiven))
    {
      error := DeleteObject(t.tmp);
      if !error.Ok() && error != NonExistent {
        return;
      }
      error := DeleteNewEntity(t);
    }

    method DeleteNewEntity(t: Target) returns (error: Error)
      requires Valid() && t.tmp != watched && t.tmp != t.final
      modifies this
      ensures Valid() && request == old(request) && Grown(old(history), history, request) && faults >= old(faults)
      ensures Told(old(lost), lost, error)
      ensures Created(t, old(files), files, error)
      ensures faults == old(faults) ==> (error.Ok() <==> t.tmp !in old(files) && !IsFolder(old(files), t.final))
    {
      error := DeleteObject(t.final);
      if !error.Ok() && error != NonExistent {
        return;
      }
      error := CreateRegularFile(t.tmp);
    }

    /** smbc_wrapper_create_object for a file. */
    method CreateRegularFile(p: string) returns (error: Error)
      requires Valid() && p != watched
      modifies this
      ensures Valid() && request == old(request) && Grown(old(history), history, request) && faults >= old(faults)
      ensures Told(old(lost), lost, error)
      ensures files == old(files) || (p !in old(files) && files == old(files)[p := Regular([])])
      ensures error.Ok() ==> p !in old(files) && files == old(files)[p := Regular([])]
      ensures faults == old(faults) ==> (error.Ok() <==> p !in old(files))
    {
      var failure: Option<uint32>, effect: bool := *, *;
      if p in files {
        return FromSmbErrorMessage(OBJECT_NAME_COLLISION);
      }
      if failure.Some? {
        Failed(failure.value);
      }
      if effect || failure.None? {
        Change(files[p := Regular([])]);
      }
      error := if failure.Some? then FromSmbErrorMessage(failure.value) else NoError;
    }

    // ---- Write ----

    method WriteEntity(t: Target, offset: nat, data: Bytes) returns (error: Error)
      requires Valid() && t.tmp != watched
      modifies this
      ensures Valid() && request == old(request) && Grown(old(history), history, request) && faults >= old(faults)
      ensures Told(old(lost), lost, error)
      ensures Written(t, offset, data, old(files), files, error)
      ensures faults == old(faults) ==> (error.Ok() <==> HasRegular(old(files), t.tmp)) && error != Retry
    {
      ghost var f0 := files;
      if t.tmp !in files || !files[t.tmp].Regular? {
        assert f0 == Landed(f0, t.tmp, offset, data, 0);
        return if t.tmp in files then Invalid else NonExistent;
      }
      var maxWriteSize: uint32, maxRetries: nat, oracle: nat -> ChunkedIo.WriteOutcome := *, *, *;
      var clean: bool := *;
      if clean {
        oracle := n => ChunkedIo.Wrote(ChunkedIo.TWO_32);
      } else {
        faults := faults + 1;
      }
      if maxWriteSize == 0 {
        maxWriteSize := 1;
      }
      var noHandle := (n: nat) => None;   // handles are not cached here
      var content;
      ghost var landed, calls;
      error, content, landed, calls := ChunkedIo.WriteFileDataHelper(
        files[t.tmp].data, data, |data|, offset, false, maxWriteSize, oracle, noHandle, maxRetries);
      if calls > 0 && ChunkedIo.LostOnWrite(oracle(calls - 1)) {
        lost := lost + 1;
      }
      assert files[t.tmp := Regular(content)] == Landed(files, t.tmp, offset, data, landed);
      Change(files[t.tmp := Regular(content)]);
    }

    // ---- Finalize ----

    method FinalizeEntity(t: Target, commit: bool) returns (error: Error)
      requires Valid() && t.tmp != watched && t.tmp != t.final && request == Some(Finalize(t, commit))
      modifies this
      ensures Valid() && request == old(request) && Grown(old(history), history, request) && faults >= old(faults)
      ensures RetryTold(Finalize(t, commit), old(lost), lost, error)
      ensures Handled(Finalize(t, commit), old(files), files, error)
      ensures faults == old(faults) ==> error != Retry
      ensures faults == old(faults) ==>
                (error.Ok() <==> if commit then CanCommit(old(files), t, overwrites) else !IsFolder(old(files), t.tmp))
    {
      if !commit {
        error := DeleteFile(t.tmp);
        if error == NonExistent {
          error := NoError;
        }
        return;
      }
      error := RenameEntity(t);
    }

    method RenameEntity(t: Target) returns (error: Error)
      requires Valid() && t.tmp != watched && t.tmp != t.final && request == Some(Finalize(t, true))
      modifies this
      ensures Valid() && request == old(request) && Grown(old(history), history, request) && faults >= old(faults)
      ensures Told(old(lost), lost, error)
      ensures Committed(t, old(files), files, error)
      ensures faults == old(faults) ==> error != Retry && (error.Ok() <==> CanCommit(old(files), t, overwrites))
    {
      var haveMemory: bool := *;
      if !haveMemory {
        faults := faults + 1;
        return Invalid;
      }
      var kind;
      error, kind := GetMetadata(t.tmp);
      if error.Ok() {
        if kind != FileKind {
          return Invalid;
        }
        error := RenameObject(t);
        if error.Ok() {
          error := SetMetadata(t.final);
        }
        return;
      }
      if error != NonExistent {
        return;
      }
      error, kind := GetMetadata(t.final);
      if !error.Ok() {
        return;
      }
      if kind != FileKind {
        return NonExistent;
      }
      error := SetMetadata(t.final);
    }

    // ---- Requests ----

    method Handle(r: Request) returns (error: Error)
      requires Valid() && Sound(r, watched)
      modifies this
      ensures Valid() && Grown(old(history), history, Some(r)) && faults >= old(faults)
      ensures RetryTold(r, old(lost), lost, error)
      ensures Handled(r, old(files), files, error)
      ensures faults == old(faults) ==> FaultFree(r, old(files), error, overwrites)
    {
      request := Some(r);
      match r {
        case Create(t, existing) => error := HandleEntity(t, existing);
        case Write(t, offset, data) => error := WriteEntity(t, offset, data);
        case Finalize(t, commit) => error := FinalizeEntity(t, commit);
      }
    }

    /** The request loop of the write and the finalize operation. After the first
        error that asks for a retry nothing more is sent: the remaining requests
        get that error, and the connection has to be shut down. */
    method Start(rs: seq<Request>) returns (errors: seq<Error>, overall: Error, shutdown: bool,
                 ghost states: seq<Files>)
      requires Valid() && forall r :: r in rs ==> Sound(r, watched)
      modifies this
      ensures Valid() && GrownBy(old(history), history, rs) && faults >= old(faults)
      ensures |errors| == |rs| && |states| == |rs| + 1 && states[0] == old(files) && states[|rs|] == files
      ensures forall i :: 0 <= i < |rs| ==> Outcome(rs, states, errors, i)
      ensures shutdown <==> Retry in errors
      ensures lost >= old(lost)
      ensures (forall r :: r in rs ==> !r.Create?) ==> (shutdown <==> lost > old(lost))
      ensures overall == FirstError(errors)
      ensures faults == old(faults) ==>
                forall i :: 0 <= i < |rs| && Retry !in errors[..i] ==>
                  FaultFree(rs[i], states[i], errors[i], overwrites)
    {
      errors, overall, shutdown, states := [], NoError, false, [files];
      var retryError := NoError;
      for idx := 0 to |rs|
        invariant Valid() && GrownBy(old(history), history, rs)
        invariant |errors| == idx && |states| == idx + 1 && states[0] == old(files) && states[idx] == files
        invariant forall i :: 0 <= i < idx ==> Outcome(rs, states, errors, i)
        invariant shutdown <==> Retry in errors
        invariant lost >= old(lost)
        invariant (forall r :: r in rs ==> !r.Create?) ==> (shutdown <==> lost > old(lost))
        invariant shutdown ==> retryError == Retry && !overall.Ok()
        invariant overall == FirstError(errors)
        invariant faults >= old(faults)
        invariant faults == old(faults) ==>
                    forall i :: 0 <= i < idx && Retry !in errors[..i] ==>
                      FaultFree(rs[i], states[i], errors[i], overwrites)
      {
        ghost var before, h := errors, history;
        var error := retryError;
        if !shutdown {
          error := Handle(rs[idx]);
          GrowMore(old(history), h, history, rs, rs[idx]);
          if !error.Ok() {
            if overall.Ok() {
              overall := error;
            }
            if error == Retry {
              shutdown, retryError := true, error;
            }
          }
        }
        FirstErrorPush(errors, error);
        forall i | 0 <= i < idx ensures Outcome(rs, states + [files], errors + [error], i) {
          OutcomeKept(rs, states, errors, i, files, error);
        }
        errors := errors + [error];
        states := states + [files];
        assert forall i :: 0 <= i <= idx ==> errors[..i] == before[..i];
        assert before[..idx] == before;
      }
    }

    /** The request loop of the create operation, which goes on after any error. */
    method StartCreate(rs: seq<Request>) returns (errors: seq<Error>, ghost states: seq<Files>)
      requires Valid() && forall r :: r in rs ==> Sound(r, watched)
      modifies this
      ensures Valid() && GrownBy(old(history), history, rs) && faults >= old(faults)
      ensures |errors| == |rs| && |states| == |rs| + 1 && states[0] == old(files) && states[|rs|] == files
      ensures forall i :: 0 <= i < |rs| ==> Handled(rs[i], states[i], states[i + 1], errors[i])
      ensures faults == old(faults) ==>
                forall i :: 0 <= i < |rs| ==> FaultFree(rs[i], states[i], errors[i], overwrites)
    {
      errors, states := [], [files];
      for idx := 0 to |rs|
        invariant Valid() && GrownBy(old(history), history, rs)
        invariant |errors| == idx && |states| == idx + 1 && states[0] == old(files) && states[idx] == files
        invariant forall i :: 0 <= i < idx ==> Handled(rs[i], states[i], states[i + 1], errors[i])
        invariant faults >= old(faults)
        invariant faults == old(faults) ==>
                    forall i :: 0 <= i < idx ==> FaultFree(rs[i], states[i], errors[i], overwrites)
      {
        ghost var h := history;
        var error := Handle(rs[idx]);
        GrowMore(old(history), h, history, rs, rs[idx]);
        errors := errors + [error];
        states := states + [files];
      }
    }

    /** Any number of operations, issued and re-issued in any order. At every moment
        the watched path is explained, and what it owes to a rename it owes to one of
        the requests; `log` tells what each request did; and if no call goes wrong,
        each request that is sent succeeds exactly if it can. */
    method Serve(ops: seq<Operation>) returns (ghost log: seq<Event>)
      requires Valid() && forall op :: op in ops ==> forall r :: r in op.requests ==> Sound(r, watched)
      modifies this
      ensures AllExplained(history, watched) && Last(history) == files
      ensures GrownBy(old(history), history, AllRequests(ops))
      ensures IsLog(log, ops, |ops|, old(files), files)
      ensures faults >= old(faults) && (faults == old(faults) ==> NoFaults(log, overwrites))
    {
      log := [];
      for n := 0 to |ops|
        invariant Valid() && GrownBy(old(history), history, AllRequests(ops[..n]))
        invariant IsLog(log, ops, n, old(files), files)
        invariant faults >= old(faults) && (faults == old(faults) ==> NoFaults(log, overwrites))
      {
        ghost var h, before := history, files;
        assert ops[n] in ops;
        ghost var events;
        match ops[n] {
          case CreateFiles(rs) =>
            var errors, states := StartCreate(rs);
            events := EventsOf(n, ops[n], states, errors);
            CreateEvents(n, ops[n], states, errors);
          case WriteOrFinalizeFiles(rs) =>
            var errors, overall, shutdown, states := Start(rs);
            events := EventsOf(n, ops[n], states, errors);
            DataEvents(n, ops[n], states, errors);
        }
        LogGrows(log, ops, n, events, old(files), before, files);
        NextRequests(ops, n);
        GrowOn(old(history), h, history, AllRequests(ops[..n]), ops[n].requests, AllRequests(ops[..n + 1]));
        log := log + events;
      }
      assert ops[..|ops|] == ops;
    }
  }
}
