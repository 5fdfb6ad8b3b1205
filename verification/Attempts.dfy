/** The retry loops of reads and writes, as far as the file handle goes: an
    attempt may open a handle, and the loop may leave early without handing it
    to the cache. */
module Attempts {
  import opened Status

  type Fnum = int

  datatype Ending = Complete | Again | Abort

  /** `opens` is the handle that the server opens if none is open so far. */
  datatype Attempt = Attempt(opens: Option<Fnum>, ending: Ending)

  /** The statuses after which the loops return at once. */
  predicate AbortsOn(status: uint32) {
    var error := FromSmbErrorMessage(status);
    IsConnectionUnusable(status) || error == NonExistent || error == PermissionDenied
  }

  /** The attempts of one loop: it goes on only after an attempt that neither
      completes nor aborts, and only until the retries are used up. */
  ghost predicate IsTrail(trail: seq<Attempt>, maxRetries: nat) {
    && 0 < |trail| <= maxRetries + 1
    && (forall i :: 0 <= i < |trail| - 1 ==> trail[i].ending == Again)
    && (Last(trail).ending == Again ==> |trail| == maxRetries + 1)
  }

  ghost predicate AllAgain(trail: seq<Attempt>) {
    forall i :: 0 <= i < |trail| ==> trail[i].ending == Again
  }

  function Last(trail: seq<Attempt>): Attempt
    requires trail != []
  {
    trail[|trail| - 1]
  }

  ghost predicate Aborted(trail: seq<Attempt>) {
    trail != [] && Last(trail).ending == Abort
  }

  ghost predicate Opens(trail: seq<Attempt>) {
    exists i :: 0 <= i < |trail| && trail[i].opens.Some?
  }

  /** The handle in use after the attempts: the one from before, or the first
      that was opened. */
  ghost function HandleAfter(before: Option<Fnum>, trail: seq<Attempt>): Option<Fnum> {
    if trail == [] then before
    else
      var h := HandleAfter(before, trail[..|trail| - 1]);
      if h.Some? then h else trail[|trail| - 1].opens
  }

  lemma HandlePush(before: Option<Fnum>, trail: seq<Attempt>, a: Attempt)
    ensures HandleAfter(before, trail + [a])
         == if HandleAfter(before, trail).Some? then HandleAfter(before, trail) else a.opens
  {
    assert (trail + [a])[..|trail|] == trail;
  }

  /** One more attempt of a loop that has got this far. */
  lemma TrailStep(before: Option<Fnum>, trail: seq<Attempt>, a: Attempt, maxRetries: nat)
    requires AllAgain(trail) && |trail| <= maxRetries
    ensures HandleAfter(before, trail + [a])
         == if HandleAfter(before, trail).Some? then HandleAfter(before, trail) else a.opens
    ensures a.ending == Again ==> AllAgain(trail + [a])
    ensures a.ending != Again || |trail| == maxRetries ==> IsTrail(trail + [a], maxRetries)
    ensures Last(trail + [a]) == a && (Aborted(trail + [a]) <==> a.ending == Abort)
  {
    HandlePush(before, trail, a);
  }

  lemma {:induction false} HandleKept(before: Option<Fnum>, trail: seq<Attempt>)
    requires before.Some?
    ensures HandleAfter(before, trail) == before
  {
    if trail != [] {
      HandleKept(before, trail[..|trail| - 1]);
    }
  }

  /** `h` is the first handle that an attempt opens. */
  ghost predicate FirstOpened(trail: seq<Attempt>, h: Fnum) {
    exists i :: 0 <= i < |trail| && trail[i].opens == Some(h) && forall j :: 0 <= j < i ==> trail[j].opens.None?
  }

  lemma {:induction false} HandleIsFirstOpened(trail: seq<Attempt>)
    requires HandleAfter(None, trail).Some?
    ensures FirstOpened(trail, HandleAfter(None, trail).value)
  {
    var n := |trail| - 1;
    var before := trail[..n];
    if HandleAfter(None, before).Some? {
      HandleIsFirstOpened(before);
      var i :| 0 <= i < n && before[i].opens == HandleAfter(None, before)
               && forall j :: 0 <= j < i ==> before[j].opens.None?;
      assert forall j :: 0 <= j < i ==> trail[j] == before[j];
    } else {
      HandleIffOpened(before);
      assert forall j :: 0 <= j < n ==> trail[j] == before[j];
    }
  }

  lemma {:induction false} HandleIffOpened(trail: seq<Attempt>)
    ensures HandleAfter(None, trail).Some? <==> Opens(trail)
  {
    if trail != [] {
      var n := |trail| - 1;
      HandleIffOpened(trail[..n]);
      if Opens(trail) {
        var i :| 0 <= i < |trail| && trail[i].opens.Some?;
        assert i < n ==> trail[..n][i].opens.Some?;
      }
      if Opens(trail[..n]) {
        var i :| 0 <= i < n && trail[..n][i].opens.Some?;
        assert trail[i].opens.Some?;
      }
    }
  }
}
