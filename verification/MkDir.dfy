/** `mkdir -p` on a share, with rollback of newly created directories. Paths
    use `\` as separator and start with it; the share's root is "". */
module MkDir {
  import opened Status

  datatype Kind = File | Dir

  type Entries = map<string, Kind>

  /** What goes wrong at one server call. Raced: another client creates the same
      directory just before this call. */
  datatype Fault = Fine | Fails(status: uint32) | Raced

  /** The position of the last separator. */
  function LastSeparator(path: string): (pos: nat)
    requires path != "" && path[0] == '\\'
    ensures pos < |path| && path[pos] == '\\' && forall i :: pos < i < |path| ==> path[i] != '\\'
    decreases |path|
  {
    if path[|path| - 1] == '\\' then |path| - 1 else
      var init := path[..|path| - 1];
      LastSeparator(init)
  }

  predicate Rooted(path: string) { path == "" || path[0] == '\\' }

  function Parent(path: string): (p: string)
    requires path != "" && Rooted(path)
    ensures Rooted(p) && |p| < |path| && p <= path
  {
    path[..LastSeparator(path)]
  }

  /** Every entry but the root lies in an existing directory. */
  ghost predicate Closed(e: Entries) {
    && "" in e && e[""] == Dir
    && forall p :: p in e && p != "" ==> Rooted(p) && Parent(p) in e && e[Parent(p)] == Dir
  }

  predicate HasChild(e: Entries, d: string) {
    exists p :: p in e && p != "" && Rooted(p) && Parent(p) == d
  }

  /** The directories to make, outermost first. */
  ghost function Missing(e: Entries, path: string): seq<string>
    requires Rooted(path)
    decreases |path|
  {
    if path in e || path == "" then [] else Missing(e, Parent(path)) + [path]
  }

  ghost function WithDirs(e: Entries, ds: seq<string>): Entries {
    e + (map d | d in ds :: Dir)
  }

  ghost predicate AncestorOrSelf(a: string, path: string)
    requires Rooted(path)
    decreases |path|
  {
    a == path || (path != "" && AncestorOrSelf(a, Parent(path)))
  }

  lemma {:induction false} AncestorsExist(e: Entries, a: string, path: string)
    requires Closed(e) && Rooted(path) && AncestorOrSelf(a, path) && path in e
    ensures a in e
    decreases |path|
  {
    if a != path {
      AncestorsExist(e, a, Parent(path));
    }
  }

  /** In a closed share the directories made are exactly the missing ones among
      the target and all its ancestors. */
  lemma {:induction false} MissingAreTheAbsentAncestors(e: Entries, path: string, a: string)
    requires Closed(e) && Rooted(path)
    ensures a in Missing(e, path) <==> AncestorOrSelf(a, path) && a !in e
    decreases |path|
  {
    if path in e {
      if AncestorOrSelf(a, path) {
        AncestorsExist(e, a, path);
      }
    } else {
      MissingAreTheAbsentAncestors(e, Parent(path), a);
    }
  }

  /** `ds` is a chain of new directories below an existing one. */
  ghost predicate Chain(e: Entries, ds: seq<string>) {
    && (forall i :: 0 <= i < |ds| ==> ds[i] != "" && Rooted(ds[i]) && ds[i] !in e)
    && (forall i :: 0 < i < |ds| ==> Parent(ds[i]) == ds[i - 1])
    && (ds != [] ==> Parent(ds[0]) in e && e[Parent(ds[0])] == Dir)
  }

  lemma {:induction false} ChainLengths(e: Entries, ds: seq<string>, i: nat, j: nat)
    requires Chain(e, ds) && i < j < |ds|
    ensures |ds[i]| < |ds[j]|
  {
    if i < j - 1 {
      ChainLengths(e, ds, i, j - 1);
    }
    assert Parent(ds[j]) == ds[j - 1];
  }

  lemma ChainDistinct(e: Entries, ds: seq<string>)
    requires Chain(e, ds)
    ensures forall i, j :: 0 <= i < j < |ds| ==> ds[i] != ds[j]
  {
    forall i, j | 0 <= i < j < |ds| ensures ds[i] != ds[j] {
      ChainLengths(e, ds, i, j);
    }
  }

  lemma SplitLast(ds: seq<string>)
    requires ds != []
    ensures ds == ds[..|ds| - 1] + [ds[|ds| - 1]]
  {
  }

  lemma ChainInit(e: Entries, ds: seq<string>)
    requires Chain(e, ds) && ds != []
    ensures Chain(e, ds[..|ds| - 1])
  {
  }

  lemma ChainPush(e: Entries, ds: seq<string>, d: string)
    requires Chain(e, ds) && d != "" && Rooted(d) && d !in e
    requires if ds == [] then Parent(d) in e && e[Parent(d)] == Dir else Parent(d) == ds[|ds| - 1]
    ensures Chain(e, ds + [d])
  {
  }

  lemma WithPush(e: Entries, ds: seq<string>, d: string)
    ensures WithDirs(e, ds + [d]) == WithDirs(e, ds)[d := Dir]
  {
  }

  lemma WithoutFresh(e: Entries, d: string)
    requires d !in e
    ensures e[d := Dir] - {d} == e
  {
  }

  /** The last directory of a chain is empty as long as it is the last. */
  lemma LastIsEmpty(e: Entries, ds: seq<string>)
    requires Closed(e) && Chain(e, ds) && ds != []
    ensures !HasChild(WithDirs(e, ds), ds[|ds| - 1])
  {
    var n := |ds| - 1;
    var d := ds[n];
    forall p | p in WithDirs(e, ds) && p != "" && Rooted(p) ensures Parent(p) != d {
      if p in e {
        assert Parent(p) in e;
      } else {
        var i :| 0 <= i < |ds| && ds[i] == p;
        if i < n {
          ChainLengths(e, ds, i, n);
        }
      }
    }
  }

  lemma DropLast(e: Entries, ds: seq<string>)
    requires Chain(e, ds) && ds != []
    ensures WithDirs(e, ds) - {ds[|ds| - 1]} == WithDirs(e, ds[..|ds| - 1])
    ensures Chain(e, ds[..|ds| - 1])
  {
    var init, d := ds[..|ds| - 1], ds[|ds| - 1];
    ChainInit(e, ds);
    SplitLast(ds);
    WithPush(e, init, d);
    ChainDistinct(e, ds);
    assert d !in init;
    WithoutFresh(WithDirs(e, init), d);
  }

  /** The closest ancestor that exists. */
  ghost function Nearest(e: Entries, path: string): (a: string)
    requires Closed(e) && Rooted(path)
    ensures a in e
    decreases |path|
  {
    if path in e then path else Nearest(e, Parent(path))
  }

  lemma {:induction false} MissingAreShort(e: Entries, path: string)
    requires Rooted(path)
    ensures forall d :: d in Missing(e, path) ==> |d| <= |path|
    decreases |path|
  {
    if path !in e && path != "" {
      MissingAreShort(e, Parent(path));
    }
  }

  lemma MissingParent(e: Entries, path: string)
    requires Closed(e) && Rooted(path) && path !in e
    ensures path !in WithDirs(e, Missing(e, Parent(path)))
    ensures Missing(e, path) == Missing(e, Parent(path)) + [path]
  {
    MissingAreShort(e, Parent(path));
  }

  lemma ExtendMissing(e: Entries, path: string)
    requires Closed(e) && Rooted(path) && path !in e
    requires Chain(e, Missing(e, Parent(path)))
    requires var w := WithDirs(e, Missing(e, Parent(path))); Parent(path) in w && w[Parent(path)] == Dir
    ensures Chain(e, Missing(e, path))
    ensures WithDirs(e, Missing(e, path)) == WithDirs(e, Missing(e, Parent(path)))[path := Dir]
  {
    MissingParent(e, path);
    WithPush(e, Missing(e, Parent(path)), path);
    ChainPush(e, Missing(e, Parent(path)), path);
  }

  lemma PrefixOfParent(e: Entries, path: string, ds: seq<string>)
    requires Closed(e) && Rooted(path) && path !in e && ds <= Missing(e, Parent(path))
    ensures ds <= Missing(e, path)
  {
    MissingParent(e, path);
  }

  lemma NoDirs(e: Entries)
    ensures WithDirs(e, []) == e && Chain(e, [])
  {
  }

  lemma AppendEmpty(ds: seq<string>)
    ensures ds + [] == ds
  {
  }

  /** A directory that another client put under the last one recorded. */
  lemma StrayIsChild(e: Entries, ds: seq<string>, stray: seq<string>)
    requires Chain(e, ds + stray) && ds != [] && stray != []
    ensures HasChild(WithDirs(e, ds + stray), ds[|ds| - 1])
  {
    var all := ds + stray;
    var p := all[|ds|];
    assert Parent(p) == all[|ds| - 1];
    assert p in WithDirs(e, all);
  }

  /** The last recorded directory is empty unless there is a stray one in it. */
  lemma LastOfMade(e: Entries, ds: seq<string>, stray: seq<string>)
    requires Closed(e) && Chain(e, ds + stray) && ds != []
    ensures var w, d := WithDirs(e, ds + stray), ds[|ds| - 1];
            d in w && w[d] == Dir && (HasChild(w, d) <==> stray != [])
  {
    assert ds[|ds| - 1] in ds + stray;
    if stray == [] {
      AppendEmpty(ds);
      LastIsEmpty(e, ds);
    } else {
      StrayIsChild(e, ds, stray);
    }
  }

  lemma DropLastMade(e: Entries, ds: seq<string>)
    requires Chain(e, ds + []) && ds != []
    ensures WithDirs(e, ds + []) - {ds[|ds| - 1]} == WithDirs(e, ds[..|ds| - 1] + [])
    ensures Chain(e, ds[..|ds| - 1] + [])
  {
    AppendEmpty(ds);
    DropLast(e, ds);
    AppendEmpty(ds[..|ds| - 1]);
  }

  function WithoutTrailing(path: string): (dir: string)
    requires path != "" && path[0] == '\\'
    ensures Rooted(dir)
  {
    if path[|path| - 1] == '\\' then path[..|path| - 1] else path
  }

  /** No other client interferes during the calls numbered `from..to`. */
  ghost predicate Alone(oracle: nat -> Fault, from: nat, to: nat) {
    forall t :: from <= t < to ==> !oracle(t).Raced?
  }

  ghost predicate NoFailure(oracle: nat -> Fault, from: nat, to: nat) {
    forall t :: from <= t < to ==> !oracle(t).Fails?
  }

  // ---- The calls as functions of what goes wrong ----

  /** The share, the number of calls made so far, and the directories that another
      client has made since the operation began. */
  datatype View = View(entries: Entries, clock: nat, foreign: set<string>)

  /** The answer is truthful about existence; any other error may occur. */
  function Metadata(oracle: nat -> Fault, s: View, path: string): (Error, Kind) {
    var f := oracle(s.clock);
    if f.Fails? && FromSmbErrorMessage(f.status) != NonExistent then (FromSmbErrorMessage(f.status), File)
    else if path in s.entries then (NoError, s.entries[path])
    else (NonExistent, File)
  }

  /** smbc_wrapper_create_object for a directory: the NT status on failure. A race
      that another client wins looks like a collision. */
  function Created(oracle: nat -> Fault, s: View, path: string): (View, Option<uint32>)
    requires path != "" && Rooted(path)
  {
    var f, t := oracle(s.clock), s.(clock := s.clock + 1);
    if f.Fails? && f.status != OBJECT_NAME_COLLISION then (t, Some(f.status))
    else if path in s.entries then (t, Some(OBJECT_NAME_COLLISION))
    else if Parent(path) !in s.entries || s.entries[Parent(path)] != Dir then (t, Some(OBJECT_PATH_NOT_FOUND))
    else
      var u := t.(entries := s.entries[path := Dir]);
      if f.Raced? then (u.(foreign := s.foreign + {path}), Some(OBJECT_NAME_COLLISION)) else (u, None)
  }

  function Checked(oracle: nat -> Fault, s: View, path: string): (View, Error)
    requires path != "" && Rooted(path)
  {
    var (t, status) := Created(oracle, s, path);
    if status.None? then (t, NoError)
    else if status.value != OBJECT_NAME_COLLISION then (t, FromSmbErrorMessage(status.value))
    else
      var (e, kind) := Metadata(oracle, t, path);
      (t.(clock := t.clock + 1), if e.Ok() && kind == Dir then NoError else Invalid)
  }

  function MadeWithParents(oracle: nat -> Fault, s: View, path: string): (View, Error, seq<string>)
    requires Rooted(path)
    decreases |path|
  {
    var (e, kind) := Metadata(oracle, s, path);
    var t := s.(clock := s.clock + 1);
    if e.Ok() then (t, if kind == Dir then NoError else Invalid, [])
    else if e != NonExistent || path == "" then (t, e, [])
    else
      var (u, parentError, newly) := if Parent(path) == "" then (t, NoError, []) else MadeWithParents(oracle, t,
          Parent(path));
      if !parentError.Ok() then (u, parentError, newly)
      else
        var (v, error) := Checked(oracle, u, path);
        (v, error, if error.Ok() then newly + [path] else newly)
  }

  /** The server refuses to remove a directory that is not empty. */
  function Deleted(oracle: nat -> Fault, s: View, path: string): (View, Error) {
    var f, t := oracle(s.clock), s.(clock := s.clock + 1);
    if f.Fails? then (t, FromSmbErrorMessage(f.status))
    else if path !in s.entries then (t, NonExistent)
    else if s.entries[path] != Dir || HasChild(s.entries, path) then (t, Invalid)
    else (t.(entries := s.entries - {path}), NoError)
  }

  function CleanedUp(oracle: nat -> Fault, s: View, dirs: seq<string>): (View, Error)
    decreases |dirs|
  {
    if dirs == [] then (s, NoError)
    else
      var (t, error) := Deleted(oracle, s, dirs[|dirs| - 1]);
      if error.Ok() then CleanedUp(oracle, t, dirs[..|dirs| - 1]) else (t, error)
  }

  /** The whole operation on a well-formed path. */
  function MkDirOf(oracle: nat -> Fault, s: View, path: string): (View, Error)
    requires path != "" && path[0] == '\\'
  {
    MadeOrCleaned(oracle, s, WithoutTrailing(path))
  }

  function MadeOrCleaned(oracle: nat -> Fault, s: View, dir: string): (View, Error)
    requires Rooted(dir)
  {
    var (t, error, newly) := MadeWithParents(oracle, s, dir);
    if error.Ok() then (t, error)
    else
      var (u, failure) := CleanedUp(oracle, t, newly);
      (u, if failure.Ok() then error else failure)
  }

  // ---- Which error is told ----

  /** A failure other than a missing path or a collision. */
  ghost predicate Serious(f: Fault) {
    f.Fails? && FromSmbErrorMessage(f.status) != NonExistent && FromSmbErrorMessage(f.status) != AlreadyExists
  }

  /** A serious failure is told as it is, except in the check after a collision, which
      only finds out whether there is a directory now. */
  lemma CheckedTells(oracle: nat -> Fault, s: View, path: string)
    requires path != "" && Rooted(path)
    ensures var (t, e) := Checked(oracle, s, path);
            && s.clock < t.clock <= s.clock + 2
            && (Serious(oracle(s.clock)) ==> t.clock == s.clock + 1 && e == FromSmbErrorMessage(oracle(s.clock).status))
            && (!Serious(oracle(s.clock)) ==> e in {NoError, Invalid, NonExistent})
            && (t.clock == s.clock + 2 && Serious(oracle(s.clock + 1)) ==> e == Invalid)
  {
  }

  ghost predicate NoneSerious(oracle: nat -> Fault, from: nat, to: nat) {
    forall c :: from <= c < to ==> !Serious(oracle(c))
  }

  /** The calls from `from` up to `to` stop at the first serious failure, which is told
      unless the call before may have lost a race, so that this one was the check after
      it. Without one the error is a missing path, a collision, or something in the way
      that is no directory. */
  ghost predicate StopsAtSerious(oracle: nat -> Fault, from: nat, to: nat, e: Error) {
    && from < to && NoneSerious(oracle, from, to - 1)
    && if Serious(oracle(to - 1))
       then e == FromSmbErrorMessage(oracle(to - 1).status) || (e == Invalid && from < to - 1 && oracle(to - 2).Raced?)
       else e == NoError || e == Invalid || e == NonExistent || e == AlreadyExists
  }

  lemma StopsLater(oracle: nat -> Fault, from: nat, mid: nat, to: nat, e: Error)
    requires from <= mid && NoneSerious(oracle, from, mid) && StopsAtSerious(oracle, mid, to, e)
    ensures StopsAtSerious(oracle, from, to, e)
  {
  }

  lemma CheckedStops(oracle: nat -> Fault, s: View, path: string)
    requires path != "" && Rooted(path) && path !in s.entries
    ensures var (t, e) := Checked(oracle, s, path);
            StopsAtSerious(oracle, s.clock, t.clock, e) && (e.Ok() ==> NoneSerious(oracle, s.clock, t.clock))
  {
    CheckedTells(oracle, s, path);
  }

  lemma ThenChecked(oracle: nat -> Fault, from: nat, u: View, path: string)
    requires path != "" && Rooted(path) && path !in u.entries && from <= u.clock && NoneSerious(oracle, from, u.clock)
    ensures var (v, e) := Checked(oracle, u, path);
            StopsAtSerious(oracle, from, v.clock, e) && (e.Ok() ==> NoneSerious(oracle, from, v.clock))
  {
    var (v, e) := Checked(oracle, u, path);
    CheckedStops(oracle, u, path);
    StopsLater(oracle, from, u.clock, v.clock, e);
  }

  /** Making a directory with its parents makes nothing with a longer path. */
  lemma {:induction false} MakesNoLonger(oracle: nat -> Fault, s: View, path: string, longer: string)
    requires Rooted(path) && |path| < |longer| && longer !in s.entries
    ensures longer !in MadeWithParents(oracle, s, path).0.entries
    decreases |path|
  {
    if Metadata(oracle, s, path).0 == NonExistent && path != "" && Parent(path) != "" {
      MakesNoLonger(oracle, s.(clock := s.clock + 1), Parent(path), longer);
    }
  }

  /** Making a directory with its parents stops at the first serious failure and tells
      it. */
  lemma {:induction false} MakingTells(oracle: nat -> Fault, s: View, path: string)
    requires Rooted(path)
    ensures var (t, e, newly) := MadeWithParents(oracle, s, path);
            StopsAtSerious(oracle, s.clock, t.clock, e) && (e.Ok() ==> NoneSerious(oracle, s.clock, t.clock))
    decreases |path|
  {
    var (e, kind) := Metadata(oracle, s, path);
    if e == NonExistent && path != "" {
      var u, n := s.(clock := s.clock + 1), s.clock + 1;
      var parentError := NoError;
      if Parent(path) != "" {
        MakingTells(oracle, u, Parent(path));
        MakesNoLonger(oracle, u, Parent(path), path);
        var (u', e', newly) := MadeWithParents(oracle, u, Parent(path));
        StopsLater(oracle, s.clock, n, u'.clock, e');
        u, parentError := u', e';
      }
      if parentError.Ok() {
        ThenChecked(oracle, s.clock, u, path);
      }
    }
  }

  /** Clean-up stops at the first call that fails and tells that. */
  lemma {:induction false} CleaningTells(oracle: nat -> Fault, s: View, dirs: seq<string>)
    ensures var (t, e) := CleanedUp(oracle, s, dirs);
            && s.clock <= t.clock
            && (forall c :: s.clock <= c < t.clock && oracle(c).Fails? ==>
                  c == t.clock - 1 && e == FromSmbErrorMessage(oracle(c).status))
            && (NoFailure(oracle, s.clock, t.clock) ==> e in {NoError, Invalid, NonExistent})
    decreases |dirs|
  {
    if dirs != [] {
      var (t, e) := Deleted(oracle, s, dirs[|dirs| - 1]);
      if e.Ok() {
        CleaningTells(oracle, t, dirs[..|dirs| - 1]);
      }
    }
  }

  /** A failed operation tells why it failed, unless a call of its clean-up fails: then it
      tells that. */
  lemma FailureTells(oracle: nat -> Fault, s: View, dir: string)
    requires Rooted(dir)
    ensures var (t, why, newly) := MadeWithParents(oracle, s, dir);
            var (u, e) := MadeOrCleaned(oracle, s, dir);
            && t.clock <= u.clock && (e.Ok() <==> why.Ok())
            && (NoFailure(oracle, t.clock, u.clock) && CleanedUp(oracle, t, newly).1.Ok() ==> e == why)
            && (!NoFailure(oracle, t.clock, u.clock) ==>
                  oracle(u.clock - 1).Fails? && e == FromSmbErrorMessage(oracle(u.clock - 1).status))
  {
    var (t, why, newly) := MadeWithParents(oracle, s, dir);
    CleaningTells(oracle, t, newly);
    if !why.Ok() {
      var (u, failure) := CleanedUp(oracle, t, newly);
      if !NoFailure(oracle, t.clock, u.clock) {
        var c :| t.clock <= c < u.clock && oracle(c).Fails?;
      }
    }
  }

  class Share {
    var entries: Entries
    var clock: nat
    const oracle: nat -> Fault
    ghost var foreign: set<string>

    ghost function Now(): View
      reads this
    {
      View(entries, clock, foreign)
    }

    method NextFault() returns (f: Fault)
      modifies this`clock
      ensures f == oracle(old(clock)) && clock == old(clock) + 1
    {
      f := oracle(clock);
      clock := clock + 1;
    }

    method GetMetadata(path: string) returns (error: Error, kind: Kind)
      modifies this`clock
      ensures clock == old(clock) + 1 && (error, kind) == Metadata(oracle, old(Now()), path)
      ensures error.Ok() ==> path in entries && kind == entries[path]
      ensures error == NonExistent ==> path !in entries
      ensures !oracle(old(clock)).Fails? ==> error.Ok() || error == NonExistent
    {
      kind := File;
      var f := NextFault();
      if f.Fails? && FromSmbErrorMessage(f.status) != NonExistent {
        error := FromSmbErrorMessage(f.status);
      } else if path in entries {
        error, kind := NoError, entries[path];
      } else {
        error := NonExistent;
      }
    }

    method CreateObject(path: string) returns (status: Option<uint32>)
      requires path != "" && Rooted(path)
      modifies this
      ensures (Now(), status) == Created(oracle, old(Now()), path)
    {
      var f := NextFault();
      if f.Fails? && f.status != OBJECT_NAME_COLLISION {
        return Some(f.status);
      }
      if path in entries {
        return Some(OBJECT_NAME_COLLISION);
      }
      if Parent(path) !in entries || entries[Parent(path)] != Dir {
        return Some(OBJECT_PATH_NOT_FOUND);
      }
      entries := entries[path := Dir];
      if f.Raced? {
        foreign := foreign + {path};
      }
      return if f.Raced? then Some(OBJECT_NAME_COLLISION) else None;
    }

    method DeleteDirectory(path: string) returns (error: Error)
      modifies this`clock, this`entries
      ensures (Now(), error) == Deleted(oracle, old(Now()), path)
      ensures clock == old(clock) + 1
      ensures error.Ok() ==> path in old(entries) && entries == old(entries) - {path} && !HasChild(old(entries), path)
      ensures !error.Ok() ==> entries == old(entries)
      ensures !oracle(old(clock)).Fails? && path in old(entries) && old(entries)[path] == Dir
              && !HasChild(old(entries), path)
              ==> error.Ok()
    {
      var f := NextFault();
      if f.Fails? {
        return FromSmbErrorMessage(f.status);
      }
      if path !in entries {
        return NonExistent;
      }
      if entries[path] != Dir || HasChild(entries, path) {
        return Invalid;
      }
      entries := entries - {path};
      return NoError;
    }

    /** Absorbs a collision with a directory, whether it was there before or another
        client has just made it. */
    method CreateDirectoryWithChecks(path: string) returns (error: Error)
      requires path != "" && Rooted(path)
      modifies this
      ensures (Now(), error) == Checked(oracle, old(Now()), path)
      ensures error.Ok() ==> path in entries && entries[path] == Dir
      ensures entries == old(entries)
              || (&& path !in old(entries) && entries == old(entries)[path := Dir]
                  && Parent(path) in old(entries) && old(entries)[Parent(path)] == Dir)
      ensures foreign == old(foreign) || (foreign == old(foreign) + {path} && path !in old(entries) && path in entries)
      ensures !error.Ok() && entries != old(entries) ==> path in foreign && !Alone(oracle, old(clock), clock)
      ensures clock > old(clock)
      ensures NoFailure(oracle, old(clock), clock) ==>
                (error.Ok() <==> if path in old(entries) then old(entries)[path] == Dir
                                 else Parent(path) in old(entries) && old(entries)[Parent(path)] == Dir)
    {
      var status := CreateObject(path);
      if status.Some? {
        if status.value == OBJECT_NAME_COLLISION {
          var e, kind := GetMetadata(path);
          assert !oracle(clock - 1).Fails? ==> e.Ok();
          if !e.Ok() || kind != Dir {
            assert oracle(old(clock)).Raced? || entries == old(entries);
            return Invalid;
          }
        } else {
          assert entries == old(entries);
          return FromSmbErrorMessage(status.value);
        }
      }
      return NoError;
    }

    /** `newly` lists the directories recorded for clean-up and `made` those that
        have appeared. The two differ at most by a directory that another client
        made at the failing step. */
    method MkDirWithParentsInternal(path: string) returns (error: Error, newly: seq<string>, ghost made: seq<string>)
      requires Rooted(path) && Closed(entries)
      modifies this
      ensures (Now(), error, newly) == MadeWithParents(oracle, old(Now()), path)
      ensures clock > old(clock)
      ensures Chain(old(entries), made) && made <= Missing(old(entries), path)
      ensures entries == WithDirs(old(entries), made)
      ensures newly <= made && |made| <= |newly| + 1
      ensures error.Ok() ==> newly == made == Missing(old(entries), path) && path in entries && entries[path] == Dir
      ensures newly != made ==> !error.Ok() && !Alone(oracle, old(clock), clock)
      ensures NoFailure(oracle, old(clock), clock) && old(entries)[Nearest(old(entries), path)] == Dir ==> error.Ok()
      ensures RacedAmong(old(foreign), foreign, newly, made)
      decreases |path|
    {
      ghost var e0, t0, f0 := entries, clock, foreign;
      newly, made := [], [];
      NoDirs(e0);
      var kind;
      error, kind := GetMetadata(path);
      if !error.Ok() && error != NonExistent {
        return;
      }
      if error.Ok() {
        if kind != Dir {
          error := Invalid;
        }
        return;
      }
      var parent := Parent(path);
      MissingParent(e0, path);
      if parent != "" {
        error, newly, made := MkDirWithParentsInternal(parent);
        if !error.Ok() {
          PrefixOfParent(e0, path, made);
          return;
        }
      }
      error, made := MakeLast(path, e0, f0, newly);
      if !error.Ok() {
        return;
      }
      newly := newly + [path];
    }

    /** The last step, once all the parents are there. */
    method MakeLast(path: string, ghost e0: Entries, ghost f0: set<string>, ghost parents: seq<string>)
      returns (error: Error, ghost made: seq<string>)
      requires path != "" && Rooted(path) && Closed(e0) && path !in e0
      requires parents == Missing(e0, Parent(path)) && Chain(e0, parents) && entries == WithDirs(e0, parents)
      requires Parent(path) in entries && entries[Parent(path)] == Dir && RacedAmong(f0, foreign, parents, parents)
      modifies this
      ensures (Now(), error) == Checked(oracle, old(Now()), path) && clock > old(clock)
      ensures Chain(e0, made) && made <= Missing(e0, path) && entries == WithDirs(e0, made)
      ensures made == parents || made == parents + [path]
      ensures error.Ok() ==> made == parents + [path] == Missing(e0, path) && path in entries && entries[path] == Dir
      ensures !error.Ok() && made != parents ==> !Alone(oracle, old(clock), clock)
      ensures NoFailure(oracle, old(clock), clock) ==> error.Ok()
      ensures RacedAmong(f0, foreign, if error.Ok() then made else parents, made)
    {
      MissingParent(e0, path);
      ExtendMissing(e0, path);
      ghost var f1 := foreign;
      error := CreateDirectoryWithChecks(path);
      RacedMore(f0, f1, foreign, parents, path, path in entries);
      made := if path in entries then parents + [path] else parents;
    }

    /** All or nothing. `failedAt` is the call number at which clean-up starts,
        `recorded` the directories recorded for it, and `left` the directories that
        it leaves behind. `stray` is a directory that another client made at the
        failing step; it is not recorded. When clean-up has deleted all that was
        recorded, the directories that other clients made in races have survived if
        and only if none of them was taken as a success and so recorded. */
    method MkDirWithParents(path: string, haveMemory: bool)
      returns (error: Error, ghost failedAt: nat, ghost recorded: seq<string>, ghost stray: seq<string>,
               ghost left: seq<string>)
      requires Closed(entries)
      modifies this
      ensures path == "" || path[0] != '\\' || !haveMemory ==> error == Invalid && entries == old(entries)
      ensures path != "" && path[0] == '\\' && haveMemory ==>
                (Now(), error) == MkDirOf(oracle, View(old(entries), old(clock), {}), path)
      ensures error.Ok() ==> path != "" && path[0] == '\\'
      ensures error.Ok() ==> var dir := WithoutTrailing(path);
                             && dir in entries && entries[dir] == Dir
                             && entries == WithDirs(old(entries), Missing(old(entries), dir))
      ensures !error.Ok() ==> entries == WithDirs(old(entries), left) && Chain(old(entries), left)
      ensures !error.Ok() && left != [] ==>
                path != "" && path[0] == '\\' && left <= Missing(old(entries), WithoutTrailing(path))
      ensures !error.Ok() && stray == [] && NoFailure(oracle, failedAt, clock) ==> entries == old(entries)
      ensures Alone(oracle, old(clock), clock) ==> stray == []
      ensures haveMemory && path != "" && path[0] == '\\' && NoFailure(oracle, old(clock), clock)
              && old(entries)[Nearest(old(entries), WithoutTrailing(path))] == Dir
              ==> error.Ok()
      ensures !error.Ok() && NoFailure(oracle, failedAt, clock) ==> (left == stray <==> stray == [] || recorded == [])
      ensures !error.Ok() && left == stray ==>
                ((forall d :: d in foreign ==> d in entries) <==> (forall d :: d in foreign ==> d !in recorded))
    {
      failedAt, recorded, stray, left, foreign := clock, [], [], [], {};
      NoDirs(entries);
      if path == "" || path[0] != '\\' {
        return Invalid, failedAt, recorded, stray, left;
      }
      var dir := WithoutTrailing(path);
      if !haveMemory {
        return Invalid, failedAt, recorded, stray, left;
      }
      error, failedAt, recorded, stray, left := MakeOrCleanUp(dir);
    }

    /** The operation on a path without a trailing separator. */
    method MakeOrCleanUp(dir: string)
      returns (error: Error, ghost failedAt: nat, ghost recorded: seq<string>, ghost stray: seq<string>,
               ghost left: seq<string>)
      requires Closed(entries) && Rooted(dir) && foreign == {}
      modifies this
      ensures (Now(), error) == MadeOrCleaned(oracle, old(Now()), dir)
      ensures error.Ok() ==> && dir in entries && entries[dir] == Dir
                             && entries == WithDirs(old(entries), Missing(old(entries), dir))
      ensures !error.Ok() ==> entries == WithDirs(old(entries), left) && Chain(old(entries), left)
      ensures !error.Ok() ==> left <= Missing(old(entries), dir)
      ensures !error.Ok() && stray == [] && NoFailure(oracle, failedAt, clock) ==> left == []
      ensures Alone(oracle, old(clock), clock) ==> stray == []
      ensures NoFailure(oracle, old(clock), clock) && old(entries)[Nearest(old(entries), dir)] == Dir ==> error.Ok()
      ensures !error.Ok() && NoFailure(oracle, failedAt, clock) ==> (left == stray <==> stray == [] || recorded == [])
      ensures !error.Ok() && left == stray ==>
                ((forall d :: d in foreign ==> d in entries) <==> (forall d :: d in foreign ==> d !in recorded))
    {
      ghost var e0 := entries;
      var newly;
      ghost var made;
      error, newly, made := MkDirWithParentsInternal(dir);
      failedAt, recorded, stray, left := clock, newly, made[|newly|..], [];
      assert made == newly + stray;
      if error.Ok() {
        return;
      }
      var failure;
      failure, left := CleanUp(newly, e0, stray);
      RacedSurvive(e0, foreign, newly, stray, left);
      if !failure.Ok() {
        error := failure;
      }
    }

    /** Deletes the recorded directories, last first, up to the first failure. */
    method CleanUp(dirs: seq<string>, ghost e0: Entries, ghost stray: seq<string>)
      returns (error: Error, ghost left: seq<string>)
      requires Closed(e0) && Chain(e0, dirs + stray) && entries == WithDirs(e0, dirs + stray)
      modifies this`clock, this`entries
      ensures (Now(), error) == CleanedUp(oracle, old(Now()), dirs)
      ensures clock >= old(clock)
      ensures left <= dirs + stray && Chain(e0, left) && entries == WithDirs(e0, left)
      ensures error.Ok() ==> left == stray
      ensures stray != [] && dirs != [] ==> left == dirs + stray
      ensures stray == [] && NoFailure(oracle, old(clock), clock) ==> error.Ok()
    {
      var newly := dirs;
      while newly != []
        invariant clock >= old(clock) && CleanedUp(oracle, Now(), newly) == CleanedUp(oracle, old(Now()), dirs)
        invariant entries == WithDirs(e0, newly + stray) && Chain(e0, newly + stray)
        invariant newly == dirs || (stray == [] && newly <= dirs)
        decreases |newly|
      {
        var last := newly[|newly| - 1];
        LastOfMade(e0, newly, stray);
        error := DeleteDirectory(last);
        if !error.Ok() {
          return error, newly + stray;
        }
        assert stray == [];
        DropLastMade(e0, newly);
        newly := newly[..|newly| - 1];
      }
      assert newly + stray == stray;
      return NoError, stray;
    }
  }

  /** The directories that other clients have made since `f0` are among those made,
      and the one that is not recorded is another client's. */
  ghost predicate RacedAmong(f0: set<string>, f: set<string>, newly: seq<string>, made: seq<string>) {
    && f0 <= f && (forall d :: d in f && d !in f0 ==> d in made)
    && (|newly| < |made| ==> made[|newly|] in f)
  }

  lemma RacedMore(f0: set<string>, f1: set<string>, f: set<string>, newly: seq<string>, path: string, appeared: bool)
    requires RacedAmong(f0, f1, newly, newly)
    requires f == f1 || (f == f1 + {path} && appeared)
    ensures appeared ==> RacedAmong(f0, f, newly + [path], newly + [path])
    ensures appeared && path in f ==> RacedAmong(f0, f, newly, newly + [path])
    ensures !appeared ==> RacedAmong(f0, f, newly, newly)
  {
    assert forall d :: d in newly ==> d in newly + [path];
    assert path in newly + [path];
  }

  lemma RacedSurvive(e: Entries, foreign: set<string>, newly: seq<string>, stray: seq<string>, left: seq<string>)
    requires Chain(e, newly + stray) && RacedAmong({}, foreign, newly, newly + stray)
    ensures left == stray ==>
              var w := WithDirs(e, left);
              (forall d :: d in foreign ==> d in w) <==> (forall d :: d in foreign ==> d !in newly)
  {
    var made := newly + stray;
    ChainDistinct(e, made);
    forall d | d in made ensures d !in e && (d in stray <==> d !in newly) {
      var i :| 0 <= i < |made| && made[i] == d;
      if d in newly {
        var m :| 0 <= m < |newly| && newly[m] == d;
        forall j | 0 <= j < |stray| ensures stray[j] != d {
          assert made[|newly| + j] == stray[j] && made[m] == d;
        }
      }
    }
  }

  // ---- A run that deletes another client's directory ----

  /** Call 2 loses a race, call 4 is denied. */
  function RaceThenDenied(t: nat): Fault {
    if t == 2 then Raced else if t == 4 then Fails(ACCESS_DENIED) else Fine
  }

  const ROOT: Entries := map["" := Dir]
  const A: string := "\\a"
  const AB: string := "\\a\\b"

  lemma ParentsOfAB()
    ensures A[0] == '\\' && AB[0] == '\\' && Parent(A) == "" && Parent(AB) == A && WithoutTrailing(AB) == AB
  {
    assert AB[..|AB| - 1] == "\\a\\";
    assert LastSeparator(AB) == 2 && AB[..2] == A;
    assert A[..|A| - 1] == "\\";
    assert LastSeparator(A) == 0 && A[..0] == "";
  }

  lemma MakesA()
    ensures A[0] == '\\'
    ensures MadeWithParents(RaceThenDenied, View(ROOT, 1, {}), A) == (View(ROOT[A := Dir], 4, {A}), NoError, [A])
  {
    ParentsOfAB();
    assert A != "" && A !in ROOT && {} + {A} == {A};
    var s := View(ROOT, 2, {});
    assert Created(RaceThenDenied, s, A) == (View(ROOT[A := Dir], 3, {A}), Some(OBJECT_NAME_COLLISION));
    assert Checked(RaceThenDenied, s, A) == (View(ROOT[A := Dir], 4, {A}), NoError);
    assert Metadata(RaceThenDenied, View(ROOT, 1, {}), A) == (NonExistent, File);
    assert [] + [A] == [A];
  }

  lemma DeletesA()
    ensures CleanedUp(RaceThenDenied, View(ROOT[A := Dir], 5, {A}), [A]) == (View(ROOT, 6, {A}), NoError)
  {
    ParentsOfAB();
    assert !HasChild(ROOT[A := Dir], A);
    assert ROOT[A := Dir] - {A} == ROOT;
    assert [A][..0] == [];
  }

  /** Another client makes "\a" just before this one tries to; this one takes that
      as a success, is denied "\a\b", and deletes "\a". */
  lemma ForeignDirectoryDeleted()
    ensures AB != "" && AB[0] == '\\'
    ensures MkDirOf(RaceThenDenied, View(ROOT, 0, {}), AB) == (View(ROOT, 6, {A}), PermissionDenied)
    ensures A !in ROOT
  {
    ParentsOfAB();
    MakesA();
    var made := View(ROOT[A := Dir], 4, {A});
    assert Checked(RaceThenDenied, made, AB) == (made.(clock := 5), PermissionDenied);
    assert MadeWithParents(RaceThenDenied, View(ROOT, 0, {}), AB) == (made.(clock := 5), PermissionDenied, [A]);
    DeletesA();
  }
}
