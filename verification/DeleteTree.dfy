/** Recursive deletion of a directory through paged listings. A path is the
    sequence of its names; the share's root is []. Server behaviour that the
    client cannot foresee is a nondeterministic choice, and `faults` counts the
    calls that went wrong. */
module DeleteTree {
  import opened Status
  import C = Collections

  datatype Kind = File(readOnly: bool) | Dir

  type Path = seq<string>

  type Tree = map<Path, Kind>

  /** One child in a listing. `bad` means that its metadata could not be read. */
  datatype Child = Child(name: string, isDir: bool, bad: bool)

  /** What is still to come of an open listing: this is what a cookie stands for. */
  type Pages = seq<seq<Child>>

  function Flatten(pages: Pages): seq<Child> {
    if pages == [] then [] else pages[0] + Flatten(pages[1..])
  }

  predicate ChildOf(p: Path, d: Path) { |p| == |d| + 1 && d <= p }

  /** Every entry but the root lies in an existing directory. */
  ghost predicate Closed(t: Tree) {
    && [] in t && t[[]].Dir?
    && forall p :: p in t && p != [] ==> p[..|p| - 1] in t && t[p[..|p| - 1]].Dir?
  }

  /** The listed children exist, once each, with the listed type. */
  predicate Truthful(t: Tree, d: Path, cs: seq<Child>) {
    && (forall i :: 0 <= i < |cs| ==> d + [cs[i].name] in t && t[d + [cs[i].name]].Dir? == cs[i].isDir)
    && (forall i, j :: 0 <= i < j < |cs| ==> cs[i].name != cs[j].name)
  }

  predicate Listed(name: string, cs: seq<Child>) {
    exists i :: 0 <= i < |cs| && cs[i].name == name
  }

  /** Every child that exists is listed. */
  predicate Complete(t: Tree, d: Path, cs: seq<Child>) {
    forall p :: p in t && ChildOf(p, d) ==> Listed(p[|d|], cs)
  }

  predicate AllReadable(cs: seq<Child>) { forall c :: c in cs ==> !c.bad }

  ghost function Below(t: Tree, d: Path): set<Path> {
    set p | p in t && d <= p && p != d
  }

  /** From `t` to `u` entries of the subtree at `d` may have disappeared and
      files there may have lost their read-only attribute. */
  ghost predicate OnlyDeletesIn(t: Tree, u: Tree, d: Path) {
    && (forall p :: p in u ==> p in t && u[p].Dir? == t[p].Dir?)
    && (forall p :: p in t && !(d <= p) ==> p in u && u[p] == t[p])
  }

  ghost predicate Gone(t: Tree, d: Path) {
    forall p :: p in t ==> !(d <= p)
  }

  lemma NotBelow(d: Path, c: Path, p: Path)
    requires d <= c && !(d <= p)
    ensures !(c <= p)
  {
    assert |d| <= |p| ==> exists i :: 0 <= i < |d| && d[i] != p[i];
  }

  lemma OnlyDeletesTrans(t: Tree, u: Tree, v: Tree, c: Path, d: Path)
    requires d <= c && OnlyDeletesIn(t, u, d) && OnlyDeletesIn(u, v, c)
    ensures OnlyDeletesIn(t, v, d)
  {
    forall p | p in t && !(d <= p) ensures p in v && v[p] == t[p] {
      NotBelow(d, c, p);
    }
  }

  /** Names of different children lead to disjoint subtrees. */
  lemma SiblingsDisjoint(d: Path, a: string, b: string)
    requires a != b
    ensures !(d + [a] <= d + [b])
  {
    assert (d + [a])[|d|] == a && (d + [b])[|d|] == b;
  }

  /** Deleting the first listed child keeps the rest of the listing right. */
  lemma AfterChild(t: Tree, u: Tree, d: Path, cs: seq<Child>)
    requires cs != [] && Truthful(t, d, cs) && OnlyDeletesIn(t, u, d + [cs[0].name])
    ensures Truthful(u, d, cs[1..])
  {
    var rest := cs[1..];
    forall i | 0 <= i < |rest|
      ensures d + [rest[i].name] in u && u[d + [rest[i].name]].Dir? == rest[i].isDir
    {
      assert rest[i] == cs[i + 1];
      SiblingsDisjoint(d, cs[0].name, rest[i].name);
    }
  }

  lemma CompleteAfterChild(t: Tree, u: Tree, d: Path, cs: seq<Child>)
    requires cs != [] && Complete(t, d, cs) && OnlyDeletesIn(t, u, d + [cs[0].name]) && Gone(u, d + [cs[0].name])
    ensures Complete(u, d, cs[1..])
  {
    forall p | p in u && ChildOf(p, d) ensures Listed(p[|d|], cs[1..]) {
      var i :| 0 <= i < |cs| && cs[i].name == p[|d|];
      assert p == d + [p[|d|]];
      assert i > 0;
      assert cs[1..][i - 1].name == p[|d|];
    }
  }

  /** With no child of `d` left nothing below `d` is left. */
  lemma {:induction false} ChildlessIsEmpty(t: Tree, d: Path, p: Path)
    requires Closed(t) && Complete(t, d, []) && p in t && d <= p
    ensures p == d
    decreases |p|
  {
    if p != d {
      assert !ChildOf(p, d);
      assert d <= p[..|p| - 1];
      ChildlessIsEmpty(t, d, p[..|p| - 1]);
    }
  }

  lemma ChildIsSmaller(t: Tree, d: Path, name: string)
    requires d + [name] in t
    ensures |Below(t, d + [name])| < |Below(t, d)|
  {
    var c := d + [name];
    assert c[..|d|] == d;
    assert c in Below(t, d) && c !in Below(t, c);
    forall p | p in Below(t, c) ensures p in Below(t, d) {
      assert p[..|c|] == c;
      assert p[..|d|] == c[..|d|];
    }
    StrictSubset(Below(t, c), Below(t, d), c);
  }

  lemma StrictSubset(a: set<Path>, b: set<Path>, x: Path)
    requires a <= b && x in b && x !in a
    ensures |a| < |b|
  {
    C.SubsetSize(a, b - {x});
  }

  lemma BelowShrinks(t: Tree, u: Tree, d: Path)
    requires OnlyDeletesIn(t, u, d)
    ensures |Below(u, d)| <= |Below(t, d)|
  {
    C.SubsetSize(Below(u, d), Below(t, d));
  }

  /** Statuses of deletions that the server refuses; the proxy has no name for them. */
  const FILE_IS_A_DIRECTORY: uint32 := 0xC000_00BA
  const DIRECTORY_NOT_EMPTY: uint32 := 0xC000_0101

  /** What an open listing of `d` still has to deliver is right for `t`, and
      complete as long as no call has gone wrong. */
  ghost predicate Delivers(t: Tree, d: Path, cs: seq<Child>, clean: bool) {
    && Truthful(t, d, cs)
    && (clean ==> Complete(t, d, cs) && AllReadable(cs))
  }

  lemma DeliversAfter(t: Tree, u: Tree, d: Path, cs: seq<Child>, clean: bool, later: bool)
    requires cs != [] && Delivers(t, d, cs, clean) && (later ==> clean)
    requires OnlyDeletesIn(t, u, d + [cs[0].name]) && Gone(u, d + [cs[0].name])
    ensures Delivers(u, d, cs[1..], later)
  {
    AfterChild(t, u, d, cs);
    if later {
      CompleteAfterChild(t, u, d, cs);
    }
  }

  lemma DeliversSkip(t: Tree, d: Path, cs: seq<Child>, clean: bool)
    requires cs != [] && cs[0].bad && Delivers(t, d, cs, clean)
    ensures Delivers(t, d, cs[1..], clean)
  {
    assert cs[0] in cs;
    assert !clean;
    OnlyDeletesRefl(t, d + [cs[0].name]);
    AfterChild(t, t, d, cs);
  }

  lemma OnlyDeletesRefl(t: Tree, d: Path)
    ensures OnlyDeletesIn(t, t, d)
  {
  }

  lemma TailAt(a: seq<Child>, i: nat, b: seq<Child>)
    requires i < |a|
    ensures a[i..] + b != [] && (a[i..] + b)[0] == a[i] && (a[i..] + b)[1..] == a[i + 1..] + b
  {
  }

  lemma NotBelowItself(d: Path, name: string)
    ensures d <= d + [name] && !(d + [name] <= d)
  {
  }

  ghost predicate NoCookiesAt(cookies: map<Path, Pages>, d: Path) {
    forall p :: p in cookies ==> !(d <= p)
  }

  ghost predicate NoCookiesBelow(cookies: map<Path, Pages>, d: Path) {
    forall p :: p in cookies && d <= p ==> p == d
  }

  lemma NoCookiesAtChild(cookies: map<Path, Pages>, d: Path, name: string)
    requires NoCookiesBelow(cookies, d)
    ensures NoCookiesAt(cookies, d + [name])
  {
    forall p | p in cookies ensures !(d + [name] <= p) {
      if p != d {
        NotBelow(d, d + [name], p);
      }
    }
  }

  /** Entries below `d` may be gone, but not `d` itself. */
  ghost predicate Trimmed(t: Tree, u: Tree, d: Path) {
    && Closed(u) && OnlyDeletesIn(t, u, d)
    && (d in t ==> d in u && u[d] == t[d])
  }

  lemma TrimmedTrans(t: Tree, u: Tree, v: Tree, d: Path)
    requires Trimmed(t, u, d) && Trimmed(u, v, d)
    ensures Trimmed(t, v, d)
  {
    OnlyDeletesTrans(t, u, v, d, d);
  }

  lemma TrimmedSize(t: Tree, u: Tree, d: Path)
    requires Trimmed(t, u, d)
    ensures |Below(u, d)| <= |Below(t, d)|
  {
    BelowShrinks(t, u, d);
  }

  /** What deleting the first listed child means for its directory. */
  lemma ChildDeleted(t: Tree, u: Tree, d: Path, cs: seq<Child>, clean: bool, later: bool, ok: bool)
    requires cs != [] && Delivers(t, d, cs, clean) && (later ==> clean)
    requires Closed(u) && OnlyDeletesIn(t, u, d + [cs[0].name]) && (ok ==> Gone(u, d + [cs[0].name]))
    ensures Trimmed(t, u, d) && (ok ==> Delivers(u, d, cs[1..], later))
  {
    NotBelowItself(d, cs[0].name);
    OnlyDeletesRefl(t, d);
    OnlyDeletesTrans(t, t, u, d + [cs[0].name], d);
    if ok {
      DeliversAfter(t, u, d, cs, clean, later);
    }
  }

  /** The cookies are those from before plus at most one for `d`, which stands for
      the rest of its listing. */
  ghost predicate Progress(t: Tree, d: Path, c0: map<Path, Pages>, c: map<Path, Pages>, clean: bool) {
    && NoCookiesAt(c0, d)
    && (d !in c ==> c == c0)
    && (d in c ==> c[d] != [] && c == c0[d := c[d]] && Delivers(t, d, Flatten(c[d]), clean))
  }

  lemma EraseAdded(c0: map<Path, Pages>, c: map<Path, Pages>, d: Path, v: Pages)
    requires d !in c0 && (d !in c ==> c == c0) && (d in c ==> c == c0[d := c[d]])
    ensures c - {d} == c0
    ensures c[d := v] == c0[d := v]
  {
  }

  lemma FlattenFirst(pages: Pages)
    requires pages != []
    ensures Flatten(pages) == pages[0] + Flatten(pages[1..])
  {
  }

  /** The error is the one that goes with the answer. */
  ghost predicate Told(answer: Option<uint32>, error: Error) {
    match answer
    case None => error.Ok()
    case Some(status) => error == FromSmbErrorMessage(status)
  }

  class DeleteEntityOp {
    var tree: Tree
    var cookies: map<Path, Pages>
    ghost var faults: nat
    ghost var answer: Option<uint32>   // what the server said to the last deletion: why it failed

    /** One page of the listing of `d`, and what is left of it if anything is. A
        failed call returns no page and no cookie. */
    method FetchChildren(d: Path, cookie: Option<Pages>) returns (page: seq<Child>, next: Option<Pages>)
      requires cookie.Some? ==> cookie.value != []
      modifies this`faults
      ensures faults >= old(faults)
      ensures next.Some? ==> next.value != []
      ensures cookie.Some? && next.Some? ==> next.value == cookie.value[1..]
      ensures cookie.None? ==> Truthful(tree, d, page + Flatten(next.UnwrapOr([])))
      ensures cookie.Some? ==> page + Flatten(next.UnwrapOr([])) == Flatten(cookie.value) || (page == [] && next.None?)
      ensures faults == old(faults) && cookie.Some? ==> page + Flatten(next.UnwrapOr([])) == Flatten(cookie.value)
      ensures faults == old(faults) && cookie.None? ==>
                && Complete(tree, d, page + Flatten(next.UnwrapOr([])))
                && AllReadable(page + Flatten(next.UnwrapOr([])))
    {
      var lost: bool := *;
      if lost || (cookie.None? && (d !in tree || !tree[d].Dir?)) {
        faults := faults + 1;
        return [], None;
      }
      var pages;
      if cookie.Some? {
        pages := cookie.value;
      } else {
        pages := *;
        if pages == [] || !Truthful(tree, d, Flatten(pages)) || !Complete(tree, d, Flatten(pages)) {
          faults := faults + 1;
          return [], None;
        }
        if !AllReadable(Flatten(pages)) {
          faults := faults + 1;
        }
      }
      FlattenFirst(pages);
      page := pages[0];
      next := if |pages| > 1 then Some(pages[1..]) else None;
    }

    /** smbc_wrapper_delete_object: refused for a read-only file. */
    method DeleteFileHelper(path: Path) returns (error: Error)
      requires Closed(tree)
      modifies this`tree, this`faults, this`answer
      ensures Closed(tree) && OnlyDeletesIn(old(tree), tree, path) && faults >= old(faults)
      ensures error.Ok() ==> Gone(tree, path)
      ensures !error.Ok() ==> tree == old(tree)
      ensures Told(answer, error)
      ensures faults == old(faults) && path in old(tree) && old(tree)[path].File? ==>
                error == if old(tree)[path].readOnly then CannotDelete else NoError
    {
      var status: Option<uint32> := *;
      if status.Some? {
        faults := faults + 1;
      } else if path !in tree {
        status := Some(OBJECT_NAME_NOT_FOUND);
      } else if tree[path].Dir? {
        status := Some(FILE_IS_A_DIRECTORY);
      } else if tree[path].readOnly {
        status := Some(CANNOT_DELETE);
      }
      answer := status;
      if status.Some? {
        return FromSmbErrorMessage(status.value);
      }
      LeafRemoval(tree, path);
      tree := tree - {path};
      return NoError;
    }

    method ClearFileAttributes(path: Path) returns (error: Error)
      requires Closed(tree)
      modifies this`tree, this`faults
      ensures Closed(tree) && OnlyDeletesIn(old(tree), tree, path) && faults >= old(faults)
      ensures faults == old(faults) && path in old(tree) && old(tree)[path].File? ==>
                error.Ok() && path in tree && tree[path] == File(false)
    {
      var failure: Option<uint32> := *;
      if failure.Some? {
        faults := faults + 1;
        return FromSmbErrorMessage(failure.value);
      }
      if path !in tree {
        return NonExistent;
      }
      if tree[path].File? {
        tree := tree[path := File(false)];
      }
      return NoError;
    }

    method DeleteFile(path: Path) returns (error: Error)
      requires Closed(tree)
      modifies this`tree, this`faults, this`answer
      ensures Closed(tree) && OnlyDeletesIn(old(tree), tree, path) && faults >= old(faults)
      ensures error.Ok() ==> Gone(tree, path)
      ensures Told(answer, error)
      ensures faults == old(faults) && path in old(tree) && old(tree)[path].File? ==> error.Ok()
    {
      error := DeleteFileHelper(path);
      if !error.Ok() && error == CannotDelete {
        var clearError := ClearFileAttributes(path);
        if !clearError.Ok() {
          return error;
        }
        error := DeleteFileHelper(path);
      }
    }

    /** The server refuses to remove the root or a directory that is not empty. */
    method DeleteEmptyDir(d: Path) returns (error: Error)
      requires Closed(tree)
      modifies this`tree, this`faults, this`answer
      ensures Closed(tree) && OnlyDeletesIn(old(tree), tree, d) && faults >= old(faults)
      ensures error.Ok() ==> Gone(tree, d) && d != [] && d in old(tree) && Complete(old(tree), d, [])
      ensures !error.Ok() ==> tree == old(tree)
      ensures Told(answer, error)
      ensures faults == old(faults) && d != [] && d in old(tree) && old(tree)[d].Dir? && Complete(old(tree), d, [])
              ==> error.Ok()
    {
      var status: Option<uint32> := *;
      if status.Some? {
        faults := faults + 1;
      } else if d !in tree {
        status := Some(OBJECT_NAME_NOT_FOUND);
      } else if d == [] || !tree[d].Dir? || !Complete(tree, d, []) {
        status := Some(DIRECTORY_NOT_EMPTY);
      }
      answer := status;
      if status.Some? {
        return FromSmbErrorMessage(status.value);
      }
      forall p | p in tree && d <= p ensures p == d {
        ChildlessIsEmpty(tree, d, p);
      }
      tree := tree - {d};
      return NoError;
    }

    /** Deletes the child that the listing delivers first. */
    method DeleteChild(d: Path, c: Child, ghost cs: seq<Child>, ghost before: nat) returns (error: Error)
      requires Closed(tree) && before <= faults && NoCookiesBelow(cookies, d)
      requires cs != [] && c == cs[0] && !c.bad && Delivers(tree, d, cs, before == faults)
      modifies this
      ensures Trimmed(old(tree), tree, d) && faults >= old(faults)
      ensures error.Ok() ==> cookies == old(cookies) && Delivers(tree, d, cs[1..], before == faults)
      ensures before == faults ==> error.Ok()
      ensures Told(answer, error)
      decreases |Below(tree, d)|, 0
    {
      ghost var t0, clean := tree, before == faults;
      var child := d + [c.name];
      ChildIsSmaller(tree, d, c.name);
      NotBelowItself(d, c.name);
      if c.isDir {
        NoCookiesAtChild(cookies, d, c.name);
        error := DeleteDir(child);
      } else {
        error := DeleteFile(child);
      }
      ChildDeleted(t0, tree, d, cs, clean, before == faults, error.Ok());
    }

    /** Deletes the children named by one page, stopping at the first error.
        `later` is what the open listing still has to deliver after the page, and
        `before` the number of faults when the listing was opened. */
    method DeletePage(d: Path, page: seq<Child>, ghost later: seq<Child>, ghost before: nat) returns (error: Error)
      requires Closed(tree) && before <= faults && NoCookiesBelow(cookies, d)
      requires Delivers(tree, d, page + later, before == faults)
      modifies this
      ensures Trimmed(old(tree), tree, d) && faults >= old(faults)
      ensures error.Ok() ==> cookies == old(cookies) && Delivers(tree, d, later, before == faults)
      ensures before == faults ==> error.Ok()
      ensures !error.Ok() ==> Told(answer, error)
      decreases |Below(tree, d)|, 1
    {
      ghost var t0, c0 := tree, cookies;
      error := NoError;
      for i := 0 to |page|
        invariant Trimmed(t0, tree, d) && faults >= old(faults)
        invariant error.Ok() && cookies == c0
        invariant Delivers(tree, d, page[i..] + later, before == faults)
      {
        ghost var t1, cs := tree, page[i..] + later;
        TailAt(page, i, later);
        if page[i].bad {
          DeliversSkip(tree, d, cs, before == faults);
          continue;
        }
        TrimmedSize(t0, tree, d);
        error := DeleteChild(d, page[i], cs, before);
        TrimmedTrans(t0, t1, tree, d);
        if !error.Ok() {
          return;
        }
      }
      assert page[|page|..] + later == later;
    }

    /** Fetches one page, deletes its children and keeps the cookie, if any. */
    method DeleteNextPage(d: Path, ghost c0: map<Path, Pages>, ghost f0: nat) returns (error: Error)
      requires Closed(tree) && f0 <= faults && Progress(tree, d, c0, cookies, f0 == faults)
      requires d !in cookies ==> f0 == faults
      modifies this
      ensures Trimmed(old(tree), tree, d) && faults >= old(faults)
      ensures error.Ok() ==> Progress(tree, d, c0, cookies, f0 == faults)
      ensures error.Ok() && d in cookies ==> d !in old(cookies) || |cookies[d]| < |old(cookies)[d]|
      ensures error.Ok() && d !in cookies && f0 == faults ==> Complete(tree, d, [])
      ensures f0 == faults ==> error.Ok()
      ensures !error.Ok() ==> Told(answer, error)
      decreases |Below(tree, d)|, 2
    {
      ghost var was := cookies;
      var page, next := FetchChildren(d, if d in cookies then Some(cookies[d]) else None);
      ghost var later := Flatten(next.UnwrapOr([]));
      assert Delivers(tree, d, page + later, f0 == faults);
      OnlyDeletesRefl(tree, d);
      error := DeletePage(d, page, later, f0);
      if !error.Ok() {
        return;
      }
      EraseAdded(c0, was, d, next.UnwrapOr([]));
      if next.Some? {
        cookies := cookies[d := next.value];
      } else {
        cookies := cookies - {d};
      }
    }

    /** The loop over the pages of the listing. */
    method DeleteChildren(d: Path) returns (error: Error)
      requires Closed(tree) && NoCookiesAt(cookies, d)
      modifies this
      ensures Trimmed(old(tree), tree, d) && faults >= old(faults)
      ensures error.Ok() ==> cookies == old(cookies)
      ensures faults == old(faults) ==> error.Ok() && Complete(tree, d, [])
      ensures !error.Ok() ==> Told(answer, error)
      decreases |Below(tree, d)|, 3
    {
      ghost var t0, c0, f0 := tree, cookies, faults;
      OnlyDeletesRefl(t0, d);
      error := DeleteNextPage(d, c0, f0);
      while error.Ok() && d in cookies
        invariant Trimmed(t0, tree, d) && faults >= f0
        invariant error.Ok() ==> Progress(tree, d, c0, cookies, f0 == faults)
        invariant error.Ok() && d !in cookies && f0 == faults ==> Complete(tree, d, [])
        invariant f0 == faults ==> error.Ok()
        invariant !error.Ok() ==> Told(answer, error)
        decreases error.Ok() && d in cookies, if d in cookies then |cookies[d]| else 0
      {
        ghost var t1 := tree;
        TrimmedSize(t0, tree, d);
        error := DeleteNextPage(d, c0, f0);
        TrimmedTrans(t0, t1, tree, d);
      }
    }

    /** Whatever happens, nothing outside the subtree changes; on success the
        subtree is gone; and if no call goes wrong there is success. */
    method DeleteDir(d: Path) returns (error: Error)
      requires Closed(tree) && NoCookiesAt(cookies, d)
      modifies this
      ensures Closed(tree) && OnlyDeletesIn(old(tree), tree, d) && faults >= old(faults)
      ensures error.Ok() ==> Gone(tree, d) && cookies == old(cookies)
      ensures faults == old(faults) && d != [] && d in old(tree) && old(tree)[d].Dir? ==> error.Ok()
      ensures Told(answer, error)
      decreases |Below(tree, d)|, 4
    {
      ghost var t0 := tree;
      error := DeleteChildren(d);
      if !error.Ok() {
        return;
      }
      ghost var t1 := tree;
      error := DeleteEmptyDir(d);
      OnlyDeletesTrans(t0, t1, tree, d, d);
    }
  }

  /** A file has nothing below it. */
  lemma {:induction false} FileIsLeaf(t: Tree, f: Path, p: Path)
    requires Closed(t) && f in t && t[f].File? && p in t && f <= p
    ensures p == f
    decreases |p|
  {
    if p != f {
      FileIsLeaf(t, f, p[..|p| - 1]);
    }
  }

  lemma LeafRemoval(t: Tree, f: Path)
    requires Closed(t) && f in t && t[f].File?
    ensures Closed(t - {f}) && Gone(t - {f}, f)
  {
    forall p | p in t && f <= p ensures p == f {
      FileIsLeaf(t, f, p);
    }
    var u := t - {f};
    forall p | p in u && p != [] ensures p[..|p| - 1] in u && u[p[..|p| - 1]].Dir? {
      assert t[p[..|p| - 1]].Dir?;
    }
  }
}
