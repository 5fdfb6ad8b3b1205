/** Sanitising of SMB paths: forward slashes become backslashes, runs of
    separators become one, and a DFS share gets its `\server\share` prefix. */
module SmbPath {
  import opened Status

  predicate IsSeparator(c: char) { c == '/' || c == '\\' }

  /** The server and share names of a DFS capable connection. */
  datatype Dfs = Dfs(server: string, share: string)

  function DfsPrefix(dfs: Dfs): string {
    "\\" + dfs.server + (if dfs.share != "" && dfs.share[0] == '\\' then dfs.share else "\\" + dfs.share)
  }

  /** Collapse runs of separators; `prev` tells whether one was just seen. */
  ghost function Collapse(path: string, prev: bool): string {
    if path == "" then ""
    else if !IsSeparator(path[0]) then [path[0]] + Collapse(path[1..], false)
    else if prev then Collapse(path[1..], true)
    else "\\" + Collapse(path[1..], true)
  }

  /** The sanitised path; `dfs` is set when the context is DFS capable and DFS
      paths are enabled. */
  ghost function Sanitised(path: string, dfs: Option<Dfs>): string {
    if dfs.None? then Collapse(path, false)
    else if DfsPrefix(dfs.value) <= path then path
    else DfsPrefix(dfs.value) + Collapse(path, false)
  }

  lemma {:induction false} CollapseAppend(a: string, b: string, prev: bool)
    ensures Collapse(a + b, prev) ==
            Collapse(a, prev) + Collapse(b, if a == "" then prev else IsSeparator(a[|a| - 1]))
  {
    if a == "" {
      assert a + b == b;
    } else {
      assert (a + b)[1..] == a[1..] + b;
      CollapseAppend(a[1..], b, IsSeparator(a[0]));
    }
  }

  method GetSmbPath(path: string, dfs: Option<Dfs>) returns (smbPath: string)
    ensures smbPath == Sanitised(path, dfs)
  {
    smbPath := "";
    if dfs.Some? {
      smbPath := DfsPrefix(dfs.value);
      if smbPath <= path {
        return path;
      }
    }
    ghost var prefix := smbPath;
    var isPrevSlash := false;
    for i := 0 to |path|
      invariant smbPath == prefix + Collapse(path[..i], false)
      invariant isPrevSlash == (i > 0 && IsSeparator(path[i - 1]))
    {
      var c := path[i];
      assert path[..i + 1] == path[..i] + [c];
      CollapseAppend(path[..i], [c], false);
      if IsSeparator(c) {
        if !isPrevSlash {
          smbPath := smbPath + "\\";
        }
        isPrevSlash := true;
      } else {
        smbPath := smbPath + [c];
        isPrevSlash := false;
      }
    }
    assert path[..|path|] == path;
    assert dfs.None? ==> prefix + Collapse(path, false) == Collapse(path, false);
  }

  /** No forward slash and no two adjacent separators (nor a leading one, when
      one was just seen). */
  ghost predicate Clean(s: string, prev: bool) {
    && (forall i :: 0 <= i < |s| ==> s[i] != '/')
    && (forall i :: 0 <= i < |s| - 1 ==> !(s[i] == '\\' && s[i + 1] == '\\'))
    && (prev && s != "" ==> s[0] != '\\')
  }

  lemma {:induction false} CollapseIsClean(path: string, prev: bool)
    ensures Clean(Collapse(path, prev), prev)
  {
    if path != "" {
      CollapseIsClean(path[1..], IsSeparator(path[0]));
    }
  }

  lemma {:induction false} CleanIsFixed(s: string, prev: bool)
    requires Clean(s, prev)
    ensures Collapse(s, prev) == s
  {
    if s != "" {
      var next := IsSeparator(s[0]);
      assert Clean(s[1..], next) by {
        var t := s[1..];
        forall i | 0 <= i < |t| - 1 ensures !(t[i] == '\\' && t[i + 1] == '\\') {
          assert t[i] == s[i + 1] && t[i + 1] == s[i + 1 + 1];
        }
        assert next && s[1..] != "" ==> s[1] != '\\';
      }
      CleanIsFixed(s[1..], next);
    }
  }

  /** The non-empty components of a path, `cur` being the one under way. */
  ghost function Components(path: string, cur: string): seq<string> {
    if path == "" then Flush(cur)
    else if IsSeparator(path[0]) then Flush(cur) + Components(path[1..], "")
    else Components(path[1..], cur + [path[0]])
  }

  ghost function Flush(cur: string): seq<string> {
    if cur == "" then [] else [cur]
  }

  lemma {:induction false} CollapseKeepsComponents(path: string, prev: bool, cur: string)
    requires prev ==> cur == ""
    ensures Components(Collapse(path, prev), cur) == Components(path, cur)
  {
    if path != "" {
      var rest := path[1..];
      if IsSeparator(path[0]) {
        CollapseKeepsComponents(rest, true, "");
        if !prev {
          var c := "\\" + Collapse(rest, true);
          assert c[1..] == Collapse(rest, true);
        } else {
          assert Flush("") + Components(rest, "") == Components(rest, "");
        }
      } else {
        CollapseKeepsComponents(rest, false, cur + [path[0]]);
        var c := [path[0]] + Collapse(rest, false);
        assert c[1..] == Collapse(rest, false);
      }
    }
  }

  /** Sanitising a sanitised path changes nothing, with or without DFS. */
  lemma SanitiseIsIdempotent(path: string, dfs: Option<Dfs>)
    ensures Sanitised(Sanitised(path, dfs), dfs) == Sanitised(path, dfs)
  {
    CollapseIsClean(path, false);
    CleanIsFixed(Collapse(path, false), false);
  }

  /** Separators at the ends stay where they are. */
  ghost predicate SameEnds(s: string, path: string) {
    && (s == "" <==> path == "")
    && (s != "" ==>
          && (IsSeparator(s[0]) <==> IsSeparator(path[0]))
          && (IsSeparator(s[|s| - 1]) <==> IsSeparator(path[|path| - 1])))
  }

  lemma {:induction false} CollapseEnds(path: string, prev: bool)
    requires path != ""
    ensures var s := Collapse(path, prev);
            && (!prev || !IsSeparator(path[0]) ==> s != "" && (IsSeparator(s[0]) <==> IsSeparator(path[0])))
            && (!IsSeparator(path[|path| - 1]) ==> s != "")
            && (s != "" ==> (IsSeparator(s[|s| - 1]) <==> IsSeparator(path[|path| - 1])))
  {
    if |path| > 1 {
      CollapseEnds(path[1..], IsSeparator(path[0]));
      assert path[1..][|path| - 2] == path[|path| - 1];
    }
  }

  /** Without DFS the result is clean, names the same components, and begins and ends
      with a separator exactly if the path does. */
  lemma SanitiseWithoutDfs(path: string)
    ensures Clean(Sanitised(path, None), false)
    ensures Components(Sanitised(path, None), "") == Components(path, "")
    ensures SameEnds(Sanitised(path, None), path)
  {
    CollapseIsClean(path, false);
    CollapseKeepsComponents(path, false, "");
    if path != "" {
      CollapseEnds(path, false);
    }
  }

  /** A separator in front of the share's name makes no difference to the prefix. */
  lemma PrefixIsServerAndShare(server: string, share: string)
    requires share == "" || share[0] != '\\'
    ensures DfsPrefix(Dfs(server, share)) == "\\" + server + "\\" + share
    ensures DfsPrefix(Dfs(server, "\\" + share)) == "\\" + server + "\\" + share
  {
  }

  lemma {:induction false} ComponentsSplit(a: string, b: string, cur: string)
    requires a != "" && IsSeparator(a[|a| - 1])
    ensures Components(a + b, cur) == Components(a, cur) + Components(b, "")
  {
    assert (a + b)[1..] == a[1..] + b;
    if |a| == 1 {
      assert a[1..] + b == b;
    } else {
      ComponentsSplit(a[1..], b, if IsSeparator(a[0]) then "" else cur + [a[0]]);
    }
  }

  /** Collapsing behind a prefix keeps the components of the whole. */
  lemma {:induction false} CollapseBehind(p: string, path: string, cur: string)
    ensures Components(p + Collapse(path, false), cur) == Components(p + path, cur)
  {
    if p == "" {
      assert p + path == path && p + Collapse(path, false) == Collapse(path, false);
      CollapseKeepsComponents(path, false, cur);
    } else {
      assert (p + path)[1..] == p[1..] + path && (p + Collapse(path, false))[1..] == p[1..] + Collapse(path, false);
      CollapseBehind(p[1..], path, if IsSeparator(p[0]) then "" else cur + [p[0]]);
    }
  }

  /** How many components there are does not depend on how the first one began. */
  lemma {:induction false} CountIgnoresStart(path: string, a: string, b: string)
    requires a != "" && b != ""
    ensures |Components(path, a)| == |Components(path, b)|
  {
    if path != "" && !IsSeparator(path[0]) {
      CountIgnoresStart(path[1..], a + [path[0]], b + [path[0]]);
    }
  }

  /** Without a separator in between the last component merges with the first. */
  lemma {:induction false} ComponentsMerge(p: string, path: string, cur: string)
    requires p != "" && !IsSeparator(p[|p| - 1]) && path != "" && !IsSeparator(path[0])
    ensures |Components(p + path, cur)| == |Components(p, cur)| + |Components(path, "")| - 1
  {
    assert (p + path)[1..] == p[1..] + path;
    if |p| == 1 {
      assert p[1..] + path == path;
      var begun := cur + [p[0]];
      assert Components(p, cur) == Flush(begun) == [begun];
      CountIgnoresStart(path[1..], begun + [path[0]], "" + [path[0]]);
    } else {
      ComponentsMerge(p[1..], path, if IsSeparator(p[0]) then "" else cur + [p[0]]);
    }
  }

  /** A separator ends a component, on either side. */
  lemma ComponentsApart(p: string, path: string)
    requires path == "" || IsSeparator(path[0]) || p == "" || IsSeparator(p[|p| - 1])
    ensures Components(p + path, "") == Components(p, "") + Components(path, "")
  {
    if path == "" {
      assert p + path == p;
    } else if p == "" {
      assert p + path == path;
    } else if IsSeparator(p[|p| - 1]) {
      ComponentsSplit(p, path, "");
    } else {
      assert p + path == (p + [path[0]]) + path[1..];
      ComponentsSplit(p + [path[0]], path[1..], "");
      ComponentsTrailing(p, path[0], "");
    }
  }

  /** With DFS a path below the prefix is left alone. Any other path keeps its
      components behind those of the prefix if and only if there is a separator in
      between or nothing to add; otherwise its first component merges with the last
      one of the prefix. */
  lemma SanitiseWithDfs(path: string, dfs: Dfs)
    ensures var p, s := DfsPrefix(dfs), Sanitised(path, Some(dfs));
            && (p <= path ==> s == path)
            && (!(p <= path) ==>
                  && s == p + Sanitised(path, None)
                  && Components(s, "") == Components(p + path, "")
                  && (Components(s, "") == Components(p, "") + Components(path, "")
                      <==> path == "" || IsSeparator(path[0]) || IsSeparator(p[|p| - 1])))
  {
    var p := DfsPrefix(dfs);
    CollapseBehind(p, path, "");
    if path == "" || IsSeparator(path[0]) || IsSeparator(p[|p| - 1]) {
      ComponentsApart(p, path);
    } else {
      ComponentsMerge(p, path, "");
    }
  }

  lemma {:induction false} ComponentsTrailing(p: string, c: char, cur: string)
    requires IsSeparator(c)
    ensures Components(p + [c], cur) == Components(p, cur)
  {
    if p == "" {
      assert p + [c] == [c];
    } else {
      assert (p + [c])[1..] == p[1..] + [c];
      ComponentsTrailing(p[1..], c, if IsSeparator(p[0]) then "" else cur + [p[0]]);
    }
  }

  lemma {:induction false} OneName(name: string, cur: string)
    requires name + cur != "" && forall c :: c in name ==> !IsSeparator(c)
    ensures Components(name, cur) == [cur + name]
  {
    if name == "" {
      assert cur + name == cur;
    } else {
      OneName(name[1..], cur + [name[0]]);
      assert cur + [name[0]] + name[1..] == cur + name;
    }
  }

  lemma OnServer(share: string)
    requires share != "" && forall c :: c in share ==> !IsSeparator(c)
    ensures Components("\\s\\" + share, "") == ["s", share]
  {
    ComponentsSplit("\\s\\", share, "");
    OneName(share, "");
    ComponentsSplit("\\", "s", "");
    ComponentsTrailing("\\s", '\\', "");
    OneName("s", "");
    assert "\\" + "s" == "\\s" && "\\s" + ['\\'] == "\\s\\";
    assert Components("\\", "") == [] && "" + share == share && "" + "s" == "s";
  }

  lemma LetterSanitised()
    ensures Sanitised("a", Some(Dfs("s", "h"))) == "\\s\\ha"
  {
    assert DfsPrefix(Dfs("s", "h")) == "\\s\\h";
    assert "a"[1..] == "" && Collapse("a", false) == "a";
  }

  /** The path "a" behind the prefix of share "h" on server "s" becomes a path on
      another share, "ha". */
  lemma DfsMerges()
    ensures var dfs := Dfs("s", "h");
            && !(DfsPrefix(dfs) <= "a") && Sanitised("a", Some(dfs)) == "\\s\\ha"
            && Components(Sanitised("a", Some(dfs)), "") == ["s", "ha"]
            && Components(DfsPrefix(dfs), "") + Components("a", "") == ["s", "h", "a"]
  {
    LetterSanitised();
    OnServer("h");
    OnServer("ha");
    OneName("a", "");
    assert "" + "a" == "a";
    assert DfsPrefix(Dfs("s", "h")) == "\\s\\" + "h" && "\\s\\ha" == "\\s\\" + "ha";
  }
}
