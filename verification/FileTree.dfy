/** Recursive directory copies: `cp_r`, `cp_filtered` and its worker `recurse_`. */
module FileTree {
  import opened Basics

  type Path = seq<string>

  datatype Node = File(contents: string) | Dir

  type Tree = map<Path, Node>

  function Look(m: Tree, p: Path): Option<Node> { if p in m then Some(m[p]) else None }

  /** Below `base`, whatever lies above an entry is a directory. */
  ghost predicate Rooted(m: Tree, base: Path) {
    forall p, k {:trigger p[..k], p in m} :: p in m && base <= p && |base| < k < |p| ==> p[..k] in m && m[p[..k]].Dir?
  }

  function Names(m: Tree, dir: Path): set<string> {
    set p | p in m && |p| == |dir| + 1 && dir <= p :: p[|dir|]
  }

  function Below(m: Tree, dir: Path): set<Path> { set p | p in m && dir < p }

  predicate Apart(a: Path, b: Path) { !(a <= b) && !(b <= a) }

  lemma NotBoth(a: Path, b: Path, p: Path)
    requires Apart(a, b) && a <= p
    ensures !(b <= p)
  {
  }

  lemma ApartBelow(a: Path, b: Path, n: string)
    requires Apart(a, b)
    ensures Apart(a + [n], b + [n])
  {
    NotBoth(b, a, b + [n]);
    NotBoth(a, b, a + [n]);
    assert a + [n] <= b + [n] ==> a <= b + [n];
    assert b + [n] <= a + [n] ==> b <= a + [n];
  }

  lemma NothingBelow(m: Tree, base: Path, q: Path, p: Path)
    requires Rooted(m, base) && base < q < p && Look(m, q) != Some(Dir)
    ensures p !in m
  {
    assert q == p[..|q|];
  }

  lemma NameIsChild(m: Tree, dir: Path, n: string)
    ensures n in Names(m, dir) <==> dir + [n] in m
  {
    if dir + [n] in m {
      assert (dir + [n])[|dir|] == n;
    }
    if n in Names(m, dir) {
      var p :| p in m && |p| == |dir| + 1 && dir <= p && p[|dir|] == n;
      assert p == dir + [n];
    }
  }

  /** A path under `dir`, taken apart. */
  lemma Split(dir: Path, p: Path)
    requires dir < p
    ensures p == dir + p[|dir|..] && dir + [p[|dir|]] <= p && p[|dir|..] == [p[|dir|]] + p[|dir| + 1..]
    ensures p == dir + [p[|dir|]] + p[|dir| + 1..]
  {
  }

  lemma FewerBelow(m: Tree, dir: Path, n: string)
    requires dir + [n] in m
    ensures |Below(m, dir + [n])| < |Below(m, dir)|
  {
    SubsetSize(Below(m, dir + [n]), Below(m, dir) - {dir + [n]});
  }

  // --- What the copies are meant to leave behind ---

  predicate Taken(m: Tree, src: Path, rel: Path, filter: Path -> bool, n: string) {
    src + [n] in m && filter(rel + [n])
  }

  /** Every step down the relative path `r` passes the filter. */
  ghost predicate Selected(filter: Path -> bool, rel: Path, r: Path) {
    forall k :: 0 < k <= |r| ==> filter(rel + r[..k])
  }

  predicate SameKind(m: Tree, a: Path, b: Path) {
    a in m && b in m && (m[a].Dir? <==> m[b].Dir?)
  }

  /** What the filtered copy leaves at `p` once the names in `done` have been handled. */
  ghost function Filtered(m: Tree, src: Path, dst: Path, rel: Path, filter: Path -> bool, dryRun: bool,
      done: set<string>, p: Path): Option<Node> {
    if dst < p && p[|dst|] in done && Taken(m, src, rel, filter, p[|dst|]) then
      var n := p[|dst|];
      if dryRun then (if SameKind(m, src + [n], dst + [n]) then None else Look(m, p))
      else if Selected(filter, rel, p[|dst|..]) then Look(m, src + p[|dst|..]) else None
    else
      Look(m, p)
  }

  ghost predicate IsFiltered(m: Tree, src: Path, dst: Path, rel: Path, filter: Path -> bool, dryRun: bool,
      done: set<string>, now: Tree) {
    forall p :: Look(now, p) == Filtered(m, src, dst, rel, filter, dryRun, done, p)
  }

  /** A file would have to replace a directory, or the other way round; the copy panics. */
  predicate Clash(m: Tree, src: Path, dst: Path, n: string) {
    src + [n] in m && dst + [n] in m && !SameKind(m, src + [n], dst + [n])
  }

  ghost predicate FilteredClash(m: Tree, src: Path, dst: Path, rel: Path, filter: Path -> bool, dryRun: bool,
      done: set<string>) {
    !dryRun && exists n :: n in done && Taken(m, src, rel, filter, n) && Clash(m, src, dst, n)
  }

  /** What `cp_r` leaves at `p`: the source laid over the destination. */
  ghost function Merged(m: Tree, src: Path, dst: Path, done: set<string>, p: Path): Option<Node> {
    if dst < p && p[|dst|] in done && src + p[|dst|..] in m then Look(m, src + p[|dst|..]) else Look(m, p)
  }

  ghost predicate IsMerged(m: Tree, src: Path, dst: Path, done: set<string>, now: Tree) {
    forall p :: Look(now, p) == Merged(m, src, dst, done, p)
  }

  ghost predicate MergeClash(m: Tree, src: Path, dst: Path, done: set<string>) {
    exists r: Path :: r != [] && r[0] in done && Meets(m, src, dst, r)
  }

  /** At the relative path `r` a file and a directory meet. */
  predicate Meets(m: Tree, src: Path, dst: Path, r: Path) {
    src + r in m && dst + r in m && !SameKind(m, src + r, dst + r)
  }

  /** The two trees agree at and below `q`. */
  ghost predicate SameAt(a: Tree, b: Tree, q: Path) {
    forall p :: q <= p ==> Look(a, p) == Look(b, p)
  }

  lemma SourceKept(m: Tree, src: Path, dst: Path, rel: Path, filter: Path -> bool, dryRun: bool, done: set<string>,
      now: Tree)
    requires Apart(src, dst) && IsFiltered(m, src, dst, rel, filter, dryRun, done, now)
    ensures SameAt(now, m, src)
    ensures forall n :: n !in done ==> SameAt(now, m, dst + [n])
  {
    forall p | src <= p ensures Look(now, p) == Look(m, p) {
      NotBoth(src, dst, p);
    }
    forall n, p | n !in done && dst + [n] <= p ensures Look(now, p) == Look(m, p) {
      assert p[|dst|] == n;
    }
  }

  lemma SameAtSource(a: Tree, b: Tree, src: Path)
    requires SameAt(a, b, src)
    ensures Rooted(a, src) <==> Rooted(b, src)
    ensures Below(a, src) == Below(b, src) && Names(a, src) == Names(b, src)
  {
    assert forall p :: src <= p ==> (p in a <==> p in b) && (p in a ==> a[p] == b[p]) by {
      forall p | src <= p ensures (p in a <==> p in b) && (p in a ==> a[p] == b[p]) {
        assert Look(a, p) == Look(b, p);
      }
    }
    assert forall p: Path, k :: src <= p && |src| < k < |p| ==> src <= p[..k];
  }

  // --- One name of the filtered copy ---

  /** `now` with the entry at `q`, and all below it if it is a directory, taken out. */
  function Without(now: Tree, q: Path): Tree { map p | p in now && !(q <= p) :: now[p] }

  function RemovedDir(now: Tree, q: Path): Tree { if Look(now, q) == Some(Dir) then Without(now, q) else now }

  function RemovedFile(now: Tree, q: Path): Tree { if q in now && now[q].File? then now - {q} else now }

  lemma SelectedStep(filter: Path -> bool, rel: Path, n: string, r: Path)
    ensures Selected(filter, rel, [n] + r) <==> filter(rel + [n]) && Selected(filter, rel + [n], r)
  {
    var whole := [n] + r;
    assert whole[..1] == [n];
    if Selected(filter, rel, whole) {
      forall k | 0 < k <= |r| ensures filter(rel + [n] + r[..k]) {
        assert rel + whole[..k + 1] == rel + [n] + r[..k];
      }
    }
    if filter(rel + [n]) && Selected(filter, rel + [n], r) {
      forall k | 0 < k <= |whole| ensures filter(rel + whole[..k]) {
        if k > 1 {
          assert rel + whole[..k] == rel + [n] + r[..k - 1];
        }
      }
    }
  }

  lemma FileStep(m: Tree, src: Path, dst: Path, rel: Path, filter: Path -> bool, dryRun: bool, done: set<string>,
      n: string, now: Tree, next: Tree)
    requires Apart(src, dst) && Rooted(m, src) && Rooted(m, dst) && n !in done
    requires IsFiltered(m, src, dst, rel, filter, dryRun, done, now)
    requires Taken(m, src, rel, filter, n) && m[src + [n]].File?
    requires !dryRun ==> !Clash(m, src, dst, n) && next == RemovedFile(now, dst + [n])[dst + [n] := m[src + [n]]]
    requires dryRun ==> next == RemovedFile(now, dst + [n])
    ensures IsFiltered(m, src, dst, rel, filter, dryRun, done + {n}, next)
  {
    var q := dst + [n];
    assert Look(now, q) == Look(m, q);
    forall p ensures Look(next, p) == Filtered(m, src, dst, rel, filter, dryRun, done + {n}, p) {
      assert Look(now, p) == Filtered(m, src, dst, rel, filter, dryRun, done, p);
      if dst < p && p[|dst|] == n {
        Split(dst, p);
        SelectedStep(filter, rel, n, p[|dst| + 1..]);
        if p == q {
          assert p[|dst|..] == [n];
        } else {
          assert q < p;
          BelowFile(m, src, n, p[|dst|..]);
          if Look(m, q) != Some(Dir) {
            NothingBelow(m, dst, q, p);
          }
        }
      }
    }
  }

  lemma BelowFile(m: Tree, src: Path, n: string, r: Path)
    requires Rooted(m, src) && Look(m, src + [n]) != Some(Dir) && |r| > 1 && r[0] == n
    ensures src + r !in m
  {
    assert (src + r)[..|src| + 1] == src + [n];
    NothingBelow(m, src, src + [n], src + r);
  }

  /** After clearing and, for real, recreating the directory `dst/n`. */
  function Cleared(now: Tree, q: Path, dryRun: bool): Tree {
    if dryRun then RemovedDir(now, q) else RemovedDir(now, q)[q := Dir]
  }

  lemma ClearedIs(m: Tree, src: Path, dst: Path, rel: Path, filter: Path -> bool, dryRun: bool, done: set<string>,
      n: string, now: Tree)
    requires Apart(src, dst) && Rooted(m, src) && Rooted(m, dst) && n !in done
    requires IsFiltered(m, src, dst, rel, filter, dryRun, done, now)
    requires src + [n] in m && m[src + [n]].Dir?
    ensures var q, next := dst + [n], Cleared(now, dst + [n], dryRun);
      && (forall p :: q < p ==> p !in next)
      && (forall p :: !(q <= p) ==> Look(next, p) == Look(now, p))
      && SameAt(next, m, src + [n])
  {
    var q, next := dst + [n], Cleared(now, dst + [n], dryRun);
    SourceKept(m, src, dst, rel, filter, dryRun, done, now);
    assert Look(now, q) == Look(m, q);
    forall p | q < p ensures p !in next {
      if Look(now, q) != Some(Dir) {
        NothingBelow(m, dst, q, p);
        assert Look(now, p) == Look(m, p);
      }
    }
    forall p | src + [n] <= p ensures Look(next, p) == Look(m, p) {
      assert src <= p;
      NotBoth(src, dst, p);
      assert !(q <= p);
    }
  }

  lemma DirStep(m: Tree, src: Path, dst: Path, rel: Path, filter: Path -> bool, dryRun: bool, done: set<string>,
      n: string, now: Tree, cleared: Tree, next: Tree)
    requires Apart(src, dst) && Rooted(m, src) && Rooted(m, dst) && n !in done
    requires IsFiltered(m, src, dst, rel, filter, dryRun, done, now)
    requires Taken(m, src, rel, filter, n) && m[src + [n]].Dir?
    requires cleared == Cleared(now, dst + [n], dryRun) && (!dryRun ==> !Clash(m, src, dst, n))
    requires IsFiltered(cleared, src + [n], dst + [n], rel + [n], filter, dryRun, Names(cleared, src + [n]), next)
    ensures IsFiltered(m, src, dst, rel, filter, dryRun, done + {n}, next)
  {
    var q := dst + [n];
    ClearedIs(m, src, dst, rel, filter, dryRun, done, n, now);
    assert Look(now, q) == Look(m, q);
    forall p ensures Look(next, p) == Filtered(m, src, dst, rel, filter, dryRun, done + {n}, p) {
      var names := Names(cleared, src + [n]);
      assert Look(next, p) == Filtered(cleared, src + [n], q, rel + [n], filter, dryRun, names, p);
      if dst < p && p[|dst|] == n {
        Split(dst, p);
        SelectedStep(filter, rel, n, p[|dst| + 1..]);
        if p == q {
          assert p[|dst|..] == [n];
        } else {
          DirInside(m, src, dst, rel, filter, dryRun, n, cleared, p);
        }
      } else {
        assert !(q <= p);
        assert Look(now, p) == Filtered(m, src, dst, rel, filter, dryRun, done, p);
      }
    }
  }

  lemma DirInside(m: Tree, src: Path, dst: Path, rel: Path, filter: Path -> bool, dryRun: bool, n: string,
      cleared: Tree, p: Path)
    requires Rooted(m, src) && Rooted(m, dst) && Taken(m, src, rel, filter, n) && m[src + [n]].Dir? && dst + [n] < p
    requires (forall p :: dst + [n] < p ==> p !in cleared) && SameAt(cleared, m, src + [n])
    requires !dryRun ==> !Clash(m, src, dst, n)
    ensures Filtered(cleared, src + [n], dst + [n], rel + [n], filter, dryRun, Names(cleared, src + [n]), p)
         == Filtered(m, src, dst, rel, filter, dryRun, {n}, p)
  {
    var q, r := dst + [n], p[|dst| + 1..];
    assert p[|q|..] == r && p[|q|] == r[0] && p[|dst|] == n && p[|dst|..] == [n] + r;
    SelectedStep(filter, rel, n, r);
    assert src + ([n] + r) == src + [n] + r;
    assert Look(cleared, src + [n] + r) == Look(m, src + [n] + r);
    assert Look(cleared, src + [n] + [r[0]]) == Look(m, src + [n] + [r[0]]);
    NameIsChild(cleared, src + [n], r[0]);
    if dryRun {
      if Look(m, q) != Some(Dir) {
        NothingBelow(m, dst, q, p);
      }
    } else {
      SelectedStep(filter, rel + [n], r[0], r[1..]);
      assert r == [r[0]] + r[1..];
      if src + [n] + [r[0]] !in m {
        MissingBelow(m, src, src + [n], r);
      }
    }
  }

  lemma MissingBelow(m: Tree, base: Path, dir: Path, r: Path)
    requires Rooted(m, base) && base <= dir && r != [] && dir + [r[0]] !in m
    ensures dir + r !in m
  {
    assert (dir + r)[..|dir| + 1] == dir + [r[0]];
    if |r| > 1 {
      NothingBelow(m, base, dir + [r[0]], dir + r);
    } else {
      assert r == [r[0]];
    }
  }

  class FileSystem {
    var entries: Tree

    constructor (initial: Tree)
      ensures entries == initial
    {
      entries := initial;
    }

    method RemoveDirAll(q: Path)
      modifies this
      ensures entries == RemovedDir(old(entries), q)
    {
      if q in entries && entries[q].Dir? {
        entries := map p | p in entries && !(q <= p) :: entries[p];
      }
    }

    method RemoveFile(q: Path)
      modifies this
      ensures entries == RemovedFile(old(entries), q)
    {
      if q in entries && entries[q].File? {
        entries := entries - {q};
      }
    }

    /** Fails when a file is in the way. */
    method CreateDir(q: Path) returns (ok: bool)
      modifies this
      ensures ok <==> !(q in old(entries) && old(entries)[q].File?)
      ensures entries == if ok then old(entries)[q := Dir] else old(entries)
    {
      ok := !(q in entries && entries[q].File?);
      if ok {
        entries := entries[q := Dir];
      }
    }

    /** Fails when the place is still taken, which a directory is. */
    method Copy(from: Path, to: Path) returns (ok: bool)
      requires from in entries
      modifies this
      ensures ok <==> to !in old(entries)
      ensures entries == if ok then old(entries)[to := old(entries)[from]] else old(entries)
    {
      ok := to !in entries;
      if ok {
        entries := entries[to := entries[from]];
      }
    }

    /** `cp_filtered`. */
    method CpFiltered(src: Path, dst: Path, filter: Path -> bool, dryRun: bool) returns (ok: bool)
      requires dryRun || (Look(entries, src) == Some(Dir) && Look(entries, dst) == Some(Dir))
      requires Apart(src, dst) && Rooted(entries, src) && Rooted(entries, dst)
      modifies this
      ensures ok <==> !FilteredClash(old(entries), src, dst, [], filter, dryRun, Names(old(entries), src))
      ensures ok ==> IsFiltered(old(entries), src, dst, [], filter, dryRun, Names(old(entries), src), entries)
    {
      ok := Recurse(src, dst, [], filter, dryRun, Below(entries, src));
    }

    /** `recurse_`, over the names in whatever order the directory yields them. */
    method Recurse(src: Path, dst: Path, rel: Path, filter: Path -> bool, dryRun: bool,
        ghost below: set<Path>) returns (ok: bool)
      requires dryRun || (Look(entries, src) == Some(Dir) && Look(entries, dst) == Some(Dir))
      requires Apart(src, dst) && Rooted(entries, src) && Rooted(entries, dst) && below == Below(entries, src)
      modifies this
      ensures ok <==> !FilteredClash(old(entries), src, dst, rel, filter, dryRun, Names(old(entries), src))
      ensures ok ==> IsFiltered(old(entries), src, dst, rel, filter, dryRun, Names(old(entries), src), entries)
      decreases |below|, 1
    {
      hide IsFiltered, Rooted, Apart, Names, Taken, Clash, Below;
      var todo := Names(entries, src);
      ghost var m, done: set<string> := entries, {};
      StartsFiltered(m, src, dst, rel, filter, dryRun);
      while todo != {}
        invariant todo + done == Names(m, src) && todo !! done
        invariant IsFiltered(m, src, dst, rel, filter, dryRun, done, entries)
        invariant !FilteredClash(m, src, dst, rel, filter, dryRun, done)
        decreases todo
      {
        var n :| n in todo;
        ok := CopyName(src, dst, rel, filter, dryRun, n, m, done, below);
        if !ok {
          return;
        }
        todo, done := todo - {n}, done + {n};
      }
      assert done == Names(m, src);
      ok := true;
    }

    method CopyName(src: Path, dst: Path, rel: Path, filter: Path -> bool, dryRun: bool, n: string, ghost m: Tree,
        ghost done: set<string>, ghost below: set<Path>)
      returns (ok: bool)
      requires Apart(src, dst) && Rooted(m, src) && Rooted(m, dst) && below == Below(m, src)
      requires n in Names(m, src) && n !in done
      requires IsFiltered(m, src, dst, rel, filter, dryRun, done, entries)
      modifies this
      ensures ok <==> dryRun || !(Taken(m, src, rel, filter, n) && Clash(m, src, dst, n))
      ensures ok ==> IsFiltered(m, src, dst, rel, filter, dryRun, done + {n}, entries)
      decreases |below|, 0
    {
      hide IsFiltered, Rooted, Apart, Below;
      ghost var now := entries;
      Unchanged(m, src, dst, rel, filter, dryRun, done, n, now);
      var q := dst + [n];
      if !filter(rel + [n]) {
        ok := true;
      } else if entries[src + [n]].Dir? {
        RemoveDirAll(q);
        ok := true;
        if !dryRun {
          ok := CreateDir(q);
        }
        if ok {
          ghost var cleared := entries;
          Ready(m, src, dst, rel, filter, dryRun, done, n, now);
          ok := Recurse(src + [n], q, rel + [n], filter, dryRun, Below(entries, src + [n]));
          DirStep(m, src, dst, rel, filter, dryRun, done, n, now, cleared, entries);
        }
      } else {
        RemoveFile(q);
        ok := true;
        if !dryRun {
          ok := Copy(src + [n], q);
        }
        if ok {
          FileStep(m, src, dst, rel, filter, dryRun, done, n, now, entries);
        }
      }
    }

    /** `cp_r`. */
    method CpR(src: Path, dst: Path, dryRun: bool, ghost below: set<Path>) returns (ok: bool)
      requires dryRun || (Look(entries, src) == Some(Dir) && Look(entries, dst) == Some(Dir))
      requires Apart(src, dst) && Rooted(entries, src) && below == Below(entries, src)
      modifies this
      ensures dryRun ==> ok && entries == old(entries)
      ensures !dryRun ==> (ok <==> !MergeClash(old(entries), src, dst, Names(old(entries), src)))
      ensures !dryRun && ok ==> IsMerged(old(entries), src, dst, Names(old(entries), src), entries)
      decreases |below|, 1
    {
      hide IsMerged, Rooted, Apart, Names, Below, MergeClash, ClashAt;
      if dryRun {
        return true;
      }
      var todo := Names(entries, src);
      ghost var m, done: set<string> := entries, {};
      StartsMerged(m, src, dst);
      while todo != {}
        invariant todo + done == Names(m, src) && todo !! done
        invariant IsMerged(m, src, dst, done, entries) && !MergeClash(m, src, dst, done)
        decreases todo
      {
        var n :| n in todo;
        ok := MergeName(src, dst, n, m, done, below);
        ClashesOneByOne(m, src, dst, done, n, Names(m, src));
        if !ok {
          return;
        }
        todo, done := todo - {n}, done + {n};
      }
      assert done == Names(m, src);
      ok := true;
    }

    method MergeName(src: Path, dst: Path, n: string, ghost m: Tree, ghost done: set<string>, ghost below: set<Path>)
      returns (ok: bool)
      requires Apart(src, dst) && Rooted(m, src) && below == Below(m, src)
      requires n in Names(m, src) && n !in done && IsMerged(m, src, dst, done, entries)
      modifies this
      ensures ok <==> !ClashAt(m, src, dst, n)
      ensures ok ==> IsMerged(m, src, dst, done + {n}, entries)
      decreases |below|, 0
    {
      hide IsMerged, Rooted, Apart, Below, MergeClash, ClashAt;
      ghost var now := entries;
      MergeUnchanged(m, src, dst, done, n, now);
      TopClash(m, src, dst, n);
      var q := dst + [n];
      if entries[src + [n]].Dir? {
        ok := CreateDir(q);
        if ok {
          ghost var made := entries;
          MergeReady(m, src, dst, done, n, now);
          ok := CpR(src + [n], q, false, Below(entries, src + [n]));
          if ok {
            MergeDirStep(m, src, dst, done, n, now, entries);
          }
        }
      } else {
        RemoveFile(q);
        ok := Copy(src + [n], q);
        if ok {
          MergeFileStep(m, src, dst, done, n, now, entries);
        }
      }
    }
  }

  lemma StartsFiltered(m: Tree, src: Path, dst: Path, rel: Path, filter: Path -> bool, dryRun: bool)
    ensures IsFiltered(m, src, dst, rel, filter, dryRun, {}, m)
  {
  }

  /** Before its turn comes a name is as it was, and skipping it is right if the filter says so. */
  lemma Unchanged(m: Tree, src: Path, dst: Path, rel: Path, filter: Path -> bool, dryRun: bool, done: set<string>,
      n: string, now: Tree)
    requires Apart(src, dst) && IsFiltered(m, src, dst, rel, filter, dryRun, done, now) && n in Names(m, src)
    requires n !in done
    ensures src + [n] in m && src + [n] != dst + [n]
    ensures Look(now, src + [n]) == Look(m, src + [n]) && Look(now, dst + [n]) == Look(m, dst + [n])
    ensures !filter(rel + [n]) ==> IsFiltered(m, src, dst, rel, filter, dryRun, done + {n}, now)
  {
    SourceKept(m, src, dst, rel, filter, dryRun, done, now);
    NameIsChild(m, src, n);
    ApartBelow(src, dst, n);
  }

  /** What the recursive call asks for. */
  lemma Ready(m: Tree, src: Path, dst: Path, rel: Path, filter: Path -> bool, dryRun: bool, done: set<string>,
      n: string, now: Tree)
    requires Apart(src, dst) && Rooted(m, src) && Rooted(m, dst) && n !in done
    requires IsFiltered(m, src, dst, rel, filter, dryRun, done, now)
    requires src + [n] in m && m[src + [n]].Dir?
    ensures var cleared := Cleared(now, dst + [n], dryRun);
      && Apart(src + [n], dst + [n]) && Rooted(cleared, src + [n]) && Rooted(cleared, dst + [n])
      && Look(cleared, src + [n]) == Some(Dir) && (!dryRun ==> Look(cleared, dst + [n]) == Some(Dir))
      && |Below(cleared, src + [n])| < |Below(m, src)|
      && !FilteredClash(cleared, src + [n], dst + [n], rel + [n], filter, dryRun, Names(cleared, src + [n]))
  {
    ClearedIs(m, src, dst, rel, filter, dryRun, done, n, now);
    var cleared := Cleared(now, dst + [n], dryRun);
    assert Rooted(m, src + [n]);
    SameAtSource(cleared, m, src + [n]);
    FewerBelow(m, src, n);
    ApartBelow(src, dst, n);
    assert forall x: string :: dst + [n] < dst + [n] + [x];
  }

  // --- One name of the plain copy ---

  lemma StartsMerged(m: Tree, src: Path, dst: Path)
    ensures IsMerged(m, src, dst, {}, m) && !MergeClash(m, src, dst, {})
  {
  }

  /** Somewhere at or below `n` a file and a directory meet. */
  ghost predicate ClashAt(m: Tree, src: Path, dst: Path, n: string) { MergeClash(m, src, dst, {n}) }

  lemma ClashesOneByOne(m: Tree, src: Path, dst: Path, done: set<string>, n: string, all: set<string>)
    ensures MergeClash(m, src, dst, done + {n}) <==> MergeClash(m, src, dst, done) || ClashAt(m, src, dst, n)
    ensures ClashAt(m, src, dst, n) && n in all ==> MergeClash(m, src, dst, all)
  {
  }

  lemma MergeKept(m: Tree, src: Path, dst: Path, done: set<string>, now: Tree)
    requires Apart(src, dst) && IsMerged(m, src, dst, done, now)
    ensures SameAt(now, m, src)
    ensures forall n :: n !in done ==> SameAt(now, m, dst + [n])
  {
    forall p | src <= p ensures Look(now, p) == Look(m, p) {
      NotBoth(src, dst, p);
    }
    forall n, p | n !in done && dst + [n] <= p ensures Look(now, p) == Look(m, p) {
      assert p[|dst|] == n;
    }
  }

  lemma MergeUnchanged(m: Tree, src: Path, dst: Path, done: set<string>, n: string, now: Tree)
    requires Apart(src, dst) && IsMerged(m, src, dst, done, now) && n in Names(m, src) && n !in done
    ensures src + [n] in m && src + [n] != dst + [n]
    ensures Look(now, src + [n]) == Look(m, src + [n]) && Look(now, dst + [n]) == Look(m, dst + [n])
  {
    MergeKept(m, src, dst, done, now);
    NameIsChild(m, src, n);
    ApartBelow(src, dst, n);
  }

  lemma TopClash(m: Tree, src: Path, dst: Path, n: string)
    requires Rooted(m, src)
    ensures Clash(m, src, dst, n) ==> ClashAt(m, src, dst, n)
    ensures src + [n] in m && m[src + [n]].File? && !Clash(m, src, dst, n) ==> !ClashAt(m, src, dst, n)
  {
    assert Clash(m, src, dst, n) <==> Meets(m, src, dst, [n]);
    if Clash(m, src, dst, n) {
      assert [n][0] == n;
    }
    forall r: Path | |r| > 1 && r[0] == n && Look(m, src + [n]) != Some(Dir) ensures !Meets(m, src, dst, r) {
      BelowFile(m, src, n, r);
    }
    assert forall r: Path :: |r| == 1 && r[0] == n ==> r == [n];
  }

  lemma MergeReady(m: Tree, src: Path, dst: Path, done: set<string>, n: string, now: Tree)
    requires Apart(src, dst) && Rooted(m, src) && n !in done && IsMerged(m, src, dst, done, now)
    requires src + [n] in m && m[src + [n]].Dir? && !Clash(m, src, dst, n)
    ensures var made := now[dst + [n] := Dir];
      && Apart(src + [n], dst + [n]) && Rooted(made, src + [n])
      && Look(made, src + [n]) == Some(Dir) && Look(made, dst + [n]) == Some(Dir)
      && |Below(made, src + [n])| < |Below(m, src)|
      && (MergeClash(made, src + [n], dst + [n], Names(made, src + [n])) <==> ClashAt(m, src, dst, n))
  {
    var made := now[dst + [n] := Dir];
    MadeIs(m, src, dst, done, n, now);
    ApartBelow(src, dst, n);
    assert Rooted(m, src + [n]);
    SameAtSource(made, m, src + [n]);
    FewerBelow(m, src, n);
    InnerClash(m, src, dst, n, made);
  }

  lemma MadeIs(m: Tree, src: Path, dst: Path, done: set<string>, n: string, now: Tree)
    requires Apart(src, dst) && n !in done && IsMerged(m, src, dst, done, now)
    ensures var made := now[dst + [n] := Dir];
      && SameAt(made, m, src + [n])
      && (forall p :: dst + [n] < p ==> Look(made, p) == Look(m, p))
  {
    var made := now[dst + [n] := Dir];
    MergeKept(m, src, dst, done, now);
    forall p | src + [n] <= p ensures Look(made, p) == Look(m, p) {
      assert src <= p;
      NotBoth(src, dst, p);
    }
    assert SameAt(now, m, dst + [n]);
  }

  lemma InnerClash(m: Tree, src: Path, dst: Path, n: string, made: Tree)
    requires Rooted(m, src) && src + [n] in m && !Clash(m, src, dst, n)
    requires SameAt(made, m, src + [n]) && forall p :: dst + [n] < p ==> Look(made, p) == Look(m, p)
    ensures MergeClash(made, src + [n], dst + [n], Names(made, src + [n])) <==> ClashAt(m, src, dst, n)
  {
    if r :| r != [] && r[0] in Names(made, src + [n]) && Meets(made, src + [n], dst + [n], r) {
      InnerMeets(m, src, dst, n, made, r);
      assert ([n] + r)[0] == n;
    }
    if ClashAt(m, src, dst, n) {
      var whole: Path :| whole != [] && whole[0] in {n} && Meets(m, src, dst, whole);
      assert whole == [n] + whole[1..];
      assert whole[1..] == [] ==> whole == [n];
      InnerMeets(m, src, dst, n, made, whole[1..]);
    }
  }

  lemma InnerMeets(m: Tree, src: Path, dst: Path, n: string, made: Tree, r: Path)
    requires Rooted(m, src) && src + [n] in m && r != []
    requires SameAt(made, m, src + [n]) && forall p :: dst + [n] < p ==> Look(made, p) == Look(m, p)
    ensures Meets(made, src + [n], dst + [n], r) <==> Meets(m, src, dst, [n] + r)
    ensures Meets(m, src, dst, [n] + r) ==> r[0] in Names(made, src + [n])
  {
    var from, to := src + [n] + r, dst + [n] + r;
    assert src + ([n] + r) == from && dst + ([n] + r) == to;
    assert Look(made, from) == Look(m, from) && Look(made, to) == Look(m, to);
    assert Look(made, src + [n] + [r[0]]) == Look(m, src + [n] + [r[0]]);
    NameIsChild(made, src + [n], r[0]);
    if src + [n] + [r[0]] !in m {
      MissingBelow(m, src, src + [n], r);
    }
  }

  lemma MergeDirStep(m: Tree, src: Path, dst: Path, done: set<string>, n: string, now: Tree, next: Tree)
    requires Apart(src, dst) && Rooted(m, src) && n !in done && IsMerged(m, src, dst, done, now)
    requires src + [n] in m && m[src + [n]].Dir?
    requires var made := now[dst + [n] := Dir]; IsMerged(made, src + [n], dst + [n], Names(made, src + [n]), next)
    ensures IsMerged(m, src, dst, done + {n}, next)
  {
    var q, made := dst + [n], now[dst + [n] := Dir];
    var names := Names(made, src + [n]);
    MadeIs(m, src, dst, done, n, now);
    forall p ensures Look(next, p) == Merged(m, src, dst, done + {n}, p) {
      assert Look(next, p) == Merged(made, src + [n], q, names, p);
      if dst < p && p[|dst|] == n {
        Split(dst, p);
        if p == q {
          assert p[|dst|..] == [n];
        } else {
          var r := p[|q|..];
          assert p[|dst|..] == [n] + r && src + ([n] + r) == src + [n] + r && r[0] == p[|q|];
          assert Look(made, src + [n] + r) == Look(m, src + [n] + r);
          assert Look(made, src + [n] + [r[0]]) == Look(m, src + [n] + [r[0]]);
          NameIsChild(made, src + [n], r[0]);
          if src + [n] + [r[0]] !in m {
            MissingBelow(m, src, src + [n], r);
          }
        }
      } else {
        assert !(q <= p);
        assert Look(now, p) == Merged(m, src, dst, done, p);
      }
    }
  }

  lemma MergeFileStep(m: Tree, src: Path, dst: Path, done: set<string>, n: string, now: Tree, next: Tree)
    requires Apart(src, dst) && Rooted(m, src) && n !in done && IsMerged(m, src, dst, done, now)
    requires src + [n] in m && m[src + [n]].File? && next == RemovedFile(now, dst + [n])[dst + [n] := m[src + [n]]]
    ensures IsMerged(m, src, dst, done + {n}, next)
  {
    forall p ensures Look(next, p) == Merged(m, src, dst, done + {n}, p) {
      assert Look(now, p) == Merged(m, src, dst, done, p);
      if dst < p && p[|dst|] == n {
        Split(dst, p);
        if p == dst + [n] {
          assert p[|dst|..] == [n];
        } else {
          BelowFile(m, src, n, p[|dst|..]);
        }
      }
    }
  }

  // --- What the two copies have in common, and where they differ ---

  ghost predicate Empty(m: Tree, dst: Path) { forall p :: dst < p ==> p !in m }

  /** Into an empty directory the filtered copy brings exactly the entries all of whose leading
      paths pass the filter, each as it is in the source, and leaves the rest of the disk alone. */
  lemma FilteredIntoEmpty(m: Tree, src: Path, dst: Path, filter: Path -> bool, p: Path)
    requires Rooted(m, src) && Empty(m, dst)
    ensures !FilteredClash(m, src, dst, [], filter, false, Names(m, src))
    ensures Filtered(m, src, dst, [], filter, false, Names(m, src), p)
         == if !(dst < p) then Look(m, p)
            else if Selected(filter, [], p[|dst|..]) then Look(m, src + p[|dst|..])
            else None
  {
    assert forall n: string :: dst < dst + [n];
    if dst < p {
      var n, r := p[|dst|], p[|dst|..];
      NameIsChild(m, src, n);
      assert r == [n] + r[1..] && r[0] == n;
      SelectedStep(filter, [], n, r[1..]);
      if src + [n] !in m {
        MissingBelow(m, src, src, r);
      }
    }
  }

  /** Below a directory that the source also has, everything in the destination is in the source. */
  ghost predicate NoLeftovers(m: Tree, src: Path, dst: Path) {
    forall p :: p in m && dst < p && Look(m, src + [p[|dst|]]) == Some(Dir) ==> src + p[|dst|..] in m
  }

  /** Both copies go through, and they leave the same disk. */
  ghost predicate CopiesAgree(m: Tree, src: Path, dst: Path, filter: Path -> bool) {
    && !FilteredClash(m, src, dst, [], filter, false, Names(m, src))
    && !MergeClash(m, src, dst, Names(m, src))
    && SameOutcome(m, src, dst, filter)
  }

  ghost predicate SameOutcome(m: Tree, src: Path, dst: Path, filter: Path -> bool) {
    forall p :: Filtered(m, src, dst, [], filter, false, Names(m, src), p) == Merged(m, src, dst, Names(m, src), p)
  }

  /** With a filter that lets everything through, the two copies both succeed and agree exactly when
      no file meets a directory at any depth and there is nothing for the filtered copy to sweep
      away. */
  lemma CopiesAgreeIff(m: Tree, src: Path, dst: Path, filter: Path -> bool)
    requires Rooted(m, src) && Rooted(m, dst) && forall p :: filter(p)
    ensures CopiesAgree(m, src, dst, filter) <==>
            NoLeftovers(m, src, dst) && !MergeClash(m, src, dst, Names(m, src))
  {
    hide Filtered, Merged, SameOutcome, NoLeftovers, Rooted;
    var names := Names(m, src);
    if FilteredClash(m, src, dst, [], filter, false, names) {
      var n :| n in names && Taken(m, src, [], filter, n) && Clash(m, src, dst, n);
      assert [n][0] == n && Meets(m, src, dst, [n]);
    } else {
      SameOutcomeIff(m, src, dst, filter);
    }
  }

  /** Why the condition looks below the top: a clash there stops `cp_r`, while the filtered copy has
      emptied the directory before it gets that far. */
  lemma DeepClash(m: Tree, src: Path, dst: Path, filter: Path -> bool, a: string, b: string)
    requires Apart(src, dst) && Rooted(m, src) && Rooted(m, dst) && forall p :: filter(p)
    requires Names(m, src) == {a} && Look(m, src + [a]) == Some(Dir) && Look(m, dst + [a]) == Some(Dir)
    requires Look(m, src + [a, b]) == Some(File("")) && Look(m, dst + [a, b]) == Some(Dir)
    ensures !FilteredClash(m, src, dst, [], filter, false, Names(m, src))
    ensures MergeClash(m, src, dst, Names(m, src)) && !CopiesAgree(m, src, dst, filter)
  {
    assert [a, b][0] == a && Meets(m, src, dst, [a, b]);
  }

  /** An empty destination is one case of agreement. */
  lemma CopiesAgreeWhenEmpty(m: Tree, src: Path, dst: Path, filter: Path -> bool)
    requires Rooted(m, src) && Empty(m, dst) && forall p :: filter(p)
    ensures CopiesAgree(m, src, dst, filter)
  {
    forall r: Path | r != [] ensures !Meets(m, src, dst, r) {
      assert dst < dst + r;
    }
    CopiesAgreeIff(m, src, dst, filter);
  }

  lemma SameOutcomeIff(m: Tree, src: Path, dst: Path, filter: Path -> bool)
    requires Rooted(m, src) && Rooted(m, dst) && forall p :: filter(p)
    requires !FilteredClash(m, src, dst, [], filter, false, Names(m, src))
    ensures SameOutcome(m, src, dst, filter) <==> NoLeftovers(m, src, dst)
  {
    var names := Names(m, src);
    forall p | p in m && dst < p && Look(m, src + [p[|dst|]]) == Some(Dir) && src + p[|dst|..] !in m
      ensures Filtered(m, src, dst, [], filter, false, names, p) != Merged(m, src, dst, names, p)
    {
      NameIsChild(m, src, p[|dst|]);
    }
    if NoLeftovers(m, src, dst) {
      forall p ensures Filtered(m, src, dst, [], filter, false, names, p) == Merged(m, src, dst, names, p) {
        if dst < p {
          NameIsChild(m, src, p[|dst|]);
          if Look(m, src + [p[|dst|]]) != Some(Dir) {
            FileMeets(m, src, dst, filter, p);
          }
        }
      }
    }
  }

  lemma FileMeets(m: Tree, src: Path, dst: Path, filter: Path -> bool, p: Path)
    requires Rooted(m, src) && Rooted(m, dst) && dst < p && (forall p :: filter(p))
    requires !FilteredClash(m, src, dst, [], filter, false, Names(m, src)) && Look(m, src + [p[|dst|]]) != Some(Dir)
    ensures src + [p[|dst|]] in m && src + p[|dst|..] !in m ==> p !in m
  {
    var n := p[|dst|];
    Split(dst, p);
    NameIsChild(m, src, n);
    if src + [n] in m && src + p[|dst|..] !in m {
      assert p[|dst|..] != [n];
      assert dst + [n] < p;
      assert Taken(m, src, [], filter, n) && !Clash(m, src, dst, n);
      NothingBelow(m, dst, dst + [n], p);
    }
  }

  /** A dry run of the filtered copy is not always harmless: it changes nothing exactly when no
      name it takes is already there with the same kind.  (A dry run of `cp_r` never changes
      anything.) */
  lemma DryRunHarmlessIff(m: Tree, src: Path, dst: Path, filter: Path -> bool)
    ensures (forall p :: Filtered(m, src, dst, [], filter, true, Names(m, src), p) == Look(m, p))
       <==> forall n :: Taken(m, src, [], filter, n) ==> !SameKind(m, src + [n], dst + [n])
  {
    forall n | Taken(m, src, [], filter, n) && SameKind(m, src + [n], dst + [n])
      ensures Filtered(m, src, dst, [], filter, true, Names(m, src), dst + [n]) != Look(m, dst + [n])
    {
      NameIsChild(m, src, n);
      assert dst < dst + [n] && (dst + [n])[|dst|] == n;
    }
  }
}
