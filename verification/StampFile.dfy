/** The stamp files `run_cargo` writes and `read_stamp_file` reads: one NUL-terminated record for
    each output of a cargo invocation, a tag byte followed by the path. */
module StampFile {
  import opened Basics

  type Byte = b: int | 0 <= b < 256

  datatype DependencyType = Host | Target | TargetSelfContained

  datatype Dep = Dep(path: seq<Byte>, kind: DependencyType)

  const NUL: Byte := 0

  function Tag(kind: DependencyType): Byte {
    match kind
    case Host => 'h' as int
    case Target => 't' as int
    case TargetSelfContained => 's' as int
  }

  function KindOf(tag: Byte): Option<DependencyType> {
    if tag == 'h' as int then Some(Host)
    else if tag == 's' as int then Some(TargetSelfContained)
    else if tag == 't' as int then Some(Target)
    else None
  }

  // --- Writing ---

  function Record(d: Dep): seq<Byte> { [Tag(d.kind)] + d.path + [NUL] }

  function Encode(deps: seq<Dep>): seq<Byte> {
    if deps == [] then [] else Record(deps[0]) + Encode(deps[1..])
  }

  lemma {:induction false} EncodeSnoc(deps: seq<Dep>, d: Dep)
    ensures Encode(deps + [d]) == Encode(deps) + Record(d)
    decreases |deps|
  {
    hide Record;
    if deps == [] {
      assert deps + [d] == [d];
    } else {
      EncodeSnoc(deps[1..], d);
      assert (deps + [d])[1..] == deps[1..] + [d];
    }
  }

  /** The order `deps.sort()` uses; which order that is does not matter, only that it is total. */
  ghost predicate TotalOrder(le: (Dep, Dep) -> bool) {
    && (forall a, b :: le(a, b) || le(b, a))
    && (forall a, b, c :: le(a, b) && le(b, c) ==> le(a, c))
  }

  ghost predicate Sorted(le: (Dep, Dep) -> bool, s: seq<Dep>) {
    forall i, j :: 0 <= i < j < |s| ==> le(s[i], s[j])
  }

  /** A library sort: any sorted rearrangement of its input. */
  method Sort(le: (Dep, Dep) -> bool, s: seq<Dep>) returns (r: seq<Dep>)
    requires TotalOrder(le)
    ensures Sorted(le, r) && multiset(r) == multiset(s)
  {
    r := [];
    for i := 0 to |s|
      invariant Sorted(le, r) && multiset(r) == multiset(s[..i])
    {
      assert s[..i + 1] == s[..i] + [s[i]];
      r := Insert(le, r, s[i]);
    }
    assert s[..|s|] == s;
  }

  method Insert(le: (Dep, Dep) -> bool, s: seq<Dep>, d: Dep) returns (r: seq<Dep>)
    requires TotalOrder(le) && Sorted(le, s)
    ensures Sorted(le, r) && multiset(r) == multiset(s) + multiset{d}
  {
    hide Sorted, TotalOrder;
    var k := 0;
    while k < |s| && le(s[k], d)
      invariant 0 <= k <= |s| && forall i :: 0 <= i < k ==> le(s[i], d)
    {
      k := k + 1;
    }
    r := s[..k] + [d] + s[k..];
    Inserted(le, s, d, k);
    InsertedOnce(s, d, k);
  }

  lemma InsertedOnce(s: seq<Dep>, d: Dep, k: nat)
    requires k <= |s|
    ensures multiset(s[..k] + [d] + s[k..]) == multiset(s) + multiset{d}
  {
    assert s == s[..k] + s[k..];
  }

  lemma Inserted(le: (Dep, Dep) -> bool, s: seq<Dep>, d: Dep, k: nat)
    requires TotalOrder(le) && Sorted(le, s) && k <= |s|
    requires (forall i :: 0 <= i < k ==> le(s[i], d)) && (k < |s| ==> !le(s[k], d))
    ensures Sorted(le, s[..k] + [d] + s[k..])
  {
    forall j | k <= j < |s| ensures le(d, s[j]) {
      assert le(d, s[k]);
      if k < j { assert le(s[k], s[j]); }
    }
  }

  /** The tail of `run_cargo`: the outputs are sorted and written one after the other. */
  method WriteStamp(deps: seq<Dep>, additional: seq<Dep>, le: (Dep, Dep) -> bool)
    returns (contents: seq<Byte>, sorted: seq<Dep>)
    requires TotalOrder(le)
    ensures Sorted(le, sorted) && multiset(sorted) == multiset(deps) + multiset(additional)
    ensures contents == Encode(sorted)
  {
    sorted := Sort(le, deps + additional);
    contents := [];
    for i := 0 to |sorted|
      invariant contents == Encode(sorted[..i])
    {
      EncodeSnoc(sorted[..i], sorted[i]);
      assert sorted[..i + 1] == sorted[..i] + [sorted[i]];
      contents := contents + [Tag(sorted[i].kind)];
      contents := contents + sorted[i].path;
      contents := contents + [NUL];
    }
    assert sorted[..|sorted|] == sorted;
  }

  // --- Reading ---

  /** The parts between the NULs, one more than there are NULs. */
  function Split(bytes: seq<Byte>): seq<seq<Byte>>
    decreases |bytes|
  {
    var k := IndexOf(bytes, NUL);
    if k == |bytes| then [bytes] else [bytes[..k]] + Split(bytes[k + 1..])
  }

  /** One part, if it is a record; `None` is the reader's panic. */
  function Parse(part: seq<Byte>): Option<Dep>
    requires part != []
  {
    var kind := KindOf(part[0]);
    if kind.None? then None else Some(Dep(part[1..], kind.value))
  }

  function Prepend(done: seq<Dep>, rest: Option<seq<Dep>>): Option<seq<Dep>> {
    if rest.None? then None else Some(done + rest.value)
  }

  function ParseAll(parts: seq<seq<Byte>>): Option<seq<Dep>> {
    if parts == [] then Some([])
    else if parts[0] == [] then ParseAll(parts[1..])
    else
      var first := Parse(parts[0]);
      if first.None? then None else Prepend([first.value], ParseAll(parts[1..]))
  }

  function Decode(bytes: seq<Byte>): Option<seq<Dep>> { ParseAll(Split(bytes)) }

  lemma PrependTwice(a: seq<Dep>, b: seq<Dep>, rest: Option<seq<Dep>>)
    ensures Prepend([], rest) == rest && Prepend(a, Prepend(b, rest)) == Prepend(a + b, rest)
  {
    if rest.Some? {
      assert a + (b + rest.value) == a + b + rest.value && [] + rest.value == rest.value;
    }
  }

  function ParseOne(part: seq<Byte>, rest: Option<seq<Dep>>): Option<seq<Dep>> {
    if part == [] then rest else if Parse(part).None? then None else Prepend([Parse(part).value], rest)
  }

  lemma ParseFirst(part: seq<Byte>, parts: seq<seq<Byte>>)
    ensures ParseAll([part] + parts) == ParseOne(part, ParseAll(parts))
  {
    assert ([part] + parts)[1..] == parts;
  }

  /** The records from position `start` on; nothing is left after the last part. */
  function DecodeFrom(bytes: seq<Byte>, start: nat): Option<seq<Dep>> {
    if start > |bytes| then Some([]) else Decode(bytes[start..])
  }

  /** One part at a time: the part from `start` to `k`, then what follows its NUL. */
  lemma DecodePart(bytes: seq<Byte>, start: nat, k: nat)
    requires start <= k <= |bytes| && (forall i :: start <= i < k ==> bytes[i] != NUL)
    requires k < |bytes| ==> bytes[k] == NUL
    ensures DecodeFrom(bytes, start) == ParseOne(bytes[start..k], DecodeFrom(bytes, k + 1))
  {
    hide ParseAll, ParseOne;
    var here, part := bytes[start..], bytes[start..k];
    IndexIs(here, NUL, k - start);
    if k == |bytes| {
      assert here == part && Split(here) == [part] + [];
      ParseFirst(part, []);
      NoParts();
    } else {
      assert here[..k - start] == part && here[k - start + 1..] == bytes[k + 1..];
      ParseFirst(part, Split(bytes[k + 1..]));
    }
  }

  lemma NoParts()
    ensures ParseAll([]) == Some([])
  {
  }

  /** `read_stamp_file`: nothing in a dry run, otherwise the records in file order. */
  method ReadStamp(contents: seq<Byte>, dryRun: bool) returns (r: Option<seq<Dep>>)
    ensures r == if dryRun then Some([]) else Decode(contents)
  {
    hide Decode, Parse, Split;
    if dryRun {
      return Some([]);
    }
    var paths: seq<Dep>, start := [], 0;
    assert contents[0..] == contents;
    PrependTwice([], [], Decode(contents));
    while start <= |contents|
      invariant 0 <= start && Decode(contents) == Prepend(paths, DecodeFrom(contents, start))
    {
      var end := start;
      while end < |contents| && contents[end] != NUL
        invariant start <= end <= |contents| && forall i :: start <= i < end ==> contents[i] != NUL
      {
        end := end + 1;
      }
      DecodePart(contents, start, end);
      var part := contents[start..end];
      if part != [] {
        var dep := Parse(part);
        if dep.None? {
          return None;
        }
        PrependTwice(paths, [dep.value], DecodeFrom(contents, end + 1));
        paths := paths + [dep.value];
      }
      start := end + 1;
    }
    assert paths + [] == paths;
    r := Some(paths);
  }

  // --- What is read, in terms of the bytes ---

  /** From `i` to `j` there is a part of the file: not empty, without a NUL, between NULs or the ends. */
  ghost predicate IsPart(bytes: seq<Byte>, i: nat, j: nat) {
    && i < j <= |bytes| && (forall k :: i <= k < j ==> bytes[k] != NUL)
    && (i == 0 || bytes[i - 1] == NUL) && (j == |bytes| || bytes[j] == NUL)
  }

  /** It is the record of `d`: a letter for the kind, and the path. */
  ghost predicate IsRecord(bytes: seq<Byte>, i: nat, j: nat, d: Dep) {
    && IsPart(bytes, i, j) && d.path == bytes[i + 1..j]
    && bytes[i] == match d.kind { case Host => 'h' case Target => 't' case TargetSelfContained => 's' } as int
  }

  ghost predicate RecordAt(bytes: seq<Byte>, i: nat, d: Dep) { exists j :: IsRecord(bytes, i, j, d) }

  ghost predicate BadPart(bytes: seq<Byte>, i: nat, j: nat) {
    IsPart(bytes, i, j) && bytes[i] != 'h' as int && bytes[i] != 't' as int && bytes[i] != 's' as int
  }

  ghost predicate Boundary(bytes: seq<Byte>, start: nat) {
    start == 0 || (start <= |bytes| && bytes[start - 1] == NUL) || start == |bytes| + 1
  }

  /** The reader panics exactly if some part begins with another letter. */
  lemma {:induction false} PanicsIff(bytes: seq<Byte>, start: nat)
    requires Boundary(bytes, start)
    ensures DecodeFrom(bytes, start).None? <==> exists i, j :: start <= i && BadPart(bytes, i, j)
    decreases |bytes| + 1 - start
  {
    hide Decode;
    if start <= |bytes| {
      var k := NextNul(bytes, start);
      DecodePart(bytes, start, k);
      PanicsIff(bytes, k + 1);
      forall i, j | start <= i && IsPart(bytes, i, j) ensures (i == start && j == k && start < k) || k + 1 <= i {
        PartsInOrder(bytes, start, k, i, j);
      }
      if start < k {
        assert IsPart(bytes, start, k) && bytes[start..k][0] == bytes[start];
        assert BadPart(bytes, start, k) <==> Parse(bytes[start..k]).None?;
      }
    }
  }

  lemma NextNul(bytes: seq<Byte>, start: nat) returns (k: nat)
    requires start <= |bytes|
    ensures start <= k <= |bytes| && (forall i :: start <= i < k ==> bytes[i] != NUL)
    ensures (k < |bytes| ==> bytes[k] == NUL)
  {
    hide IndexOf;
    var here := bytes[start..];
    var n := IndexOf(here, NUL);
    k := start + n;
    forall i | start <= i < k ensures bytes[i] != NUL {
      assert here[..n][i - start] == bytes[i];
    }
  }

  lemma PartsInOrder(bytes: seq<Byte>, start: nat, k: nat, i: nat, j: nat)
    requires start <= k <= |bytes| && (forall n :: start <= n < k ==> bytes[n] != NUL)
    requires (k < |bytes| ==> bytes[k] == NUL)
    requires start <= i && IsPart(bytes, i, j)
    ensures (i == start && j == k && start < k) || k + 1 <= i
  {
  }

  /** Otherwise it reads the parts in the order of the file, each as the record it is, and no part is
      left out. */
  lemma {:induction false} ReadsRecords(bytes: seq<Byte>, start: nat) returns (at: seq<nat>)
    requires Boundary(bytes, start) && DecodeFrom(bytes, start).Some?
    ensures var deps := DecodeFrom(bytes, start).value;
      && |at| == |deps| && (forall n :: 0 <= n < |at| ==> start <= at[n] && RecordAt(bytes, at[n], deps[n]))
      && (forall m, n :: 0 <= m < n < |at| ==> at[m] < at[n])
      && (forall i, j :: start <= i && IsPart(bytes, i, j) ==> i in at)
    decreases |bytes| + 1 - start
  {
    hide Decode, RecordAt;
    if start > |bytes| {
      at := [];
    } else {
      var k := NextNul(bytes, start);
      DecodePart(bytes, start, k);
      var rest := ReadsRecords(bytes, k + 1);
      forall i, j | start <= i && IsPart(bytes, i, j) ensures (i == start && start < k) || i in rest {
        PartsInOrder(bytes, start, k, i, j);
      }
      if start == k {
        at := rest;
      } else {
        FirstRecord(bytes, start, k);
        at := [start] + rest;
      }
    }
  }

  lemma FirstRecord(bytes: seq<Byte>, start: nat, k: nat)
    requires Boundary(bytes, start) && start < k <= |bytes| && (forall n :: start <= n < k ==> bytes[n] != NUL)
    requires (k < |bytes| ==> bytes[k] == NUL) && Parse(bytes[start..k]).Some?
    ensures RecordAt(bytes, start, Parse(bytes[start..k]).value)
  {
    var part := bytes[start..k];
    assert part[0] == bytes[start] && part[1..] == bytes[start + 1..k];
    assert IsRecord(bytes, start, k, Parse(part).value);
  }

  // --- The two together ---

  ghost predicate NulFree(deps: seq<Dep>) { forall d :: d in deps ==> NUL !in d.path }

  lemma DecodeRecord(d: Dep, rest: seq<Byte>)
    requires NUL !in d.path
    ensures Decode(Record(d) + rest) == Prepend([d], Decode(rest))
  {
    hide Decode, Prepend;
    var part, bytes := [Tag(d.kind)] + d.path, Record(d) + rest;
    assert bytes[0..] == bytes && bytes[0..|part|] == part && bytes[|part| + 1..] == rest;
    DecodePart(bytes, 0, |part|);
    assert part[1..] == d.path && Parse(part) == Some(d);
  }

  lemma {:induction false} DecodeEncode(deps: seq<Dep>)
    requires NulFree(deps)
    ensures Decode(Encode(deps)) == Some(deps)
    decreases |deps|
  {
    if deps == [] {
      assert Split([]) == [[]];
    } else {
      DecodeEncode(deps[1..]);
      DecodeRecord(deps[0], Encode(deps[1..]));
      assert [deps[0]] + deps[1..] == deps;
    }
  }

  lemma {:induction false} PartsHaveNoNul(bytes: seq<Byte>)
    ensures forall part :: part in Split(bytes) ==> NUL !in part
    decreases |bytes|
  {
    var k := IndexOf(bytes, NUL);
    if k < |bytes| {
      PartsHaveNoNul(bytes[k + 1..]);
    } else {
      assert bytes[..k] == bytes;
    }
  }

  lemma {:induction false} ParsedHaveNoNul(parts: seq<seq<Byte>>)
    requires (forall part :: part in parts ==> NUL !in part) && ParseAll(parts).Some?
    ensures NulFree(ParseAll(parts).value)
    decreases |parts|
  {
    if parts != [] {
      assert parts[0] in parts;
      ParsedHaveNoNul(parts[1..]);
    }
  }

  /** What is read never holds a NUL in a path, whatever the file contains. */
  lemma ReadsHaveNoNul(bytes: seq<Byte>)
    requires Decode(bytes).Some?
    ensures NulFree(Decode(bytes).value)
  {
    PartsHaveNoNul(bytes);
    ParsedHaveNoNul(Split(bytes));
  }

  /** Reading back what was written gives the same list, in order and with kinds (an empty path
      included), exactly when no path holds a NUL byte. */
  lemma RoundTripExact(deps: seq<Dep>)
    ensures Decode(Encode(deps)) == Some(deps) <==> NulFree(deps)
  {
    if NulFree(deps) {
      DecodeEncode(deps);
    } else if Decode(Encode(deps)) == Some(deps) {
      ReadsHaveNoNul(Encode(deps));
    }
  }

  /** A whole exchange: what a later step reads is the sorted rearrangement of what was built. */
  method Exchange(deps: seq<Dep>, additional: seq<Dep>, le: (Dep, Dep) -> bool) returns (r: Option<seq<Dep>>)
    requires TotalOrder(le) && NulFree(deps) && NulFree(additional)
    ensures r.Some? && Sorted(le, r.value) && multiset(r.value) == multiset(deps) + multiset(additional)
  {
    var contents, sorted := WriteStamp(deps, additional, le);
    forall d | d in sorted ensures NUL !in d.path {
      assert d in multiset(sorted);
    }
    DecodeEncode(sorted);
    r := ReadStamp(contents, false);
  }
}
