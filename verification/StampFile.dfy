// Stamp files: the list of artifacts that run_cargo writes (src/bootstrap/compile.rs) and read_stamp_file reads
// (src/bootstrap/lib.rs).
module StampFile {
  import opened Basics

  type Bytes = seq<byte>

  datatype DependencyType = Host | Target | TargetSelfContained

  /** A path, as the bytes of its name, and what it is for. */
  datatype Dep = Dep(path: Bytes, kind: DependencyType)

  /** The panics: a path that is not UTF-8 when written or read, and an unknown tag. */
  datatype Result<T> = Ok(value: T) | NotUtf8 | UnknownTag

  function Tag(kind: DependencyType): byte {
    match kind
    case Host => 'h' as int as byte
    case Target => 't' as int as byte
    case TargetSelfContained => 's' as int as byte
  }

  // ---------------------------------------------------------------------------------------------
  // The format.

  function Encode(deps: seq<Dep>): Bytes {
    if deps == [] then [] else Encode(deps[..|deps| - 1]) + Entry(deps[|deps| - 1])
  }

  function Entry(d: Dep): Bytes {
    [Tag(d.kind)] + d.path + [0]
  }

  function FirstNul(b: Bytes): (i: nat)
    ensures i <= |b| && (forall k :: 0 <= k < i ==> b[k] != 0) && (i < |b| ==> b[i] == 0)
  {
    if b == [] || b[0] == 0 then 0 else 1 + FirstNul(b[1..])
  }

  /** The pieces between NUL bytes. */
  function Split(b: Bytes): (parts: seq<Bytes>)
    ensures parts != []
    decreases |b|
  {
    var i := FirstNul(b);
    if i == |b| then [b] else [b[..i]] + Split(b[i + 1..])
  }

  function KindOf(tag: byte): Result<DependencyType> {
    if tag == 'h' as int as byte then Ok(Host)
    else if tag == 's' as int as byte then Ok(TargetSelfContained)
    else if tag == 't' as int as byte then Ok(Target)
    else UnknownTag
  }

  function Joined(deps: seq<Dep>, rest: Result<seq<Dep>>): Result<seq<Dep>> {
    match rest
    case Ok(more) => Ok(deps + more)
    case NotUtf8 => NotUtf8
    case UnknownTag => UnknownTag
  }

  /** The entries of the non-empty pieces, up to the first that panics. */
  function Entries(parts: seq<Bytes>, utf8: Bytes -> bool): Result<seq<Dep>> {
    if parts == [] then Ok([])
    else if parts[0] == [] then Entries(parts[1..], utf8)
    else
      match KindOf(parts[0][0])
      case NotUtf8 => NotUtf8
      case UnknownTag => UnknownTag
      case Ok(kind) =>
        if !utf8(parts[0][1..]) then NotUtf8 else Joined([Dep(parts[0][1..], kind)], Entries(parts[1..], utf8))
  }

  predicate Named(d: Dep, utf8: Bytes -> bool) {
    0 !in d.path && utf8(d.path)
  }

  // ---------------------------------------------------------------------------------------------
  // The loops of the source.

  /** The end of run_cargo. */
  method WriteStamp(deps: seq<Dep>, utf8: Bytes -> bool) returns (r: Result<Bytes>)
    ensures r == if forall d :: d in deps ==> utf8(d.path) then Ok(Encode(deps)) else NotUtf8
  {
    var newContents: Bytes := [];
    for i := 0 to |deps|
      invariant newContents == Encode(deps[..i]) && forall j :: 0 <= j < i ==> utf8(deps[j].path)
    {
      assert deps[..i + 1][..i] == deps[..i];
      newContents := newContents + [Tag(deps[i].kind)];
      if !utf8(deps[i].path) {
        return NotUtf8;
      }
      newContents := newContents + deps[i].path;
      newContents := newContents + [0];
    }
    assert deps[..|deps|] == deps;
    return Ok(newContents);
  }

  lemma JoinedNothing(rest: Result<seq<Dep>>)
    ensures Joined([], rest) == rest
  {
    if rest.Ok? { assert [] + rest.value == rest.value; }
  }

  lemma JoinedMore(deps: seq<Dep>, d: Dep, rest: Result<seq<Dep>>)
    ensures Joined(deps, Joined([d], rest)) == Joined(deps + [d], rest)
  {
    if rest.Ok? { assert deps + ([d] + rest.value) == deps + [d] + rest.value; }
  }

  /** read_stamp_file on the contents of the file. */
  method ReadStampFile(contents: Bytes, utf8: Bytes -> bool) returns (r: Result<seq<Dep>>)
    ensures r == Entries(Split(contents), utf8)
  {
    var paths: seq<Dep> := [];
    var parts := Split(contents);
    JoinedNothing(Entries(parts, utf8));
    assert parts[0..] == parts;
    for i := 0 to |parts|
      invariant Entries(parts, utf8) == Joined(paths, Entries(parts[i..], utf8))
    {
      hide Split;
      var part := parts[i];
      assert parts[i..][0] == part && parts[i..][1..] == parts[i + 1..];
      if part != [] {
        var kind := KindOf(part[0]);
        if kind.UnknownTag? {
          return UnknownTag;
        }
        if !utf8(part[1..]) {
          return NotUtf8;
        }
        JoinedMore(paths, Dep(part[1..], kind.value), Entries(parts[i + 1..], utf8));
        paths := paths + [Dep(part[1..], kind.value)];
      }
    }
    assert Entries(parts[|parts|..], utf8) == Ok([]);
    assert paths + [] == paths;
    return Ok(paths);
  }

  // ---------------------------------------------------------------------------------------------
  // Round trip.

  lemma EncodeFirst(d: Dep, deps: seq<Dep>)
    ensures Encode([d] + deps) == Entry(d) + Encode(deps)
    decreases |deps|
  {
    hide Entry;
    var all, last := [d] + deps, |deps| - 1;
    if deps == [] {
      assert all == [d] && [d][..0] == [];
    } else {
      assert all[..|deps|] == [d] + deps[..last] && all[|deps|] == deps[last];
      EncodeFirst(d, deps[..last]);
      assert Encode(all) == Entry(d) + Encode(deps[..last]) + Entry(deps[last]);
    }
  }

  lemma SplitEntry(d: Dep, rest: Bytes)
    requires 0 !in d.path
    ensures Split(Entry(d) + rest) == [[Tag(d.kind)] + d.path] + Split(rest)
  {
    var b, n := Entry(d) + rest, 1 + |d.path|;
    assert b[..n] == [Tag(d.kind)] + d.path && b[n] == 0 && b[n + 1..] == rest;
    assert forall k :: 0 <= k < n ==> b[k] == ([Tag(d.kind)] + d.path)[k];
    assert forall k :: 1 <= k < n ==> b[k] == d.path[k - 1];
    assert FirstNul(b) == n;
  }

  /** What read_stamp_file returns for the bytes that run_cargo wrote is the list that was written, entry by entry and in
      the same order. */
  lemma {:induction false} RoundTrip(deps: seq<Dep>, utf8: Bytes -> bool)
    requires forall d :: d in deps ==> Named(d, utf8)
    ensures Entries(Split(Encode(deps)), utf8) == Ok(deps)
    decreases |deps|
  {
    if deps == [] {
      var none: seq<Bytes> := [[]];
      assert Split([]) == none && none[1..] == [];
    } else {
      var d, rest := deps[0], deps[1..];
      assert deps == [d] + rest && d in deps && Named(d, utf8);
      assert forall x :: x in rest ==> x in deps;
      EncodeFirst(d, rest);
      SplitEntry(d, Encode(rest));
      RoundTrip(rest, utf8);
      hide Split, Encode, Entries, Entry;
      EntriesFirst(d, Split(Encode(rest)), utf8);
    }
  }

  lemma EntriesFirst(d: Dep, parts: seq<Bytes>, utf8: Bytes -> bool)
    requires utf8(d.path)
    ensures Entries([[Tag(d.kind)] + d.path] + parts, utf8) == Joined([d], Entries(parts, utf8))
  {
    var part := [Tag(d.kind)] + d.path;
    assert part[1..] == d.path;
    assert ([part] + parts)[1..] == parts;
  }

  /** A piece that reads as an entry: h, s or t, then a UTF-8 path. */
  predicate Readable(part: Bytes, utf8: Bytes -> bool) {
    part != [] && (part[0] == 104 || part[0] == 115 || part[0] == 116) && utf8(part[1..])
  }

  /** Exactly the files whose non-empty pieces are all readable are read: to one entry for each such piece, in order, with
      the path that follows the letter. Otherwise the first bad piece tells the panic: a letter that is none of the
      three, or a path that is not UTF-8. */
  lemma {:induction false} EntriesExactly(parts: seq<Bytes>, utf8: Bytes -> bool)
    ensures Entries(parts, utf8).Ok? <==> forall i :: 0 <= i < |parts| && parts[i] != [] ==> Readable(parts[i], utf8)
    ensures forall part, rest :: parts == [part] + rest && Readable(part, utf8) ==>
              var first := Dep(part[1..], if part[0] == 104 then Host else if part[0] == 116 then Target else TargetSelfContained);
              Entries(parts, utf8) == Joined([first], Entries(rest, utf8))
    ensures forall rest :: parts == [[]] + rest ==> Entries(parts, utf8) == Entries(rest, utf8)
    ensures forall i ::
              (&& 0 <= i < |parts| && parts[i] != [] && !Readable(parts[i], utf8)
               && forall j :: 0 <= j < i && parts[j] != [] ==> Readable(parts[j], utf8)) ==>
              Entries(parts, utf8) == if parts[i][0] == 104 || parts[i][0] == 115 || parts[i][0] == 116 then NotUtf8 else UnknownTag
    decreases |parts|
  {
    if parts != [] {
      EntriesExactly(parts[1..], utf8);
    }
  }

  /** No piece holds a NUL byte. */
  lemma {:induction false} PiecesAreNulFree(b: Bytes)
    ensures forall part: Bytes :: part in Split(b) ==> 0 !in part
    decreases |b|
  {
    var i := FirstNul(b);
    if i < |b| {
      PiecesAreNulFree(b[i + 1..]);
    }
  }

  lemma {:induction false} EntriesAreNamed(parts: seq<Bytes>, utf8: Bytes -> bool)
    requires forall part: Bytes :: part in parts ==> 0 !in part
    ensures Entries(parts, utf8).Ok? ==> forall d :: d in Entries(parts, utf8).value ==> Named(d, utf8)
    decreases |parts|
  {
    if parts != [] {
      var part, rest := parts[0], Entries(parts[1..], utf8);
      EntriesAreNamed(parts[1..], utf8);
      assert part in parts && 0 !in part;
      if part != [] {
        assert part == [part[0]] + part[1..];
        assert Entries(parts, utf8).Ok? ==> rest.Ok? && Entries(parts, utf8).value == [Dep(part[1..], KindOf(part[0]).value)] + rest.value;
      }
    }
  }

  /** The round trip works exactly for the lists of NUL-free paths. */
  lemma RoundTripExactly(deps: seq<Dep>, utf8: Bytes -> bool)
    requires forall d :: d in deps ==> utf8(d.path)
    ensures Entries(Split(Encode(deps)), utf8) == Ok(deps) <==> forall d :: d in deps ==> 0 !in d.path
  {
    if forall d :: d in deps ==> 0 !in d.path {
      RoundTrip(deps, utf8);
    }
    PiecesAreNulFree(Encode(deps));
    EntriesAreNamed(Split(Encode(deps)), utf8);
  }
}
