/** The byte stream that is hashed to identify a flat directory, and why it cannot be ambiguous. */
module Checksum {
  import opened Api

  type Byte = b: int | 0 <= b < 256

  type Bytes = seq<Byte>

  datatype File = File(name: Bytes, data: Bytes)

  // ---- little-endian lengths --------------------------------------------------------------------

  function Power256(n: nat): (p: nat) {
    if n == 0 then 1 else 256 * Power256(n - 1)
  }

  function LittleEndian(n: nat, width: nat): (bytes: Bytes)
    ensures |bytes| == width
    decreases width
  {
    if width == 0 then [] else [n % 256] + LittleEndian(n / 256, width - 1)
  }

  function FromLittleEndian(bytes: Bytes): (n: nat) {
    if bytes == [] then 0 else bytes[0] + 256 * FromLittleEndian(bytes[1..])
  }

  lemma {:induction false} LittleEndianRoundTrip(n: nat, width: nat)
    requires n < Power256(width)
    ensures FromLittleEndian(LittleEndian(n, width)) == n
    decreases width
  {
    if width > 0 {
      LittleEndianRoundTrip(n / 256, width - 1);
      assert LittleEndian(n, width)[1..] == LittleEndian(n / 256, width - 1);
    }
  }

  // ---- the encoding of one file -----------------------------------------------------------------

  /** Name, NUL, length as a 64-bit integer, data. */
  function Encoded(f: File): (s: Bytes) {
    f.name + [0] + LittleEndian(|f.data| % U64, 8) + f.data
  }

  /** Names have no NUL and lengths fit a uint64, as the file system guarantees. */
  ghost predicate Storable(f: File) {
    0 !in f.name && |f.data| < U64
  }

  /** The position of the first NUL, or the length if there is none. */
  function FirstNul(s: Bytes): (i: nat)
    ensures i <= |s|
    ensures i < |s| ==> s[i] == 0
  {
    if s == [] || s[0] == 0 then 0 else 1 + FirstNul(s[1..])
  }

  lemma {:induction false} FirstNulAfterName(name: Bytes, rest: Bytes)
    requires 0 !in name
    ensures FirstNul(name + [0] + rest) == |name|
  {
    var s := name + [0] + rest;
    if name != [] {
      assert s[0] == name[0];
      assert s[1..] == name[1..] + [0] + rest;
      FirstNulAfterName(name[1..], rest);
    }
  }

  /** The first file of a stream and what follows it. */
  function DecodedFirst(s: Bytes): (r: Option<(File, Bytes)>)
    ensures r.Some? ==> |r.value.1| < |s|
  {
    var i := FirstNul(s);
    if |s| < i + 9 then None
    else
      var n := FromLittleEndian(s[i + 1..i + 9]);
      if |s| < i + 9 + n then None
      else Some((File(s[..i], s[i + 9..i + 9 + n]), s[i + 9 + n..]))
  }

  lemma EightBytes()
    ensures Power256(8) == U64
  {
    assert Power256(4) == U32;
    assert Power256(8) == 256 * 256 * 256 * 256 * Power256(4);
  }

  /** Where the parts of an encoded file are found in the stream. */
  lemma PartsOf(name: Bytes, len: Bytes, data: Bytes, rest: Bytes)
    requires |len| == 8
    ensures var s, i := name + [0] + len + data + rest, |name|;
      && |s| == i + 9 + |data| + |rest|
      && s[..i] == name && s[i + 1..i + 9] == len
      && s[i + 9..i + 9 + |data|] == data && s[i + 9 + |data|..] == rest
  {
  }

  lemma LengthRoundTrip(n: nat)
    requires n < U64
    ensures FromLittleEndian(LittleEndian(n % U64, 8)) == n
  {
    EightBytes();
    var size := 8;
    LittleEndianRoundTrip(n, size);
    assert n % U64 == n;
  }

  lemma DecodedFromParts(name: Bytes, len: Bytes, data: Bytes, rest: Bytes)
    requires 0 !in name && |len| == 8 && FromLittleEndian(len) == |data|
    ensures DecodedFirst(name + [0] + len + data + rest) == Some((File(name, data), rest))
  {
    PartsOf(name, len, data, rest);
    FirstNulAfterName(name, len + data + rest);
    assert name + [0] + len + data + rest == name + [0] + (len + data + rest);
  }

  lemma DecodedFirstUndoes(f: File, rest: Bytes)
    requires Storable(f)
    ensures DecodedFirst(Encoded(f) + rest) == Some((f, rest))
  {
    var len := LittleEndian(|f.data| % U64, 8);
    LengthRoundTrip(|f.data|);
    DecodedFromParts(f.name, len, f.data, rest);
  }

  // ---- the encoding of a list of files ----------------------------------------------------------

  function Stream(files: seq<File>): (s: Bytes) {
    if files == [] then [] else Encoded(files[0]) + Stream(files[1..])
  }

  function Decoded(s: Bytes): (r: Option<seq<File>>)
    decreases |s|
  {
    if s == [] then Some([])
    else
      match DecodedFirst(s)
      case None => None
      case Some((f, rest)) =>
        match Decoded(rest)
        case None => None
        case Some(files) => Some([f] + files)
  }

  lemma PrependFile(s: Bytes, f: File, rest: Bytes, files: seq<File>)
    requires s != [] && DecodedFirst(s) == Some((f, rest)) && Decoded(rest) == Some(files)
    ensures Decoded(s) == Some([f] + files)
  {
  }

  /** The decoder undoes the encoder. */
  lemma {:induction false} StreamRoundTrip(files: seq<File>)
    requires forall i :: 0 <= i < |files| ==> Storable(files[i])
    ensures Decoded(Stream(files)) == Some(files)
  {
    if files != [] {
      var rest := Stream(files[1..]);
      DecodedFirstUndoes(files[0], rest);
      StreamRoundTrip(files[1..]);
      PrependFile(Encoded(files[0]) + rest, files[0], rest, files[1..]);
      assert [files[0]] + files[1..] == files;
    }
  }

  // ---- the order of names -----------------------------------------------------------------------

  predicate Before(a: Bytes, b: Bytes) {
    a == [] || (b != [] && (a[0] < b[0] || (a[0] == b[0] && Before(a[1..], b[1..]))))
  }

  /** The names agree up to position `i`, where the first has the smaller byte. */
  predicate SmallerAt(a: Bytes, b: Bytes, i: nat) {
    i < |a| && i < |b| && a[..i] == b[..i] && a[i] < b[i]
  }

  /** The order is that of strings: a prefix comes first, and otherwise the smaller byte at the first difference. */
  lemma {:induction false} BeforeIsBytewise(a: Bytes, b: Bytes)
    ensures Before(a, b) <==> a <= b || exists i :: SmallerAt(a, b, i)
  {
    if a != [] && b != [] {
      if a[0] == b[0] {
        BeforeIsBytewise(a[1..], b[1..]);
        assert a == [a[0]] + a[1..] && b == [b[0]] + b[1..];
        if i: nat :| SmallerAt(a[1..], b[1..], i) {
          assert a[..i + 1] == [a[0]] + a[1..][..i] && b[..i + 1] == [b[0]] + b[1..][..i];
          assert SmallerAt(a, b, i + 1);
        }
        if i: nat :| SmallerAt(a, b, i) {
          assert a[1..][..i - 1] == a[..i][1..] && b[1..][..i - 1] == b[..i][1..];
          assert SmallerAt(a[1..], b[1..], i - 1);
        }
      } else {
        assert a[0] < b[0] ==> SmallerAt(a, b, 0);
      }
    }
  }

  lemma {:induction false} BeforeTotal(a: Bytes, b: Bytes)
    ensures Before(a, b) || Before(b, a)
  {
    if a != [] && b != [] {
      BeforeTotal(a[1..], b[1..]);
    }
  }

  lemma {:induction false} BeforeAntisymmetric(a: Bytes, b: Bytes)
    requires Before(a, b) && Before(b, a)
    ensures a == b
  {
    if a != [] {
      BeforeAntisymmetric(a[1..], b[1..]);
      assert a == [a[0]] + a[1..] && b == [b[0]] + b[1..];
    }
  }

  lemma {:induction false} BeforeTransitive(a: Bytes, b: Bytes, c: Bytes)
    requires Before(a, b) && Before(b, c)
    ensures Before(a, c)
  {
    if a != [] && a[0] == b[0] && b[0] == c[0] {
      BeforeTransitive(a[1..], b[1..], c[1..]);
    }
  }

  ghost predicate Ascending(names: seq<Bytes>) {
    forall i, j :: 0 <= i < j < |names| ==> Before(names[i], names[j]) && names[i] != names[j]
  }

  function Inserted(name: Bytes, names: seq<Bytes>): (r: seq<Bytes>) {
    if names == [] || Before(name, names[0]) then [name] + names else [names[0]] + Inserted(name, names[1..])
  }

  /** The library's sort, as what it computes. */
  function Sorted(names: seq<Bytes>): (r: seq<Bytes>) {
    if names == [] then [] else Inserted(names[0], Sorted(names[1..]))
  }

  lemma {:induction false} InsertedFacts(name: Bytes, names: seq<Bytes>)
    requires Ascending(names) && name !in names
    ensures Ascending(Inserted(name, names))
    ensures forall x :: x in Inserted(name, names) <==> x == name || x in names
  {
    var r := Inserted(name, names);
    if names == [] {
    } else if Before(name, names[0]) {
      forall i, j | 0 <= i < j < |r|
        ensures Before(r[i], r[j]) && r[i] != r[j]
      {
        if i == 0 && j > 1 {
          BeforeTransitive(name, names[0], names[j - 1]);
        }
      }
    } else {
      BeforeTotal(name, names[0]);
      InsertedFacts(name, names[1..]);
      var rest := Inserted(name, names[1..]);
      forall j | 0 <= j < |rest|
        ensures Before(names[0], rest[j]) && names[0] != rest[j]
      {
        assert rest[j] in rest;
        if rest[j] != name {
          var k :| 0 <= k < |names[1..]| && names[1..][k] == rest[j];
          assert names[k + 1] == rest[j];
        }
      }
    }
  }

  ghost predicate NoDuplicates(names: seq<Bytes>) {
    forall i, j :: 0 <= i < j < |names| ==> names[i] != names[j]
  }

  lemma {:induction false} SortedFacts(names: seq<Bytes>)
    requires NoDuplicates(names)
    ensures Ascending(Sorted(names))
    ensures forall x :: x in Sorted(names) <==> x in names
  {
    if names != [] {
      SortedFacts(names[1..]);
      assert names[0] !in names[1..];
      InsertedFacts(names[0], Sorted(names[1..]));
    }
  }

  /** A set of names has only one ascending enumeration, so the order of collecting them does not matter. */
  lemma {:induction false} AscendingIsUnique(a: seq<Bytes>, b: seq<Bytes>)
    requires Ascending(a) && Ascending(b)
    requires forall x :: x in a <==> x in b
    ensures a == b
  {
    assert a != [] ==> a[0] in a;
    assert b != [] ==> b[0] in b;
    if a != [] {
      FirstIsSame(a, b);
      forall x
        ensures x in a[1..] <==> x in b[1..]
      {
        RestMembers(a, x);
        RestMembers(b, x);
      }
      AscendingIsUnique(a[1..], b[1..]);
      assert a == [a[0]] + a[1..] && b == [b[0]] + b[1..];
    }
  }

  lemma FirstIsSame(a: seq<Bytes>, b: seq<Bytes>)
    requires Ascending(a) && Ascending(b) && a != [] && b != []
    requires forall x :: x in a <==> x in b
    ensures a[0] == b[0]
  {
    assert a[0] in a && b[0] in b;
    var i :| 0 <= i < |b| && b[i] == a[0];
    var j :| 0 <= j < |a| && a[j] == b[0];
    if i > 0 && j > 0 {
      BeforeAntisymmetric(a[0], b[0]);
    }
  }

  lemma RestMembers(a: seq<Bytes>, x: Bytes)
    requires Ascending(a) && a != []
    ensures x in a[1..] <==> x in a && x != a[0]
  {
    assert a == [a[0]] + a[1..];
    if x in a[1..] {
      var i :| 0 <= i < |a[1..]| && a[1..][i] == x;
      assert a[i + 1] == x;
    }
  }

  // ---- directories ------------------------------------------------------------------------------

  /** A flat directory: the data of each file by its name. */
  type Directory = map<Bytes, Bytes>

  ghost predicate Flat(d: Directory) {
    forall name :: name in d ==> Storable(File(name, d[name]))
  }

  /** The files of a directory in the given order of names. */
  function FilesOf(d: Directory, names: seq<Bytes>): (files: seq<File>)
    requires forall i :: 0 <= i < |names| ==> names[i] in d
    ensures |files| == |names|
    ensures forall i :: 0 <= i < |names| ==> files[i] == File(names[i], d[names[i]])
  {
    seq(|names|, i requires 0 <= i < |names| => File(names[i], d[names[i]]))
  }

  ghost predicate Lists(names: seq<Bytes>, d: Directory) {
    Ascending(names) && forall x :: x in names <==> x in d
  }

  ghost predicate IsStreamInOrder(s: Bytes, d: Directory, names: seq<Bytes>) {
    Lists(names, d) && (forall i :: 0 <= i < |names| ==> names[i] in d) && s == Stream(FilesOf(d, names))
  }

  /** `s` is the stream of the directory `d`. */
  ghost predicate IsStreamOf(s: Bytes, d: Directory) {
    exists names :: IsStreamInOrder(s, d, names)
  }

  lemma {:induction false} StreamSplits(a: seq<File>, b: seq<File>)
    ensures Stream(a + b) == Stream(a) + Stream(b)
  {
    if a == [] {
      assert a + b == b;
    } else {
      assert (a + b)[1..] == a[1..] + b;
      StreamSplits(a[1..], b);
    }
  }

  method CollectNames(d: Directory) returns (keys: seq<Bytes>)
    ensures NoDuplicates(keys) && forall x :: x in keys <==> x in d
  {
    keys := [];
    var left := d.Keys;
    while left != {}
      invariant left <= d.Keys
      invariant NoDuplicates(keys)
      invariant forall x :: x in keys <==> x in d && x !in left
      decreases |left|
    {
      var k :| k in left;
      keys := keys + [k];
      left := left - {k};
    }
  }

  lemma StreamOneMore(files: seq<File>, i: nat)
    requires i < |files|
    ensures Stream(files[..i + 1]) == Stream(files[..i]) + Encoded(files[i])
  {
    assert files[..i + 1] == files[..i] + [files[i]];
    StreamSplits(files[..i], [files[i]]);
    assert [files[i]][1..] == [];
    assert Stream([files[i]]) == Encoded(files[i]);
  }

  /** Collects the names in any order, sorts them, and writes the files one after the other. */
  method WriteStream(d: Directory) returns (s: Bytes)
    ensures IsStreamOf(s, d)
  {
    var keys := CollectNames(d);
    SortedFacts(keys);
    var names := Sorted(keys);
    assert forall i :: 0 <= i < |names| ==> names[i] in names;
    s := [];
    for i := 0 to |names|
      invariant s == Stream(FilesOf(d, names)[..i])
    {
      StreamOneMore(FilesOf(d, names), i);
      var data := d[names[i]];
      s := s + (names[i] + [0] + LittleEndian(|data| % U64, 8) + data);
    }
    assert FilesOf(d, names)[..|names|] == FilesOf(d, names);
    assert IsStreamInOrder(s, d, names);
  }

  /** The stream is a function of the directory: the order in which the names are found does not matter. */
  lemma StreamIsReproducible(s: Bytes, s': Bytes, d: Directory)
    requires IsStreamOf(s, d) && IsStreamOf(s', d)
    ensures s == s'
  {
    var names :| IsStreamInOrder(s, d, names);
    var names' :| IsStreamInOrder(s', d, names');
    AscendingIsUnique(names, names');
  }

  lemma SubDirectory(d: Directory, names: seq<Bytes>, d': Directory, names': seq<Bytes>)
    requires Lists(names, d) && Lists(names', d')
    requires (forall i :: 0 <= i < |names| ==> names[i] in d) && (forall i :: 0 <= i < |names'| ==> names'[i] in d')
    requires FilesOf(d, names) == FilesOf(d', names')
    ensures forall x :: x in d ==> x in d' && d[x] == d'[x]
  {
    forall x | x in d
      ensures x in d' && d[x] == d'[x]
    {
      var i :| 0 <= i < |names| && names[i] == x;
      assert FilesOf(d, names)[i] == FilesOf(d', names')[i];
    }
  }

  /** Decoding the stream of a directory gives back its files. */
  lemma DirectoryRoundTrip(s: Bytes, d: Directory, names: seq<Bytes>)
    requires Flat(d) && IsStreamInOrder(s, d, names)
    ensures Decoded(s) == Some(FilesOf(d, names))
  {
    StreamRoundTrip(FilesOf(d, names));
  }

  lemma SameFiles(s: Bytes, d: Directory, names: seq<Bytes>, d': Directory, names': seq<Bytes>)
    requires Flat(d) && Flat(d') && IsStreamInOrder(s, d, names) && IsStreamInOrder(s, d', names')
    ensures FilesOf(d, names) == FilesOf(d', names')
  {
    DirectoryRoundTrip(s, d, names);
    DirectoryRoundTrip(s, d', names');
  }

  lemma SameDirectory(d: Directory, names: seq<Bytes>, d': Directory, names': seq<Bytes>)
    requires Lists(names, d) && Lists(names', d')
    requires (forall i :: 0 <= i < |names| ==> names[i] in d) && (forall i :: 0 <= i < |names'| ==> names'[i] in d')
    requires FilesOf(d, names) == FilesOf(d', names')
    ensures d == d'
  {
    SubDirectory(d, names, d', names');
    SubDirectory(d', names', d, names);
  }

  /** Two directories with the same stream are the same directory. */
  lemma StreamIsUnambiguous(s: Bytes, d: Directory, d': Directory)
    requires Flat(d) && Flat(d') && IsStreamOf(s, d) && IsStreamOf(s, d')
    ensures d == d'
  {
    var names :| IsStreamInOrder(s, d, names);
    var names' :| IsStreamInOrder(s, d', names');
    SameFiles(s, d, names, d', names');
    SameDirectory(d, names, d', names');
  }
}
