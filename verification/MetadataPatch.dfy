/** The JSON patch that brings a runner pod's labels and annotations in line with its VirtualMachine. */
module MetadataPatch {
  import opened Api
  import Text

  // ---- paths into a JSON document (RFC 6901) ----------------------------------------------------

  /** Escaping of one reference token: a single pass over the key. */
  function PathEscape(s: string): (r: string) {
    if s == [] then []
    else (if s[0] == '~' then "~0" else if s[0] == '/' then "~1" else [s[0]]) + PathEscape(s[1..])
  }

  /** Every occurrence of `~` followed by `digit` becomes `c`. */
  function Unescaped(s: string, digit: char, c: char): (r: string) {
    if s == [] then []
    else if |s| >= 2 && s[0] == '~' && s[1] == digit then [c] + Unescaped(s[2..], digit, c)
    else [s[0]] + Unescaped(s[1..], digit, c)
  }

  /** Evaluation of a reference token, section 4 of RFC 6901: first `~1`, then `~0`. */
  function PathUnescape(s: string): (r: string) {
    Unescaped(Unescaped(s, '1', '/'), '0', '~')
  }

  function TildesEscaped(s: string): (r: string) {
    if s == [] then [] else (if s[0] == '~' then "~0" else [s[0]]) + TildesEscaped(s[1..])
  }

  lemma {:induction false} SlashesComeBack(s: string)
    ensures Unescaped(PathEscape(s), '1', '/') == TildesEscaped(s)
  {
    if s != [] {
      SlashesComeBack(s[1..]);
      var e, rest := PathEscape(s), PathEscape(s[1..]);
      if s[0] == '~' {
        assert e[1..] == "0" + rest && e[1..][1..] == rest;
        assert Unescaped(e[1..], '1', '/') == "0" + Unescaped(rest, '1', '/');
      } else if s[0] == '/' {
        assert e[2..] == rest;
      } else {
        assert e[1..] == rest;
      }
    }
  }

  lemma {:induction false} TildesComeBack(s: string)
    ensures Unescaped(TildesEscaped(s), '0', '~') == s
  {
    if s != [] {
      TildesComeBack(s[1..]);
      var e, rest := TildesEscaped(s), TildesEscaped(s[1..]);
      if s[0] == '~' {
        assert e[2..] == rest;
      } else {
        assert e[1..] == rest;
      }
    }
  }

  /** Reading back an escaped key gives the key: no two keys share a path. */
  lemma PathEscapeRoundTrip(s: string)
    ensures PathUnescape(PathEscape(s)) == s
  {
    SlashesComeBack(s);
    TildesComeBack(s);
  }

  lemma {:induction false} EscapedHasNoSlash(s: string)
    ensures '/' !in PathEscape(s)
  {
    if s != [] {
      EscapedHasNoSlash(s[1..]);
    }
  }

  function PathTo(field: string, key: string): (path: string) {
    "/metadata/" + field + "/" + PathEscape(key)
  }

  /** What a path points to: an entry of one of the metadata maps, if it has that form. */
  function Target(path: string): (t: Option<(string, string)>) {
    var parts := Text.Split(path, '/');
    if |parts| == 4 && parts[0] == "" && PathUnescape(parts[1]) == "metadata"
    then Some((PathUnescape(parts[2]), PathUnescape(parts[3])))
    else None
  }

  lemma {:induction false} UnescapedWithout(s: string, digit: char, c: char)
    requires '~' !in s
    ensures Unescaped(s, digit, c) == s
  {
    if s != [] {
      UnescapedWithout(s[1..], digit, c);
    }
  }

  /** A field name is a plain member name: nothing in it needs escaping. */
  predicate PlainName(field: string) {
    '/' !in field && '~' !in field
  }

  lemma PathSplits(root: string, field: string, key: string)
    requires PlainName(root) && PlainName(field)
    ensures Text.Split("/" + root + "/" + field + "/" + PathEscape(key), '/') == ["", root, field, PathEscape(key)]
  {
    EscapedHasNoSlash(key);
    FourParts("", root, field, PathEscape(key), "/");
    assert "" + "/" + (root + "/" + (field + "/" + PathEscape(key))) == "/" + root + "/" + field + "/" + PathEscape(key);
  }

  lemma FourParts(a: string, b: string, c: string, d: string, sep: string)
    requires '/' !in a && '/' !in b && '/' !in c && '/' !in d && sep == ['/']
    ensures Text.Split(a + sep + (b + sep + (c + sep + d)), '/') == [a, b, c, d]
  {
    Text.SplitWithout(d, '/');
    Text.SplitFirst(c, d, '/');
    Text.SplitFirst(b, c + sep + d, '/');
    Text.SplitFirst(a, b + sep + (c + sep + d), '/');
  }

  lemma PlainIsKept(name: string)
    requires PlainName(name)
    ensures PathUnescape(name) == name
  {
    UnescapedWithout(name, '1', '/');
    UnescapedWithout(name, '0', '~');
  }

  lemma PathLeadsBack(field: string, key: string)
    requires PlainName(field)
    ensures Target(PathTo(field, key)) == Some((field, key))
  {
    PathFromRoot("metadata", field, key);
  }

  lemma PathFromRoot(root: string, field: string, key: string)
    requires root == "metadata" && PlainName(root) && PlainName(field)
    ensures Target(PathTo(field, key)) == Some((field, key))
  {
    PathSplits(root, field, key);
    assert "/" + root + "/" + field + "/" + PathEscape(key) == PathTo(field, key);
    PlainIsKept(root);
    PlainIsKept(field);
    PathEscapeRoundTrip(key);
  }

  // ---- applying a patch -------------------------------------------------------------------------

  /** The metadata of a pod: its maps by member name. An absent map has no entry. */
  type Metadata = map<string, map<string, string>>

  datatype Operation = Add(path: string, value: string) | Remove(path: string)

  /**
   * Sections 4.1 and 4.2 of RFC 6902: `add` sets a member of an object that exists, `remove` needs the
   * member itself to exist. A failing operation fails the whole patch.
   */
  function ApplyOne(doc: Metadata, op: Operation): (r: Option<Metadata>) {
    match Target(op.path)
    case None => None
    case Some((field, key)) =>
      if field !in doc then None
      else match op
        case Add(_, value) => Some(doc[field := doc[field][key := value]])
        case Remove(_) => if key in doc[field] then Some(doc[field := doc[field] - {key}]) else None
  }

  function ApplyAll(doc: Metadata, ops: seq<Operation>): (r: Option<Metadata>)
    decreases |ops|
  {
    if ops == [] then Some(doc)
    else match ApplyOne(doc, ops[0])
      case None => None
      case Some(doc') => ApplyAll(doc', ops[1..])
  }

  lemma {:induction false} ApplyConcat(doc: Metadata, a: seq<Operation>, b: seq<Operation>)
    ensures ApplyAll(doc, a + b) ==
      match ApplyAll(doc, a) { case None => None case Some(mid) => ApplyAll(mid, b) }
    decreases |a|
  {
    if a == [] {
      assert a + b == b;
    } else {
      assert (a + b)[1..] == a[1..] + b;
      match ApplyOne(doc, a[0])
      case None =>
      case Some(doc') => ApplyConcat(doc', a[1..], b);
    }
  }

  // ---- building the patch -----------------------------------------------------------------------

  /** What is wanted of one metadata map: the expected entries, and keys of others' that may stay. */
  datatype Spec = Spec(field: string, expected: map<string, string>, ignoreExtra: set<string>)

  /** The entries the pod has; a missing map reads as an empty one. */
  function Actual(doc: Metadata, field: string): (m: map<string, string>) {
    if field in doc then doc[field] else map[]
  }

  function Outdated(expected: map<string, string>, actual: map<string, string>): (keys: set<string>) {
    set k | k in expected && !(k in actual && actual[k] == expected[k])
  }

  function Unexpected(spec: Spec, actual: map<string, string>): (keys: set<string>) {
    set k | k in actual && k !in spec.expected && k !in spec.ignoreExtra
  }

  function Adds(field: string, keys: seq<string>, values: map<string, string>): (ops: seq<Operation>)
    requires forall k :: k in keys ==> k in values
    ensures |ops| == |keys|
  {
    if keys == [] then [] else [Add(PathTo(field, keys[0]), values[keys[0]])] + Adds(field, keys[1..], values)
  }

  function Removes(field: string, keys: seq<string>): (ops: seq<Operation>)
    ensures |ops| == |keys|
  {
    if keys == [] then [] else [Remove(PathTo(field, keys[0]))] + Removes(field, keys[1..])
  }

  /** `keys` lists the set, each key once, in whatever order iteration gave. */
  ghost predicate Lists(keys: seq<string>, s: set<string>) {
    && (forall k :: k in keys <==> k in s)
    && (forall i, j :: 0 <= i < j < |keys| ==> keys[i] != keys[j])
  }

  lemma ListsNothing(keys: seq<string>, s: set<string>)
    requires Lists(keys, s)
    ensures keys == [] <==> s == {}
  {
    if keys != [] {
      assert keys[0] in s;
    }
    assert forall k :: k in s ==> k in keys;
  }

  ghost predicate MadeFrom(doc: Metadata, spec: Spec, ops: seq<Operation>, add: seq<string>, remove: seq<string>) {
    && Lists(add, Outdated(spec.expected, Actual(doc, spec.field)))
    && Lists(remove, Unexpected(spec, Actual(doc, spec.field)))
    && ops == Adds(spec.field, add, spec.expected) + Removes(spec.field, remove)
  }

  ghost predicate MadeForSpec(doc: Metadata, spec: Spec, ops: seq<Operation>) {
    exists add, remove :: MadeFrom(doc, spec, ops, add, remove)
  }

  /** `ops` is a patch made for all specs in turn, the last made from `ops[cut..]`. */
  ghost predicate MadeUpTo(doc: Metadata, specs: seq<Spec>, ops: seq<Operation>, cut: nat)
    requires specs != []
    decreases |specs|, 0
  {
    && cut <= |ops|
    && MadeForAll(doc, specs[..|specs| - 1], ops[..cut])
    && MadeForSpec(doc, specs[|specs| - 1], ops[cut..])
  }

  ghost predicate MadeForAll(doc: Metadata, specs: seq<Spec>, ops: seq<Operation>)
    decreases |specs|, 1
  {
    if specs == [] then ops == [] else exists cut: nat :: MadeUpTo(doc, specs, ops, cut)
  }

  lemma {:induction false} AddsOneMore(field: string, keys: seq<string>, key: string, values: map<string, string>)
    requires key in values && forall k :: k in keys ==> k in values
    ensures Adds(field, keys + [key], values) == Adds(field, keys, values) + [Add(PathTo(field, key), values[key])]
  {
    if keys == [] {
      assert [key][1..] == [];
    } else {
      AddsOneMore(field, keys[1..], key, values);
      assert (keys + [key])[1..] == keys[1..] + [key];
    }
  }

  lemma {:induction false} RemovesOneMore(field: string, keys: seq<string>, key: string)
    ensures Removes(field, keys + [key]) == Removes(field, keys) + [Remove(PathTo(field, key))]
  {
    if keys == [] {
      assert [key][1..] == [];
    } else {
      RemovesOneMore(field, keys[1..], key);
      assert (keys + [key])[1..] == keys[1..] + [key];
    }
  }

  /** Operations that add or correct the expected entries, in the order the map happens to be walked. */
  method AddExpected(field: string, expected: map<string, string>, actual: map<string, string>)
    returns (ops: seq<Operation>)
    ensures exists keys :: Lists(keys, Outdated(expected, actual)) && ops == Adds(field, keys, expected)
  {
    ops := [];
    ghost var keys := [];
    var left := expected.Keys;
    while left != {}
      invariant left <= expected.Keys
      invariant Lists(keys, Outdated(expected, actual) - left)
      invariant ops == Adds(field, keys, expected)
      decreases |left|
    {
      var k :| k in left;
      if k !in actual || expected[k] != actual[k] {
        ops := ops + [Add(PathTo(field, k), expected[k])];
        AddsOneMore(field, keys, k, expected);
        keys := keys + [k];
      }
      left := left - {k};
    }
    assert Outdated(expected, actual) - left == Outdated(expected, actual);
  }

  /** Operations that remove the entries nobody expects. */
  method RemoveUnexpected(spec: Spec, actual: map<string, string>) returns (ops: seq<Operation>, removed: seq<string>)
    ensures Lists(removed, Unexpected(spec, actual)) && ops == Removes(spec.field, removed)
  {
    ops, removed := [], [];
    var left := actual.Keys;
    while left != {}
      invariant left <= actual.Keys
      invariant Lists(removed, Unexpected(spec, actual) - left)
      invariant ops == Removes(spec.field, removed)
      decreases |left|
    {
      var k :| k in left;
      if k !in spec.expected && k !in spec.ignoreExtra {
        RemovesOneMore(spec.field, removed, k);
        removed := removed + [k];
        ops := ops + [Remove(PathTo(spec.field, k))];
      }
      left := left - {k};
    }
    assert Unexpected(spec, actual) - left == Unexpected(spec, actual);
  }

  lemma MadeOneMore(doc: Metadata, specs: seq<Spec>, i: nat, before: seq<Operation>, made: seq<Operation>)
    requires i < |specs| && MadeForAll(doc, specs[..i], before) && MadeForSpec(doc, specs[i], made)
    ensures MadeForAll(doc, specs[..i + 1], before + made)
  {
    var all, upTo, cut := before + made, specs[..i + 1], |before|;
    assert upTo[..i] == specs[..i] && upTo[i] == specs[i];
    assert all[..cut] == before && all[cut..] == made;
    assert MadeUpTo(doc, upTo, all, cut);
  }

  lemma OneMoreSpec(doc: Metadata, specs: seq<Spec>, i: nat, before: seq<Operation>, add: seq<Operation>,
                    remove: seq<Operation>, removed: seq<string>)
    requires i < |specs| && MadeForAll(doc, specs[..i], before)
    requires exists keys :: Lists(keys, Outdated(specs[i].expected, Actual(doc, specs[i].field)))
                         && add == Adds(specs[i].field, keys, specs[i].expected)
    requires Lists(removed, Unexpected(specs[i], Actual(doc, specs[i].field))) && remove == Removes(specs[i].field, removed)
    ensures MadeForAll(doc, specs[..i + 1], before + add + remove)
  {
    var keys :| Lists(keys, Outdated(specs[i].expected, Actual(doc, specs[i].field)))
             && add == Adds(specs[i].field, keys, specs[i].expected);
    assert MadeFrom(doc, specs[i], add + remove, keys, removed);
    MadeOneMore(doc, specs, i, before, add + remove);
    assert before + (add + remove) == before + add + remove;
  }

  /** The whole patch, for each spec in turn; every entry's operation is computed from the same pod. */
  method BuildPatch(doc: Metadata, specs: seq<Spec>) returns (patches: seq<Operation>)
    ensures MadeForAll(doc, specs, patches)
  {
    patches := [];
    for i := 0 to |specs|
      invariant MadeForAll(doc, specs[..i], patches)
    {
      var actual := if specs[i].field in doc then doc[specs[i].field] else map[];
      var add := AddExpected(specs[i].field, specs[i].expected, actual);
      var remove, removed := RemoveUnexpected(specs[i], actual);
      OneMoreSpec(doc, specs, i, patches, add, remove, removed);
      patches := patches + add;
      patches := patches + remove;
    }
    assert specs[..|specs|] == specs;
  }

  // ---- what the patch does ----------------------------------------------------------------------

  /** Expected entries, and the ignored ones the pod already had. */
  function Wanted(spec: Spec, actual: map<string, string>): (m: map<string, string>) {
    map k | k in spec.expected.Keys + actual.Keys * spec.ignoreExtra ::
      if k in spec.expected then spec.expected[k] else actual[k]
  }

  function Overlaid(m: map<string, string>, keys: seq<string>, values: map<string, string>): (m': map<string, string>)
    requires forall k :: k in keys ==> k in values
  {
    map k | k in m.Keys + (set x | x in keys) :: if k in keys then values[k] else m[k]
  }

  lemma OneApplies(doc: Metadata, field: string, key: string, value: string)
    requires PlainName(field) && field in doc
    ensures ApplyOne(doc, Add(PathTo(field, key), value)) == Some(doc[field := doc[field][key := value]])
    ensures key in doc[field] ==> ApplyOne(doc, Remove(PathTo(field, key))) == Some(doc[field := doc[field] - {key}])
  {
    PathLeadsBack(field, key);
  }

  lemma OverlaidFirst(m: map<string, string>, keys: seq<string>, values: map<string, string>)
    requires keys != [] && forall k :: k in keys ==> k in values
    ensures Overlaid(m[keys[0] := values[keys[0]]], keys[1..], values) == Overlaid(m, keys, values)
  {
    var m' := m[keys[0] := values[keys[0]]];
    assert keys == [keys[0]] + keys[1..];
    assert forall k :: k in keys <==> k == keys[0] || k in keys[1..];
    assert Overlaid(m', keys[1..], values).Keys == Overlaid(m, keys, values).Keys;
  }

  lemma {:induction false} AddsApply(doc: Metadata, field: string, keys: seq<string>, values: map<string, string>)
    requires PlainName(field) && field in doc && forall k :: k in keys ==> k in values
    ensures ApplyAll(doc, Adds(field, keys, values)) == Some(doc[field := Overlaid(doc[field], keys, values)])
    decreases |keys|
  {
    if keys == [] {
      assert Overlaid(doc[field], keys, values) == doc[field];
      assert doc[field := doc[field]] == doc;
    } else {
      var k := keys[0];
      OneApplies(doc, field, k, values[k]);
      var doc' := doc[field := doc[field][k := values[k]]];
      AddsApply(doc', field, keys[1..], values);
      OverlaidFirst(doc[field], keys, values);
      var m := Overlaid(doc[field], keys, values);
      assert doc'[field := m] == doc[field := m];
    }
  }

  lemma {:induction false} RemovesApply(doc: Metadata, field: string, keys: seq<string>)
    requires PlainName(field) && field in doc
    requires forall k :: k in keys ==> k in doc[field]
    requires forall i, j :: 0 <= i < j < |keys| ==> keys[i] != keys[j]
    ensures ApplyAll(doc, Removes(field, keys)) == Some(doc[field := doc[field] - (set k | k in keys)])
    decreases |keys|
  {
    if keys == [] {
      assert doc[field] - (set k | k in keys) == doc[field];
      assert doc[field := doc[field]] == doc;
    } else {
      var k := keys[0];
      OneApplies(doc, field, k, "");
      var doc' := doc[field := doc[field] - {k}];
      RemovesApply(doc', field, keys[1..]);
      WithoutFirst(doc[field], keys);
      SetAgain(doc, field, doc'[field], doc[field] - (set x | x in keys));
    }
  }

  lemma WithoutFirst(m: map<string, string>, keys: seq<string>)
    requires keys != []
    ensures (m - {keys[0]}) - (set x | x in keys[1..]) == m - (set x | x in keys)
  {
    assert keys == [keys[0]] + keys[1..];
    assert {keys[0]} + (set x | x in keys[1..]) == (set x | x in keys);
  }

  lemma SetAgain(doc: Metadata, field: string, m: map<string, string>, m': map<string, string>)
    ensures doc[field := m][field := m'] == doc[field := m']
  {
  }

  lemma OverlayThenRemove(spec: Spec, actual: map<string, string>, add: seq<string>, remove: seq<string>)
    requires Lists(add, Outdated(spec.expected, actual)) && Lists(remove, Unexpected(spec, actual))
    ensures forall k :: k in remove ==> k in Overlaid(actual, add, spec.expected)
    ensures Overlaid(actual, add, spec.expected) - (set k | k in remove) == Wanted(spec, actual)
  {
    var m := Overlaid(actual, add, spec.expected) - (set k | k in remove);
    var w := Wanted(spec, actual);
    assert forall k :: k in m <==> k in w;
    assert forall k :: k in m ==> m[k] == w[k];
  }

  /** A map that is not there can only be left alone. */
  predicate Patchable(doc: Metadata, spec: Spec) {
    spec.field in doc || spec.expected == map[]
  }

  function AfterSpec(doc: Metadata, spec: Spec): (doc': Metadata) {
    if spec.field in doc then doc[spec.field := Wanted(spec, doc[spec.field])] else doc
  }

  lemma PresentMap(doc: Metadata, spec: Spec, add: seq<string>, remove: seq<string>)
    requires PlainName(spec.field) && spec.field in doc
    requires Lists(add, Outdated(spec.expected, doc[spec.field])) && Lists(remove, Unexpected(spec, doc[spec.field]))
    ensures ApplyAll(doc, Adds(spec.field, add, spec.expected) + Removes(spec.field, remove))
         == Some(doc[spec.field := Wanted(spec, doc[spec.field])])
  {
    var f, actual := spec.field, doc[spec.field];
    ApplyConcat(doc, Adds(f, add, spec.expected), Removes(f, remove));
    AddsApply(doc, f, add, spec.expected);
    OverlayThenRemove(spec, actual, add, remove);
    var mid := doc[f := Overlaid(actual, add, spec.expected)];
    RemovesApply(mid, f, remove);
    assert mid[f := Wanted(spec, actual)] == doc[f := Wanted(spec, actual)];
  }

  lemma MissingMap(doc: Metadata, spec: Spec, add: seq<string>, remove: seq<string>)
    requires PlainName(spec.field) && spec.field !in doc
    requires Lists(add, Outdated(spec.expected, map[])) && Lists(remove, Unexpected(spec, map[]))
    ensures remove == []
    ensures ApplyAll(doc, Adds(spec.field, add, spec.expected)) == if spec.expected == map[] then Some(doc) else None
  {
    ListsNothing(add, Outdated(spec.expected, map[]));
    ListsNothing(remove, Unexpected(spec, map[]));
    if spec.expected != map[] {
      var k :| k in spec.expected;
      assert k in Outdated(spec.expected, map[]);
      PathLeadsBack(spec.field, add[0]);
    }
  }

  lemma SpecApplies(doc: Metadata, spec: Spec, ops: seq<Operation>)
    requires PlainName(spec.field) && MadeForSpec(doc, spec, ops)
    ensures ApplyAll(doc, ops) == if Patchable(doc, spec) then Some(AfterSpec(doc, spec)) else None
  {
    var add, remove :| MadeFrom(doc, spec, ops, add, remove);
    if spec.field in doc {
      PresentMap(doc, spec, add, remove);
    } else {
      MissingMap(doc, spec, add, remove);
      assert ops == Adds(spec.field, add, spec.expected);
    }
  }

  // ---- the whole patch --------------------------------------------------------------------------

  ghost predicate WellFormed(specs: seq<Spec>) {
    && (forall i :: 0 <= i < |specs| ==> PlainName(specs[i].field))
    && (forall i, j :: 0 <= i < j < |specs| ==> specs[i].field != specs[j].field)
  }

  ghost predicate AllPatchable(doc: Metadata, specs: seq<Spec>) {
    forall i :: 0 <= i < |specs| ==> Patchable(doc, specs[i])
  }

  function AfterAll(doc: Metadata, specs: seq<Spec>): (doc': Metadata) {
    if specs == [] then doc else AfterSpec(AfterAll(doc, specs[..|specs| - 1]), specs[|specs| - 1])
  }

  /** Each field holds what its spec wants of the original; every other field is as it was. */
  lemma {:induction false} AfterAllFacts(doc: Metadata, specs: seq<Spec>)
    requires WellFormed(specs)
    ensures AfterAll(doc, specs).Keys == doc.Keys
    ensures forall i :: 0 <= i < |specs| && specs[i].field in doc ==>
      AfterAll(doc, specs)[specs[i].field] == Wanted(specs[i], doc[specs[i].field])
    ensures forall f :: f in doc && (forall i :: 0 <= i < |specs| ==> specs[i].field != f) ==>
      AfterAll(doc, specs)[f] == doc[f]
  {
    if specs != [] {
      var front := specs[..|specs| - 1];
      AfterAllFacts(doc, front);
      assert forall i :: 0 <= i < |front| ==> front[i].field != specs[|specs| - 1].field;
    }
  }

  lemma MadeElsewhere(doc: Metadata, doc': Metadata, spec: Spec, ops: seq<Operation>)
    requires MadeForSpec(doc, spec, ops) && Actual(doc, spec.field) == Actual(doc', spec.field)
    ensures MadeForSpec(doc', spec, ops)
  {
    var add, remove :| MadeFrom(doc, spec, ops, add, remove);
    assert MadeFrom(doc', spec, ops, add, remove);
  }

  /**
   * Whatever the iteration order, the patch applies if and only if every map that is missing from the pod
   * has no expected entries, and then each map holds exactly the expected entries and the ignored ones it
   * had, with the rest of the metadata as before.
   */
  lemma {:induction false} PatchReachesWanted(doc: Metadata, specs: seq<Spec>, patches: seq<Operation>)
    requires WellFormed(specs) && MadeForAll(doc, specs, patches)
    ensures ApplyAll(doc, patches) == if AllPatchable(doc, specs) then Some(AfterAll(doc, specs)) else None
    decreases |specs|
  {
    if specs != [] {
      var n := |specs| - 1;
      var cut: nat :| MadeUpTo(doc, specs, patches, cut);
      var front, last := patches[..cut], patches[cut..];
      PatchReachesWanted(doc, specs[..n], front);
      assert patches == front + last;
      BothPartsApply(doc, specs, front, last);
    }
  }

  lemma BothPartsApply(doc: Metadata, specs: seq<Spec>, front: seq<Operation>, last: seq<Operation>)
    requires WellFormed(specs) && specs != [] && MadeForSpec(doc, specs[|specs| - 1], last)
    requires var before := specs[..|specs| - 1];
      ApplyAll(doc, front) == if AllPatchable(doc, before) then Some(AfterAll(doc, before)) else None
    ensures ApplyAll(doc, front + last) == if AllPatchable(doc, specs) then Some(AfterAll(doc, specs)) else None
  {
    ApplyConcat(doc, front, last);
    LastIsPatchable(doc, specs);
    LastSpecApplies(doc, specs, last);
  }

  lemma LastIsPatchable(doc: Metadata, specs: seq<Spec>)
    requires specs != []
    ensures AllPatchable(doc, specs) <==>
      AllPatchable(doc, specs[..|specs| - 1]) && Patchable(doc, specs[|specs| - 1])
  {
  }

  lemma LastSpecApplies(doc: Metadata, specs: seq<Spec>, last: seq<Operation>)
    requires WellFormed(specs) && specs != [] && MadeForSpec(doc, specs[|specs| - 1], last)
    ensures var mid := AfterAll(doc, specs[..|specs| - 1]);
      ApplyAll(mid, last) == if Patchable(doc, specs[|specs| - 1]) then Some(AfterAll(doc, specs)) else None
  {
    var n := |specs| - 1;
    var mid := AfterAll(doc, specs[..n]);
    AfterAllFacts(doc, specs[..n]);
    assert forall i :: 0 <= i < n ==> specs[..n][i].field != specs[n].field;
    MadeElsewhere(doc, mid, specs[n], last);
    SpecApplies(mid, specs[n], last);
  }

  lemma AlreadyWanted(spec: Spec, actual: map<string, string>)
    ensures actual == Wanted(spec, actual) <==>
      Outdated(spec.expected, actual) == {} && Unexpected(spec, actual) == {}
  {
    var w, o, u := Wanted(spec, actual), Outdated(spec.expected, actual), Unexpected(spec, actual);
    assert forall k :: k in o ==> k in w && !(k in actual && actual[k] == w[k]);
    assert forall k :: k in u ==> k in actual && k !in w;
    if o == {} && u == {} {
      forall k ensures k in w <==> k in actual {
        assert k !in o && k !in u;
      }
      forall k | k in w ensures w[k] == actual[k] {
        assert k !in o;
      }
    }
  }

  predicate UpToDate(doc: Metadata, spec: Spec) {
    Actual(doc, spec.field) == Wanted(spec, Actual(doc, spec.field))
  }

  lemma NothingToDo(doc: Metadata, spec: Spec, ops: seq<Operation>)
    requires MadeForSpec(doc, spec, ops)
    ensures ops == [] <==> UpToDate(doc, spec)
  {
    var add, remove :| MadeFrom(doc, spec, ops, add, remove);
    var actual := Actual(doc, spec.field);
    ListsNothing(add, Outdated(spec.expected, actual));
    ListsNothing(remove, Unexpected(spec, actual));
    AlreadyWanted(spec, actual);
  }

  /** No patch is sent exactly when every map is already as wanted. */
  lemma {:induction false} EmptyPatchIff(doc: Metadata, specs: seq<Spec>, patches: seq<Operation>)
    requires MadeForAll(doc, specs, patches)
    ensures patches == [] <==> forall i :: 0 <= i < |specs| ==> UpToDate(doc, specs[i])
    decreases |specs|
  {
    if specs != [] {
      var n := |specs| - 1;
      var cut: nat :| MadeUpTo(doc, specs, patches, cut);
      EmptyPatchIff(doc, specs[..n], patches[..cut]);
      NothingToDo(doc, specs[n], patches[cut..]);
      assert patches == patches[..cut] + patches[cut..];
    }
  }

  lemma WantedIsStable(spec: Spec, actual: map<string, string>)
    ensures Wanted(spec, Wanted(spec, actual)) == Wanted(spec, actual)
  {
    var w := Wanted(spec, actual);
    assert forall k :: k in Wanted(spec, w) <==> k in w;
  }

  /** Once a patch has applied, the next pass finds nothing to do. */
  lemma SecondPassIsEmpty(doc: Metadata, specs: seq<Spec>, patches: seq<Operation>, again: seq<Operation>)
    requires WellFormed(specs) && MadeForAll(doc, specs, patches) && ApplyAll(doc, patches).Some?
    requires MadeForAll(ApplyAll(doc, patches).value, specs, again)
    ensures again == []
  {
    PatchReachesWanted(doc, specs, patches);
    var doc' := AfterAll(doc, specs);
    AfterAllFacts(doc, specs);
    forall i | 0 <= i < |specs|
      ensures UpToDate(doc', specs[i])
    {
      assert Patchable(doc, specs[i]);
      if specs[i].field in doc {
        WantedIsStable(specs[i], doc[specs[i].field]);
      } else {
        assert Wanted(specs[i], map[]) == map[];
      }
    }
    EmptyPatchIff(doc', specs, again);
  }

  /** The specs of a runner pod: labels, and annotations beside those of the network plugins. */
  function PodSpecs(labels: map<string, string>, annotations: map<string, string>): (specs: seq<Spec>) {
    [Spec("labels", labels, {}),
     Spec("annotations", annotations,
          {"k8s.v1.cni.cncf.io/networks", "k8s.v1.cni.cncf.io/network-status", "k8s.v1.cni.cncf.io/networks-status"})]
  }

  lemma PodSpecsAreWellFormed(labels: map<string, string>, annotations: map<string, string>)
    ensures WellFormed(PodSpecs(labels, annotations))
  {
    assert "labels"[0] == 'l' && "annotations"[0] == 'a';
  }
}
