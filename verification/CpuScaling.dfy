/** Bringing the number of online CPUs to a target, one write to sysfs at a time. */
module CpuScaling {
  import opened Api
  import opened CpuList

  datatype Status = Absent | Offline | Online

  /** The CPUs with status `v`, in ascending order. */
  function Listing(cpus: seq<Status>, v: Status): (ids: seq<int>) {
    if cpus == [] then []
    else
      var n := |cpus| - 1;
      Listing(cpus[..n], v) + (if cpus[n] == v then [n] else [])
  }

  predicate Ascending(ids: seq<int>) {
    forall i, j :: 0 <= i < j < |ids| ==> ids[i] < ids[j]
  }

  lemma {:induction false} ListingFacts(cpus: seq<Status>, v: Status)
    ensures Ascending(Listing(cpus, v))
    ensures forall i :: 0 <= i < |Listing(cpus, v)| ==>
      0 <= Listing(cpus, v)[i] < |cpus| && cpus[Listing(cpus, v)[i]] == v
    ensures forall id :: 0 <= id < |cpus| && cpus[id] == v ==> id in Listing(cpus, v)
  {
    if cpus != [] {
      var n := |cpus| - 1;
      ListingFacts(cpus[..n], v);
      var front, all := Listing(cpus[..n], v), Listing(cpus, v);
      assert all == front + if cpus[n] == v then [n] else [];
    }
  }

  // ---- the files of sysfs -----------------------------------------------------------------------

  /** The last range grows by one, or a new one begins. */
  function WithOneMore(front: seq<Range>, id: nat): (ranges: seq<Range>) {
    var last := |front| - 1;
    if front != [] && front[last].hi + 1 == id then front[..last] + [Range(front[last].lo, id)]
    else front + [Range(id, id)]
  }

  lemma ExpandOneMore(front: seq<Range>, id: nat)
    requires id < IntLimit() && forall i :: 0 <= i < |front| ==> InRange(front[i])
    ensures Expand(WithOneMore(front, id)) == Expand(front) + [id]
    ensures forall i :: 0 <= i < |WithOneMore(front, id)| ==> InRange(WithOneMore(front, id)[i])
  {
    var ranges, last := WithOneMore(front, id), |front| - 1;
    if front != [] && front[last].hi + 1 == id {
      assert ranges[..last] == front[..last];
      assert Span(front[last].lo, id) == Span(front[last].lo, id - 1) + [id];
    } else {
      assert ranges[..|front|] == front;
      assert Span(id, id) == Span(id, id - 1) + [id];
    }
  }

  /** Consecutive ids drawn together. */
  function Runs(ids: seq<int>): (ranges: seq<Range>)
    requires forall i :: 0 <= i < |ids| ==> 0 <= ids[i]
    ensures ids == [] <==> ranges == []
  {
    if ids == [] then [] else WithOneMore(Runs(ids[..|ids| - 1]), ids[|ids| - 1])
  }

  lemma {:induction false} RunsExpand(ids: seq<int>)
    requires Ascending(ids) && forall i :: 0 <= i < |ids| ==> 0 <= ids[i] < IntLimit()
    ensures Expand(Runs(ids)) == ids
    ensures forall i :: 0 <= i < |Runs(ids)| ==> InRange(Runs(ids)[i])
  {
    if ids != [] {
      var n := |ids| - 1;
      RunsExpand(ids[..n]);
      ExpandOneMore(Runs(ids[..n]), ids[n]);
      assert ids == ids[..n] + [ids[n]];
    }
  }

  /** The contents of the file that lists CPUs with status `v`. */
  function FileText(cpus: seq<Status>, v: Status): (text: string) {
    ListingFacts(cpus, v);
    ListText(Runs(Listing(cpus, v))) + "\n"
  }

  /** What the scaler gets when it reads a list: nothing if the read fails or no CPU is in it. */
  function Reading(cpus: seq<Status>, v: Status, readable: bool): (r: Option<seq<int>>) {
    if readable && Listing(cpus, v) != [] then Some(Listing(cpus, v)) else None
  }

  lemma RunsAreRead(text: string, ids: seq<int>, after: string)
    requires ids != [] && Ascending(ids) && forall i :: 0 <= i < |ids| ==> 0 <= ids[i] < IntLimit()
    requires Blank(after) && text == ListText(Runs(ids)) + after
    ensures Parse(text) == Some(ids)
  {
    RunsExpand(ids);
    ListRoundTrip(text, Runs(ids), after);
  }

  /** Parsing the file gives the listing, unless it is empty: that is a parse error. */
  lemma FileRoundTrip(cpus: seq<Status>, v: Status)
    requires |cpus| <= IntLimit()
    ensures Parse(FileText(cpus, v)) == Reading(cpus, v, true)
  {
    if Listing(cpus, v) == [] {
      BlankFails(FileText(cpus, v));
    } else {
      ListingFacts(cpus, v);
      RunsAreRead(FileText(cpus, v), Listing(cpus, v), "\n");
    }
  }

  // ---- switching CPUs ---------------------------------------------------------------------------

  /** The write succeeds for a CPU that is there, unless the kernel refuses it. */
  predicate Writable(cpus: seq<Status>, refused: set<int>, id: int) {
    0 <= id < |cpus| && cpus[id] != Absent && id !in refused
  }

  /** The state and outcome of switching `count` of the candidates to `v`, CPU 0 being passed over. */
  function Switched(cpus: seq<Status>, refused: set<int>, v: Status, count: int, candidates: seq<int>)
    : (r: (seq<Status>, bool))
    ensures |r.0| == |cpus|
    decreases |candidates|
  {
    if candidates == [] then (cpus, false)
    else if candidates[0] == 0 then Switched(cpus, refused, v, count, candidates[1..])
    else if !Writable(cpus, refused, candidates[0]) then (cpus, false)
    else
      var cpus' := cpus[candidates[0] := v];
      if count - 1 <= 0 then (cpus', true) else Switched(cpus', refused, v, count - 1, candidates[1..])
  }

  /** The machine, and the scaler that acts on it. `ok` is a nil error throughout. */
  class CpuScaler {
    const cpus: array<Status>
    const refused: set<int>
    const onlineReadable: bool
    const offlineReadable: bool

    constructor (cpus: array<Status>, refused: set<int>, onlineReadable: bool, offlineReadable: bool)
      ensures this.cpus == cpus && this.refused == refused
      ensures this.onlineReadable == onlineReadable && this.offlineReadable == offlineReadable
    {
      this.cpus, this.refused := cpus, refused;
      this.onlineReadable, this.offlineReadable := onlineReadable, offlineReadable;
    }

    method SetState(id: int, v: Status) returns (ok: bool)
      modifies cpus
      ensures ok == old(Writable(cpus[..], refused, id))
      ensures cpus[..] == if ok then old(cpus[..])[id := v] else old(cpus[..])
    {
      ok := 0 <= id < cpus.Length && cpus[id] != Absent && id !in refused;
      if ok {
        cpus[id] := v;
      }
    }

    method OnlineCPUs() returns (r: Option<seq<int>>)
      requires cpus.Length <= IntLimit()
      ensures r == Reading(cpus[..], Online, onlineReadable)
    {
      if !onlineReadable {
        return None;
      }
      FileRoundTrip(cpus[..], Online);
      r := ParseMultipleCPURange(FileText(cpus[..], Online));
    }

    method OfflineCPUs() returns (r: Option<seq<int>>)
      requires cpus.Length <= IntLimit()
      ensures r == Reading(cpus[..], Offline, offlineReadable)
    {
      if !offlineReadable {
        return None;
      }
      FileRoundTrip(cpus[..], Offline);
      r := ParseMultipleCPURange(FileText(cpus[..], Offline));
    }

    method SetStateTo(v: Status, count: int, candidates: seq<int>) returns (ok: bool)
      modifies cpus
      ensures (cpus[..], ok) == Switched(old(cpus[..]), refused, v, count, candidates)
    {
      var left := count;
      for i := 0 to |candidates|
        invariant Switched(cpus[..], refused, v, left, candidates[i..])
               == Switched(old(cpus[..]), refused, v, count, candidates)
      {
        assert candidates[i..][1..] == candidates[i + 1..];
        if candidates[i] == 0 {
          continue;
        }
        var wrote := SetState(candidates[i], v);
        if !wrote {
          return false;
        }
        left := left - 1;
        if left <= 0 {
          return true;
        }
      }
      return false;
    }

    method ReconcileOnlineCPU(target: int) returns (ok: bool)
      requires cpus.Length <= IntLimit()
      modifies cpus
      ensures (cpus[..], ok) == Reconciled(old(cpus[..]), refused, onlineReadable, offlineReadable, target)
    {
      var online := OnlineCPUs();
      if online.None? {
        return false;
      }
      var n := |online.value|;
      if n == target {
        return true;
      }
      if n > target {
        var diff := n - target;
        var reversed := Reverse(online.value);
        ok := SetStateTo(Offline, diff, reversed);
      } else {
        var offline := OfflineCPUs();
        if offline.None? {
          return true;
        }
        var diff := target - n;
        ok := SetStateTo(Online, diff, offline.value);
      }
    }

    method ActiveCPUsCount() returns (n: Option<nat>)
      requires cpus.Length <= IntLimit()
      ensures n == if onlineReadable && Listing(cpus[..], Online) != [] then Some(|Listing(cpus[..], Online)|) else None
    {
      var online := OnlineCPUs();
      return if online.None? then None else Some(|online.value|);
    }
  }

  function Reversed(s: seq<int>): (r: seq<int>)
    ensures |r| == |s| && forall i :: 0 <= i < |s| ==> r[i] == s[|s| - 1 - i]
  {
    seq(|s|, i requires 0 <= i < |s| => s[|s| - 1 - i])
  }

  method Reverse(s: seq<int>) returns (r: seq<int>)
    ensures r == Reversed(s)
  {
    r := s;
    var i, j := 0, |s| - 1;
    while i < j
      invariant 0 <= i <= |s| && j == |s| - 1 - i && i <= j + 2 && |r| == |s|
      invariant forall k :: 0 <= k < i ==> r[k] == s[|s| - 1 - k] && r[|s| - 1 - k] == s[k]
      invariant forall k :: i <= k <= j ==> r[k] == s[k]
    {
      r := r[i := r[j]][j := r[i]];
      i, j := i + 1, j - 1;
    }
    assert forall k :: 0 <= k < |s| ==> r[k] == Reversed(s)[k];
  }

  /** The new state and the outcome, given what reading the two lists gave. */
  function ReconciledFrom(cpus: seq<Status>, refused: set<int>, online: Option<seq<int>>, offline: Option<seq<int>>,
                          target: int)
    : (r: (seq<Status>, bool))
    ensures |r.0| == |cpus|
  {
    if online.None? then (cpus, false)
    else if |online.value| == target then (cpus, true)
    else if |online.value| > target then
      Switched(cpus, refused, Offline, |online.value| - target, Reversed(online.value))
    else if offline.None? then (cpus, true)
    else Switched(cpus, refused, Online, target - |online.value|, offline.value)
  }

  function Reconciled(cpus: seq<Status>, refused: set<int>, onlineReadable: bool, offlineReadable: bool, target: int)
    : (r: (seq<Status>, bool))
    ensures |r.0| == |cpus|
  {
    ReconciledFrom(cpus, refused, Reading(cpus, Online, onlineReadable), Reading(cpus, Offline, offlineReadable), target)
  }

  // ---- what is achieved -------------------------------------------------------------------------

  /** Exactly the CPUs in `changed` get status `v`. */
  ghost predicate ChangedTo(cpus: seq<Status>, cpus': seq<Status>, v: Status, changed: seq<int>) {
    && |cpus'| == |cpus|
    && forall i :: 0 <= i < |cpus| ==> cpus'[i] == if i in changed then v else cpus[i]
  }

  function WithoutZero(ids: seq<int>): (r: seq<int>) {
    if ids == [] then []
    else if ids[0] == 0 then WithoutZero(ids[1..])
    else [ids[0]] + WithoutZero(ids[1..])
  }

  ghost predicate AllWritable(cpus: seq<Status>, refused: set<int>, ids: seq<int>) {
    forall i :: 0 <= i < |ids| ==> Writable(cpus, refused, ids[i])
  }

  /** When no write fails, the first `count` candidates other than CPU 0 are switched, or all if there are fewer. */
  lemma {:induction false} SwitchedFacts(cpus: seq<Status>, refused: set<int>, v: Status, count: int, candidates: seq<int>)
    requires v != Absent && count >= 1 && AllWritable(cpus, refused, WithoutZero(candidates))
    ensures var (cpus', ok) := Switched(cpus, refused, v, count, candidates);
      var usable := WithoutZero(candidates);
      && ok == (count <= |usable|)
      && ChangedTo(cpus, cpus', v, usable[..MinInt(count, |usable|)])
    decreases |candidates|
  {
    if candidates != [] && candidates[0] == 0 {
      SwitchedFacts(cpus, refused, v, count, candidates[1..]);
    } else if candidates != [] {
      var id, rest := candidates[0], WithoutZero(candidates[1..]);
      RestIsWritable(cpus, refused, v, id, rest);
      var cpus' := cpus[id := v];
      if count > 1 {
        SwitchedFacts(cpus', refused, v, count - 1, candidates[1..]);
        ChangedOneMore(cpus, Switched(cpus', refused, v, count - 1, candidates[1..]).0, v, id, rest, MinInt(count - 1, |rest|));
      } else {
        ChangedOneMore(cpus, cpus', v, id, rest, 0);
      }
    }
  }

  /**
   * Whatever is refused: success if and only if there are enough candidates other than CPU 0 and the first `count` of
   * them can be written; and then exactly those are switched.
   */
  lemma {:induction false} SwitchedIff(cpus: seq<Status>, refused: set<int>, v: Status, count: int, candidates: seq<int>)
    requires v != Absent && count >= 1
    ensures var r := Switched(cpus, refused, v, count, candidates);
      var usable := WithoutZero(candidates);
      && (r.1 <==> count <= |usable| && AllWritable(cpus, refused, usable[..count]))
      && (r.1 ==> ChangedTo(cpus, r.0, v, usable[..count]))
    decreases |candidates|
  {
    if candidates != [] && candidates[0] == 0 {
      SwitchedIff(cpus, refused, v, count, candidates[1..]);
    } else if candidates != [] {
      var id, rest := candidates[0], WithoutZero(candidates[1..]);
      FirstWritable(cpus, refused, v, id, rest, count);
      if Writable(cpus, refused, id) {
        var cpus' := cpus[id := v];
        if count > 1 {
          SwitchedIff(cpus', refused, v, count - 1, candidates[1..]);
          if Switched(cpus', refused, v, count - 1, candidates[1..]).1 {
            ChangedOneMore(cpus, Switched(cpus', refused, v, count - 1, candidates[1..]).0, v, id, rest, count - 1);
          }
        } else {
          ChangedOneMore(cpus, cpus', v, id, rest, 0);
        }
      }
    }
  }

  lemma FirstWritable(cpus: seq<Status>, refused: set<int>, v: Status, id: int, rest: seq<int>, count: int)
    requires v != Absent && 1 <= count
    ensures var ids := [id] + rest;
      count <= |ids| ==>
        (AllWritable(cpus, refused, ids[..count]) <==>
           Writable(cpus, refused, id) && AllWritable(cpus[id := v], refused, rest[..count - 1]))
  {
    var ids := [id] + rest;
    if count <= |ids| {
      assert ids[..count] == [id] + rest[..count - 1];
      if AllWritable(cpus, refused, ids[..count]) {
        RestIsWritable(cpus, refused, v, id, rest[..count - 1]);
      } else if Writable(cpus, refused, id) {
        var i :| 0 <= i < count && !Writable(cpus, refused, ids[..count][i]);
        assert i > 0 && !Writable(cpus[id := v], refused, rest[..count - 1][i - 1]);
      }
    }
  }

  lemma RestIsWritable(cpus: seq<Status>, refused: set<int>, v: Status, id: int, rest: seq<int>)
    requires v != Absent && AllWritable(cpus, refused, [id] + rest)
    ensures Writable(cpus, refused, id) && AllWritable(cpus[id := v], refused, rest)
  {
    var ids := [id] + rest;
    assert Writable(cpus, refused, ids[0]);
    forall i | 0 <= i < |rest| ensures Writable(cpus[id := v], refused, rest[i]) {
      assert Writable(cpus, refused, ids[i + 1]);
    }
  }

  lemma ChangedOneMore(cpus: seq<Status>, cpus': seq<Status>, v: Status, id: int, rest: seq<int>, k: nat)
    requires 0 <= id < |cpus| && k <= |rest| && ChangedTo(cpus[id := v], cpus', v, rest[..k])
    ensures ChangedTo(cpus, cpus', v, ([id] + rest)[..k + 1])
  {
    assert ([id] + rest)[..k + 1] == [id] + rest[..k];
  }

  /** What stays online in every case: CPU 0, if it was. */
  function Kept(online: seq<int>): (n: nat) {
    if online != [] && online[0] == 0 then 1 else 0
  }

  lemma {:induction false} WithoutZeroPositive(ids: seq<int>)
    requires forall i :: 0 <= i < |ids| ==> ids[i] != 0
    ensures WithoutZero(ids) == ids
  {
    if ids != [] {
      WithoutZeroPositive(ids[1..]);
    }
  }

  lemma AscendingWithoutZero(ids: seq<int>)
    requires Ascending(ids) && forall i :: 0 <= i < |ids| ==> 0 <= ids[i]
    ensures WithoutZero(ids) == ids[Kept(ids)..]
  {
    var tail := ids[Kept(ids)..];
    TailIsPositive(ids);
    WithoutZeroPositive(tail);
    if Kept(ids) == 0 {
      assert tail == ids;
    }
  }

  lemma {:induction false} WithoutLastZero(ids: seq<int>, zero: int)
    requires zero == 0 && forall i :: 0 <= i < |ids| ==> ids[i] != 0
    ensures WithoutZero(ids + [zero]) == ids
  {
    var all := ids + [zero];
    if ids == [] {
      assert all[1..] == [];
    } else {
      WithoutLastZero(ids[1..], zero);
      assert all[1..] == ids[1..] + [zero];
      assert ids == [ids[0]] + ids[1..];
    }
  }

  lemma TailIsPositive(ids: seq<int>)
    requires Ascending(ids) && forall i :: 0 <= i < |ids| ==> 0 <= ids[i]
    ensures forall i :: 0 <= i < |ids[Kept(ids)..]| ==> ids[Kept(ids)..][i] != 0
  {
    if ids != [] {
      assert forall i :: 0 < i < |ids| ==> ids[0] < ids[i];
    }
  }

  lemma DescendingWithoutZero(ids: seq<int>)
    requires Ascending(ids) && forall i :: 0 <= i < |ids| ==> 0 <= ids[i]
    ensures WithoutZero(Reversed(ids)) == Reversed(ids[Kept(ids)..])
  {
    var tail := ids[Kept(ids)..];
    TailIsPositive(ids);
    if Kept(ids) == 1 {
      WithoutLastZero(Reversed(tail), ids[0]);
      assert Reversed(ids) == Reversed(tail) + [ids[0]];
    } else {
      WithoutZeroPositive(Reversed(tail));
      assert tail == ids;
    }
  }

  /** A listing follows its set: the same CPUs in ascending order are the same list. */
  lemma {:induction false} AscendingIsUnique(a: seq<int>, b: seq<int>)
    requires Ascending(a) && Ascending(b) && forall x :: x in a <==> x in b
    ensures a == b
    decreases |a|
  {
    assert b != [] ==> b[0] in b;
    if a != [] {
      assert a[0] in a && a[0] in b;
      assert b[0] in a;
      assert a[0] == b[0];
      forall x ensures x in a[1..] <==> x in b[1..] {
        assert x in a[1..] <==> x in a && x != a[0];
        assert x in b[1..] <==> x in b && x != b[0];
      }
      AscendingIsUnique(a[1..], b[1..]);
    }
  }

  /** No write to a CPU that the scaler may pick is refused. */
  ghost predicate NothingRefused(cpus: seq<Status>, refused: set<int>) {
    forall i :: 0 < i < |cpus| && cpus[i] != Absent ==> i !in refused
  }

  lemma UsableIsWritable(cpus: seq<Status>, refused: set<int>, v: Status)
    requires NothingRefused(cpus, refused) && v != Absent
    ensures var tail := Listing(cpus, v)[Kept(Listing(cpus, v))..];
      AllWritable(cpus, refused, tail) && AllWritable(cpus, refused, Reversed(tail))
  {
    var ids := Listing(cpus, v);
    ListingFacts(cpus, v);
    var kept := Kept(ids);
    forall i | kept <= i < |ids| ensures Writable(cpus, refused, ids[i]) {
      assert ids[0] == 0 ==> ids[0] < ids[i];
    }
  }

  /** The CPUs taken offline are those at the end of the listing. */
  function Taken(online: seq<int>, target: int): (taken: seq<int>)
    requires target < |online|
  {
    var usable := Reversed(online[Kept(online)..]);
    usable[..MinInt(|online| - target, |usable|)]
  }

  lemma TakenFromTheEnd(online: seq<int>, target: int)
    requires target < |online|
    ensures IsEnd(online, MaxInt(Kept(online), target), Taken(online, target))
  {
  }

  ghost predicate IsEnd(online: seq<int>, stay: nat, taken: seq<int>) {
    && stay <= |online| && |taken| == |online| - stay
    && forall i :: 0 <= i < |taken| ==> taken[i] == online[|online| - 1 - i]
  }

  lemma EndIsTaken(online: seq<int>, stay: nat, taken: seq<int>, id: int)
    requires IsEnd(online, stay, taken)
    ensures id in online[stay..] ==> id in taken
  {
    if id in online[stay..] {
      var k :| 0 <= k < |taken| && online[stay..][k] == id;
      assert taken[|taken| - 1 - k] == id;
    }
  }

  lemma EndOrFront(online: seq<int>, stay: nat, taken: seq<int>, id: int)
    requires Ascending(online) && IsEnd(online, stay, taken)
    ensures id in online[..stay] <==> id in online && id !in taken
  {
    if id in online[..stay] {
      var k :| 0 <= k < stay && online[k] == id;
      forall i | 0 <= i < |taken| ensures taken[i] != id {
        assert online[k] < online[|online| - 1 - i];
      }
    }
    if id in online && id !in taken {
      assert online[..stay] + online[stay..] == online;
      EndIsTaken(online, stay, taken, id);
    }
  }

  lemma LowestStay(cpus: seq<Status>, cpus': seq<Status>, stay: nat, taken: seq<int>)
    requires IsEnd(Listing(cpus, Online), stay, taken) && ChangedTo(cpus, cpus', Offline, taken)
    ensures Listing(cpus', Online) == Listing(cpus, Online)[..stay]
  {
    var online, online' := Listing(cpus, Online), Listing(cpus', Online);
    ListingFacts(cpus, Online);
    ListingFacts(cpus', Online);
    forall id ensures id in online' <==> id in online[..stay] {
      EndOrFront(online, stay, taken, id);
    }
    AscendingIsUnique(online', online[..stay]);
  }

  lemma HighestAreTaken(cpus: seq<Status>, refused: set<int>, target: int)
    requires NothingRefused(cpus, refused) && target < |Listing(cpus, Online)|
    ensures var online := Listing(cpus, Online);
      var r := Switched(cpus, refused, Offline, |online| - target, Reversed(online));
      && r.1 == (Kept(online) <= target)
      && ChangedTo(cpus, r.0, Offline, Taken(online, target))
  {
    var online := Listing(cpus, Online);
    ListingFacts(cpus, Online);
    DescendingWithoutZero(online);
    UsableIsWritable(cpus, refused, Online);
    SwitchedFacts(cpus, refused, Offline, |online| - target, Reversed(online));
  }

  lemma OnlyOnlineIsTaken(cpus: seq<Status>, cpus': seq<Status>, stay: nat, taken: seq<int>)
    requires IsEnd(Listing(cpus, Online), stay, taken) && ChangedTo(cpus, cpus', Offline, taken)
    ensures forall i :: 0 <= i < |cpus| ==> cpus'[i] == cpus[i] || (cpus[i] == Online && cpus'[i] == Offline)
  {
    ListingFacts(cpus, Online);
  }

  /** What scaling down to `target` leaves. */
  ghost predicate Lowered(cpus: seq<Status>, cpus': seq<Status>, target: int) {
    var online := Listing(cpus, Online);
    && target < |online|
    && Listing(cpus', Online) == online[..MaxInt(Kept(online), target)]
    && |cpus'| == |cpus|
    && forall i :: 0 <= i < |cpus| ==> cpus'[i] == cpus[i] || (cpus[i] == Online && cpus'[i] == Offline)
  }

  lemma TakingLowers(cpus: seq<Status>, cpus': seq<Status>, target: int)
    requires target < |Listing(cpus, Online)|
    requires ChangedTo(cpus, cpus', Offline, Taken(Listing(cpus, Online), target))
    ensures Lowered(cpus, cpus', target)
  {
    var online := Listing(cpus, Online);
    TakenFromTheEnd(online, target);
    var taken := Taken(online, target);
    var stay := MaxInt(Kept(online), target);
    LowestStay(cpus, cpus', stay, taken);
    OnlyOnlineIsTaken(cpus, cpus', stay, taken);
  }

  /**
   * Scaling down takes the highest CPUs offline and leaves the lowest `target` online. It succeeds if and
   * only if that does not call for CPU 0; otherwise CPU 0 alone, or nothing, is left online.
   */
  lemma ScaleDown(cpus: seq<Status>, refused: set<int>, offlineReadable: bool, target: int)
    requires NothingRefused(cpus, refused)
    requires Listing(cpus, Online) != [] && target < |Listing(cpus, Online)|
    ensures var r := Reconciled(cpus, refused, true, offlineReadable, target);
      r.1 == (Kept(Listing(cpus, Online)) <= target) && Lowered(cpus, r.0, target)
  {
    DownIsSwitched(cpus, refused, offlineReadable, target);
    HighestAreTaken(cpus, refused, target);
    TakingLowers(cpus, Reconciled(cpus, refused, true, offlineReadable, target).0, target);
  }

  lemma DownIsSwitched(cpus: seq<Status>, refused: set<int>, offlineReadable: bool, target: int)
    requires Listing(cpus, Online) != [] && target < |Listing(cpus, Online)|
    ensures Reconciled(cpus, refused, true, offlineReadable, target)
         == Switched(cpus, refused, Offline, |Listing(cpus, Online)| - target, Reversed(Listing(cpus, Online)))
  {
  }

  /**
   * Scaling up brings the lowest offline CPUs online, CPU 0 excepted, as many as are missing or as there are.
   * If the list of offline CPUs cannot be read, which includes there being none, it reports success and
   * changes nothing.
   */
  lemma ScaleUp(cpus: seq<Status>, refused: set<int>, offlineReadable: bool, target: int)
    requires NothingRefused(cpus, refused)
    requires Listing(cpus, Online) != [] && |Listing(cpus, Online)| < target
    ensures var online, offline := Listing(cpus, Online), Listing(cpus, Offline);
      var r := Reconciled(cpus, refused, true, offlineReadable, target);
      var usable := offline[Kept(offline)..];
      && (!offlineReadable || offline == [] ==> r.1 && r.0 == cpus)
      && (offlineReadable && offline != [] ==>
            && r.1 == (target - |online| <= |usable|)
            && ChangedTo(cpus, r.0, Online, usable[..MinInt(target - |online|, |usable|)])
            && |Listing(r.0, Online)| == |online| + MinInt(target - |online|, |usable|))
  {
    if offlineReadable && Listing(cpus, Offline) != [] {
      LowestAreAdded(cpus, refused, target - |Listing(cpus, Online)|);
    }
  }

  lemma LowestAreAdded(cpus: seq<Status>, refused: set<int>, diff: int)
    requires NothingRefused(cpus, refused) && diff >= 1
    ensures var offline := Listing(cpus, Offline);
      var r := Switched(cpus, refused, Online, diff, offline);
      var usable := offline[Kept(offline)..];
      && r.1 == (diff <= |usable|)
      && ChangedTo(cpus, r.0, Online, usable[..MinInt(diff, |usable|)])
      && |Listing(r.0, Online)| == |Listing(cpus, Online)| + MinInt(diff, |usable|)
  {
    var offline := Listing(cpus, Offline);
    ListingFacts(cpus, Offline);
    AscendingWithoutZero(offline);
    UsableIsWritable(cpus, refused, Offline);
    SwitchedFacts(cpus, refused, Online, diff, offline);
    var usable := offline[Kept(offline)..];
    var taken := usable[..MinInt(diff, |usable|)];
    assert forall i :: 0 <= i < |taken| ==> taken[i] == offline[i + Kept(offline)];
    OnlineGrows(cpus, Switched(cpus, refused, Online, diff, offline).0, taken);
  }

  lemma LastIsLargest(ids: seq<int>, n: int)
    requires Ascending(ids) && n in ids && forall i :: 0 <= i < |ids| ==> ids[i] <= n
    ensures ids[|ids| - 1] == n
  {
    var i :| 0 <= i < |ids| && ids[i] == n;
    assert forall j :: 0 <= j < |ids| - 1 ==> ids[j] < ids[|ids| - 1];
  }

  lemma FrontGrows(cpus: seq<Status>, cpus': seq<Status>, taken: seq<int>, n: nat)
    requires Ascending(taken) && ChangedTo(cpus, cpus', Online, taken) && |cpus| == n + 1
    requires taken != [] && taken[|taken| - 1] == n
    ensures forall i :: 0 <= i < |taken| - 1 ==> taken[i] < n
    ensures ChangedTo(cpus[..n], cpus'[..n], Online, taken[..|taken| - 1])
  {
    var front := taken[..|taken| - 1];
    assert taken == front + [n];
    assert forall i :: 0 <= i < n ==> (i in front <==> i in taken);
  }

  lemma {:induction false} OnlineGrows(cpus: seq<Status>, cpus': seq<Status>, taken: seq<int>)
    requires Ascending(taken) && ChangedTo(cpus, cpus', Online, taken)
    requires forall i :: 0 <= i < |taken| ==> 0 <= taken[i] < |cpus| && cpus[taken[i]] == Offline
    ensures |Listing(cpus', Online)| == |Listing(cpus, Online)| + |taken|
    decreases |cpus|
  {
    if cpus != [] {
      var n, t := |cpus| - 1, |taken| - 1;
      if n in taken {
        LastIsLargest(taken, n);
        FrontGrows(cpus, cpus', taken, n);
        OnlineGrows(cpus[..n], cpus'[..n], taken[..t]);
      } else {
        OnlineGrows(cpus[..n], cpus'[..n], taken);
      }
    }
  }

  /**
   * When nothing is refused and some CPU is online: success means the target is met, except exactly when more
   * CPUs are wanted and the list of offline CPUs cannot be read; and whenever the target can be met without
   * CPU 0 and the lists can be read, it is.
   */
  lemma SuccessMeansTarget(cpus: seq<Status>, refused: set<int>, offlineReadable: bool, target: int)
    requires NothingRefused(cpus, refused) && Listing(cpus, Online) != []
    ensures var online, offline := Listing(cpus, Online), Listing(cpus, Offline);
      var r := Reconciled(cpus, refused, true, offlineReadable, target);
      var unread := !offlineReadable || offline == [];
      && (r.1 && |Listing(r.0, Online)| != target <==> |online| < target && unread)
      && (|Listing(r.0, Online)| == target <==>
            || |online| == target
            || (Kept(online) <= target < |online|)
            || (|online| < target <= |online| + |offline| - Kept(offline) && !unread))
      && (!r.1 ==> |Listing(r.0, Online)| != target)
  {
    var online, offline := Listing(cpus, Online), Listing(cpus, Offline);
    if target < |online| {
      ScaleDown(cpus, refused, offlineReadable, target);
    } else if |online| < target {
      ScaleUp(cpus, refused, offlineReadable, target);
    }
  }

  lemma SuccessLowers(cpus: seq<Status>, refused: set<int>, target: int)
    requires target < |Listing(cpus, Online)|
    requires Switched(cpus, refused, Offline, |Listing(cpus, Online)| - target, Reversed(Listing(cpus, Online))).1
    ensures var r := Switched(cpus, refused, Offline, |Listing(cpus, Online)| - target, Reversed(Listing(cpus, Online)));
      |Listing(r.0, Online)| == target
  {
    var online := Listing(cpus, Online);
    ListingFacts(cpus, Online);
    SuccessTakes(cpus, refused, online, target);
    TakingLowers(cpus, Switched(cpus, refused, Offline, |online| - target, Reversed(online)).0, target);
  }

  lemma SuccessTakes(cpus: seq<Status>, refused: set<int>, online: seq<int>, target: int)
    requires Ascending(online) && (forall i :: 0 <= i < |online| ==> 0 <= online[i]) && target < |online|
    requires Switched(cpus, refused, Offline, |online| - target, Reversed(online)).1
    ensures Kept(online) <= target
    ensures ChangedTo(cpus, Switched(cpus, refused, Offline, |online| - target, Reversed(online)).0, Offline, Taken(online, target))
  {
    DescendingWithoutZero(online);
    SwitchedIff(cpus, refused, Offline, |online| - target, Reversed(online));
  }

  lemma SuccessRaises(cpus: seq<Status>, refused: set<int>, diff: int)
    requires diff >= 1 && Switched(cpus, refused, Online, diff, Listing(cpus, Offline)).1
    ensures |Listing(Switched(cpus, refused, Online, diff, Listing(cpus, Offline)).0, Online)| == |Listing(cpus, Online)| + diff
  {
    var offline := Listing(cpus, Offline);
    ListingFacts(cpus, Offline);
    AscendingWithoutZero(offline);
    SwitchedIff(cpus, refused, Online, diff, offline);
    var taken := offline[Kept(offline)..][..diff];
    assert forall i :: 0 <= i < |taken| ==> taken[i] == offline[i + Kept(offline)];
    OnlineGrows(cpus, Switched(cpus, refused, Online, diff, offline).0, taken);
  }

  /** Whatever is refused or cannot be read, success means the target, except when the list of offline CPUs was not read. */
  lemma SuccessAlwaysMeansTarget(cpus: seq<Status>, refused: set<int>, onlineReadable: bool, offlineReadable: bool, target: int)
    ensures var r := Reconciled(cpus, refused, onlineReadable, offlineReadable, target);
      r.1 ==>
        || |Listing(r.0, Online)| == target
        || (|Listing(cpus, Online)| < target && Reading(cpus, Offline, offlineReadable).None? && r.0 == cpus)
  {
    var n := |Listing(cpus, Online)|;
    if Reconciled(cpus, refused, onlineReadable, offlineReadable, target).1 {
      if n > target {
        SuccessLowers(cpus, refused, target);
      } else if n < target && Reading(cpus, Offline, offlineReadable).Some? {
        SuccessRaises(cpus, refused, target - n);
      }
    }
  }

  lemma ZeroComesFirst(cpus: seq<Status>)
    requires cpus != [] && cpus[0] == Online
    ensures Listing(cpus, Online) != [] && Kept(Listing(cpus, Online)) == 1 && Kept(Listing(cpus, Offline)) == 0
  {
    ListingFacts(cpus, Online);
    ListingFacts(cpus, Offline);
    var online := Listing(cpus, Online);
    var k :| 0 <= k < |online| && online[k] == 0;
    assert forall j :: 0 < j < |online| ==> online[0] < online[j];
  }

  /**
   * With CPU 0 online and no write refused, success is reported for every target from 1 to the number of CPUs,
   * and beyond that number exactly when the list of offline CPUs cannot be read; all CPUs being online is
   * such a case.
   */
  lemma SucceedsIff(cpus: seq<Status>, refused: set<int>, offlineReadable: bool, target: int)
    requires NothingRefused(cpus, refused) && cpus != [] && cpus[0] == Online
    ensures var online, offline := Listing(cpus, Online), Listing(cpus, Offline);
      Reconciled(cpus, refused, true, offlineReadable, target).1 <==>
        || 1 <= target <= |online|
        || (|online| < target && (!offlineReadable || offline == [] || target <= |online| + |offline|))
  {
    ZeroComesFirst(cpus);
    SuccessMeansTarget(cpus, refused, offlineReadable, target);
  }

  /** Two CPUs, both online, and three wanted: success is reported and two are online. */
  lemma AllOnlineStillSucceeds()
    ensures Reconciled([Online, Online], {}, true, true, 3) == ([Online, Online], true)
  {
    var cpus := [Online, Online];
    assert cpus[..1] == [Online] && cpus[..1][..0] == [];
    assert Listing(cpus[..1], Online) == [0] && Listing(cpus, Online) == [0, 1];
    assert Listing(cpus[..1], Offline) == [];
    assert Listing(cpus, Offline) == Listing(cpus[..1], Offline) + [];
  }

  /** Whatever is refused, only candidates other than CPU 0 change, and only to the wanted status. */
  lemma {:induction false} OnlyCandidatesSwitched(cpus: seq<Status>, refused: set<int>, v: Status, count: int,
                                                  candidates: seq<int>)
    ensures var cpus' := Switched(cpus, refused, v, count, candidates).0;
      forall i :: 0 <= i < |cpus| && cpus'[i] != cpus[i] ==> i != 0 && i in candidates && cpus'[i] == v
    decreases |candidates|
  {
    if candidates != [] {
      var id := candidates[0];
      if id == 0 {
        OnlyCandidatesSwitched(cpus, refused, v, count, candidates[1..]);
      } else if Writable(cpus, refused, id) && count > 1 {
        OnlyCandidatesSwitched(cpus[id := v], refused, v, count - 1, candidates[1..]);
      }
    }
  }

  /** CPU 0 keeps its status in every case, with failing reads and writes too. */
  lemma CpuZeroIsKept(cpus: seq<Status>, refused: set<int>, onlineReadable: bool, offlineReadable: bool, target: int)
    requires cpus != []
    ensures Reconciled(cpus, refused, onlineReadable, offlineReadable, target).0[0] == cpus[0]
  {
    var online, offline := Reading(cpus, Online, onlineReadable), Reading(cpus, Offline, offlineReadable);
    if online.Some? {
      OnlyCandidatesSwitched(cpus, refused, Offline, |online.value| - target, Reversed(online.value));
      if offline.Some? {
        OnlyCandidatesSwitched(cpus, refused, Online, target - |online.value|, offline.value);
      }
    }
  }
}
