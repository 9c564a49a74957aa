/** The sysfs format for lists of CPUs, such as "0-3,5\n", and its parser. */
module CpuList {
  import opened Api
  import Text

  // ---- numbers ----------------------------------------------------------------------------------

  function Digit(d: nat): (c: char)
    requires d < 10
    ensures IsDigit(c) && DigitValue(c) == d
  {
    '0' + d as char
  }

  predicate IsDigit(c: char) {
    '0' <= c <= '9'
  }

  function DigitValue(c: char): (d: nat)
    requires IsDigit(c)
  {
    c as int - '0' as int
  }

  function Decimal(n: nat): (s: string)
    ensures s != []
  {
    if n < 10 then [Digit(n)] else Decimal(n / 10) + [Digit(n % 10)]
  }

  predicate AllDigits(s: string) {
    forall i :: 0 <= i < |s| ==> IsDigit(s[i])
  }

  function NumberOf(s: string): (n: nat)
    requires AllDigits(s)
  {
    if s == [] then 0 else 10 * NumberOf(s[..|s| - 1]) + DigitValue(s[|s| - 1])
  }

  /** One past the largest value of a 64-bit int. */
  function IntLimit(): (n: nat) {
    0x8000_0000_0000_0000
  }

  /** strconv.Atoi: an optional sign and at least one digit, within the range of a 64-bit int. */
  function Atoi(s: string): (r: Option<int>) {
    var signed := s != [] && (s[0] == '-' || s[0] == '+');
    var digits := if signed then s[1..] else s;
    if digits == [] || !AllDigits(digits) then None
    else
      var n: int := NumberOf(digits);
      if signed && s[0] == '-' then if n <= IntLimit() then Some(-n) else None
      else if n < IntLimit() then Some(n) else None
  }

  lemma {:induction false} DecimalIsRead(n: nat)
    ensures AllDigits(Decimal(n)) && NumberOf(Decimal(n)) == n
  {
    if n >= 10 {
      DecimalIsRead(n / 10);
      assert Decimal(n)[..|Decimal(n)| - 1] == Decimal(n / 10);
    } else {
      var s := [Digit(n)];
      assert s[..0] == [];
      assert NumberOf(s) == 10 * NumberOf(s[..0]) + DigitValue(s[0]);
    }
  }

  lemma AtoiDecimal(n: nat)
    requires n < IntLimit()
    ensures Atoi(Decimal(n)) == Some(n)
  {
    DecimalIsRead(n);
    assert IsDigit(Decimal(n)[0]);
  }

  function Within(n: int, limit: int): (r: Option<int>) {
    if -limit <= n < limit then Some(n) else None
  }

  /** Digits are read as their number with either sign, exactly if that is in range. */
  lemma AtoiSigned(digits: string)
    requires digits != [] && AllDigits(digits)
    ensures Atoi(digits) == Within(NumberOf(digits), IntLimit())
    ensures Atoi("+" + digits) == Within(NumberOf(digits), IntLimit())
    ensures var n: int := NumberOf(digits); Atoi("-" + digits) == Within(-n, IntLimit())
  {
    assert IsDigit(digits[0]);
    assert ("+" + digits)[1..] == digits && ("-" + digits)[1..] == digits;
  }

  /** Nothing but digits after an optional sign is read as a number. */
  lemma OnlyNumbersAreRead(s: string)
    requires Atoi(s).Some?
    ensures s != []
    ensures forall i :: 0 < i < |s| ==> IsDigit(s[i])
    ensures IsDigit(s[0]) || (|s| > 1 && (s[0] == '+' || s[0] == '-'))
    ensures '-' !in s ==> 0 <= Atoi(s).value < IntLimit()
  {
    if s != [] && (s[0] == '-' || s[0] == '+') {
      assert forall i :: 0 < i < |s| ==> s[i] == s[1..][i - 1];
    }
  }

  // ---- white space ------------------------------------------------------------------------------

  predicate IsSpace(c: char) {
    c == ' ' || '\t' <= c <= '\r' || c == '\U{0085}' || c == '\U{00A0}'
  }

  lemma SpacesAre(c: char)
    ensures IsSpace(c) <==> c in [' ', '\t', '\n', '\U{000B}', '\U{000C}', '\r', '\U{0085}', '\U{00A0}']
  {
  }

  function TrimLeft(s: string): (r: string) {
    if s != [] && IsSpace(s[0]) then TrimLeft(s[1..]) else s
  }

  function TrimRight(s: string): (r: string) {
    if s != [] && IsSpace(s[|s| - 1]) then TrimRight(s[..|s| - 1]) else s
  }

  function TrimSpace(s: string): (r: string) {
    TrimRight(TrimLeft(s))
  }

  predicate Blank(s: string) {
    forall i :: 0 <= i < |s| ==> IsSpace(s[i])
  }

  /** Text that neither starts nor ends with white space. */
  predicate Trimmed(s: string) {
    s == [] || (!IsSpace(s[0]) && !IsSpace(s[|s| - 1]))
  }

  lemma {:induction false} TrimLeftDrops(blank: string, s: string)
    requires Blank(blank) && (s == [] || !IsSpace(s[0]))
    ensures TrimLeft(blank + s) == s
  {
    if blank == [] {
      assert blank + s == s;
    } else {
      assert (blank + s)[1..] == blank[1..] + s;
      TrimLeftDrops(blank[1..], s);
    }
  }

  lemma {:induction false} TrimRightDrops(s: string, blank: string)
    requires Blank(blank) && (s == [] || !IsSpace(s[|s| - 1]))
    ensures TrimRight(s + blank) == s
  {
    if blank == [] {
      assert s + blank == s;
    } else {
      var n := |blank| - 1;
      assert (s + blank)[..|s + blank| - 1] == s + blank[..n];
      TrimRightDrops(s, blank[..n]);
    }
  }

  lemma TrimSpaceDrops(before: string, s: string, after: string)
    requires Blank(before) && Blank(after) && Trimmed(s)
    ensures TrimSpace(before + s + after) == s
  {
    if s == [] {
      assert before + s + after == before + after + [];
      TrimLeftDrops(before + after, []);
    } else {
      assert before + s + after == before + (s + after);
      TrimLeftDrops(before, s + after);
      TrimRightDrops(s, after);
    }
  }

  lemma TrimmedStays(s: string)
    requires Trimmed(s)
    ensures TrimSpace(s) == s
  {
    TrimSpaceDrops([], s, []);
    assert [] + s + [] == s;
  }

  // ---- the parser -------------------------------------------------------------------------------

  /** From `start` to `end`, both included; nothing if `end` comes first. */
  function Span(start: int, end: int): (ids: seq<int>)
    decreases end - start
  {
    if start > end then [] else Span(start, end - 1) + [end]
  }

  /** One number, or two with a dash between; what follows a second dash is not looked at. */
  function ParseRange(text: string): (r: Option<(int, int)>) {
    var parts := Text.Split(TrimSpace(text), '-');
    if |parts| == 1 then
      match Atoi(parts[0])
      case None => None
      case Some(cpu) => Some((cpu, cpu))
    else
      match (Atoi(parts[0]), Atoi(parts[1]))
      case (Some(start), Some(end)) => Some((start, end))
      case _ => None
  }

  function ParseParts(parts: seq<string>): (r: Option<seq<int>>) {
    if parts == [] then Some([])
    else
      match (ParseParts(parts[..|parts| - 1]), ParseRange(parts[|parts| - 1]))
      case (Some(ids), Some((start, end))) => Some(ids + Span(start, end))
      case _ => None
  }

  function Parse(text: string): (r: Option<seq<int>>) {
    ParseParts(Text.Split(TrimSpace(text), ','))
  }

  lemma {:induction false} BadPartFails(parts: seq<string>, i: nat)
    requires i < |parts| && ParseRange(parts[i]).None?
    ensures ParseParts(parts).None?
    decreases |parts|
  {
    if i < |parts| - 1 {
      BadPartFails(parts[..|parts| - 1], i);
    }
  }

  method AppendRange(ids: seq<int>, start: int, end: int) returns (r: seq<int>)
    ensures r == ids + Span(start, end)
  {
    r := ids;
    var cpu := start;
    while cpu <= end
      invariant start <= cpu && (cpu <= end + 1 || cpu == start)
      invariant r == ids + Span(start, cpu - 1)
    {
      r := r + [cpu];
      cpu := cpu + 1;
    }
    SpanEnds(start, end, cpu);
  }

  method ParseMultipleCPURange(text: string) returns (r: Option<seq<int>>)
    ensures r == Parse(text)
  {
    var parts := Text.Split(TrimSpace(text), ',');
    var cpus: seq<int> := [];
    for i := 0 to |parts|
      invariant ParseParts(parts[..i]) == Some(cpus)
    {
      assert parts[..i + 1][..i] == parts[..i];
      var range := ParseRange(parts[i]);
      if range.None? {
        BadPartFails(parts, i);
        return None;
      }
      cpus := AppendRange(cpus, range.value.0, range.value.1);
    }
    assert parts[..|parts|] == parts;
    return Some(cpus);
  }

  /** The loop leaves its counter one past the end, or at the start if there was nothing to do. */
  lemma SpanEnds(start: int, end: int, cpu: int)
    requires start <= cpu && cpu > end && (cpu <= end + 1 || cpu == start)
    ensures Span(start, cpu - 1) == Span(start, end)
  {
    if cpu != end + 1 {
      assert Span(start, cpu - 1) == [] && Span(start, end) == [];
    }
  }

  // ---- what the kernel prints -------------------------------------------------------------------

  datatype Range = Range(lo: nat, hi: nat)

  function RangeText(r: Range): (s: string) {
    if r.lo == r.hi then Decimal(r.lo) else Decimal(r.lo) + "-" + Decimal(r.hi)
  }

  function Texts(ranges: seq<Range>): (parts: seq<string>)
    ensures |parts| == |ranges|
    ensures forall i :: 0 <= i < |ranges| ==> parts[i] == RangeText(ranges[i])
  {
    seq(|ranges|, i requires 0 <= i < |ranges| => RangeText(ranges[i]))
  }

  function ListText(ranges: seq<Range>): (s: string) {
    if ranges == [] then "" else Text.Join(Texts(ranges), ',')
  }

  function Expand(ranges: seq<Range>): (ids: seq<int>) {
    if ranges == [] then [] else
      Expand(ranges[..|ranges| - 1]) + Span(ranges[|ranges| - 1].lo, ranges[|ranges| - 1].hi)
  }

  predicate InRange(r: Range) {
    r.lo <= r.hi < IntLimit()
  }

  lemma DigitsAreClean(s: string)
    requires AllDigits(s)
    ensures '-' !in s && ',' !in s && Trimmed(s)
  {
    if s != [] {
      assert IsDigit(s[0]) && IsDigit(s[|s| - 1]);
    }
  }

  lemma RangeTextIsClean(r: Range)
    ensures RangeText(r) != [] && ',' !in RangeText(r) && Trimmed(RangeText(r))
  {
    DecimalIsRead(r.lo);
    DecimalIsRead(r.hi);
    DigitsAreClean(Decimal(r.lo));
    DigitsAreClean(Decimal(r.hi));
  }

  lemma SingleRoundTrip(n: nat)
    requires n < IntLimit()
    ensures ParseRange(Decimal(n)) == Some((n, n))
  {
    DecimalIsRead(n);
    DigitsAreClean(Decimal(n));
    TrimmedStays(Decimal(n));
    AtoiDecimal(n);
    Text.SplitWithout(Decimal(n), '-');
  }

  lemma PairRoundTrip(lo: nat, hi: nat)
    requires lo < IntLimit() && hi < IntLimit()
    ensures ParseRange(Decimal(lo) + "-" + Decimal(hi)) == Some((lo, hi))
  {
    DecimalIsRead(lo);
    DecimalIsRead(hi);
    DigitsAreClean(Decimal(lo));
    DigitsAreClean(Decimal(hi));
    TrimmedStays(Decimal(lo) + "-" + Decimal(hi));
    AtoiDecimal(lo);
    AtoiDecimal(hi);
    Text.SplitWithout(Decimal(hi), '-');
    Text.SplitFirst(Decimal(lo), Decimal(hi), '-');
  }

  lemma RangeRoundTrip(r: Range)
    requires InRange(r)
    ensures ParseRange(RangeText(r)) == Some((r.lo, r.hi))
  {
    if r.lo == r.hi {
      SingleRoundTrip(r.lo);
    } else {
      PairRoundTrip(r.lo, r.hi);
    }
  }

  lemma {:induction false} PartsRoundTrip(ranges: seq<Range>)
    requires forall i :: 0 <= i < |ranges| ==> InRange(ranges[i])
    ensures ParseParts(Texts(ranges)) == Some(Expand(ranges))
  {
    if ranges != [] {
      var n := |ranges| - 1;
      PartsRoundTrip(ranges[..n]);
      assert Texts(ranges)[..n] == Texts(ranges[..n]);
      RangeRoundTrip(ranges[n]);
    }
  }

  lemma {:induction false} JoinIsTrimmed(parts: seq<string>, sep: char)
    requires parts != [] && !IsSpace(sep)
    requires forall i :: 0 <= i < |parts| ==> parts[i] != [] && Trimmed(parts[i])
    ensures Text.Join(parts, sep) != [] && Trimmed(Text.Join(parts, sep))
  {
    if |parts| > 1 {
      JoinIsTrimmed(parts[1..], sep);
    }
  }

  lemma TrimEnd(s: string, after: string)
    requires Blank(after) && Trimmed(s)
    ensures TrimSpace(s + after) == s
  {
    TrimSpaceDrops([], s, after);
    assert [] + s + after == s + after;
  }

  /** Any non-empty list of ranges, with white space after it, is read back as the CPUs it names in order. */
  lemma ListRoundTrip(text: string, ranges: seq<Range>, after: string)
    requires ranges != [] && Blank(after) && text == ListText(ranges) + after
    requires forall i :: 0 <= i < |ranges| ==> InRange(ranges[i])
    ensures Parse(text) == Some(Expand(ranges))
  {
    var parts := Texts(ranges);
    forall i | 0 <= i < |parts| ensures parts[i] != [] && ',' !in parts[i] && Trimmed(parts[i]) {
      RangeTextIsClean(ranges[i]);
    }
    JoinIsTrimmed(parts, ',');
    TrimEnd(ListText(ranges), after);
    Text.SplitJoin(parts, ',');
    PartsRoundTrip(ranges);
  }

  /** An empty list is not read as one: the parser fails on blank text. */
  lemma BlankFails(text: string)
    requires Blank(text)
    ensures Parse(text).None?
  {
    TrimSpaceDrops(text, [], []);
    assert text + [] + [] == text;
    var parts := Text.Split([], ',');
    assert parts == [[]];
    TrimmedStays([]);
    assert Text.Split([], '-') == [[]];
    assert Atoi([]).None?;
    assert ParseRange([]).None?;
    BadPartFails(parts, 0);
  }

  /** What follows a second dash is not looked at. */
  lemma SecondDashIsIgnored(lo: nat, hi: nat, rest: string)
    requires lo < IntLimit() && hi < IntLimit() && rest != [] && !IsSpace(rest[|rest| - 1])
    ensures ParseRange(Decimal(lo) + "-" + (Decimal(hi) + "-" + rest)) == Some((lo, hi))
  {
    var text := Decimal(lo) + "-" + (Decimal(hi) + "-" + rest);
    DecimalIsRead(lo);
    DecimalIsRead(hi);
    DigitsAreClean(Decimal(lo));
    DigitsAreClean(Decimal(hi));
    AtoiDecimal(lo);
    AtoiDecimal(hi);
    TrimmedStays(text);
    Text.SplitFirst(Decimal(lo), Decimal(hi) + "-" + rest, '-');
    Text.SplitFirst(Decimal(hi), rest, '-');
  }

  lemma RangeIsNatural(text: string)
    requires ParseRange(text).Some?
    ensures var (start, end) := ParseRange(text).value; 0 <= start < IntLimit() && 0 <= end < IntLimit()
  {
    var parts := Text.Split(TrimSpace(text), '-');
    Text.JoinSplit(TrimSpace(text), '-');
    OnlyNumbersAreRead(parts[0]);
    if |parts| != 1 {
      OnlyNumbersAreRead(parts[1]);
    }
  }

  lemma {:induction false} SpanIsWithin(start: int, end: int)
    ensures forall i :: 0 <= i < |Span(start, end)| ==> start <= Span(start, end)[i] <= end
    decreases end - start
  {
    if start <= end {
      SpanIsWithin(start, end - 1);
    }
  }

  lemma {:induction false} PartsAreNatural(parts: seq<string>)
    requires ParseParts(parts).Some?
    ensures forall i :: 0 <= i < |ParseParts(parts).value| ==> 0 <= ParseParts(parts).value[i] < IntLimit()
  {
    if parts != [] {
      var last := parts[|parts| - 1];
      PartsAreNatural(parts[..|parts| - 1]);
      RangeIsNatural(last);
      SpanIsWithin(ParseRange(last).value.0, ParseRange(last).value.1);
    }
  }

  /** Whatever the text, every CPU that is read from it is a number from 0 up, within the range of an int. */
  lemma ParsedIdsAreNatural(text: string)
    requires Parse(text).Some?
    ensures forall i :: 0 <= i < |Parse(text).value| ==> 0 <= Parse(text).value[i] < IntLimit()
  {
    PartsAreNatural(Text.Split(TrimSpace(text), ','));
  }
}
