/** The partition specification of a worker: "0-3", "0,2,5" or a mix of both. */
module PartitionSpec {
  import opened Tables
  import opened Lists

  // ----- text

  predicate IsSpace(c: char) {
    || c in {' ', '\t', '\n', '\r', '\U{000B}', '\U{000C}', '\U{00A0}', '\U{1680}', '\U{2028}', '\U{2029}', '\U{202F}', '\U{205F}', '\U{3000}', '\U{FEFF}'}
    || '\U{2000}' <= c <= '\U{200A}'
  }

  predicate IsDigit(c: char) { '0' <= c <= '9' }

  predicate AllDigits(s: string) { forall i :: 0 <= i < |s| ==> IsDigit(s[i]) }

  predicate Digits(s: string) { s != "" && AllDigits(s) }

  predicate Spaces(s: string) { forall i :: 0 <= i < |s| ==> IsSpace(s[i]) }

  function Value(s: string): nat
    requires AllDigits(s)
  {
    if s == "" then 0
    else
      assert IsDigit(s[|s| - 1]);
      10 * Value(s[..|s| - 1]) + (s[|s| - 1] as int - '0' as int)
  }

  function Split(s: string): (parts: seq<string>)
    ensures parts != []
  {
    if s == "" then [""]
    else
      var rest := Split(s[1..]);
      if s[0] == ',' then [""] + rest else [[s[0]] + rest[0]] + rest[1..]
  }

  function Join(parts: seq<string>): string {
    if parts == [] then "" else if |parts| == 1 then parts[0] else parts[0] + "," + Join(parts[1..])
  }

  function TrimStart(s: string): string {
    if s != "" && IsSpace(s[0]) then TrimStart(s[1..]) else s
  }

  function TrimEnd(s: string): string {
    if s != "" && IsSpace(s[|s| - 1]) then TrimEnd(s[..|s| - 1]) else s
  }

  function Trim(s: string): string { TrimEnd(TrimStart(s)) }

  /** How many digits a string begins with. */
  function LeadingDigits(s: string): (n: nat)
    ensures n <= |s| && forall i :: 0 <= i < n ==> IsDigit(s[i])
    ensures n < |s| ==> !IsDigit(s[n])
  {
    if s != "" && IsDigit(s[0]) then
      assert forall i :: 0 < i < |s| ==> s[i] == s[1..][i - 1];
      1 + LeadingDigits(s[1..])
    else 0
  }

  // ----- one segment

  datatype Range = Range(from: nat, to: nat)

  /** Digits, or digits, a hyphen and digits; nothing else. */
  function RangeOf(text: string): Option<Range> {
    var n := LeadingDigits(text);
    if n == 0 then None
    else if n == |text| then Some(Range(Value(text), Value(text)))
    else if text[n] == '-' && Digits(text[n + 1..]) then Some(Range(Value(text[..n]), Value(text[n + 1..])))
    else None
  }

  function Segment(part: string): Option<Range> { RangeOf(Trim(part)) }

  predicate Fine(part: string) { Segment(part).Some? && Segment(part).value.from <= Segment(part).value.to }

  predicate Names(part: string, k: nat) { Segment(part).Some? && Segment(part).value.from <= k <= Segment(part).value.to }

  // ----- the whole specification

  datatype Result = Ok(partitions: seq<nat>) | BadSegment(part: string) | EndBeforeStart(part: string)

  ghost predicate ListedBy(parts: seq<string>, k: nat) { exists i :: 0 <= i < |parts| && Names(parts[i], k) }

  ghost predicate FirstBad(parts: seq<string>, i: nat) {
    i < |parts| && !Fine(parts[i]) && forall j :: 0 <= j < i ==> Fine(parts[j])
  }

  /** The partitions in ascending order without repetition, exactly those that some segment lists;
      or the first segment that is wrong. */
  ghost predicate IsParse(spec: string, r: Result) {
    var parts := Split(spec);
    match r
    case Ok(partitions) =>
      && (forall i :: 0 <= i < |parts| ==> Fine(parts[i]))
      && StrictlyAscending(partitions)
      && forall k: nat :: k in partitions <==> ListedBy(parts, k)
    case BadSegment(part) => exists i: nat :: FirstBad(parts, i) && parts[i] == part && Segment(part).None?
    case EndBeforeStart(part) => exists i: nat :: FirstBad(parts, i) && parts[i] == part && Segment(part).Some?
  }

  method Parse(spec: string) returns (r: Result)
    ensures IsParse(spec, r)
  {
    var partitions: seq<nat> := [];
    var parts := Split(spec);
    for p := 0 to |parts|
      invariant NoDuplicates(partitions)
      invariant forall i :: 0 <= i < p ==> Fine(parts[i])
      invariant forall k: nat :: k in partitions <==> ListedBy(parts[..p], k)
    {
      var part := parts[p];
      var range := Segment(part);
      if range.None? {
        assert FirstBad(parts, p);
        return BadSegment(part);
      }
      var from, to := range.value.from, range.value.to;
      if to < from {
        assert FirstBad(parts, p);
        return EndBeforeStart(part);
      }
      OneMorePart(parts, p);
      partitions := AddRange(partitions, from, to);
    }
    assert parts[..|parts|] == parts;
    SortKeepsAll(partitions);
    return Ok(Sort(partitions));
  }

  lemma SortKeepsAll(partitions: seq<nat>)
    requires NoDuplicates(partitions)
    ensures StrictlyAscending(Sort(partitions)) && forall k: nat :: k in Sort(partitions) <==> k in partitions
  {
    SortFacts(partitions);
    SortOfDistinct(partitions);
    assert forall k: nat :: k in Sort(partitions) <==> k in Elements(Sort(partitions));
    assert forall k: nat :: k in partitions <==> k in Elements(partitions);
  }

  /** Adds from..to to a set kept in insertion order. */
  method AddRange(partitions: seq<nat>, from: nat, to: nat) returns (r: seq<nat>)
    requires NoDuplicates(partitions) && from <= to
    ensures NoDuplicates(r) && forall k: nat :: k in r <==> k in partitions || from <= k <= to
  {
    r := partitions;
    for i := from to to + 1
      invariant NoDuplicates(r) && forall k: nat :: k in r <==> k in partitions || from <= k < i
    {
      if i !in r {
        r := r + [i];
      }
    }
  }

  lemma OneMorePart(parts: seq<string>, p: nat)
    requires p < |parts|
    ensures forall k: nat :: ListedBy(parts[..p + 1], k) <==> ListedBy(parts[..p], k) || Names(parts[p], k)
  {
  }

  /** The result is determined. */
  lemma ParseIsUnique(spec: string, r: Result, q: Result)
    requires IsParse(spec, r) && IsParse(spec, q)
    ensures r == q
  {
    if r.Ok? && q.Ok? {
      forall k ensures k in Elements(r.partitions) <==> k in Elements(q.partitions) {
        assert k in r.partitions <==> k in q.partitions;
      }
      AscendingListIsUnique(r.partitions, q.partitions);
    }
  }

  /** A worker always owns at least one partition. */
  lemma NeverEmpty(spec: string, r: Result)
    requires IsParse(spec, r) && r.Ok?
    ensures r.partitions != []
  {
    var parts := Split(spec);
    assert Fine(parts[0]);
    assert Names(parts[0], Segment(parts[0]).value.from);
    assert ListedBy(parts, Segment(parts[0]).value.from);
  }

  // ----- what the environment pattern lets through

  /** One item of the pattern: spaces, digits, and perhaps a hyphen and digits. */
  datatype Item = Item(spaces: string, from: string, to: Option<string>) {
    predicate Valid() { Spaces(spaces) && Digits(from) && (to.Some? ==> Digits(to.value)) }
    function Core(): string { from + if to.Some? then "-" + to.value else "" }
    function Text(): string { spaces + Core() }
    function Meaning(): Range
      requires Valid()
    {
      Range(Value(from), Value(if to.Some? then to.value else from))
    }
  }

  function Texts(items: seq<Item>): seq<string> {
    if items == [] then [] else [items[0].Text()] + Texts(items[1..])
  }

  lemma {:induction false} TextsAt(items: seq<Item>)
    ensures |Texts(items)| == |items|
    ensures forall i :: 0 <= i < |items| ==> Texts(items)[i] == items[i].Text()
  {
    if items != [] {
      TextsAt(items[1..]);
    }
  }

  lemma {:induction false} SplitAtComma(part: string, rest: string)
    requires ',' !in part
    ensures Split(part) == [part]
    ensures Split(part + "," + rest) == [part] + Split(rest)
  {
    var whole := part + "," + rest;
    if part == "" {
      assert whole[0] == ',' && whole[1..] == rest;
    } else {
      SplitAtComma(part[1..], rest);
      assert whole[1..] == part[1..] + "," + rest;
      assert [part[0]] + part[1..] == part;
    }
  }

  lemma {:induction false} SplitUndoesJoin(parts: seq<string>)
    requires parts != [] && forall i :: 0 <= i < |parts| ==> ',' !in parts[i]
    ensures Split(Join(parts)) == parts
  {
    if |parts| == 1 {
      SplitAtComma(parts[0], "");
    } else {
      SplitUndoesJoin(parts[1..]);
      SplitAtComma(parts[0], Join(parts[1..]));
    }
  }

  lemma {:induction false} TrimLeavesCore(spaces: string, core: string)
    requires Spaces(spaces) && core != "" && !IsSpace(core[0]) && !IsSpace(core[|core| - 1])
    ensures Trim(spaces + core) == core
  {
    if spaces == "" {
      assert spaces + core == core;
    } else {
      TrimLeavesCore(spaces[1..], core);
      assert (spaces + core)[1..] == spaces[1..] + core;
    }
  }

  lemma {:induction false} LeadingDigitsStop(digits: string, rest: string)
    requires AllDigits(digits) && (rest != "" ==> !IsDigit(rest[0]))
    ensures LeadingDigits(digits + rest) == |digits|
  {
    if digits == "" {
      assert digits + rest == rest;
    } else {
      LeadingDigitsStop(digits[1..], rest);
      assert (digits + rest)[1..] == digits[1..] + rest;
    }
  }

  lemma TwoNumbers(from: string, to: string)
    requires Digits(from) && Digits(to)
    ensures RangeOf(from + "-" + to) == Some(Range(Value(from), Value(to)))
  {
    var core, n := from + "-" + to, |from|;
    assert core == from + ("-" + to);
    LeadingDigitsStop(from, "-" + to);
    assert core[..n] == from && core[n] == '-' && core[n + 1..] == to;
  }

  lemma OneNumber(from: string)
    requires Digits(from)
    ensures RangeOf(from) == Some(Range(Value(from), Value(from)))
  {
  }

  lemma CoreIsRange(item: Item)
    requires item.Valid()
    ensures RangeOf(item.Core()) == Some(item.Meaning())
  {
    if item.to.Some? {
      TwoNumbers(item.from, item.to.value);
      assert item.Core() == item.from + "-" + item.to.value;
    } else {
      OneNumber(item.from);
      assert item.Core() == item.from;
    }
  }

  lemma CoreIsNumeric(item: Item)
    requires item.Valid()
    ensures item.Core() != "" && IsDigit(item.Core()[0]) && IsDigit(item.Core()[|item.Core()| - 1])
    ensures forall i :: 0 <= i < |item.Core()| ==> IsDigit(item.Core()[i]) || item.Core()[i] == '-'
  {
    if item.to.Some? {
      assert item.Core() == item.from + ("-" + item.to.value);
      assert item.Core()[|item.Core()| - 1] == item.to.value[|item.to.value| - 1];
    } else {
      assert item.Core() == item.from;
    }
  }

  lemma SegmentOfItem(item: Item)
    requires item.Valid()
    ensures Segment(item.Text()) == Some(item.Meaning()) && ',' !in item.Text()
  {
    CoreIsRange(item);
    CoreIsNumeric(item);
    TrimLeavesCore(item.spaces, item.Core());
    forall i | 0 <= i < |item.Text()| ensures item.Text()[i] != ',' {
      assert i < |item.spaces| ==> IsSpace(item.spaces[i]);
    }
  }

  // ----- exactly which segments are well-formed

  lemma {:induction false} TrimStartSplits(s: string) returns (spaces: string)
    ensures Spaces(spaces) && s == spaces + TrimStart(s)
  {
    if s != "" && IsSpace(s[0]) {
      var rest := TrimStartSplits(s[1..]);
      spaces := [s[0]] + rest;
      assert s == [s[0]] + s[1..];
    } else {
      spaces := "";
    }
  }

  lemma {:induction false} TrimEndSplits(s: string) returns (spaces: string)
    ensures Spaces(spaces) && s == TrimEnd(s) + spaces
  {
    if s != "" && IsSpace(s[|s| - 1]) {
      var rest := TrimEndSplits(s[..|s| - 1]);
      spaces := rest + [s[|s| - 1]];
      assert s == s[..|s| - 1] + [s[|s| - 1]];
    } else {
      spaces := "";
    }
  }

  lemma {:induction false} TrimEndLeavesCore(core: string, spaces: string)
    requires Spaces(spaces) && core != "" && !IsSpace(core[|core| - 1])
    ensures TrimEnd(core + spaces) == core
  {
    if spaces == "" {
      assert core + spaces == core;
    } else {
      TrimEndLeavesCore(core, spaces[..|spaces| - 1]);
      assert (core + spaces)[..|core + spaces| - 1] == core + spaces[..|spaces| - 1];
    }
  }

  lemma {:induction false} TrimStartLeaves(spaces: string, rest: string)
    requires Spaces(spaces) && rest != "" && !IsSpace(rest[0])
    ensures TrimStart(spaces + rest) == rest
  {
    if spaces == "" {
      assert spaces + rest == rest;
    } else {
      TrimStartLeaves(spaces[1..], rest);
      assert (spaces + rest)[1..] == spaces[1..] + rest;
    }
  }

  /** The segment is an item of the pattern followed by spaces. */
  predicate ReadsAs(part: string, item: Item, after: string) {
    item.Valid() && Spaces(after) && part == item.Text() + after
  }

  lemma ReadingIsMeaning(part: string, item: Item, after: string)
    requires ReadsAs(part, item, after)
    ensures Segment(part) == Some(item.Meaning())
  {
    CoreIsRange(item);
    CoreIsNumeric(item);
    assert part == item.spaces + (item.Core() + after);
    TrimStartLeaves(item.spaces, item.Core() + after);
    TrimEndLeavesCore(item.Core(), after);
  }

  lemma RangeReads(text: string, spaces: string) returns (item: Item)
    requires RangeOf(text).Some? && Spaces(spaces)
    ensures item.Valid() && item.spaces == spaces && item.Core() == text
  {
    var n := LeadingDigits(text);
    if n == |text| {
      item := Item(spaces, text, None);
    } else {
      item := Item(spaces, text[..n], Some(text[n + 1..]));
      assert text == text[..n] + ("-" + text[n + 1..]);
    }
  }

  /** A segment is well-formed if and only if it is digits, or digits, a hyphen and digits, with spaces
      around; and it means what it reads as. */
  lemma SegmentIsExact(part: string)
    ensures Segment(part).Some? <==> exists item, after :: ReadsAs(part, item, after)
    ensures forall item, after :: ReadsAs(part, item, after) ==> Segment(part) == Some(item.Meaning())
  {
    forall item, after | ReadsAs(part, item, after) ensures Segment(part) == Some(item.Meaning()) {
      ReadingIsMeaning(part, item, after);
    }
    if Segment(part).Some? {
      var before := TrimStartSplits(part);
      var after := TrimEndSplits(TrimStart(part));
      var item := RangeReads(Trim(part), before);
      assert part == item.Text() + after;
      assert ReadsAs(part, item, after);
    }
  }

  ghost predicate ItemNames(items: seq<Item>, k: nat) {
    exists i :: 0 <= i < |items| && items[i].Valid() && items[i].Meaning().from <= k <= items[i].Meaning().to
  }

  ghost predicate AllValid(items: seq<Item>) { forall i :: 0 <= i < |items| ==> items[i].Valid() }

  ghost predicate Stands(items: seq<Item>, parts: seq<string>) {
    && AllValid(items) && |parts| == |items|
    && forall i :: 0 <= i < |items| ==> Segment(parts[i]) == Some(items[i].Meaning())
  }

  lemma PartsOfItems(items: seq<Item>)
    requires items != [] && AllValid(items)
    ensures Split(Join(Texts(items))) == Texts(items) && Stands(items, Texts(items))
  {
    var parts := Texts(items);
    TextsAt(items);
    forall i | 0 <= i < |parts| ensures Segment(parts[i]) == Some(items[i].Meaning()) && ',' !in parts[i] {
      SegmentOfItem(items[i]);
    }
    SplitUndoesJoin(parts);
  }

  lemma ItemsNameTheSame(items: seq<Item>, parts: seq<string>, k: nat)
    requires Stands(items, parts)
    ensures ListedBy(parts, k) <==> ItemNames(items, k)
  {
  }

  lemma FineItems(items: seq<Item>, parts: seq<string>)
    requires Stands(items, parts)
    ensures forall i :: 0 <= i < |parts| ==> (Fine(parts[i]) <==> items[i].Meaning().from <= items[i].Meaning().to)
  {
  }

  /** Every string of the pattern parses, unless some range ends before it starts, and then the
      partitions are those the items name. */
  lemma PatternParses(items: seq<Item>, r: Result)
    requires items != [] && AllValid(items)
    requires IsParse(Join(Texts(items)), r)
    ensures !r.BadSegment?
    ensures r.Ok? <==> forall i :: 0 <= i < |items| ==> items[i].Meaning().from <= items[i].Meaning().to
    ensures r.Ok? ==> forall k: nat :: k in r.partitions <==> ItemNames(items, k)
  {
    var parts := Texts(items);
    PartsOfItems(items);
    FineItems(items, parts);
    if r.Ok? {
      forall k: nat ensures k in r.partitions <==> ItemNames(items, k) {
        ItemsNameTheSame(items, parts, k);
      }
      forall i | 0 <= i < |items| ensures items[i].Meaning().from <= items[i].Meaning().to {
        assert Fine(parts[i]);
      }
    } else {
      var i: nat :| FirstBad(parts, i);
      assert !Fine(parts[i]) && items[i].Valid();
    }
  }

  // ----- printing

  function Decimal(n: nat): string {
    var digit := ['0' + (n % 10) as char];
    if n < 10 then digit else Decimal(n / 10) + digit
  }

  lemma {:induction false} DecimalFacts(n: nat)
    ensures Digits(Decimal(n)) && Value(Decimal(n)) == n
  {
    var s := Decimal(n);
    if n >= 10 {
      DecimalFacts(n / 10);
      assert s[..|s| - 1] == Decimal(n / 10);
    } else {
      assert s[..|s| - 1] == "";
    }
  }

  function Items(partitions: seq<nat>): seq<Item> {
    if partitions == [] then [] else [Item("", Decimal(partitions[0]), None)] + Items(partitions[1..])
  }

  /** The list with commas between its numbers. */
  function Print(partitions: seq<nat>): string { Join(Texts(Items(partitions))) }

  lemma {:induction false} ItemsAt(partitions: seq<nat>)
    ensures |Items(partitions)| == |partitions|
    ensures forall i :: 0 <= i < |partitions| ==>
      && Items(partitions)[i].Valid() && Items(partitions)[i].Meaning() == Range(partitions[i], partitions[i])
  {
    if partitions != [] {
      DecimalFacts(partitions[0]);
      ItemsAt(partitions[1..]);
    }
  }

  lemma ItemsNamePartitions(partitions: seq<nat>, k: nat)
    ensures ItemNames(Items(partitions), k) <==> k in partitions
  {
    var items := Items(partitions);
    ItemsAt(partitions);
    if k in partitions {
      var i :| 0 <= i < |partitions| && partitions[i] == k;
      assert items[i].Valid() && items[i].Meaning().from <= k <= items[i].Meaning().to;
    }
  }

  lemma SameListing(p: seq<nat>, q: seq<nat>)
    requires StrictlyAscending(p) && StrictlyAscending(q) && forall k: nat :: k in p <==> k in q
    ensures p == q
  {
    forall k ensures k in Elements(p) <==> k in Elements(q) {}
    AscendingListIsUnique(p, q);
  }

  /** Printing a result and parsing it again gives it back. */
  lemma PrintThenParse(partitions: seq<nat>, r: Result)
    requires StrictlyAscending(partitions) && partitions != []
    requires IsParse(Print(partitions), r)
    ensures r == Ok(partitions)
  {
    ItemsAt(partitions);
    PatternParses(Items(partitions), r);
    forall k: nat ensures k in r.partitions <==> k in partitions {
      ItemsNamePartitions(partitions, k);
    }
    SameListing(r.partitions, partitions);
  }
}
