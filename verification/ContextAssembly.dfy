/** Prompt context assembly (`_assemble` and `_estimate`): order, deduplicate, select and
    truncate context items so that the rendered prompt fits the input token limit. */
module ContextAssembly {
  import opened Options

  datatype Item = Item(reference: string, version: string, content: string, relevance: int,
                       reason: string, trusted: bool, mandatory: bool)

  /** `task` is the prompt with surrounding white space already stripped. */
  datatype Request = Request(systemRef: string, task: string, items: seq<Item>, maxInputTokens: int)

  // ----- sizes -----

  /** Octets of a character in UTF-8, section 3 of RFC 3629. */
  function CharBytes(c: char): (n: nat)
    ensures 1 <= n <= 4
  {
    var code := c as int;
    if code < 0x80 then 1 else if code < 0x800 then 2 else if code < 0x10000 then 3 else 4
  }

  function Bytes(s: string): nat {
    if s == "" then 0 else Bytes(s[..|s| - 1]) + CharBytes(s[|s| - 1])
  }

  /** `_estimate`: one token per four octets, rounded up, at least one. */
  function Estimate(s: string): nat {
    var tokens := (Bytes(s) + 3) / 4;
    if tokens < 1 then 1 else tokens
  }

  /** The estimate is the least positive number of tokens of four octets that holds the text. */
  lemma EstimateIsLeast(s: string, n: nat)
    ensures n >= Estimate(s) <==> n >= 1 && 4 * n >= Bytes(s)
  {
  }

  /** Octets by the largest code point that fits them: 7, 11, 16 or 21 bits. */
  lemma CharBytesByRange(c: char, n: nat)
    ensures CharBytes(c) <= n <==> n >= 1 && (n >= 4 || c as int < [1, 0x80, 0x800, 0x10000][n])
  {
  }

  lemma {:induction false} BytesAppend(a: string, b: string)
    ensures Bytes(a + b) == Bytes(a) + Bytes(b)
  {
    if b == "" {
      assert a + b == a;
    } else {
      assert (a + b)[..|a + b| - 1] == a + b[..|b| - 1];
      BytesAppend(a, b[..|b| - 1]);
    }
  }

  // ----- rendering -----

  function Base(req: Request): string {
    "<system ref='" + req.systemRef + "'>approved instructions</system>" + "\n" + "<task>" + req.task + "</task>"
  }

  function Opening(item: Item): string {
    "\n<evidence ref='" + item.reference + "' trusted='" + (if item.trusted then "true" else "false")
    + "' reason='" + item.reason + "'>"
  }

  const CLOSING := "</evidence>"

  /** The sections joined by line breaks; each evidence section starts with its line break. */
  function Render(req: Request, items: seq<Item>): string {
    if items == [] then Base(req)
    else
      var item := items[|items| - 1];
      Render(req, items[..|items| - 1]) + Opening(item) + item.content + CLOSING
  }

  /** One evidence section as the prompt shows it. */
  function Evidence(item: Item): string {
    "<evidence ref='" + item.reference + "' trusted='" + (if item.trusted then "true" else "false") + "' reason='"
    + item.reason + "'>" + item.content + "</evidence>"
  }

  /** The system line, the task line and one evidence section per item, in order. */
  function Sections(req: Request, items: seq<Item>): seq<string> {
    ["<system ref='" + req.systemRef + "'>approved instructions</system>", "<task>" + req.task + "</task>"]
    + seq(|items|, i requires 0 <= i < |items| => Evidence(items[i]))
  }

  /** `"\n".join(...)`. */
  function Join(lines: seq<string>): string {
    if lines == [] then "" else if |lines| == 1 then lines[0] else Join(lines[..|lines| - 1]) + "\n" + lines[|lines| - 1]
  }

  lemma Shift(n: string, a: string, b: string)
    ensures (n + a) + b == n + (a + b)
  {
  }

  lemma OpeningShifts(n: string, a: string, b: string, c: string, d: string, e: string, f: string, g: string)
    ensures (n + a) + b + c + d + e + f + g == n + (a + b + c + d + e + f + g)
  {
    Shift(n, a, b);
    Shift(n, a + b, c);
    Shift(n, a + b + c, d);
    Shift(n, a + b + c + d, e);
    Shift(n, a + b + c + d + e, f);
    Shift(n, a + b + c + d + e + f, g);
  }

  /** The opening is the line break and the head of the section. */
  lemma OpeningBreaks(item: Item)
    ensures Opening(item) + item.content + CLOSING == "\n" + Evidence(item)
  {
    var trusted := if item.trusted then "true" else "false";
    var head := "<evidence ref='" + item.reference + "' trusted='" + trusted + "' reason='" + item.reason + "'>";
    assert "\n<evidence ref='" == "\n" + "<evidence ref='";
    OpeningShifts("\n", "<evidence ref='", item.reference, "' trusted='", trusted, "' reason='", item.reason, "'>");
    assert Opening(item) == "\n" + head;
    Shift("\n", head, item.content);
    Shift("\n", head + item.content, CLOSING);
    assert Evidence(item) == head + item.content + CLOSING;
  }

  lemma BaseJoins(req: Request)
    ensures Base(req) == Join(Sections(req, []))
  {
    var system, task := "<system ref='" + req.systemRef + "'>approved instructions</system>", "<task>" + req.task + "</task>";
    assert Sections(req, []) == [system, task];
    assert [system, task][..1] == [system];
    var lead := system + "\n";
    Shift(lead, "<task>", req.task);
    Shift(lead, "<task>" + req.task, "</task>");
  }

  lemma JoinSnoc(lines: seq<string>, line: string)
    requires lines != []
    ensures Join(lines + [line]) == Join(lines) + "\n" + line
  {
    assert (lines + [line])[..|lines|] == lines;
  }

  /** The rendered prompt is its sections joined by line breaks. */
  lemma {:induction false} RenderJoins(req: Request, items: seq<Item>)
    ensures Render(req, items) == Join(Sections(req, items))
  {
    if items == [] {
      BaseJoins(req);
    } else {
      var n := |items| - 1;
      var before, item := items[..n], items[n];
      RenderJoins(req, before);
      assert Sections(req, items) == Sections(req, before) + [Evidence(item)];
      JoinSnoc(Sections(req, before), Evidence(item));
      OpeningBreaks(item);
      SectionAdded(Render(req, before), Opening(item), item.content, CLOSING, Evidence(item));
    }
  }

  lemma SectionAdded(front: string, opening: string, content: string, closing: string, section: string)
    requires opening + content + closing == "\n" + section
    ensures front + opening + content + closing == front + "\n" + section
  {
    Shift(front, opening, content);
    Shift(front, opening + content, closing);
    Shift(front, "\n", section);
  }

  predicate Fits(req: Request, items: seq<Item>) {
    Estimate(Render(req, items)) <= req.maxInputTokens
  }

  function Cut(item: Item, n: nat): Item
    requires n <= |item.content|
  {
    item.(content := item.content[..n])
  }

  lemma RenderBytes(req: Request, items: seq<Item>, item: Item)
    ensures Bytes(Render(req, items + [item])) ==
            Bytes(Render(req, items)) + Bytes(Opening(item)) + Bytes(item.content) + Bytes(CLOSING)
  {
    assert (items + [item])[..|items|] == items;
    BytesAppend(Render(req, items) + Opening(item) + item.content, CLOSING);
    BytesAppend(Render(req, items) + Opening(item), item.content);
    BytesAppend(Render(req, items), Opening(item));
  }

  lemma PrefixBytes(s: string, n: nat)
    requires n <= |s|
    ensures Bytes(s[..n]) <= Bytes(s)
  {
    assert s == s[..n] + s[n..];
    BytesAppend(s[..n], s[n..]);
  }

  lemma FitsSmaller(req: Request, small: seq<Item>, big: seq<Item>)
    requires Bytes(Render(req, small)) <= Bytes(Render(req, big)) && Fits(req, big)
    ensures Fits(req, small)
  {
  }

  /** Adding a section never makes the prompt smaller. */
  lemma FitsWithout(req: Request, items: seq<Item>, item: Item)
    requires Fits(req, items + [item])
    ensures Fits(req, items)
  {
    RenderBytes(req, items, item);
    FitsSmaller(req, items, items + [item]);
  }

  /** Nor does lengthening one. */
  lemma FitsShorter(req: Request, items: seq<Item>, item: Item, n: nat, m: nat)
    requires n <= m <= |item.content| && Fits(req, items + [Cut(item, m)])
    ensures Fits(req, items + [Cut(item, n)])
  {
    RenderBytes(req, items, Cut(item, n));
    RenderBytes(req, items, Cut(item, m));
    assert item.content[..m][..n] == item.content[..n];
    PrefixBytes(item.content[..m], n);
    FitsSmaller(req, items + [Cut(item, n)], items + [Cut(item, m)]);
  }

  // ----- truncation -----

  /** The longest prefix, up to n characters, with which the item still fits; 0 if none does. */
  function LongestFit(req: Request, selected: seq<Item>, item: Item, n: nat): (k: nat)
    requires n <= |item.content|
    ensures k <= n
    ensures k > 0 ==> Fits(req, selected + [Cut(item, k)])
    ensures forall j :: k < j <= n ==> !Fits(req, selected + [Cut(item, j)])
  {
    if n == 0 || Fits(req, selected + [Cut(item, n)]) then n else LongestFit(req, selected, item, n - 1)
  }

  /** The binary search of the source finds the same prefix as the search from the top. */
  method Truncate(req: Request, selected: seq<Item>, item: Item) returns (low: nat)
    ensures low == LongestFit(req, selected, item, |item.content|)
  {
    ghost var best := LongestFit(req, selected, item, |item.content|);
    low := 0;
    var high := |item.content|;
    while low < high
      invariant low <= best <= high <= |item.content|
    {
      var middle := (low + high + 1) / 2;
      if Estimate(Render(req, selected + [Cut(item, middle)])) <= req.maxInputTokens {
        low := middle;
      } else {
        if best >= middle {
          FitsShorter(req, selected, item, middle, best);
        }
        high := middle - 1;
      }
    }
  }

  // ----- order -----

  /** Python's string order: code point by code point. */
  predicate StringLe(a: string, b: string) {
    a == "" || (b != "" && (a[0] < b[0] || (a[0] == b[0] && StringLe(a[1..], b[1..]))))
  }

  lemma {:induction false} StringLeTotal(a: string, b: string)
    ensures StringLe(a, b) || StringLe(b, a)
  {
    if a != "" && b != "" && a[0] == b[0] {
      StringLeTotal(a[1..], b[1..]);
    }
  }

  lemma {:induction false} StringLeTransitive(a: string, b: string, c: string)
    requires StringLe(a, b) && StringLe(b, c)
    ensures StringLe(a, c)
  {
    if a != "" && a[0] == b[0] == c[0] {
      StringLeTransitive(a[1..], b[1..], c[1..]);
    }
  }

  /** Strings compare at their first difference, and a beginning comes before the whole. */
  lemma {:induction false} FirstDifferenceDecides(p: string, a: string, b: string)
    ensures a == "" ==> StringLe(p + a, p + b)
    ensures a != "" && b == "" ==> !StringLe(p + a, p + b)
    ensures a != "" && b != "" && a[0] != b[0] ==> (StringLe(p + a, p + b) <==> a[0] < b[0])
  {
    if p == "" {
      assert p + a == a && p + b == b;
    } else {
      FirstDifferenceDecides(p[1..], a, b);
      assert (p + a)[1..] == p[1..] + a && (p + b)[1..] == p[1..] + b;
    }
  }

  /** The sort key (-mandatory, -relevance, reference). */
  predicate ItemLe(a: Item, b: Item) {
    if a.mandatory != b.mandatory then a.mandatory
    else if a.relevance != b.relevance then a.relevance > b.relevance
    else StringLe(a.reference, b.reference)
  }

  lemma ItemLeTotal(a: Item, b: Item)
    ensures ItemLe(a, b) || ItemLe(b, a)
  {
    StringLeTotal(a.reference, b.reference);
  }

  lemma ItemLeTransitive(a: Item, b: Item, c: Item)
    requires ItemLe(a, b) && ItemLe(b, c)
    ensures ItemLe(a, c)
  {
    if StringLe(a.reference, b.reference) && StringLe(b.reference, c.reference) {
      StringLeTransitive(a.reference, b.reference, c.reference);
    }
  }

  ghost predicate Ordered(s: seq<Item>) {
    forall i, j :: 0 <= i < j < |s| ==> ItemLe(s[i], s[j])
  }

  function Insert(item: Item, s: seq<Item>): seq<Item> {
    if s == [] || ItemLe(item, s[0]) then [item] + s else [s[0]] + Insert(item, s[1..])
  }

  /** `sorted(...)`: a stable sort, so an item stays before later items with an equal key. */
  function Sort(s: seq<Item>): seq<Item> {
    if s == [] then [] else Insert(s[0], Sort(s[1..]))
  }

  lemma {:induction false} InsertContents(item: Item, s: seq<Item>)
    ensures multiset(Insert(item, s)) == multiset(s) + multiset{item}
  {
    if s != [] && !ItemLe(item, s[0]) {
      InsertContents(item, s[1..]);
      assert s == [s[0]] + s[1..];
    }
  }

  lemma {:induction false} InsertOrdered(item: Item, s: seq<Item>)
    requires Ordered(s)
    ensures Ordered(Insert(item, s))
  {
    var r := Insert(item, s);
    if s != [] {
      if ItemLe(item, s[0]) {
        forall j | 0 < j < |r|
          ensures ItemLe(item, r[j])
        {
          if j > 1 {
            ItemLeTransitive(item, s[0], s[j - 1]);
          }
        }
      } else {
        ItemLeTotal(item, s[0]);
        var rest := Insert(item, s[1..]);
        InsertOrdered(item, s[1..]);
        InsertContents(item, s[1..]);
        forall j | 0 <= j < |rest|
          ensures ItemLe(s[0], rest[j])
        {
          assert rest[j] in multiset(rest);
          assert rest[j] in s[1..] || rest[j] == item;
        }
      }
    }
  }

  lemma {:induction false} SortCorrect(s: seq<Item>)
    ensures Ordered(Sort(s)) && multiset(Sort(s)) == multiset(s)
  {
    if s != [] {
      SortCorrect(s[1..]);
      InsertOrdered(s[0], Sort(s[1..]));
      InsertContents(s[0], Sort(s[1..]));
      assert s == [s[0]] + s[1..];
    }
  }

  predicate SameRank(a: Item, b: Item) {
    ItemLe(a, b) && ItemLe(b, a)
  }

  /** The items that rank with x, in the order in which they occur. */
  function Ranked(s: seq<Item>, x: Item): seq<Item> {
    if s == [] then [] else (if SameRank(s[0], x) then [s[0]] else []) + Ranked(s[1..], x)
  }

  lemma {:induction false} InsertStable(item: Item, s: seq<Item>, x: Item)
    ensures Ranked(Insert(item, s), x) == (if SameRank(item, x) then [item] else []) + Ranked(s, x)
  {
    var r := Insert(item, s);
    if s == [] || ItemLe(item, s[0]) {
      assert r[1..] == s;
    } else {
      assert r[1..] == Insert(item, s[1..]);
      InsertStable(item, s[1..], x);
      if SameRank(item, x) && SameRank(s[0], x) {
        ItemLeTransitive(item, x, s[0]);
      }
    }
  }

  /** The sort is stable: items of equal rank keep their order. */
  lemma {:induction false} SortStable(s: seq<Item>, x: Item)
    ensures Ranked(Sort(s), x) == Ranked(s, x)
  {
    if s != [] {
      SortStable(s[1..], x);
      InsertStable(s[0], Sort(s[1..]), x);
    }
  }

  // ----- deduplication -----

  predicate SameKey(a: Item, b: Item) {
    a.reference == b.reference && a.version == b.version
  }

  predicate HasKey(s: seq<Item>, item: Item) {
    exists i :: 0 <= i < |s| && SameKey(s[i], item)
  }

  /** `unique.setdefault(...)` in order: the first item of each (reference, version) stays. */
  function Dedup(s: seq<Item>): seq<Item> {
    if s == [] then []
    else
      var d := Dedup(s[..|s| - 1]);
      if HasKey(d, s[|s| - 1]) then d else d + [s[|s| - 1]]
  }

  /** A kept item with the same key stands for this one and comes no later. */
  ghost predicate Represented(kept: seq<Item>, item: Item) {
    exists j :: 0 <= j < |kept| && SameKey(kept[j], item) && ItemLe(kept[j], item)
  }

  lemma RepresentedLonger(kept: seq<Item>, extra: Item, item: Item)
    requires Represented(kept, item)
    ensures Represented(kept + [extra], item)
  {
    var j :| 0 <= j < |kept| && SameKey(kept[j], item) && ItemLe(kept[j], item);
    assert (kept + [extra])[j] == kept[j];
  }

  lemma RepresentedLast(kept: seq<Item>, item: Item)
    ensures Represented(kept + [item], item)
  {
    ItemLeTotal(item, item);
    assert (kept + [item])[|kept|] == item;
  }

  ghost predicate KeysDistinct(s: seq<Item>) {
    forall i, j :: 0 <= i < j < |s| ==> !SameKey(s[i], s[j])
  }

  lemma {:induction false} DedupKeeps(s: seq<Item>)
    requires Ordered(s)
    ensures Ordered(Dedup(s)) && KeysDistinct(Dedup(s))
    ensures forall x :: x in Dedup(s) ==> x in s
  {
    if s != [] {
      var n := |s| - 1;
      DedupKeeps(s[..n]);
      forall x | x in Dedup(s[..n])
        ensures ItemLe(x, s[n])
      {
        var i :| 0 <= i < n && s[..n][i] == x;
        assert ItemLe(s[i], s[n]);
      }
    }
  }

  lemma {:induction false} DedupRepresents(s: seq<Item>, item: Item)
    requires Ordered(s) && item in s
    ensures Represented(Dedup(s), item)
  {
    var n := |s| - 1;
    var front, last, d := s[..n], s[n], Dedup(s[..n]);
    if item in front {
      DedupRepresents(front, item);
      RepresentedLonger(d, last, item);
    } else {
      assert item == last;
      RepresentedLast(d, last);
      if HasKey(d, last) {
        DedupKeeps(front);
        var j :| 0 <= j < |d| && SameKey(d[j], last);
        assert d[j] in front;
        var i :| 0 <= i < n && front[i] == d[j];
        assert ItemLe(s[i], s[n]);
      }
    }
  }

  /** An item whose reference or version differs from those of every item before it is kept. */
  lemma {:induction false} FirstIsKept(s: seq<Item>, i: nat)
    requires i < |s|
    requires forall k :: 0 <= k < i ==> s[k].reference != s[i].reference || s[k].version != s[i].version
    ensures s[i] in Dedup(s)
  {
    var n := |s| - 1;
    if i < n {
      FirstIsKept(s[..n], i);
    } else {
      var d := Dedup(s[..n]);
      KeptAreGiven(s[..n]);
      forall j | 0 <= j < |d|
        ensures !SameKey(d[j], s[n])
      {
        assert d[j] in d;
        var k :| 0 <= k < n && s[..n][k] == d[j];
      }
      assert Dedup(s) == d + [s[n]];
    }
  }

  lemma {:induction false} KeptAreGiven(s: seq<Item>)
    ensures forall x :: x in Dedup(s) ==> x in s
  {
    if s != [] {
      KeptAreGiven(s[..|s| - 1]);
    }
  }

  /** Deduplication keeps order, keeps only given items, one per key, and a representative no
      later than any item dropped. */
  lemma DedupFacts(s: seq<Item>)
    requires Ordered(s)
    ensures Ordered(Dedup(s)) && KeysDistinct(Dedup(s))
    ensures forall x :: x in Dedup(s) ==> x in s
    ensures forall x :: x in s ==> Represented(Dedup(s), x)
  {
    DedupKeeps(s);
    forall x | x in s
      ensures Represented(Dedup(s), x)
    {
      DedupRepresents(s, x);
    }
  }

  // ----- selection -----

  function TopOptional(items: seq<Item>): Option<int> {
    if items == [] then None
    else
      var rest := TopOptional(items[..|items| - 1]);
      var last := items[|items| - 1];
      if last.mandatory then rest
      else if rest.Some? && rest.value >= last.relevance then rest else Some(last.relevance)
  }

  /** At stage 0 only optional items of the highest optional relevance are considered. */
  predicate Skipped(item: Item, stage: nat, top: Option<int>) {
    !item.mandatory && stage == 0 && top.Some? && item.relevance < top.value
  }

  function Choose(req: Request, selected: seq<Item>, item: Item, stage: nat, top: Option<int>): seq<Item> {
    if Skipped(item, stage, top) then selected
    else if item.mandatory || Fits(req, selected + [item]) then selected + [item]
    else
      var n := LongestFit(req, selected, item, |item.content|);
      if n > 0 then selected + [Cut(item, n)] else selected
  }

  function Select(req: Request, items: seq<Item>, stage: nat, top: Option<int>): seq<Item> {
    if items == [] then []
    else Choose(req, Select(req, items[..|items| - 1], stage, top), items[|items| - 1], stage, top)
  }

  function Unique(req: Request): seq<Item> {
    Dedup(Sort(req.items))
  }

  function Selected(req: Request, stage: nat): seq<Item> {
    Select(req, Unique(req), stage, TopOptional(Unique(req)))
  }

  datatype Assembled = Assembled(prompt: string, tokens: nat, selected: seq<Item>)

  function Assembly(req: Request, stage: nat): Option<Assembled> {
    var selected := Selected(req, stage);
    var prompt := Render(req, selected);
    if Estimate(prompt) > req.maxInputTokens then None
    else Some(Assembled(prompt, Estimate(prompt), selected))
  }

  method Deduplicate(sorted: seq<Item>) returns (unique: seq<Item>)
    ensures unique == Dedup(sorted)
  {
    unique := [];
    var i := 0;
    while i < |sorted|
      invariant i <= |sorted| && unique == Dedup(sorted[..i])
    {
      assert sorted[..i + 1][..i] == sorted[..i];
      if !HasKey(unique, sorted[i]) {
        unique := unique + [sorted[i]];
      }
      i := i + 1;
    }
    assert sorted[..i] == sorted;
  }

  method HighestOptional(unique: seq<Item>) returns (top: Option<int>)
    ensures top == TopOptional(unique)
  {
    top := None;
    var i := 0;
    while i < |unique|
      invariant i <= |unique| && top == TopOptional(unique[..i])
    {
      assert unique[..i + 1][..i] == unique[..i];
      if !unique[i].mandatory && (top.None? || top.value < unique[i].relevance) {
        top := Some(unique[i].relevance);
      }
      i := i + 1;
    }
    assert unique[..i] == unique;
  }

  method SelectItems(req: Request, unique: seq<Item>, stage: nat, top: Option<int>) returns (selected: seq<Item>)
    ensures selected == Select(req, unique, stage, top)
  {
    selected := [];
    var i := 0;
    while i < |unique|
      invariant i <= |unique| && selected == Select(req, unique[..i], stage, top)
    {
      assert unique[..i + 1][..i] == unique[..i];
      var item := unique[i];
      i := i + 1;
      if Skipped(item, stage, top) {
        continue;
      }
      if item.mandatory {
        selected := selected + [item];
        continue;
      }
      if Fits(req, selected + [item]) {
        selected := selected + [item];
        continue;
      }
      var low := Truncate(req, selected, item);
      if low > 0 {
        selected := selected + [Cut(item, low)];
      }
    }
    assert unique[..i] == unique;
  }

  /** `_assemble` as the source runs it; None is the raised input-ceiling error. */
  method Assemble(req: Request, stage: nat) returns (result: Option<Assembled>)
    ensures result == Assembly(req, stage)
  {
    var unique := Deduplicate(Sort(req.items));
    var top := HighestOptional(unique);
    var selected := SelectItems(req, unique, stage, top);
    var prompt := Render(req, selected);
    if Estimate(prompt) > req.maxInputTokens {
      return None;
    }
    return Some(Assembled(prompt, Estimate(prompt), selected));
  }

  // ----- what selection keeps -----

  /** The deduplicated mandatory items, in order. */
  function Mandatory(items: seq<Item>): seq<Item> {
    if items == [] then []
    else if items[|items| - 1].mandatory then Mandatory(items[..|items| - 1]) + [items[|items| - 1]]
    else Mandatory(items[..|items| - 1])
  }

  lemma OrderedFront(items: seq<Item>)
    requires Ordered(items) && items != []
    ensures Ordered(items[..|items| - 1])
    ensures items[|items| - 1].mandatory ==> forall x :: x in items ==> x.mandatory
  {
    var n := |items| - 1;
    assert forall i :: 0 <= i < n ==> ItemLe(items[i], items[n]);
  }

  lemma {:induction false} AllMandatory(items: seq<Item>)
    requires forall x :: x in items ==> x.mandatory
    ensures Mandatory(items) == items
  {
    if items != [] {
      AllMandatory(items[..|items| - 1]);
      assert items == items[..|items| - 1] + [items[|items| - 1]];
    }
  }

  /** An optional item changes neither the mandatory part nor whether the selection fits. */
  lemma ChooseOptional(req: Request, selected: seq<Item>, item: Item, stage: nat, top: Option<int>)
    requires !item.mandatory
    ensures var after := Choose(req, selected, item, stage, top);
            selected <= after && (Fits(req, after) <==> Fits(req, selected))
  {
    var after := Choose(req, selected, item, stage, top);
    if after != selected {
      var n := LongestFit(req, selected, item, |item.content|);
      if Fits(req, selected + [item]) {
        FitsWithout(req, selected, item);
      } else {
        FitsWithout(req, selected, Cut(item, n));
      }
    }
  }

  /** The mandatory items come first in the selection, whole, and the selection fits exactly
      when they do. */
  lemma {:induction false} SelectMandatory(req: Request, items: seq<Item>, stage: nat, top: Option<int>)
    requires Ordered(items)
    ensures var selected := Select(req, items, stage, top);
            Mandatory(items) <= selected && (Fits(req, selected) <==> Fits(req, Mandatory(items)))
    ensures (forall x :: x in items ==> x.mandatory) ==> Select(req, items, stage, top) == items
  {
    if items != [] {
      var front, last := items[..|items| - 1], items[|items| - 1];
      OrderedFront(items);
      SelectMandatory(req, front, stage, top);
      if last.mandatory {
        AllMandatory(front);
        AllMandatory(items);
        assert forall x :: x in front ==> x in items;
        assert items == front + [last];
      } else {
        ChooseOptional(req, Select(req, front, stage, top), last, stage, top);
        assert last in items;
      }
    }
  }

  // ----- main results -----

  /** Assembly fails exactly when the base sections and the deduplicated mandatory items alone
      exceed the limit; otherwise the prompt fits, its token count is exact, and every mandatory
      item is in it whole and first. */
  lemma FailsIffMandatoryOverflow(req: Request, stage: nat)
    ensures var mandatory := Mandatory(Unique(req));
            && (Assembly(req, stage) == None <==> !Fits(req, mandatory))
            && (Assembly(req, stage).Some? ==>
                  var a := Assembly(req, stage).value;
                  && a.prompt == Render(req, a.selected) && a.tokens == Estimate(a.prompt) <= req.maxInputTokens
                  && mandatory <= a.selected)
  {
    SortCorrect(req.items);
    DedupFacts(Sort(req.items));
    SelectMandatory(req, Unique(req), stage, TopOptional(Unique(req)));
  }

  lemma {:induction false} MandatoryMembers(items: seq<Item>, x: Item)
    ensures x in Mandatory(items) <==> x in items && x.mandatory
  {
    if items != [] {
      MandatoryMembers(items[..|items| - 1], x);
      assert items == items[..|items| - 1] + [items[|items| - 1]];
    }
  }

  /** Deduplication loses no obligation: each mandatory input item has a mandatory item with its
      reference and version among those kept, and no key is kept twice. */
  lemma MandatoryRepresented(req: Request, item: Item)
    requires item in req.items && item.mandatory
    ensures exists x :: x in Mandatory(Unique(req)) && SameKey(x, item) && x in req.items
    ensures KeysDistinct(Unique(req))
  {
    var s := Sort(req.items);
    SortCorrect(req.items);
    DedupFacts(s);
    assert item in multiset(s);
    var d := Dedup(s);
    assert Represented(d, item);
    var j :| 0 <= j < |d| && SameKey(d[j], item) && ItemLe(d[j], item);
    MandatoryMembers(d, d[j]);
    assert d[j] in s;
    assert d[j] in multiset(s);
  }

  /** Where an entry of the selection comes from: a whole considered item, or an optional one
      cut to the longest prefix that fits after what was selected before it. */
  ghost predicate Justified(req: Request, items: seq<Item>, selected: seq<Item>, k: nat)
    requires k < |selected|
  {
    exists i :: 0 <= i < |items|
      && (selected[k] == items[i] || Shortened(req, selected[..k], items[i], selected[k]))
  }

  ghost predicate Shortened(req: Request, before: seq<Item>, item: Item, kept: Item) {
    && !item.mandatory && !Fits(req, before + [item])
    && 0 < |kept.content| < |item.content| && kept == Cut(item, |kept.content|)
    && Fits(req, before + [kept])
    && forall n :: |kept.content| < n <= |item.content| ==> !Fits(req, before + [Cut(item, n)])
  }

  /** An entry stays justified when items and entries are added behind it. */
  lemma JustifiedLonger(req: Request, front: seq<Item>, items: seq<Item>, before: seq<Item>, selected: seq<Item>, k: nat)
    requires k < |before| && Justified(req, front, before, k) && front <= items && before <= selected
    ensures Justified(req, items, selected, k)
  {
    assert selected[..k] == before[..k];
    var i :| 0 <= i < |front| && (before[k] == front[i] || Shortened(req, before[..k], front[i], before[k]));
    assert items[i] == front[i];
  }

  lemma CutJustified(req: Request, before: seq<Item>, item: Item)
    requires !item.mandatory && !Fits(req, before + [item])
    ensures var n := LongestFit(req, before, item, |item.content|);
            n > 0 ==> Shortened(req, before, item, Cut(item, n))
  {
    assert item.content[..|item.content|] == item.content;
    assert Cut(item, |item.content|) == item;
  }

  lemma {:induction false} SelectJustified(req: Request, items: seq<Item>, stage: nat, top: Option<int>, k: nat)
    requires k < |Select(req, items, stage, top)|
    ensures Justified(req, items, Select(req, items, stage, top), k)
  {
    var n := |items| - 1;
    var front, last := items[..n], items[n];
    var before, selected := Select(req, front, stage, top), Select(req, items, stage, top);
    assert selected == Choose(req, before, last, stage, top);
    if k < |before| {
      SelectJustified(req, front, stage, top, k);
      JustifiedLonger(req, front, items, before, selected, k);
    } else {
      assert selected[..k] == before && items[n] == last;
      if !(last.mandatory || Fits(req, before + [last])) {
        CutJustified(req, before, last);
      }
    }
  }

  /** Every entry of an assembled prompt is a whole item or an optional item cut to its longest
      fitting prefix. */
  lemma EntriesAreLongestPrefixes(req: Request, stage: nat, k: nat)
    requires k < |Selected(req, stage)|
    ensures Justified(req, Unique(req), Selected(req, stage), k)
  {
    SelectJustified(req, Unique(req), stage, TopOptional(Unique(req)), k);
  }

  /** Not even one character of the item fits behind what was selected before it. */
  ghost predicate NothingFits(req: Request, before: seq<Item>, item: Item) {
    && !item.mandatory && !Fits(req, before + [item])
    && forall n :: 0 < n <= |item.content| ==> !Fits(req, before + [Cut(item, n)])
  }

  /** The item is entry m, whole or shortened, or found no room behind the first m entries. */
  ghost predicate AccountedAt(req: Request, selected: seq<Item>, item: Item, m: nat) {
    && m <= |selected|
    && (|| (m < |selected| && (selected[m] == item || Shortened(req, selected[..m], item, selected[m])))
        || NothingFits(req, selected[..m], item))
  }

  lemma AccountedLonger(req: Request, before: seq<Item>, selected: seq<Item>, item: Item, m: nat)
    requires AccountedAt(req, before, item, m) && before <= selected
    ensures AccountedAt(req, selected, item, m)
  {
    assert selected[..m] == before[..m];
  }

  lemma ChooseAccounts(req: Request, before: seq<Item>, item: Item, stage: nat, top: Option<int>)
    requires !Skipped(item, stage, top)
    ensures AccountedAt(req, Choose(req, before, item, stage, top), item, |before|)
  {
    var selected := Choose(req, before, item, stage, top);
    assert selected[..|before|] == before;
    if !(item.mandatory || Fits(req, before + [item])) {
      CutJustified(req, before, item);
    }
  }

  lemma {:induction false} SelectAccounts(req: Request, items: seq<Item>, stage: nat, top: Option<int>, item: Item)
    returns (m: nat)
    requires item in items && !Skipped(item, stage, top)
    ensures AccountedAt(req, Select(req, items, stage, top), item, m)
  {
    var n := |items| - 1;
    var before := Select(req, items[..n], stage, top);
    if item == items[n] {
      m := |before|;
      ChooseAccounts(req, before, item, stage, top);
    } else {
      m := SelectAccounts(req, items[..n], stage, top, item);
      AccountedLonger(req, before, Select(req, items, stage, top), item, m);
    }
  }

  /** No considered item is lost: it is in the prompt whole, or cut to its longest fitting
      prefix, or not even its first character would fit where it was considered. */
  lemma EveryItemAccounted(req: Request, stage: nat, item: Item) returns (m: nat)
    requires item in Unique(req) && !Skipped(item, stage, TopOptional(Unique(req)))
    ensures AccountedAt(req, Selected(req, stage), item, m)
  {
    m := SelectAccounts(req, Unique(req), stage, TopOptional(Unique(req)), item);
  }

  lemma {:induction false} TopIsHighest(items: seq<Item>)
    ensures match TopOptional(items)
            case None => forall x :: x in items ==> x.mandatory
            case Some(top) =>
              && (forall x :: x in items && !x.mandatory ==> x.relevance <= top)
              && exists x :: x in items && !x.mandatory && x.relevance == top
  {
    if items != [] {
      var n := |items| - 1;
      TopIsHighest(items[..n]);
      assert items == items[..n] + [items[n]];
      assert items[n] in items;
    }
  }

  /** Stage 0 passes over an item exactly when it is optional and another optional item is
      strictly more relevant; stage 1 passes over none. */
  lemma SkippedIff(items: seq<Item>, item: Item, stage: nat)
    ensures Skipped(item, stage, TopOptional(items)) <==>
              stage == 0 && !item.mandatory && exists x :: x in items && !x.mandatory && x.relevance > item.relevance
  {
    TopIsHighest(items);
  }

  /** Considered at stage 0 means all earlier items were considered too. */
  lemma {:induction false} StagePrefix(req: Request, items: seq<Item>, top: Option<int>)
    requires Ordered(items)
    ensures Select(req, items, 0, top) <= Select(req, items, 1, top)
    ensures items != [] && !Skipped(items[|items| - 1], 0, top) ==>
              Select(req, items, 0, top) == Select(req, items, 1, top)
  {
    if items != [] {
      var n := |items| - 1;
      var front, last := items[..n], items[n];
      OrderedFront(items);
      StagePrefix(req, front, top);
      var zero, one := Select(req, front, 0, top), Select(req, front, 1, top);
      if !Skipped(last, 0, top) {
        if front != [] {
          assert ItemLe(items[n - 1], items[n]);
          assert !Skipped(front[n - 1], 0, top);
        }
        assert zero == one;
      } else {
        assert Select(req, items, 0, top) == zero;
        assert one <= Choose(req, one, last, 1, top);
      }
    }
  }

  /** Escalating to stage 1 keeps the stage 0 selection as its beginning. */
  lemma StageZeroIsPrefix(req: Request)
    ensures Selected(req, 0) <= Selected(req, 1)
  {
    SortCorrect(req.items);
    DedupFacts(Sort(req.items));
    StagePrefix(req, Unique(req), TopOptional(Unique(req)));
  }
}
