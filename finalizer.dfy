/**
  * The end-of-run rewrite of the log file (`finalFlush`). The file is read as
  * lines; everything up to the banner's closing border is kept as the header;
  * the rest is cut into entries (a date-prefixed line and the lines that
  * follow it), the entries are grouped by the `[title]` tag of their first
  * line, and the groups are written back in the order their titles were first
  * seen, each followed by a separator line.
  *
  * Every phase has a function that says what it computes and a method with
  * the loop that computes it.
  */
module Finalizer {
  import opened Text
  import opened Values

  /** Ten border characters ('═'): a line holding them closes the banner header. */
  const Border: string := Rule(10, '\U{2550}')

  /** Eighty dashes, written after every group. */
  const Separator: string := Rule(80, '-')

  /** The group of the entries whose first line carries no `[...]` tag. */
  const GeneralGroup: string := "__general__"

  /** The TypeError V8 raises when a continuation line comes before any entry. */
  const NoCurrentEntry: string := "Cannot read properties of null (reading 'lines')"

  predicate HasBorder(line: string)
  {
    Contains(line, Border)
  }

  // ---------------------------------------------------------------- header

  function HeaderEndFrom(lines: seq<string>, from: nat): (h: nat)
    requires 1 <= from
    ensures h == 0 || (from < h <= |lines| && HasBorder(lines[h - 1]))
    ensures forall i | from <= i < |lines| && (h == 0 || i < h - 1) :: !HasBorder(lines[i])
    decreases |lines| - from
  {
    if from >= |lines| then 0
    else if HasBorder(lines[from]) then from + 1
    else HeaderEndFrom(lines, from + 1)
  }

  /**
    * One past the first line after line 0 that holds a border, or 0 when there
    * is none: the header is `lines[..HeaderEnd(lines)]`.
    */
  function HeaderEnd(lines: seq<string>): (h: nat)
    ensures h <= |lines|
    ensures h != 0 ==> 2 <= h && HasBorder(lines[h - 1])
    ensures forall i | 0 < i < |lines| && (h == 0 || i < h - 1) :: !HasBorder(lines[i])
  {
    HeaderEndFrom(lines, 1)
  }

  /** The header search loop of `finalFlush`. */
  method FindHeaderEnd(lines: seq<string>) returns (headerEnd: nat)
    ensures headerEnd == HeaderEnd(lines)
  {
    headerEnd := 0;
    var i := 0;
    while i < |lines|
      invariant 0 <= i <= |lines|
      invariant forall k | 0 < k < i :: !HasBorder(lines[k])
    {
      if i > 0 && HasBorder(lines[i]) {
        headerEnd := i + 1;
        return;
      }
      i := i + 1;
    }
  }

  // --------------------------------------------------------------- entries

  /** `/^\d{4}-\d{2}-\d{2}/`: the line starts with a date. */
  predicate IsDatePrefixed(line: string)
  {
    |line| >= 10
    && IsDigit(line[0]) && IsDigit(line[1]) && IsDigit(line[2]) && IsDigit(line[3])
    && line[4] == '-' && IsDigit(line[5]) && IsDigit(line[6])
    && line[7] == '-' && IsDigit(line[8]) && IsDigit(line[9])
  }

  /** A log entry: its lines, first line first. */
  type Entry = e: seq<string> | |e| >= 1 witness [""]

  /** An entry starts at a dated line and holds no other dated line. */
  predicate WellFormed(e: Entry)
  {
    IsDatePrefixed(e[0]) && forall j | 1 <= j < |e| :: !IsDatePrefixed(e[j])
  }

  predicate AllWellFormed(es: seq<Entry>)
  {
    forall i | 0 <= i < |es| :: WellFormed(es[i])
  }

  /** The lines that are not blank, in order. */
  function NonBlank(lines: seq<string>): (r: seq<string>)
    ensures forall i | 0 <= i < |r| :: !IsBlank(r[i])
  {
    if lines == [] then []
    else
      var last := lines[|lines| - 1];
      NonBlank(lines[..|lines| - 1]) + (if IsBlank(last) then [] else [last])
  }

  /** Exactly the non-blank lines are kept. */
  lemma {:induction false} NonBlankFilter(lines: seq<string>)
    ensures forall x :: x in NonBlank(lines) <==> x in lines && !IsBlank(x)
  {
    if lines != [] {
      var init := lines[..|lines| - 1];
      NonBlankFilter(init);
      assert lines == init + [lines[|lines| - 1]];
    }
  }

  /** The kept lines stay in their order: filtering a concatenation filters each part. */
  lemma {:induction false} NonBlankAppend(a: seq<string>, b: seq<string>)
    ensures NonBlank(a + b) == NonBlank(a) + NonBlank(b)
    decreases |b|
  {
    if b == [] {
      assert a + b == a;
    } else {
      var n := |b| - 1;
      assert (a + b)[..|a + b| - 1] == a + b[..n];
      assert (a + b)[|a + b| - 1] == b[n];
      NonBlankAppend(a, b[..n]);
      var tail := if IsBlank(b[n]) then [] else [b[n]];
      assert NonBlank(b) == NonBlank(b[..n]) + tail;
      assert NonBlank(a + b) == NonBlank(a + b[..n]) + tail;
    }
  }

  /** The lines of the entries, one after the other. */
  function Flatten(es: seq<Entry>): seq<string>
  {
    if es == [] then [] else es[0] + Flatten(es[1..])
  }

  lemma {:induction false} FlattenSnoc(es: seq<Entry>, e: Entry)
    ensures Flatten(es + [e]) == Flatten(es) + e
  {
    if es != [] {
      assert (es + [e])[1..] == es[1..] + [e];
      FlattenSnoc(es[1..], e);
    }
  }

  /** The first dated line at or after `i`, or `|s|`. */
  function NextStart(s: seq<string>, i: nat): (k: nat)
    requires i <= |s|
    ensures i <= k <= |s|
    ensures k < |s| ==> IsDatePrefixed(s[k])
    ensures forall j | i <= j < k :: !IsDatePrefixed(s[j])
    decreases |s| - i
  {
    if i == |s| || IsDatePrefixed(s[i]) then i else NextStart(s, i + 1)
  }

  /** Cuts lines that start with a dated line into entries at every dated line. */
  function Chunks(s: seq<string>): seq<Entry>
    requires s == [] || IsDatePrefixed(s[0])
    decreases |s|
  {
    if s == [] then []
    else
      var k := NextStart(s, 1);
      var e: Entry := s[..k];
      [e] + Chunks(s[k..])
  }

  /** The entries are well formed and lose no line. */
  lemma {:induction false} ChunksSound(s: seq<string>)
    requires s == [] || IsDatePrefixed(s[0])
    ensures AllWellFormed(Chunks(s)) && Flatten(Chunks(s)) == s
    decreases |s|
  {
    if s != [] {
      var k := NextStart(s, 1);
      ChunksSound(s[k..]);
      assert s[..k] + s[k..] == s;
      var cs := Chunks(s);
      assert cs[1..] == Chunks(s[k..]);
    }
  }

  /** Well-formed entries that flatten to `s` are exactly the chunks of `s`. */
  lemma {:induction false} ChunksUnique(es: seq<Entry>, s: seq<string>)
    requires AllWellFormed(es) && Flatten(es) == s
    ensures s == [] || IsDatePrefixed(s[0])
    ensures Chunks(s) == es
    decreases |es|
  {
    if es != [] {
      var e := es[0];
      var rest := Flatten(es[1..]);
      assert s == e + rest;
      assert s[0] == e[0];
      assert AllWellFormed(es[1..]) by {
        forall i | 0 <= i < |es[1..]| ensures WellFormed(es[1..][i]) {
          assert es[1..][i] == es[i + 1];
        }
      }
      ChunksUnique(es[1..], rest);
      var k := NextStart(s, 1);
      assert forall j | 1 <= j < |e| :: s[j] == e[j];
      assert |e| < |s| ==> s[|e|] == rest[0] == es[1][0];
      assert k == |e|;
      assert s[..k] == e;
      assert s[k..] == rest;
    }
  }

  /**
    * The entry split of `finalFlush`: blank lines are dropped, a dated line
    * opens an entry, any other line continues the open one; a continuation
    * line with no open entry throws.
    */
  function SplitEntries(body: seq<string>): Result<seq<Entry>>
  {
    var nb := NonBlank(body);
    if nb != [] && !IsDatePrefixed(nb[0]) then Err(NoCurrentEntry) else Ok(Chunks(nb))
  }

  /** What the split promises: no line lost, no blank line kept, every entry well formed. */
  lemma SplitEntriesSound(body: seq<string>)
    ensures SplitEntries(body).Err? <==> NonBlank(body) != [] && !IsDatePrefixed(NonBlank(body)[0])
    ensures SplitEntries(body).Ok? ==>
      var es := SplitEntries(body).value;
      AllWellFormed(es) && Flatten(es) == NonBlank(body)
  {
    var nb := NonBlank(body);
    if nb == [] || IsDatePrefixed(nb[0]) {
      ChunksSound(nb);
    }
  }

  lemma NonBlankStep(body: seq<string>, i: nat)
    requires i < |body|
    ensures NonBlank(body[..i + 1]) == NonBlank(body[..i]) + (if IsBlank(body[i]) then [] else [body[i]])
  {
    assert body[..i + 1][..i] == body[..i];
  }

  lemma WellFormedSnoc(es: seq<Entry>, e: Entry)
    requires AllWellFormed(es) && WellFormed(e)
    ensures AllWellFormed(es + [e])
  {
    assert forall i | 0 <= i < |es| :: (es + [e])[i] == es[i];
  }

  /** The entry loop of `finalFlush`. */
  method SplitBody(body: seq<string>) returns (r: Result<seq<Entry>>)
    ensures r == SplitEntries(body)
  {
    var entries: seq<Entry> := [];
    var current: Entry := [""];
    var hasCurrent := false;
    for i := 0 to |body|
      invariant !hasCurrent ==> entries == [] && NonBlank(body[..i]) == []
      invariant hasCurrent ==> WellFormed(current) && AllWellFormed(entries)
      invariant hasCurrent ==> NonBlank(body[..i]) == Flatten(entries + [current])
    {
      var line := body[i];
      NonBlankStep(body, i);
      if IsBlank(line) {
        continue;
      }
      if IsDatePrefixed(line) {
        if hasCurrent {
          FlattenSnoc(entries, current);
          FlattenSnoc(entries + [current], [line]);
          WellFormedSnoc(entries, current);
          entries := entries + [current];
        } else {
          FlattenSnoc([], [line]);
        }
        current := [line];
        hasCurrent := true;
      } else {
        if !hasCurrent {
          assert body == body[..i + 1] + body[i + 1..];
          NonBlankAppend(body[..i + 1], body[i + 1..]);
          r := Err(NoCurrentEntry);
          return;
        }
        FlattenSnoc(entries, current);
        FlattenSnoc(entries, current + [line]);
        current := current + [line];
      }
    }
    assert body[..|body|] == body;
    if hasCurrent {
      WellFormedSnoc(entries, current);
      entries := entries + [current];
    }
    ChunksUnique(entries, NonBlank(body));
    r := Ok(entries);
  }

  // ------------------------------------------------------------------ tags

  /** The first `]` at or after `j`, or `|line|`. */
  function CloseFrom(line: string, j: nat): (k: nat)
    requires j <= |line|
    ensures j <= k <= |line|
    ensures k < |line| ==> line[k] == ']'
    ensures forall m | j <= m < k :: line[m] != ']'
    decreases |line| - j
  {
    if j == |line| || line[j] == ']' then j else CloseFrom(line, j + 1)
  }

  /** `/\[([^\]]+)\]/` matches at `i`, with its closing bracket at `k`. */
  predicate TagAt(line: string, i: int, k: int)
  {
    0 <= i && i + 1 < k < |line| && line[i] == '[' && line[k] == ']'
    && forall m | i < m < k :: line[m] != ']'
  }

  function TagFrom(line: string, i: nat): Option<string>
    requires i <= |line|
    decreases |line| - i
  {
    if i == |line| then None
    else if line[i] == '[' && i + 1 < CloseFrom(line, i + 1) < |line| then
      Some(line[i + 1..CloseFrom(line, i + 1)])
    else TagFrom(line, i + 1)
  }

  /** The capture of the first match of `/\[([^\]]+)\]/`, if any. */
  function Tag(line: string): Option<string>
  {
    TagFrom(line, 0)
  }

  /** A match at `i` closes at the first `]` after it. */
  lemma TagAtClose(line: string, i: nat)
    requires i < |line|
    ensures forall k | TagAt(line, i, k) :: k == CloseFrom(line, i + 1)
  {
    forall k | TagAt(line, i, k) ensures k == CloseFrom(line, i + 1) {
      var c := CloseFrom(line, i + 1);
      assert c <= k;
      assert c >= k;
    }
  }

  /**
    * The search finds the leftmost match: the tag is the text between the
    * brackets of the leftmost match, and there is no tag when nothing matches.
    */
  lemma {:induction false} TagFromSpec(line: string, i: nat)
    requires i <= |line|
    ensures TagFrom(line, i).None? ==> forall a, b | i <= a :: !TagAt(line, a, b)
    ensures TagFrom(line, i).Some? ==>
      exists a, b | i <= a ::
        TagAt(line, a, b) && TagFrom(line, i).value == line[a + 1..b]
        && forall a2, b2 | i <= a2 < a :: !TagAt(line, a2, b2)
    decreases |line| - i
  {
    if i < |line| {
      if line[i] == '[' && i + 1 < CloseFrom(line, i + 1) < |line| {
        assert TagAt(line, i, CloseFrom(line, i + 1));
      } else {
        TagAtClose(line, i);
        TagFromSpec(line, i + 1);
      }
    }
  }

  lemma {:induction false} TagFromSkip(line: string, i: nat, p: nat)
    requires i <= p <= |line|
    requires forall j | i <= j < p :: line[j] != '['
    ensures TagFrom(line, i) == TagFrom(line, p)
    decreases p - i
  {
    if i < p {
      TagFromSkip(line, i + 1, p);
    }
  }

  /**
    * A line that has no `[` before a bracketed, non-empty, `]`-free title is
    * tagged with that title.
    */
  lemma TagOfTitled(pre: string, title: string, post: string)
    requires '[' !in pre
    requires title != [] && ']' !in title
    ensures Tag(pre + "[" + title + "]" + post) == Some(title)
  {
    var line := pre + "[" + title + "]" + post;
    var p := |pre|;
    var k := p + 1 + |title|;
    assert forall j | 0 <= j < p :: line[j] == pre[j];
    TagFromSkip(line, 0, p);
    assert forall m | p + 1 <= m < k :: line[m] == title[m - p - 1];
    assert line[k] == ']';
    assert CloseFrom(line, p + 1) == k;
    assert line[p + 1..k] == title;
  }

  /** The group of an entry: its first line's tag, or the general group. */
  function GroupKey(e: Entry): string
  {
    match Tag(e[0])
    case Some(t) => t
    case None => GeneralGroup
  }

  // -------------------------------------------------------------- grouping

  /**
    * The `grouped` Map of `finalFlush`: its keys in insertion order, and for
    * every key the joined text of its entries.
    */
  datatype Grouping = Grouping(order: seq<string>, groups: map<string, seq<string>>)
  {
    ghost predicate Valid()
    {
      && (forall i, j | 0 <= i < j < |order| :: order[i] != order[j])
      && (forall k :: k in groups <==> k in order)
    }
  }

  function AddItem(g: Grouping, key: string, item: string): Grouping
  {
    if key in g.groups then Grouping(g.order, g.groups[key := g.groups[key] + [item]])
    else Grouping(g.order + [key], g.groups[key := [item]])
  }

  /** Groups the entries one after the other, as the grouping loop does. */
  function Group(es: seq<Entry>): Grouping
  {
    if es == [] then Grouping([], map[])
    else
      var last := es[|es| - 1];
      AddItem(Group(es[..|es| - 1]), GroupKey(last), Join(last, "\n"))
  }

  /** The grouping loop of `finalFlush`. */
  method GroupItems(es: seq<Entry>) returns (order: seq<string>, grouped: map<string, seq<string>>)
    ensures Grouping(order, grouped) == Group(es)
  {
    order, grouped := [], map[];
    for i := 0 to |es|
      invariant Grouping(order, grouped) == Group(es[..i])
    {
      assert es[..i + 1][..i] == es[..i];
      var e := es[i];
      assert Group(es[..i + 1]) == AddItem(Group(es[..i]), GroupKey(e), Join(e, "\n"));
      var title := GroupKey(e);
      ghost var before := Grouping(order, grouped);
      var item := Join(e, "\n");
      if title !in grouped {
        grouped := grouped[title := []];
        order := order + [title];
        assert [] + [item] == [item];
      }
      grouped := grouped[title := grouped[title] + [item]];
      assert Grouping(order, grouped) == AddItem(before, title, item);
    }
    assert es[..|es|] == es;
  }

  /** The group key of every entry, in order. */
  function Keys(es: seq<Entry>): (ks: seq<string>)
    ensures |ks| == |es|
    ensures forall i | 0 <= i < |es| :: ks[i] == GroupKey(es[i])
  {
    if es == [] then [] else Keys(es[..|es| - 1]) + [GroupKey(es[|es| - 1])]
  }

  /** The joined text of every entry, in order. */
  function Items(es: seq<Entry>): (items: seq<string>)
    ensures |items| == |es|
    ensures forall i | 0 <= i < |es| :: items[i] == Join(es[i], "\n")
  {
    if es == [] then [] else Items(es[..|es| - 1]) + [Join(es[|es| - 1], "\n")]
  }

  /** The joined entries whose key is `k`, in their original order. */
  function Select(es: seq<Entry>, k: string): seq<string>
  {
    if es == [] then []
    else
      var last := es[|es| - 1];
      Select(es[..|es| - 1], k) + (if GroupKey(last) == k then [Join(last, "\n")] else [])
  }

  /**
    * The grouping is a Map whose keys are the distinct group keys of the
    * entries, and whose value for a key holds the entries with that key, in
    * their original relative order.
    */
  lemma {:induction false} GroupContents(es: seq<Entry>)
    ensures Group(es).Valid()
    ensures forall k :: k in Group(es).order <==> k in Keys(es)
    ensures forall k :: Select(es, k) == if k in Group(es).groups then Group(es).groups[k] else []
  {
    if es != [] {
      var n := |es| - 1;
      var prefix := es[..n];
      GroupContents(prefix);
      assert Keys(es) == Keys(prefix) + [GroupKey(es[n])];
    }
  }

  /** The index of the first occurrence of `k` in `ks`. */
  function FirstIndex(ks: seq<string>, k: string): (i: nat)
    requires k in ks
    ensures i < |ks| && ks[i] == k && forall j | 0 <= j < i :: ks[j] != k
  {
    if ks[0] == k then 0 else 1 + FirstIndex(ks[1..], k)
  }

  lemma FirstIndexSnoc(ks: seq<string>, x: string, k: string)
    requires k in ks
    ensures FirstIndex(ks + [x], k) == FirstIndex(ks, k)
  {
    var i := FirstIndex(ks, k);
    var j := FirstIndex(ks + [x], k);
    assert (ks + [x])[i] == k;
  }

  /** The keys of `order` occur in `ks`, in the order of their first occurrences there. */
  predicate FirstSeenOrder(ks: seq<string>, order: seq<string>)
  {
    && (forall k | k in order :: k in ks)
    && (forall i, j | 0 <= i < j < |order| :: FirstIndex(ks, order[i]) < FirstIndex(ks, order[j]))
  }

  /** One more key seen: the first occurrences of the keys already in order do not move. */
  lemma FirstSeenSnoc(ks: seq<string>, key: string, order: seq<string>)
    requires FirstSeenOrder(ks, order)
    ensures FirstSeenOrder(ks + [key], order)
  {
    forall k | k in order ensures FirstIndex(ks + [key], k) == FirstIndex(ks, k) {
      FirstIndexSnoc(ks, key, k);
    }
  }

  /** A key not seen before is first seen last. */
  lemma FirstSeenNew(ks: seq<string>, key: string, order: seq<string>)
    requires FirstSeenOrder(ks, order) && key !in ks
    ensures FirstSeenOrder(ks + [key], order + [key])
  {
    FirstSeenSnoc(ks, key, order);
    assert FirstIndex(ks + [key], key) == |ks|;
    var o := order + [key];
    forall i, j | 0 <= i < j < |o|
      ensures FirstIndex(ks + [key], o[i]) < FirstIndex(ks + [key], o[j])
    {
      if j < |order| {
        assert o[i] == order[i] && o[j] == order[j];
      } else {
        assert o[i] == order[i];
      }
    }
  }

  /** Groups come out in the order in which their keys first occur among the entries. */
  lemma {:induction false} GroupFirstSeen(es: seq<Entry>)
    ensures forall k | k in Group(es).order :: k in Keys(es)
    ensures forall i, j | 0 <= i < j < |Group(es).order| ::
      FirstIndex(Keys(es), Group(es).order[i]) < FirstIndex(Keys(es), Group(es).order[j])
  {
    if es != [] {
      var n := |es| - 1;
      var prefix := es[..n];
      GroupFirstSeen(prefix);
      GroupContents(prefix);
      var key := GroupKey(es[n]);
      assert Keys(es) == Keys(prefix) + [key];
      var g := Group(prefix);
      assert Group(es) == AddItem(g, key, Join(es[n], "\n"));
      if key in g.groups {
        FirstSeenSnoc(Keys(prefix), key, g.order);
      } else {
        FirstSeenNew(Keys(prefix), key, g.order);
      }
      assert FirstSeenOrder(Keys(es), Group(es).order);
    }
  }

  /** The joined entries of the groups in `order`, group after group. */
  function Members(order: seq<string>, groups: map<string, seq<string>>): seq<string>
    requires forall i | 0 <= i < |order| :: order[i] in groups
  {
    if order == [] then []
    else Members(order[..|order| - 1], groups) + groups[order[|order| - 1]]
  }

  lemma {:induction false} MembersFrame(order: seq<string>, g1: map<string, seq<string>>, g2: map<string, seq<string>>)
    requires forall i | 0 <= i < |order| :: order[i] in g1 && order[i] in g2 && g1[order[i]] == g2[order[i]]
    ensures Members(order, g1) == Members(order, g2)
  {
    if order != [] {
      MembersFrame(order[..|order| - 1], g1, g2);
    }
  }

  lemma {:induction false} MembersGrow(order: seq<string>, groups: map<string, seq<string>>, k: string, item: string)
    requires forall i, j | 0 <= i < j < |order| :: order[i] != order[j]
    requires forall i | 0 <= i < |order| :: order[i] in groups
    requires k in order
    ensures multiset(Members(order, groups[k := groups[k] + [item]])) == multiset(Members(order, groups)) + multiset{item}
  {
    var n := |order| - 1;
    var prefix := order[..n];
    var g2 := groups[k := groups[k] + [item]];
    if order[n] == k {
      assert k !in prefix;
      MembersFrame(prefix, groups, g2);
    } else {
      assert k in prefix;
      MembersGrow(prefix, groups, k, item);
    }
  }

  /** Adding one entry adds exactly its text to the groups. */
  lemma AddItemPermutation(g: Grouping, key: string, item: string)
    requires g.Valid()
    ensures AddItem(g, key, item).Valid()
    ensures multiset(Members(AddItem(g, key, item).order, AddItem(g, key, item).groups))
         == multiset(Members(g.order, g.groups)) + multiset{item}
  {
    if key in g.groups {
      MembersGrow(g.order, g.groups, key, item);
    } else {
      var g2 := AddItem(g, key, item);
      MembersFrame(g.order, g.groups, g2.groups);
      assert g2.order[..|g.order|] == g.order;
    }
  }

  /** Grouping loses and duplicates nothing: the groups hold a permutation of the entries. */
  lemma {:induction false} GroupPermutation(es: seq<Entry>)
    ensures Group(es).Valid()
    ensures multiset(Members(Group(es).order, Group(es).groups)) == multiset(Items(es))
  {
    if es != [] {
      var n := |es| - 1;
      var prefix := es[..n];
      GroupPermutation(prefix);
      var item := Join(es[n], "\n");
      assert Group(es) == AddItem(Group(prefix), GroupKey(es[n]), item);
      AddItemPermutation(Group(prefix), GroupKey(es[n]), item);
      assert multiset(Items(es)) == multiset(Items(prefix)) + multiset{item};
    }
  }

  // ------------------------------------------------------------- rendering

  /** `sortedEntries`: for each key in order, its entries joined, then a separator. */
  function Blocks(order: seq<string>, groups: map<string, seq<string>>): (r: seq<string>)
    requires forall i | 0 <= i < |order| :: order[i] in groups
    ensures |r| == 2 * |order|
    ensures forall i | 0 <= i < |order| ::
      r[2 * i] == Join(groups[order[i]], "\n") && r[2 * i + 1] == Separator
  {
    if order == [] then []
    else
      var n := |order| - 1;
      Blocks(order[..n], groups) + [Join(groups[order[n]], "\n"), Separator]
  }

  /** The rendering loop of `finalFlush`. */
  method RenderBlocks(order: seq<string>, grouped: map<string, seq<string>>) returns (sorted: seq<string>)
    requires forall i | 0 <= i < |order| :: order[i] in grouped
    ensures sorted == Blocks(order, grouped)
  {
    sorted := [];
    for i := 0 to |order|
      invariant sorted == Blocks(order[..i], grouped)
    {
      assert order[..i + 1][..i] == order[..i];
      var items := grouped[order[i]];
      sorted := sorted + [Join(items, "\n")];
      sorted := sorted + [Separator];
    }
    assert order[..|order|] == order;
  }

  /** Every group of well-formed entries is non-empty and its text starts with a digit. */
  lemma {:induction false} GroupsStartWithDigit(es: seq<Entry>)
    requires AllWellFormed(es)
    ensures forall k | k in Group(es).groups ::
      var items := Group(es).groups[k];
      |items| >= 1 && |items[0]| >= 1 && IsDigit(items[0][0])
  {
    if es != [] {
      var n := |es| - 1;
      assert AllWellFormed(es[..n]) by {
        forall i | 0 <= i < n ensures WellFormed(es[..n][i]) {
          assert es[..n][i] == es[i];
        }
      }
      GroupsStartWithDigit(es[..n]);
      JoinHead(es[n], "\n");
    }
  }

  lemma {:induction false} SeparatorCount(order: seq<string>, groups: map<string, seq<string>>)
    requires forall i | 0 <= i < |order| :: order[i] in groups
    requires forall k | k in groups :: |groups[k]| >= 1 && |groups[k][0]| >= 1 && IsDigit(groups[k][0][0])
    ensures multiset(Blocks(order, groups))[Separator] == |order|
  {
    if order != [] {
      var n := |order| - 1;
      SeparatorCount(order[..n], groups);
      var text := Join(groups[order[n]], "\n");
      JoinHead(groups[order[n]], "\n");
      assert text[0] != Separator[0];
      assert Blocks(order, groups) == Blocks(order[..n], groups) + [text] + [Separator];
    }
  }

  /** Exactly one separator per distinct group, and one group per distinct key. */
  lemma SeparatorPerGroup(es: seq<Entry>)
    requires AllWellFormed(es)
    ensures Group(es).Valid()
    ensures multiset(Blocks(Group(es).order, Group(es).groups))[Separator] == |Group(es).order|
    ensures forall k :: k in Group(es).order <==> k in Keys(es)
  {
    GroupContents(es);
    GroupsStartWithDigit(es);
    SeparatorCount(Group(es).order, Group(es).groups);
  }

  // --------------------------------------------------------------- rewrite

  /** The grouped entries as `finalFlush` writes them: each group's text, then a separator. */
  function Rendered(es: seq<Entry>): seq<string>
  {
    var g := Group(es);
    GroupContents(es);
    Blocks(g.order, g.groups)
  }

  /** The header, a newline and the rendered groups; or the error of the entry split. */
  function Regrouped(content: string): Result<string>
  {
    var lines := Split(content);
    var h := HeaderEnd(lines);
    match SplitEntries(lines[h..])
    case Err(m) => Err(m)
    case Ok(es) => Ok(Join(lines[..h], "\n") + "\n" + Join(Rendered(es), "\n"))
  }

  /**
    * The new file text of `finalFlush`: the header lines, a newline, the
    * rendered groups and the footer; or the error that leaves the file as it
    * was.
    */
  function Rewrite(content: string, footer: string): Result<string>
  {
    match Regrouped(content)
    case Err(m) => Err(m)
    case Ok(text) => Ok(text + footer)
  }

  /** The header search, entry split, grouping and rendering of `finalFlush`. */
  method Regroup(content: string) returns (r: Result<string>)
    ensures r == Regrouped(content)
  {
    var lines := Split(content);
    var headerEnd := FindHeaderEnd(lines);
    var header := Join(lines[..headerEnd], "\n");
    var entries := SplitBody(lines[headerEnd..]);
    if entries.Err? {
      return Err(entries.message);
    }
    var order, grouped := GroupItems(entries.value);
    GroupContents(entries.value);
    var sorted := RenderBlocks(order, grouped);
    return Ok(header + "\n" + Join(sorted, "\n"));
  }

  /** A file whose body is empty or blank becomes its header, a newline and the footer. */
  lemma RewriteEmptyBody(content: string, footer: string)
    requires NonBlank(Split(content)[HeaderEnd(Split(content))..]) == []
    ensures Rewrite(content, footer) == Ok(Join(Split(content)[..HeaderEnd(Split(content))], "\n") + "\n" + footer)
  {
    var lines := Split(content);
    var h := HeaderEnd(lines);
    assert SplitEntries(lines[h..]) == Ok([]);
    var g := Group([]);
    assert g == Grouping([], map[]);
    assert Blocks(g.order, g.groups) == [];
    assert Rendered([]) == [];
    var head := Join(lines[..h], "\n") + "\n";
    assert head + "" == head;
  }

  /** The rewrite fails exactly when the first non-blank body line is not dated. */
  lemma RewriteFails(content: string, footer: string)
    ensures var body := NonBlank(Split(content)[HeaderEnd(Split(content))..]);
      Rewrite(content, footer).Err? <==> body != [] && !IsDatePrefixed(body[0])
  {
  }

  lemma HeaderEndPrefix(lines: seq<string>, more: seq<string>)
    requires HeaderEnd(lines) != 0
    ensures HeaderEnd(lines + more) == HeaderEnd(lines)
  {
    var h := HeaderEnd(lines);
    var all := lines + more;
    var h2 := HeaderEnd(all);
    assert forall j | 0 <= j < |lines| :: all[j] == lines[j];
  }

  /** The header lines alone have the same header. */
  lemma HeaderOfHeader(lines: seq<string>)
    requires HeaderEnd(lines) != 0
    ensures HeaderEnd(lines[..HeaderEnd(lines)]) == HeaderEnd(lines)
  {
    var h := HeaderEnd(lines);
    assert lines[..h][h - 1] == lines[h - 1];
  }

  /** A text that starts with a header's lines, joined and ending in a newline, has that header. */
  lemma HeaderKept(head: seq<string>, rest: string)
    requires |head| >= 1 && HeaderEnd(head) == |head|
    requires forall i | 0 <= i < |head| :: '\n' !in head[i]
    ensures HeaderEnd(Split(Join(head, "\n") + "\n" + rest)) == |head|
    ensures Split(Join(head, "\n") + "\n" + rest)[..|head|] == head
  {
    SplitAround(Join(head, "\n"), rest);
    SplitJoin(head);
    HeaderEndPrefix(head, Split(rest));
  }

  /**
    * A second rewrite finds the same header boundary and the same header
    * lines: the header is not duplicated. (The old separators and footer
    * lines do become continuation lines of the last entry.)
    */
  lemma RewriteKeepsHeader(content: string, footer: string)
    requires Rewrite(content, footer).Ok?
    requires HeaderEnd(Split(content)) != 0
    ensures var h := HeaderEnd(Split(content));
      var again := Split(Rewrite(content, footer).value);
      HeaderEnd(again) == h && again[..h] == Split(content)[..h]
  {
    var lines := Split(content);
    var h := HeaderEnd(lines);
    var head := lines[..h];
    var es := SplitEntries(lines[h..]).value;
    var rest := Join(Rendered(es), "\n") + footer;
    assert Rewrite(content, footer).value == Join(head, "\n") + "\n" + rest;
    HeaderOfHeader(lines);
    HeaderKept(head, rest);
  }
}
