// The session ledger: which ranges of which file contents were already emitted.
module ContextLedger {
  import opened Wrappers
  import opened ContextRanges

  // What one run finds at a path: bytes it cannot read, bytes that are not UTF-8
  // text, or text. The digest stands for the content.
  datatype FileSnapshot =
    | Unreadable
    | Undecodable(digest: string)
    | Text(digest: string, lines: seq<string>)

  type Repo = map<string, FileSnapshot>

  datatype LedgerItem =
    | Malformed
    | Entry(path: string, start: int, end: int, sha256: string)

  datatype LedgerLine =
    | Unparsable
    | Record(schema: string, repoKey: string, items: seq<LedgerItem>)

  // The text of a shown line; a clipped one is shown as its head and the mark "... <line clipped>".
  datatype LineText = Whole(text: string) | Clipped(head: string)

  datatype Line = Line(number: int, text: LineText)

  datatype Section = Section(path: string, start: int, end: int, lines: seq<Line>)

  datatype SourceLine = SourceLine(path: string, number: int)

  const CONTEXT_LEDGER_SCHEMA := "agent_code_graph_context_ledger_v1"

  function FileDigest(repo: Repo, path: string): Option<string> {
    if path !in repo || repo[path].Unreadable? then None else Some(repo[path].digest)
  }

  function RangesFor(seen: map<string, seq<Range>>, path: string): seq<Range> {
    if path in seen then seen[path] else []
  }

  predicate Relevant(line: LedgerLine, key: string) {
    line.Record? && line.schema == CONTEXT_LEDGER_SCHEMA && line.repoKey == key
  }

  // The item is well formed and its file still has the recorded content.
  predicate Current(item: LedgerItem, repo: Repo) {
    item.Entry? && 1 <= item.start <= item.end && FileDigest(repo, item.path) == Some(item.sha256)
  }

  function ItemRanges(items: seq<LedgerItem>, repo: Repo, path: string): seq<Range> {
    if |items| == 0 then []
    else
      var front, item := ItemRanges(items[..|items| - 1], repo, path), items[|items| - 1];
      if Current(item, repo) && item.path == path then front + [Range(item.start, item.end)] else front
  }

  // The ranges of path that the ledger records for repository key and that still hold in repo.
  function SeenRanges(ledger: seq<LedgerLine>, key: string, repo: Repo, path: string): seq<Range> {
    if |ledger| == 0 then []
    else
      var front, line := SeenRanges(ledger[..|ledger| - 1], key, repo, path), ledger[|ledger| - 1];
      if Relevant(line, key) then front + ItemRanges(line.items, repo, path) else front
  }

  lemma {:induction false} ItemRangesOneMore(items: seq<LedgerItem>, item: LedgerItem, repo: Repo, path: string)
    ensures var front := ItemRanges(items, repo, path);
            ItemRanges(items + [item], repo, path) ==
            if Current(item, repo) && item.path == path then front + [Range(item.start, item.end)] else front
  {
    assert (items + [item])[..|items|] == items;
  }

  lemma {:induction false} SeenRangesOneMore(ledger: seq<LedgerLine>, line: LedgerLine, key: string, repo: Repo, path: string)
    ensures var front := SeenRanges(ledger, key, repo, path);
            SeenRanges(ledger + [line], key, repo, path) ==
            if Relevant(line, key) then front + ItemRanges(line.items, repo, path) else front
  {
    assert (ledger + [line])[..|ledger|] == ledger;
  }

  // A record of the ledger says that the line was emitted, and the file is still the same.
  ghost predicate SaysEmitted(line: LedgerLine, item: LedgerItem, key: string, repo: Repo, path: string, n: int) {
    && line.Record? && line.schema == "agent_code_graph_context_ledger_v1" && line.repoKey == key
    && item in line.items && item.Entry? && item.path == path
    && 1 <= item.start <= n <= item.end
    && path in repo && !repo[path].Unreadable? && repo[path].digest == item.sha256
  }

  lemma {:induction false} ItemRangesMean(items: seq<LedgerItem>, repo: Repo, path: string, n: int)
    ensures Covered(ItemRanges(items, repo, path), n) <==>
            exists item :: item in items && Current(item, repo) && item.path == path && item.start <= n <= item.end
  {
    if |items| > 0 {
      var front, last := items[..|items| - 1], items[|items| - 1];
      assert items == front + [last];
      ItemRangesMean(front, repo, path, n);
      CoveredByOneMore(ItemRanges(front, repo, path), Range(if last.Entry? then last.start else 0,
                                                            if last.Entry? then last.end else 0));
    }
  }

  ghost predicate RecordsEmitted(line: LedgerLine, key: string, repo: Repo, path: string, n: int) {
    exists item :: item in LineItems(line) && SaysEmitted(line, item, key, repo, path, n)
  }

  function LineItems(line: LedgerLine): seq<LedgerItem> {
    if line.Record? then line.items else []
  }

  lemma {:induction false} LineMeans(line: LedgerLine, key: string, repo: Repo, path: string, n: int)
    ensures RecordsEmitted(line, key, repo, path, n) <==>
            Relevant(line, key) && Covered(ItemRanges(line.items, repo, path), n)
  {
    if Relevant(line, key) {
      ItemRangesMean(line.items, repo, path, n);
      forall item | item in line.items
        ensures SaysEmitted(line, item, key, repo, path, n) <==>
                Current(item, repo) && item.path == path && item.start <= n <= item.end
      {
      }
    }
  }

  // The ledger covers a line if and only if one of its records says so.
  lemma {:induction false} SeenRangesMean(ledger: seq<LedgerLine>, key: string, repo: Repo, path: string, n: int)
    ensures Covered(SeenRanges(ledger, key, repo, path), n) <==>
            exists line :: line in ledger && RecordsEmitted(line, key, repo, path, n)
  {
    if |ledger| > 0 {
      var front, last := ledger[..|ledger| - 1], ledger[|ledger| - 1];
      assert ledger == front + [last];
      SeenRangesMean(front, key, repo, path, n);
      LineMeans(last, key, repo, path, n);
      if Relevant(last, key) {
        CoveredByEither(SeenRanges(front, key, repo, path), ItemRanges(last.items, repo, path), n);
      }
      assert forall line :: line in ledger <==> line in front || line == last;
    }
  }

  ghost predicate HoldsRangesOf(seen: map<string, seq<Range>>, ledger: seq<LedgerLine>, key: string, repo: Repo) {
    forall path :: RangesFor(seen, path) == SeenRanges(ledger, key, repo, path)
  }

  // read_context_ledger; None is a ledger file that is absent or unreadable.
  method ReadContextLedger(file: Option<seq<LedgerLine>>, key: string, repo: Repo)
    returns (seen: map<string, seq<Range>>)
    ensures HoldsRangesOf(seen, if file.None? then [] else file.value, key, repo)
  {
    seen := map[];
    if file.None? {
      return;
    }
    for i := 0 to |file.value|
      invariant HoldsRangesOf(seen, file.value[..i], key, repo)
    {
      var line := file.value[i];
      ghost var before := file.value[..i];
      assert file.value[..i + 1] == before + [line];
      forall path {
        SeenRangesOneMore(before, line, key, repo, path);
      }
      if Relevant(line, key) {
        seen := AddCurrentRanges(seen, line.items, repo);
      }
    }
    assert file.value[..|file.value|] == file.value;
  }

  ghost predicate AddsRangesOf(seen': map<string, seq<Range>>, seen: map<string, seq<Range>>,
                               items: seq<LedgerItem>, repo: Repo) {
    forall path :: RangesFor(seen', path) == RangesFor(seen, path) + ItemRanges(items, repo, path)
  }

  function AddItem(seen: map<string, seq<Range>>, item: LedgerItem, repo: Repo): map<string, seq<Range>> {
    if Current(item, repo) then
      seen[item.path := RangesFor(seen, item.path) + [Range(item.start, item.end)]]
    else
      seen
  }

  lemma {:induction false} AddItemAdds(seen': map<string, seq<Range>>, seen: map<string, seq<Range>>,
                    items: seq<LedgerItem>, item: LedgerItem, repo: Repo)
    requires AddsRangesOf(seen', seen, items, repo)
    ensures AddsRangesOf(AddItem(seen', item, repo), seen, items + [item], repo)
  {
    forall path
      ensures RangesFor(AddItem(seen', item, repo), path) ==
              RangesFor(seen, path) + ItemRanges(items + [item], repo, path)
    {
      ItemRangesOneMore(items, item, repo, path);
      if Current(item, repo) && item.path == path {
        Associative(RangesFor(seen, path), ItemRanges(items, repo, path), [Range(item.start, item.end)]);
      }
    }
  }

  lemma {:induction false} Associative<T>(a: seq<T>, b: seq<T>, c: seq<T>)
    ensures (a + b) + c == a + (b + c)
  {
  }

  method AddCurrentRanges(seen: map<string, seq<Range>>, items: seq<LedgerItem>, repo: Repo)
    returns (seen': map<string, seq<Range>>)
    ensures AddsRangesOf(seen', seen, items, repo)
  {
    seen' := seen;
    for j := 0 to |items|
      invariant AddsRangesOf(seen', seen, items[..j], repo)
    {
      assert items[..j + 1] == items[..j] + [items[j]];
      AddItemAdds(seen', seen, items[..j], items[j], repo);
      seen' := AddItem(seen', items[j], repo);
    }
    assert items[..|items|] == items;
  }

  function LedgerItems(sections: seq<Section>, repo: Repo): seq<LedgerItem> {
    if |sections| == 0 then []
    else
      var front, section := LedgerItems(sections[..|sections| - 1], repo), sections[|sections| - 1];
      var digest := FileDigest(repo, section.path);
      if digest.None? then front else front + [Entry(section.path, section.start, section.end, digest.value)]
  }

  function Appended(ledger: seq<LedgerLine>, sections: seq<Section>, key: string, repo: Repo): seq<LedgerLine> {
    var items := LedgerItems(sections, repo);
    if items == [] then ledger else ledger + [Record(CONTEXT_LEDGER_SCHEMA, key, items)]
  }

  // append_context_ledger
  method AppendContextLedger(sections: seq<Section>, ledger: seq<LedgerLine>, key: string, repo: Repo)
    returns (ledger': seq<LedgerLine>)
    ensures ledger' == Appended(ledger, sections, key, repo)
  {
    var ranges := [];
    for i := 0 to |sections|
      invariant ranges == LedgerItems(sections[..i], repo)
    {
      var section := sections[i];
      assert sections[..i + 1][..i] == sections[..i];
      var digest := FileDigest(repo, section.path);
      if digest.None? {
        continue;
      }
      ranges := ranges + [Entry(section.path, section.start, section.end, digest.value)];
    }
    assert sections[..|sections|] == sections;
    if ranges == [] {
      return ledger;
    }
    ledger' := ledger + [Record(CONTEXT_LEDGER_SCHEMA, key, ranges)];
  }

  function Located(path: string, numbers: seq<int>): (s: seq<SourceLine>)
    ensures |s| == |numbers|
    ensures forall i :: 0 <= i < |s| ==> s[i] == SourceLine(path, numbers[i])
  {
    seq(|numbers|, i requires 0 <= i < |numbers| => SourceLine(path, numbers[i]))
  }

  // The source lines that sections show, in order.
  function Emitted(sections: seq<Section>): seq<SourceLine> {
    if |sections| == 0 then []
    else
      var section := sections[|sections| - 1];
      Emitted(sections[..|sections| - 1]) + Located(section.path, Interval(section.start, section.end))
  }

  predicate SameContent(repo: Repo, repo': Repo, path: string) {
    FileDigest(repo, path).Some? && FileDigest(repo, path) == FileDigest(repo', path)
  }

  ghost predicate ProperSections(sections: seq<Section>) {
    forall s :: s in sections ==> 1 <= s.start <= s.end
  }

  lemma {:induction false} LocatedMembers(path: string, start: int, end: int, line: SourceLine)
    ensures line in Located(path, Interval(start, end)) <==> line.path == path && start <= line.number <= end
  {
    var s := Located(path, Interval(start, end));
    IntervalMembers(start, end);
    if line.path == path && start <= line.number <= end {
      assert s[line.number - start] == line;
    }
  }

  lemma {:induction false} CoveredByOneMoreItem(items: seq<LedgerItem>, item: LedgerItem, repo: Repo, path: string, n: int)
    ensures Covered(ItemRanges(items + [item], repo, path), n) <==>
            Covered(ItemRanges(items, repo, path), n) ||
            (Current(item, repo) && item.path == path && item.start <= n <= item.end)
  {
    ItemRangesOneMore(items, item, repo, path);
    if Current(item, repo) && item.path == path {
      CoveredByOneMore(ItemRanges(items, repo, path), Range(item.start, item.end));
    }
  }

  lemma {:induction false} EmittedOneMore(sections: seq<Section>, section: Section, line: SourceLine)
    ensures line in Emitted(sections + [section]) <==>
            line in Emitted(sections) || (line.path == section.path && section.start <= line.number <= section.end)
  {
    assert (sections + [section])[..|sections|] == sections;
    LocatedMembers(section.path, section.start, section.end, line);
  }

  lemma {:induction false} RecordedItems(sections: seq<Section>, repo: Repo, repo': Repo, path: string, n: int)
    requires ProperSections(sections)
    ensures Covered(ItemRanges(LedgerItems(sections, repo), repo', path), n) <==>
            SameContent(repo, repo', path) && SourceLine(path, n) in Emitted(sections)
  {
    if |sections| > 0 {
      var front, section := sections[..|sections| - 1], sections[|sections| - 1];
      assert sections == front + [section];
      RecordedItems(front, repo, repo', path, n);
      EmittedOneMore(front, section, SourceLine(path, n));
      var digest := FileDigest(repo, section.path);
      if digest.Some? {
        var item := Entry(section.path, section.start, section.end, digest.value);
        CoveredByOneMoreItem(LedgerItems(front, repo), item, repo', path, n);
      }
    }
  }

  lemma {:induction false} CoveredByEither(a: seq<Range>, b: seq<Range>, n: int)
    ensures Covered(a + b, n) <==> Covered(a, n) || Covered(b, n)
  {
    if b == [] {
      assert a + b == a;
    } else {
      var front, last := b[..|b| - 1], b[|b| - 1];
      CoveredByEither(a, front, n);
      assert a + b == (a + front) + [last] && b == front + [last];
      CoveredByOneMore(a + front, last);
      CoveredByOneMore(front, last);
    }
  }

  // What one append means for every later read: exactly the emitted lines of files
  // that still have the content they were emitted with become seen.
  lemma {:induction false} AppendMarksExactlyTheEmitted(ledger: seq<LedgerLine>, sections: seq<Section>, key: string,
                                     repo: Repo, repo': Repo, path: string, n: int)
    requires ProperSections(sections)
    ensures Covered(SeenRanges(Appended(ledger, sections, key, repo), key, repo', path), n) <==>
            Covered(SeenRanges(ledger, key, repo', path), n) ||
            (SameContent(repo, repo', path) && SourceLine(path, n) in Emitted(sections))
  {
    var items := LedgerItems(sections, repo);
    RecordedItems(sections, repo, repo', path, n);
    if items != [] {
      var line := Record(CONTEXT_LEDGER_SCHEMA, key, items);
      SeenRangesOneMore(ledger, line, key, repo', path);
      CoveredByEither(SeenRanges(ledger, key, repo', path), ItemRanges(items, repo', path), n);
    }
  }

  // A run for one repository never hides lines of another one.
  lemma {:induction false} AppendKeepsOtherRepositories(ledger: seq<LedgerLine>, sections: seq<Section>, key: string,
                                     repo: Repo, other: string, repo': Repo, path: string)
    requires other != key
    ensures SeenRanges(Appended(ledger, sections, key, repo), other, repo', path) ==
            SeenRanges(ledger, other, repo', path)
  {
    var items := LedgerItems(sections, repo);
    if items != [] {
      SeenRangesOneMore(ledger, Record(CONTEXT_LEDGER_SCHEMA, key, items), other, repo', path);
    }
  }
}
