/**
 * The node content store (`content.service.ts`): a markdown text is cut into
 * sections at every line that begins with `# `; each section's first line is
 * a node id and the rest its content. The text itself is a parameter (the
 * application bundles it as a file).
 */
module Content {
  import opened Common

  // ---------------------------------------------------------------------------
  // markdown.split(/^# /m)

  /** Whether position `j` of `t` starts a line, when `t` itself starts one exactly if `lineStart`. */
  predicate LineStartIn(t: string, j: nat, lineStart: bool)
    requires j < |t|
  {
    if j == 0 then lineStart else IsLineTerminator(t[j - 1])
  }

  /** A cut of the split: `# ` at the start of a line. */
  predicate HeadingAt(t: string, j: nat, lineStart: bool)
    requires j < |t|
  {
    j + 1 < |t| && LineStartIn(t, j, lineStart) && t[j] == '#' && t[j + 1] == ' '
  }

  /** No line of `t` starts with `# `. */
  predicate HeadingFree(t: string, lineStart: bool) {
    forall j :: 0 <= j < |t| ==> !HeadingAt(t, j, lineStart)
  }

  /**
   * `s.split(/^# /m)` on the rest `s` of the text, `lineStart` telling
   * whether `s` starts a line: the pieces between the cuts, the `# ` of each
   * cut dropped; a cut at the very start gives an empty first piece.
   */
  function SplitFrom(s: string, lineStart: bool): (r: seq<string>)
    ensures |r| >= 1
    decreases |s|
  {
    if s == [] then [""]
    else if lineStart && |s| >= 2 && s[0] == '#' && s[1] == ' ' then [""] + SplitFrom(s[2..], false)
    else
      var rest := SplitFrom(s[1..], IsLineTerminator(s[0]));
      [[s[0]] + rest[0]] + rest[1..]
  }

  /** The sections of a whole text. */
  function SplitHeadings(markdown: string): seq<string> {
    SplitFrom(markdown, true)
  }

  /** Putting the `# ` back between the pieces gives the text back: the split loses only the cut markers. */
  lemma {:induction false} JoinSplitHeadings(s: string, lineStart: bool)
    ensures Join(SplitFrom(s, lineStart), "# ") == s
    decreases |s|
  {
    if s != [] {
      if lineStart && |s| >= 2 && s[0] == '#' && s[1] == ' ' {
        JoinSplitHeadings(s[2..], false);
        assert s == "# " + s[2..];
      } else {
        JoinSplitHeadings(s[1..], IsLineTerminator(s[0]));
        var rest := SplitFrom(s[1..], IsLineTerminator(s[0]));
        if |rest| == 1 {
          assert s == [s[0]] + s[1..];
        } else {
          assert Join(rest, "# ") == rest[0] + "# " + Join(rest[1..], "# ");
          assert s == [s[0]] + s[1..];
        }
      }
    }
  }

  /**
   * A text with no heading line, ending at a line end, stays whole: it is
   * glued to the first piece of what follows it.
   */
  lemma {:induction false} SplitHeadingFree(t: string, rest: string, lineStart: bool)
    requires HeadingFree(t, lineStart) && t != [] && IsLineTerminator(t[|t| - 1])
    ensures var r := SplitFrom(rest, true);
      SplitFrom(t + rest, lineStart) == [t + r[0]] + r[1..]
    decreases |t|
  {
    var s := t + rest;
    var r := SplitFrom(rest, true);
    assert s[0] == t[0];
    assert !(lineStart && |s| >= 2 && s[0] == '#' && s[1] == ' ') by {
      if |t| >= 2 {
        assert !HeadingAt(t, 0, lineStart);
      }
    }
    var rr := SplitFrom(s[1..], IsLineTerminator(t[0]));
    assert SplitFrom(s, lineStart) == [[t[0]] + rr[0]] + rr[1..];
    if |t| == 1 {
      assert s[1..] == rest;
      assert [t[0]] == t;
    } else {
      assert s[1..] == t[1..] + rest;
      forall j | 0 <= j < |t[1..]| ensures !HeadingAt(t[1..], j, IsLineTerminator(t[0])) {
        assert !HeadingAt(t, j + 1, lineStart);
      }
      SplitHeadingFree(t[1..], rest, IsLineTerminator(t[0]));
      assert rr == [t[1..] + r[0]] + r[1..];
      assert [t[0]] + (t[1..] + r[0]) == t + r[0];
    }
  }

  // ---------------------------------------------------------------------------
  // parseMarkdownSections

  /**
   * The entry one section adds: none for a blank section; otherwise the
   * trimmed first line as the id and the trimmed other lines as the content,
   * when both are non-empty.
   */
  function SectionEntry(section: string): (r: Option<(string, string)>)
    ensures r.Some? ==> r.value.0 != "" && IsTrimmed(r.value.0) && r.value.1 != "" && IsTrimmed(r.value.1)
  {
    if Trim(section) == "" then None
    else
      var lines := Split(section, '\n');
      var nodeId := Trim(lines[0]);
      var content := Trim(Join(lines[1..], "\n"));
      if nodeId != "" && content != "" then Some((nodeId, content)) else None
  }

  /** The entries the sections add, one per section. */
  function Entries(sections: seq<string>): (r: seq<Option<(string, string)>>)
    ensures |r| == |sections| && forall k :: 0 <= k < |r| ==> r[k] == SectionEntry(sections[k])
  {
    seq(|sections|, k requires 0 <= k < |sections| => SectionEntry(sections[k]))
  }

  /** Writes one entry, if any, over the map. */
  function AddEntry(m: map<string, string>, e: Option<(string, string)>): map<string, string> {
    match e
    case Some((id, content)) => m[id := content]
    case None => m
  }

  /** The map the entries build, each written over any earlier one with the same id. */
  function FoldEntries(es: seq<Option<(string, string)>>): map<string, string> {
    if es == [] then map[] else AddEntry(FoldEntries(es[..|es| - 1]), es[|es| - 1])
  }

  /** `parseMarkdownSections(markdown)`. */
  function ParseSections(markdown: string): map<string, string> {
    FoldEntries(Entries(SplitHeadings(markdown)))
  }

  /** `parseMarkdownSections`: split at the headings, then the loop over the sections. */
  method ParseMarkdownSections(markdown: string) returns (contentMap: map<string, string>)
    ensures contentMap == ParseSections(markdown)
  {
    var sections := SplitHeadings(markdown);
    contentMap := ReadSections(sections);
  }

  /** One more entry writes over the map the earlier ones built. */
  lemma FoldStep(es: seq<Option<(string, string)>>, i: int)
    requires 0 <= i < |es|
    ensures FoldEntries(es[..i + 1]) == AddEntry(FoldEntries(es[..i]), es[i])
  {
    assert es[..i + 1][..i] == es[..i];
  }

  /** The loop of `parseMarkdownSections`: each section's id and content written into the map in turn. */
  method ReadSections(sections: seq<string>) returns (contentMap: map<string, string>)
    ensures contentMap == FoldEntries(Entries(sections))
  {
    contentMap := map[];
    ghost var es := Entries(sections);
    for i := 0 to |sections|
      invariant contentMap == FoldEntries(es[..i])
    {
      FoldStep(es, i);
      var section := sections[i];
      if Trim(section) == "" {
        continue;
      }
      var lines := Split(section, '\n');
      var nodeId := Trim(lines[0]);
      var content := Trim(Join(lines[1..], "\n"));
      if nodeId != "" && content != "" {
        contentMap := contentMap[nodeId := content];
      }
    }
    assert es[..|sections|] == es;
  }

  /**
   * A later entry wins: an id is in the map exactly when some entry carries
   * it, and then it maps to the content of the last such entry.
   */
  lemma {:induction false} LastEntryWins(es: seq<Option<(string, string)>>, id: string)
    ensures id in FoldEntries(es) <==> exists k :: 0 <= k < |es| && es[k].Some? && es[k].value.0 == id
    ensures id in FoldEntries(es) ==>
      exists k :: 0 <= k < |es| && es[k] == Some((id, FoldEntries(es)[id]))
        && forall j :: k < j < |es| && es[j].Some? ==> es[j].value.0 != id
  {
    if es != [] {
      var n := |es|;
      var front := es[..n - 1];
      LastEntryWins(front, id);
      if !(es[n - 1].Some? && es[n - 1].value.0 == id) {
        assert id in FoldEntries(es) <==> id in FoldEntries(front);
        if id in FoldEntries(es) {
          assert FoldEntries(es)[id] == FoldEntries(front)[id];
          var k :| 0 <= k < |front| && front[k] == Some((id, FoldEntries(front)[id]))
            && forall j :: k < j < |front| && front[j].Some? ==> front[j].value.0 != id;
          assert es[k] == front[k];
          forall j | k < j < n && es[j].Some? ensures es[j].value.0 != id {
            if j < n - 1 { assert es[j] == front[j]; }
          }
        }
        forall k | 0 <= k < n && es[k].Some? && es[k].value.0 == id ensures id in FoldEntries(front) {
          assert front[k] == es[k];
        }
      }
    }
  }

  /**
   * A later section wins: an id is in the parsed map exactly when some
   * section adds it, and then it maps to the content of the last such section.
   */
  lemma LastSectionWins(markdown: string, id: string)
    ensures var sections := SplitHeadings(markdown);
      && (id in ParseSections(markdown) <==>
            exists k :: 0 <= k < |sections| && SectionEntry(sections[k]).Some? && SectionEntry(sections[k]).value.0 == id)
      && (id in ParseSections(markdown) ==>
            exists k :: 0 <= k < |sections| && SectionEntry(sections[k]) == Some((id, ParseSections(markdown)[id]))
              && forall j :: k < j < |sections| && SectionEntry(sections[j]).Some? ==> SectionEntry(sections[j]).value.0 != id)
  {
    LastEntryWins(Entries(SplitHeadings(markdown)), id);
  }

  /** Every id and every content in the parsed map is non-empty and trimmed. */
  lemma ParsedTrimmed(markdown: string)
    ensures var m := ParseSections(markdown);
      forall id :: id in m ==> id != "" && IsTrimmed(id) && m[id] != "" && IsTrimmed(m[id])
  {
    var m := ParseSections(markdown);
    forall id | id in m ensures id != "" && IsTrimmed(id) && m[id] != "" && IsTrimmed(m[id]) {
      LastEntryWins(Entries(SplitHeadings(markdown)), id);
    }
  }

  /** A text without a cut is not split at all. */
  lemma {:induction false} SplitOfHeadingFree(t: string, lineStart: bool)
    requires HeadingFree(t, lineStart)
    ensures SplitFrom(t, lineStart) == [t]
    decreases |t|
  {
    if t != [] {
      assert !(lineStart && |t| >= 2 && t[0] == '#' && t[1] == ' ') by {
        if |t| >= 2 {
          assert !HeadingAt(t, 0, lineStart);
        }
      }
      forall j | 0 <= j < |t[1..]| ensures !HeadingAt(t[1..], j, IsLineTerminator(t[0])) {
        assert !HeadingAt(t, j + 1, lineStart);
      }
      SplitOfHeadingFree(t[1..], IsLineTerminator(t[0]));
      assert [t[0]] + t[1..] == t;
    }
  }

  /** Text with no heading line is one section: its first line becomes the id. */
  lemma NoHeadingOneSection(markdown: string)
    requires HeadingFree(markdown, true)
    ensures ParseSections(markdown) == AddEntry(map[], SectionEntry(markdown))
  {
    SplitOfHeadingFree(markdown, true);
    assert SplitHeadings(markdown) == [markdown];
    var es := Entries(SplitHeadings(markdown));
    assert |es| == 1 && es[0] == SectionEntry(markdown);
    assert es[..0] == [];
    assert FoldEntries(es) == AddEntry(FoldEntries(es[..0]), es[0]);
  }

  // ---------------------------------------------------------------------------
  // Round trip

  /** An id that a `# id` line carries back: non-empty, trimmed, on one line. */
  predicate GoodId(id: string) {
    id != "" && IsTrimmed(id) && forall j :: 0 <= j < |id| ==> !IsLineTerminator(id[j])
  }

  /** A body that parses back: non-empty, trimmed, and no line of it starts with `# `. */
  predicate GoodBody(body: string) {
    body != "" && IsTrimmed(body) && HeadingFree(body, true)
  }

  /** The block `# id` newline body newline. */
  function Block(id: string, body: string): string {
    "# " + id + "\n" + body + "\n"
  }

  /** The text of the entries, block after block. */
  function Serialize(entries: seq<(string, string)>): string {
    if entries == [] then "" else Block(entries[0].0, entries[0].1) + Serialize(entries[1..])
  }

  /** The map of the entries, a later entry written over an earlier one with the same id. */
  function EntriesMap(entries: seq<(string, string)>): map<string, string> {
    if entries == [] then map[]
    else
      var last := entries[|entries| - 1];
      EntriesMap(entries[..|entries| - 1])[last.0 := last.1]
  }

  /** A section's text in the split of a serialised block: the block without its `# `. */
  function Section(e: (string, string)): string {
    e.0 + "\n" + e.1 + "\n"
  }

  /** Parsing the text of well-formed entries gives their map back. */
  lemma ParseSerialize(entries: seq<(string, string)>)
    requires forall k :: 0 <= k < |entries| ==> GoodId(entries[k].0) && GoodBody(entries[k].1)
    ensures ParseSections(Serialize(entries)) == EntriesMap(entries)
  {
    EntriesOfSerialize(entries);
    FoldAfterEmpty(Entries(SplitHeadings(Serialize(entries))), entries);
  }

  /** The entries of serialised entries: none for the empty first piece, then each entry in turn. */
  lemma EntriesOfSerialize(entries: seq<(string, string)>)
    requires forall k :: 0 <= k < |entries| ==> GoodId(entries[k].0) && GoodBody(entries[k].1)
    ensures var es := Entries(SplitHeadings(Serialize(entries)));
      |es| == |entries| + 1 && es[0] == None && forall k :: 0 <= k < |entries| ==> es[k + 1] == Some(entries[k])
  {
    SplitSerialize(entries);
    SectionEntriesOfSections(entries);
    assert AllWhitespace("");
  }

  /** A leading empty entry and then the entries themselves build the entries' map. */
  lemma {:induction false} FoldAfterEmpty(es: seq<Option<(string, string)>>, entries: seq<(string, string)>)
    requires |es| == |entries| + 1 && es[0] == None
    requires forall k :: 0 <= k < |entries| ==> es[k + 1] == Some(entries[k])
    ensures FoldEntries(es) == EntriesMap(entries)
  {
    if entries != [] {
      var n := |entries|;
      FoldAfterEmpty(es[..n], entries[..n - 1]);
    }
  }

  /** The section of each well-formed entry adds exactly that entry. */
  lemma SectionEntriesOfSections(entries: seq<(string, string)>)
    requires forall k :: 0 <= k < |entries| ==> GoodId(entries[k].0) && GoodBody(entries[k].1)
    ensures forall k :: 0 <= k < |entries| ==> SectionEntry(Section(entries[k])) == Some(entries[k])
  {
    forall k | 0 <= k < |entries| ensures SectionEntry(Section(entries[k])) == Some(entries[k]) {
      SectionEntryOfSection(entries[k].0, entries[k].1);
    }
  }

  /** The split of serialised entries: an empty first piece, then one section per entry. */
  lemma {:induction false} SplitSerialize(entries: seq<(string, string)>)
    requires forall k :: 0 <= k < |entries| ==> GoodId(entries[k].0) && GoodBody(entries[k].1)
    ensures var r := SplitHeadings(Serialize(entries));
      |r| == |entries| + 1 && r[0] == "" && forall k :: 0 <= k < |entries| ==> r[k + 1] == Section(entries[k])
  {
    if entries != [] {
      var x := Section(entries[0]);
      var tail := Serialize(entries[1..]);
      SplitSerialize(entries[1..]);
      SectionHeadingFree(entries[0].0, entries[0].1);
      SplitHeadingFree(x, tail, false);
      assert Serialize(entries) == "# " + (x + tail);
      var rt := SplitHeadings(tail);
      assert SplitHeadings(Serialize(entries)) == [""] + ([x + rt[0]] + rt[1..]);
      forall k | 1 <= k < |entries| ensures rt[k] == Section(entries[k]) {
        assert entries[1..][k - 1] == entries[k];
      }
    }
  }

  /** The section of a well-formed entry has no heading line after its `# `. */
  lemma SectionHeadingFree(id: string, body: string)
    requires GoodId(id) && GoodBody(body)
    ensures HeadingFree(Section((id, body)), false)
  {
    var t := Section((id, body));
    forall j | 0 <= j < |t| ensures !HeadingAt(t, j, false) {
      if j < |id| {
        if j > 0 { assert t[j - 1] == id[j - 1]; }
      } else if j > |id| && j + 1 < |t| {
        var m := j - |id| - 1;
        assert t[j] == body[m];
        if m > 0 { assert t[j - 1] == body[m - 1]; }
        if m + 1 < |body| {
          assert t[j + 1] == body[m + 1];
          assert !HeadingAt(body, m, true);
        }
      }
    }
  }

  /** The section of a well-formed entry adds exactly that entry. */
  lemma SectionEntryOfSection(id: string, body: string)
    requires GoodId(id) && GoodBody(body)
    ensures SectionEntry(Section((id, body))) == Some((id, body))
  {
    var x := Section((id, body));
    assert x[0] == id[0];
    assert Trim(x) != "";
    SplitAfterLine(id, body + "\n");
    assert x == id + ['\n'] + (body + "\n");
    JoinSplit(body + "\n", '\n');
    TrimOfTrimmed(id);
    TrimDropsTrailingWhitespace(body, "\n");
  }

  /** A line without a newline, then a newline, splits into that line and the split of the rest. */
  lemma {:induction false} SplitAfterLine(line: string, rest: string)
    requires forall j :: 0 <= j < |line| ==> !IsLineTerminator(line[j])
    ensures Split(line + ['\n'] + rest, '\n') == [line] + Split(rest, '\n')
    decreases |line|
  {
    var s := line + ['\n'] + rest;
    if line == [] {
      assert s[1..] == rest;
    } else {
      SplitAfterLine(line[1..], rest);
      assert s[1..] == line[1..] + ['\n'] + rest;
      assert [line[0]] + line[1..] == line;
    }
  }

  // ---------------------------------------------------------------------------
  // The store

  /** The module-level content map, parsed once from the bundled text. */
  class ContentStore {
    const contentMap: map<string, string>
    ghost const markdown: string

    ghost predicate Valid() {
      contentMap == ParseSections(markdown)
    }

    constructor(markdown: string)
      ensures Valid() && this.markdown == markdown
    {
      var parsed := ParseMarkdownSections(markdown);
      this.markdown := markdown;
      contentMap := parsed;
    }

    /** `getNodeContent(nodeId)`: the entry of the map, or none. */
    function GetNodeContent(nodeId: string): (r: Option<string>)
      requires Valid()
      ensures r.Some? <==> nodeId in GetAllContent()
      ensures r.Some? ==> r.value == GetAllContent()[nodeId] && r.value != "" && IsTrimmed(r.value)
    {
      if nodeId in contentMap then Some(contentMap[nodeId]) else None
    }

    /** `getAllContent()`: the whole map; every id and content in it is non-empty and trimmed. */
    function GetAllContent(): (r: map<string, string>)
      requires Valid()
      ensures r == ParseSections(markdown)
      ensures forall id :: id in r ==> id != "" && IsTrimmed(id) && r[id] != "" && IsTrimmed(r[id])
    {
      ParsedTrimmed(markdown);
      contentMap
    }
  }
}
