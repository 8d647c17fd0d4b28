/** The report outline a structured-output program produces, and its markdown rendering. */
module MacroReport {
  import opened Strings

  datatype Section = Section(id: string, title: string, description: string, research: bool, markdown: string) {
    /** `as_str`: a level-two heading, the description, and the markdown only for a researched section. */
    function AsStr(): string {
      "## " + title + "\n\n" + description + "\n\n" + (if research then markdown else "")
    }
  }

  /** The shape of a section's rendering: heading and description, then exactly the markdown or nothing. */
  lemma SectionShape(s: Section)
    ensures StartsWith(s.AsStr(), "## " + s.title + "\n\n" + s.description + "\n\n")
    ensures var header := "## " + s.title + "\n\n" + s.description + "\n\n";
      s.AsStr()[|header|..] == if s.research then s.markdown else ""
  {
  }

  /** A section that is not researched renders the same whatever its markdown. */
  lemma UnresearchedIgnoresMarkdown(s: Section, markdown: string)
    requires !s.research
    ensures s.(markdown := markdown).AsStr() == s.AsStr()
  {
  }

  function SectionTexts(sections: seq<Section>): (r: seq<string>)
    ensures |r| == |sections| && forall i :: 0 <= i < |sections| ==> r[i] == sections[i].AsStr()
  {
    seq(|sections|, i requires 0 <= i < |sections| => sections[i].AsStr())
  }

  datatype Outline = Outline(pageTitle: string, sections: seq<Section>) {
    /** `as_str`: a level-one heading, then the sections separated by blank lines, stripped. */
    function AsStr(): (r: string)
      ensures r != [] && r[0] == '#'
      ensures !IsSpace(r[|r| - 1])
    {
      var text := "# " + pageTitle + "\n\n" + Join(SectionTexts(sections), "\n\n");
      StripKeepsFirst(text);
      Strip(text)
    }
  }

  /** An outline without sections renders as its heading with trailing whitespace removed. */
  lemma EmptyOutline(title: string)
    ensures Outline(title, []).AsStr() == Strip("# " + title)
  {
    assert "# " + title + "\n\n" + Join(SectionTexts([]), "\n\n") == ("# " + title) + "\n\n";
    StripIgnoresTrailingSpace("# " + title, "\n\n");
  }

  /**
   * When the last section ends in a non-space character, stripping removes nothing: the
   * rendering is exactly the heading followed by the sections joined by blank lines.
   */
  lemma OutlineUnstripped(o: Outline)
    requires o.sections != []
    requires var last := o.sections[|o.sections| - 1].AsStr(); !IsSpace(last[|last| - 1])
    ensures o.AsStr() == "# " + o.pageTitle + "\n\n" + Join(SectionTexts(o.sections), "\n\n")
  {
    var parts := SectionTexts(o.sections);
    JoinEndsWithLast(parts, "\n\n");
    var text := "# " + o.pageTitle + "\n\n" + Join(parts, "\n\n");
    StripUnchanged(text);
  }

  lemma {:induction false} JoinEndsWithLast(parts: seq<string>, sep: string)
    requires parts != []
    ensures EndsWith(Join(parts, sep), parts[|parts| - 1])
  {
    if |parts| > 1 {
      JoinEndsWithLast(parts[1..], sep);
      assert parts[1..][|parts[1..]| - 1] == parts[|parts| - 1];
    }
  }
}
