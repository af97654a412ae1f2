/**
 * The guide ingestion script: reading a saved section's header back into
 * its metadata, choosing which files to ingest, the checkpoint of files
 * already done, the batches the files go through, and the one retry of a
 * failed embedding call. The filesystem, the hash, the embedding endpoint
 * and the vector store are parameters.
 */
module GuideIngest {
  import opened Wrappers
  import opened Strings
  import GuideSections
  import FannieParser
  import FreddieParser

  datatype Gse = FannieMae | FreddieMac

  /** The metadata `parse_file_metadata` returns for a guide file. */
  datatype Guide = Guide(sourceFile: string, content: string, section: string, title: string, gse: Gse)

  /** `content.split("\n")[:5]`. */
  function FirstLines(content: string): (lines: seq<string>)
    ensures 1 <= |lines| <= 5
  {
    var all := Split(content, '\n');
    if |all| <= 5 then all else all[..5]
  }

  /** The first line `# ID: Title`: the id and the title, split at the first colon and stripped. */
  function HeaderOf(lines: seq<string>): Option<(string, string)> {
    if |lines| > 0 && StartsWith(lines[0], "#") then
      var header := Strip(lines[0][1..]);
      var c := IndexOf(header, ':');
      if c < 0 then None else Some((Strip(header[..c]), Strip(header[c + 1..])))
    else None
  }

  /** The agency a `Source:` value names: Fannie Mae is looked for first. */
  function Classify(source: string): Option<Gse> {
    if Contains(source, "Fannie Mae") then Some(FannieMae)
    else if Contains(source, "Freddie Mac") then Some(FreddieMac)
    else None
  }

  /** The value of a `Source:` line: every `Source:` removed, then stripped. */
  function SourceValue(line: string): string {
    Strip(ReplaceAll(line, "Source:", ""))
  }

  /** The agency named by the first line that starts with `Source:`; a later one is never looked at. */
  function GseOf(lines: seq<string>): Option<Gse>
    decreases |lines|
  {
    if |lines| == 0 then None
    else if StartsWith(lines[0], "Source:") then Classify(SourceValue(lines[0]))
    else GseOf(lines[1..])
  }

  /** What `parse_file_metadata` makes of a file's text: a guide only when both the id and the agency were found. */
  function MetadataOf(path: string, content: string): Option<Guide> {
    var lines := FirstLines(content);
    match HeaderOf(lines)
    case None => None
    case Some((section, title)) =>
      match GseOf(lines)
      case None => None
      case Some(gse) => Some(Guide(path, content, section, title, gse))
  }

  /** The loop over the first lines that looks for the `Source:` line. */
  method FindGse(lines: seq<string>) returns (gse: Option<Gse>)
    ensures gse == GseOf(lines)
  {
    gse := None;
    var i := 0;
    while i < |lines|
      invariant 0 <= i <= |lines|
      invariant GseOf(lines[i..]) == GseOf(lines)
      decreases |lines| - i
    {
      if StartsWith(lines[i], "Source:") {
        gse := Classify(SourceValue(lines[i]));
        return;
      }
      assert lines[i..][1..] == lines[i + 1..];
      i := i + 1;
    }
  }

  /** `parse_file_metadata` on the text of a file: the section and title first, then the agency. */
  method ParseFileMetadata(path: string, content: string) returns (m: Option<Guide>)
    ensures m == MetadataOf(path, content)
  {
    var lines := FirstLines(content);
    var section := HeaderOf(lines);
    var gse := FindGse(lines);
    match section
    case None => m := None;
    case Some((id, title)) =>
      match gse
      case None => m := None;
      case Some(g) => m := Some(Guide(path, content, id, title, g));
  }

  /** A character a section id is written with. */
  predicate IdChar(c: char) { IsLetter(c) || IsDigit(c) || c == '.' || c == '-' }

  /** A section id as both guides write them: not empty, and only letters, digits, points and hyphens. */
  predicate PlainId(id: string) {
    |id| > 0 && forall i :: 0 <= i < |id| ==> IdChar(id[i])
  }

  /** A `Source` value the header parser reads back unchanged: no colon, no newline, nothing to strip. */
  predicate PlainSource(source: string) {
    |source| > 0 && !IsSpace(source[0]) && !IsSpace(source[|source| - 1]) && ':' !in source && '\n' !in source
  }

  /** The characters of an id are neither whitespace nor a colon nor a newline. */
  lemma IdCharPlain(c: char)
    requires IdChar(c)
    ensures !IsSpace(c) && c != ':' && c != '\n'
  {
  }

  /** A space put before a string that does not start with whitespace is stripped off again. */
  lemma LStripSpaced(x: string)
    requires |x| > 0 && !IsSpace(x[0])
    ensures LStrip(" " + x) == x
  {
    assert (" " + x)[1..] == x;
    StripSteps(" " + x);
    StripSteps(x);
  }

  /** A string ending in a colon followed by one space: `rstrip()` takes the space off. */
  lemma RStripColonSpace(y: string)
    requires |y| > 0 && y[|y| - 1] == ':'
    ensures RStrip(y + " ") == y
  {
    var x := y + " ";
    StripSteps(x);
    assert x[..|x| - 1] == y;
    StripSteps(y);
  }

  /** The title part of a header: empty, or a space and then the title. */
  function TitlePart(title: string): string {
    if title == "" then "" else " " + title
  }

  /** A header with no title, stripped: the id and the colon. */
  lemma BareHeaderStripped(id: string)
    requires |id| > 0 && !IsSpace(id[0])
    ensures Strip(" " + id + ": ") == id + ":"
  {
    var y := id + ":";
    var x := y + " ";
    assert " " + id + ": " == " " + x;
    assert x[0] == id[0];
    LStripSpaced(x);
    RStripColonSpace(y);
  }

  /** A header with a title, stripped: the id, the colon, a space and the title. */
  lemma TitledHeaderStripped(id: string, title: string)
    requires |id| > 0 && !IsSpace(id[0])
    requires |title| > 0 && !IsSpace(title[|title| - 1])
    ensures Strip(" " + id + ": " + title) == id + ":" + " " + title
  {
    var x := id + ":" + " " + title;
    assert " " + id + ": " + title == " " + x;
    assert x[0] == id[0];
    LStripSpaced(x);
    assert x[|x| - 1] == title[|title| - 1];
    RStripKept(x);
  }

  /** The header text after the `#`, stripped: the id, the colon, and the title after a space when there is one. */
  lemma HeaderStripped(id: string, title: string)
    requires |id| > 0 && !IsSpace(id[0])
    requires |title| > 0 ==> !IsSpace(title[|title| - 1])
    ensures Strip(" " + id + ": " + title) == id + ":" + TitlePart(title)
  {
    if title == "" {
      BareHeaderStripped(id);
      assert " " + id + ": " + title == " " + id + ": ";
      assert id + ":" + TitlePart(title) == id + ":";
    } else {
      TitledHeaderStripped(id, title);
    }
  }

  /** The first colon of the stripped header is the one after the id. */
  lemma ColonAfterId(id: string, rest: string)
    requires ':' !in id
    ensures var h := id + ":" + rest; IndexOf(h, ':') == |id| && h[..|id|] == id && h[|id| + 1..] == rest
  {
    var h := id + ":" + rest;
    assert h[..|id|] == id;
    IndexOfAt(h, ':', |id|);
  }

  /** The title part stripped is the title. */
  lemma TitlePartStripped(title: string)
    requires |title| > 0 ==> !IsSpace(title[0]) && !IsSpace(title[|title| - 1])
    ensures Strip(TitlePart(title)) == title
  {
    if title != "" {
      StripSpaced(title);
    }
  }

  /** A section id has no colon, no newline and no whitespace at its ends. */
  lemma PlainIdChars(id: string)
    requires PlainId(id)
    ensures ':' !in id && '\n' !in id && !IsSpace(id[0]) && !IsSpace(id[|id| - 1])
  {
    forall i | 0 <= i < |id| ensures id[i] != ':' && id[i] != '\n' { IdCharPlain(id[i]); }
    IdCharPlain(id[0]);
    IdCharPlain(id[|id| - 1]);
  }

  /** The header line of a saved section gives back its id and title. */
  lemma HeaderLine(lines: seq<string>, id: string, title: string)
    requires |lines| > 0 && lines[0] == "# " + id + ": " + title
    requires PlainId(id) && GuideSections.CleanTitle(title)
    ensures HeaderOf(lines) == Some((id, title))
  {
    var line := "# " + id + ": " + title;
    assert line[1..] == " " + id + ": " + title;
    assert StartsWith(line, "#");
    PlainIdChars(id);
    HeaderStripped(id, title);
    var h := id + ":" + TitlePart(title);
    assert Strip(line[1..]) == h;
    ColonAfterId(id, TitlePart(title));
    StripNoop(id);
    TitlePartStripped(title);
  }

  /** The `Source` line of a saved section gives back its source. */
  lemma SourceLine(source: string)
    requires PlainSource(source)
    ensures StartsWith(GuideSections.SourcePrefix + source, "Source:")
    ensures SourceValue(GuideSections.SourcePrefix + source) == source
  {
    var rest := " " + source;
    assert GuideSections.SourcePrefix + source == "Source:" + rest;
    StartsWithConcat("Source:", rest);
    assert ("Source:" + rest)[7..] == rest;
    NotContainsChar(rest, "Source:", 6);
    ReplaceAllAbsent(rest, "Source:", "");
    assert ReplaceAll("Source:" + rest, "Source:", "") == "" + ReplaceAll(rest, "Source:", "");
    assert "" + rest == rest;
    StripSpaced(source);
  }

  /** The first two lines of a text made of two lines without newlines and a rest. */
  lemma TwoLines(h: string, src: string, r: string)
    requires '\n' !in h && '\n' !in src
    ensures var lines := FirstLines(h + ['\n'] + (src + ['\n'] + r));
      |lines| >= 2 && lines[0] == h && lines[1] == src
  {
    var text := h + ['\n'] + (src + ['\n'] + r);
    SplitCons(h, src + ['\n'] + r, '\n');
    SplitCons(src, r, '\n');
    var all := Split(text, '\n');
    assert all == [h] + ([src] + Split(r, '\n'));
    assert all[0] == h && all[1] == src;
  }

  /** The text of a saved section as its header line, its `Source` line and the rest. */
  lemma SavedTextLines(id: string, title: string, content: string, source: string)
    ensures GuideSections.SavedText(id, title, content, source)
      == ("# " + id + ": " + title) + ['\n'] + ((GuideSections.SourcePrefix + source) + ['\n']
         + (GuideSections.SectionIdPrefix + id + GuideSections.BodySeparator + content + "\n"))
  {
  }

  /** The first two lines of a saved section: its header line and its `Source` line. */
  lemma SavedLines(id: string, title: string, content: string, source: string)
    requires PlainId(id) && GuideSections.CleanTitle(title) && PlainSource(source)
    ensures var lines := FirstLines(GuideSections.SavedText(id, title, content, source));
      && |lines| >= 2 && lines[0] == "# " + id + ": " + title && lines[1] == GuideSections.SourcePrefix + source
  {
    var h := "# " + id + ": " + title;
    var src := GuideSections.SourcePrefix + source;
    PlainIdChars(id);
    assert '\n' !in h;
    assert '\n' !in src;
    SavedTextLines(id, title, content, source);
    TwoLines(h, src, GuideSections.SectionIdPrefix + id + GuideSections.BodySeparator + content + "\n");
  }

  /**
   * A section saved by either parser reads back as the guide it came from:
   * the id and title of its header line, and the agency its `Source` line
   * names.
   */
  lemma SavedRoundTrip(path: string, id: string, title: string, content: string, source: string, g: Gse)
    requires PlainId(id) && GuideSections.CleanTitle(title) && PlainSource(source)
    requires Classify(source) == Some(g)
    ensures var text := GuideSections.SavedText(id, title, content, source);
      MetadataOf(path, text) == Some(Guide(path, text, id, title, g))
  {
    var text := GuideSections.SavedText(id, title, content, source);
    var lines := FirstLines(text);
    SavedLines(id, title, content, source);
    HeaderLine(lines, id, title);
    assert !StartsWith(lines[0], "Source:") by {
      if StartsWith(lines[0], "Source:") { StartsWithIndex(lines[0], "Source:", 0); }
    }
    SourceLine(source);
    assert GseOf(lines) == GseOf(lines[1..]);
  }

  /** The characters of a piece of a Selling Guide id are digits and points. */
  lemma FanniePieceChars(p: string, c: char)
    requires FannieParser.Digits(p) || FannieParser.Dotted(p)
    requires c in p
    ensures IsDigit(c) || c == '.'
  {
    var j :| 0 <= j < |p| && p[j] == c;
    if !FannieParser.Digits(p) {
      var k :| 0 < k < |p| - 1 && FannieParser.Digits(p[..k]) && p[k] == '.' && FannieParser.Digits(p[k + 1..]);
      if j < k {
        assert p[..k][j] == c;
      } else if j > k {
        assert p[k + 1..][j - k - 1] == c;
      }
    }
  }

  /** Each piece between the hyphens of a Selling Guide section id is digits, or digits with a decimal part. */
  lemma FannieParts(id: string)
    requires FannieParser.IsFannieId(id)
    ensures forall k :: 0 <= k < |Split(id[1..], '-')| ==>
      FannieParser.Digits(Split(id[1..], '-')[k]) || FannieParser.Dotted(Split(id[1..], '-')[k])
  {
  }

  /** A string whose hyphen-separated pieces are digits, possibly with a decimal part, holds id characters only. */
  lemma PiecesChar(s: string, c: char)
    requires forall k :: 0 <= k < |Split(s, '-')| ==> FannieParser.Digits(Split(s, '-')[k]) || FannieParser.Dotted(Split(s, '-')[k])
    requires c in s
    ensures IdChar(c)
  {
    var parts := Split(s, '-');
    JoinSplit(s, '-');
    assert c in Join(parts, "-");
    JoinChars(parts, "-", c);
    if c != '-' {
      var k :| 0 <= k < |parts| && c in parts[k];
      FanniePieceChars(parts[k], c);
    }
  }

  /** A Selling Guide section id is written with id characters only. */
  lemma FannieIdPlain(id: string)
    requires FannieParser.IsFannieId(id)
    ensures PlainId(id)
  {
    forall i | 0 <= i < |id|
      ensures IdChar(id[i])
    {
      if i > 0 {
        assert id[i] == id[1..][i - 1];
        FannieParts(id);
        PiecesChar(id[1..], id[i]);
      }
    }
  }

  /** A Seller/Servicer Guide section id is written with id characters only. */
  lemma FreddieIdPlain(id: string)
    requires FreddieParser.IsFreddieId(id)
    ensures PlainId(id)
  {
    forall i | 0 <= i < |id|
      ensures IdChar(id[i])
    {
      if i < 4 {
        assert id[..4][i] == id[i];
      } else if i > 4 {
        assert id[5..][i - 5] == id[i];
      }
    }
  }

  /** Neither a colon nor a newline occurs in `s`. */
  predicate NoColonLine(s: string) { ':' !in s && '\n' !in s }

  lemma NoColonLineConcat(a: string, b: string)
    requires NoColonLine(a) && NoColonLine(b)
    ensures NoColonLine(a + b)
  {
  }

  lemma NoColonLineFannie()
    ensures NoColonLine("Fannie Mae") && NoColonLine(" Selling Guide (PDF)")
  {
  }

  lemma NoColonLineFreddie()
    ensures NoColonLine("Freddie Mac") && NoColonLine(" Single-Family") && NoColonLine(" Seller/Servicer Guide")
  {
  }

  /** The Selling Guide's `Source` value reads back unchanged. */
  lemma FanniePlainSource()
    ensures PlainSource(FannieParser.SourceName)
  {
    var s := FannieParser.SourceName;
    var a, b := "Fannie Mae", " Selling Guide (PDF)";
    assert s == a + b;
    NoColonLineFannie();
    NoColonLineConcat(a, b);
    assert s[0] == a[0] == 'F' && s[|s| - 1] == b[|b| - 1] == ')';
  }

  /** The Selling Guide's `Source` value names Fannie Mae. */
  lemma FannieSource()
    ensures PlainSource(FannieParser.SourceName)
    ensures Classify(FannieParser.SourceName) == Some(FannieMae)
  {
    var s := FannieParser.SourceName;
    FanniePlainSource();
    StartsWithConcat("Fannie Mae", " Selling Guide (PDF)");
    assert s[0..] == s;
    ContainsAt(s, "Fannie Mae", 0);
  }

  /** The Seller/Servicer Guide's `Source` value reads back unchanged. */
  lemma FreddiePlainSource()
    ensures PlainSource(FreddieParser.SourceName)
  {
    var s := FreddieParser.SourceName;
    var a, b, c := "Freddie Mac", " Single-Family", " Seller/Servicer Guide";
    assert s == a + (b + c);
    NoColonLineFreddie();
    NoColonLineConcat(b, c);
    NoColonLineConcat(a, b + c);
    assert s[0] == a[0] == 'F' && s[|s| - 1] == c[|c| - 1] == 'e';
  }

  /** The only `M` of the Seller/Servicer Guide's `Source` value is the one of "Mac". */
  lemma FreddieOnlyM(j: nat)
    requires j < |FreddieParser.SourceName| && FreddieParser.SourceName[j] == 'M'
    ensures j == 8
  {
    var s := FreddieParser.SourceName;
    var a, b := "Freddie Mac", " Single-Family Seller/Servicer Guide";
    assert s == a + b;
    assert 'M' !in b;
    if j < |a| {
      assert s[j] == a[j];
    }
  }

  /** The Seller/Servicer Guide's `Source` value does not name Fannie Mae. */
  lemma FreddieNotFannie()
    ensures !Contains(FreddieParser.SourceName, "Fannie Mae")
  {
    var s := FreddieParser.SourceName;
    forall j | 0 <= j < |s| && s[j] == "Fannie Mae"[7]
      ensures j == 8
    {
      FreddieOnlyM(j);
    }
    assert s[1..][0] == 'r';
    if StartsWith(s[1..], "Fannie Mae") {
      StartsWithIndex(s[1..], "Fannie Mae", 0);
    }
    NotContainsByChar(s, "Fannie Mae", 7, 8);
  }

  /** The Seller/Servicer Guide's `Source` value names Freddie Mac and not Fannie Mae. */
  lemma FreddieSource()
    ensures PlainSource(FreddieParser.SourceName)
    ensures Classify(FreddieParser.SourceName) == Some(FreddieMac)
  {
    var s := FreddieParser.SourceName;
    FreddiePlainSource();
    FreddieNotFannie();
    StartsWithConcat("Freddie Mac", " Single-Family Seller/Servicer Guide");
    assert s[0..] == s;
    ContainsAt(s, "Freddie Mac", 0);
  }

  /**
   * A section the Selling Guide parser finds, saved with any content, reads
   * back as a Fannie Mae guide with the section's id and title.
   */
  lemma FannieReadBack(text: string, k: nat, content: string, path: string)
    requires k < |FannieParser.Sections(text)|
    ensures var h := FannieParser.Sections(text)[k];
      var saved := FannieParser.SavedSection(h.id, GuideSections.Entry(h.title, content)).1;
      MetadataOf(path, saved) == Some(Guide(path, saved, h.id, h.title, FannieMae))
  {
    var h := FannieParser.Sections(text)[k];
    FannieParser.SectionsOrdered(text);
    assert FannieParser.WellFormed(text, h);
    FannieIdPlain(h.id);
    FannieSource();
    SavedRoundTrip(path, h.id, h.title, content, FannieParser.SourceName, FannieMae);
  }

  /**
   * A section the Seller/Servicer Guide parser finds, saved with any
   * content, reads back as a Freddie Mac guide with the section's id and
   * title.
   */
  lemma FreddieReadBack(text: string, k: nat, content: string, path: string)
    requires k < |FreddieParser.Sections(text)|
    ensures var h := FreddieParser.Sections(text)[k];
      var saved := FreddieParser.SavedSection(h.id, GuideSections.Entry(h.title, content)).1;
      MetadataOf(path, saved) == Some(Guide(path, saved, h.id, h.title, FreddieMac))
  {
    var h := FreddieParser.Sections(text)[k];
    FreddieParser.SectionsOrdered(text);
    assert FreddieParser.WellFormed(text, h);
    FreddieIdPlain(h.id);
    FreddieSource();
    SavedRoundTrip(path, h.id, h.title, content, FreddieParser.SourceName, FreddieMac);
  }
}
