/** Splitting a message into text and images (mobile/app/(tabs)/index.tsx, parseContent). The two
    regular expressions are represented by the matches they return. */
module ContentParts {
  import opened Texts

  datatype Origin = Markdown | BareUrl

  datatype Part = Text(text: string) | Image(url: string, alt: string, origin: Origin)

  /** A match of MD_IMAGE_REGEX: the image syntax with its two groups. */
  datatype MdMatch = MdMatch(index: nat, alt: string, url: string)

  /** A match of URL_IMAGE_REGEX: lead (a white space character or nothing), then the URL in group 1. */
  datatype UrlMatch = UrlMatch(index: nat, lead: string, url: string)

  function Syntax(alt: string, url: string): string {
    "![" + alt + "](" + url + ")"
  }

  function MdEnd(m: MdMatch): nat {
    m.index + |m.alt| + |m.url| + 5
  }

  function UrlStart(u: UrlMatch): nat {
    u.index + |u.lead|
  }

  function UrlEnd(u: UrlMatch): nat {
    UrlStart(u) + |u.url|
  }

  /** Where the text before match n starts. */
  function MdFrom(ms: seq<MdMatch>, n: nat): nat
    requires n <= |ms|
  {
    if n == 0 then 0 else MdEnd(ms[n - 1])
  }

  function UrlFrom(us: seq<UrlMatch>, n: nat): nat
    requires n <= |us|
  {
    if n == 0 then 0 else UrlEnd(us[n - 1])
  }

  /** A match of the content that starts no earlier than from. */
  predicate MdMatches(content: string, m: MdMatch, from: nat) {
    from <= m.index && MdEnd(m) <= |content| && content[m.index..MdEnd(m)] == Syntax(m.alt, m.url)
  }

  predicate UrlMatches(text: string, u: UrlMatch, from: nat) {
    from <= u.index && UrlEnd(u) <= |text| && text[u.index..UrlStart(u)] == u.lead && text[UrlStart(u)..UrlEnd(u)] == u.url
  }

  /** What matchAll promises of the first n matches: they match the content, in order, not overlapping. */
  predicate MdPlaced(content: string, ms: seq<MdMatch>, n: nat)
    requires n <= |ms|
  {
    n == 0 || (MdPlaced(content, ms, n - 1) && MdMatches(content, ms[n - 1], MdFrom(ms, n - 1)))
  }

  predicate UrlPlaced(text: string, us: seq<UrlMatch>, n: nat)
    requires n <= |us|
  {
    n == 0 || (UrlPlaced(text, us, n - 1) && UrlMatches(text, us[n - 1], UrlFrom(us, n - 1)))
  }

  ghost predicate Finds(find: string -> seq<UrlMatch>) {
    forall text :: UrlPlaced(text, find(text), |find(text)|)
  }

  lemma {:induction false} MdPrefix(content: string, ms: seq<MdMatch>, n: nat, m: nat)
    requires n <= m <= |ms| && MdPlaced(content, ms, m)
    ensures MdPlaced(content, ms, n)
    decreases m
  {
    if n < m { MdPrefix(content, ms, n, m - 1); }
  }

  lemma MdBound(content: string, ms: seq<MdMatch>, n: nat)
    requires n <= |ms| && MdPlaced(content, ms, n)
    ensures MdFrom(ms, n) <= |content|
  {
  }

  lemma UrlBound(text: string, us: seq<UrlMatch>, n: nat)
    requires n <= |us| && UrlPlaced(text, us, n)
    ensures UrlFrom(us, n) <= |text|
  {
  }

  lemma {:induction false} UrlPrefix(text: string, us: seq<UrlMatch>, n: nat, m: nat)
    requires n <= m <= |us| && UrlPlaced(text, us, m)
    ensures UrlPlaced(text, us, n)
    decreases m
  {
    if n < m { UrlPrefix(text, us, n, m - 1); }
  }

  /** Prints a part the way it was written. */
  function PrintPart(part: Part): string {
    match part
    case Text(text) => text
    case Image(url, alt, Markdown) => Syntax(alt, url)
    case Image(url, alt, BareUrl) => url
  }

  function Print(parts: seq<Part>): string {
    if parts == [] then "" else Print(parts[..|parts| - 1]) + PrintPart(parts[|parts| - 1])
  }

  /** Text between two positions, when there is any. */
  function Between(content: string, from: nat, to: nat): seq<Part>
    requires from <= to <= |content|
  {
    if from < to then [Text(content[from..to])] else []
  }

  /** The text before a match, and its image. */
  function MdParts(content: string, m: MdMatch, from: nat): seq<Part>
    requires MdMatches(content, m, from)
  {
    Between(content, from, m.index) + [Image(m.url, m.alt, Markdown)]
  }

  function UrlParts(text: string, u: UrlMatch, from: nat): seq<Part>
    requires UrlMatches(text, u, from)
  {
    Between(text, from, UrlStart(u)) + [Image(u.url, "", BareUrl)]
  }

  /** The parts up to and including match n - 1. */
  ghost function MdUpTo(content: string, ms: seq<MdMatch>, n: nat): seq<Part>
    requires n <= |ms| && MdPlaced(content, ms, n)
  {
    if n == 0 then [] else MdUpTo(content, ms, n - 1) + MdParts(content, ms[n - 1], MdFrom(ms, n - 1))
  }

  ghost function UrlUpTo(text: string, us: seq<UrlMatch>, n: nat): seq<Part>
    requires n <= |us| && UrlPlaced(text, us, n)
  {
    if n == 0 then [] else UrlUpTo(text, us, n - 1) + UrlParts(text, us[n - 1], UrlFrom(us, n - 1))
  }

  ghost function SplitMarkdown(content: string, ms: seq<MdMatch>): seq<Part>
    requires MdPlaced(content, ms, |ms|)
  {
    MdUpTo(content, ms, |ms|) + Between(content, MdFrom(ms, |ms|), |content|)
  }

  ghost function SplitUrls(text: string, us: seq<UrlMatch>): seq<Part>
    requires UrlPlaced(text, us, |us|)
  {
    UrlUpTo(text, us, |us|) + Between(text, UrlFrom(us, |us|), |text|)
  }

  ghost function ExpandPart(part: Part, find: string -> seq<UrlMatch>): seq<Part>
    requires Finds(find)
  {
    if part.Image? then [part]
    else
      assert UrlPlaced(part.text, find(part.text), |find(part.text)|);
      SplitUrls(part.text, find(part.text))
  }

  ghost function Expand(parts: seq<Part>, find: string -> seq<UrlMatch>): seq<Part>
    requires Finds(find)
  {
    if parts == [] then [] else Expand(parts[..|parts| - 1], find) + ExpandPart(parts[|parts| - 1], find)
  }

  function OrWhole(parts: seq<Part>, content: string): seq<Part> {
    if parts == [] then [Text(content)] else parts
  }

  ghost function Parsed(content: string, ms: seq<MdMatch>, find: string -> seq<UrlMatch>): seq<Part>
    requires MdPlaced(content, ms, |ms|) && Finds(find)
  {
    OrWhole(Expand(OrWhole(SplitMarkdown(content, ms), content), find), content)
  }

  // ---- nothing is lost

  lemma PrintOne(part: Part)
    ensures Print([part]) == PrintPart(part)
  {
    assert [part][..0] == [];
    assert "" + PrintPart(part) == PrintPart(part);
  }

  lemma {:induction false} PrintConcat(a: seq<Part>, b: seq<Part>)
    ensures Print(a + b) == Print(a) + Print(b)
  {
    if b == [] {
      assert a + b == a;
    } else {
      var init, last := b[..|b| - 1], b[|b| - 1];
      assert (a + b)[..|a + b| - 1] == a + init;
      PrintConcat(a, init);
      Regroup(Print(a), Print(init), PrintPart(last));
    }
  }

  lemma PrintBetween(content: string, from: nat, to: nat)
    requires from <= to <= |content|
    ensures Print(Between(content, from, to)) == content[from..to]
  {
    if from < to { PrintOne(Text(content[from..to])); }
  }

  lemma Slices(content: string, from: nat, middle: nat, to: nat)
    requires from <= middle <= to <= |content|
    ensures content[from..to] == content[from..middle] + content[middle..to]
  {
  }

  /** Two runs of parts that print adjacent stretches of the content. */
  lemma PrintJoin(a: seq<Part>, b: seq<Part>, content: string, from: nat, middle: nat, to: nat)
    requires from <= middle <= to <= |content|
    requires Print(a) == content[from..middle] && Print(b) == content[middle..to]
    ensures Print(a + b) == content[from..to]
  {
    PrintConcat(a, b);
    Slices(content, from, middle, to);
  }

  lemma MdPartsPrint(content: string, m: MdMatch, from: nat)
    requires MdMatches(content, m, from)
    ensures Print(MdParts(content, m, from)) == content[from..MdEnd(m)]
  {
    var image := Image(m.url, m.alt, Markdown);
    PrintBetween(content, from, m.index);
    PrintOne(image);
    PrintJoin(Between(content, from, m.index), [image], content, from, m.index, MdEnd(m));
  }

  lemma UrlPartsPrint(text: string, u: UrlMatch, from: nat)
    requires UrlMatches(text, u, from)
    ensures Print(UrlParts(text, u, from)) == text[from..UrlEnd(u)]
  {
    var image, start := Image(u.url, "", BareUrl), UrlStart(u);
    PrintBetween(text, from, start);
    PrintOne(image);
    PrintJoin(Between(text, from, start), [image], text, from, start, UrlEnd(u));
  }

  lemma {:induction false} MarkdownPrints(content: string, ms: seq<MdMatch>, n: nat)
    requires n <= |ms| && MdPlaced(content, ms, n)
    ensures MdFrom(ms, n) <= |content| && Print(MdUpTo(content, ms, n)) == content[0..MdFrom(ms, n)]
  {
    if n > 0 {
      var m, from := ms[n - 1], MdFrom(ms, n - 1);
      var before, more := MdUpTo(content, ms, n - 1), MdParts(content, m, from);
      assert Print(before + more) == content[0..MdEnd(m)] by {
        MarkdownPrints(content, ms, n - 1);
        MdPartsPrint(content, m, from);
        PrintJoin(before, more, content, 0, from, MdEnd(m));
      }
    }
  }

  lemma {:induction false} UrlsPrint(text: string, us: seq<UrlMatch>, n: nat)
    requires n <= |us| && UrlPlaced(text, us, n)
    ensures UrlFrom(us, n) <= |text| && Print(UrlUpTo(text, us, n)) == text[0..UrlFrom(us, n)]
  {
    if n > 0 {
      var u, from := us[n - 1], UrlFrom(us, n - 1);
      var before, more := UrlUpTo(text, us, n - 1), UrlParts(text, u, from);
      assert Print(before + more) == text[0..UrlEnd(u)] by {
        UrlsPrint(text, us, n - 1);
        UrlPartsPrint(text, u, from);
        PrintJoin(before, more, text, 0, from, UrlEnd(u));
      }
    }
  }

  lemma SplitsPrint(content: string, ms: seq<MdMatch>)
    requires MdPlaced(content, ms, |ms|)
    ensures Print(SplitMarkdown(content, ms)) == content
  {
    var from := MdFrom(ms, |ms|);
    MarkdownPrints(content, ms, |ms|);
    PrintBetween(content, from, |content|);
    PrintJoin(MdUpTo(content, ms, |ms|), Between(content, from, |content|), content, 0, from, |content|);
  }

  lemma UrlSplitPrints(text: string, us: seq<UrlMatch>)
    requires UrlPlaced(text, us, |us|)
    ensures Print(SplitUrls(text, us)) == text
  {
    var from := UrlFrom(us, |us|);
    UrlsPrint(text, us, |us|);
    PrintBetween(text, from, |text|);
    PrintJoin(UrlUpTo(text, us, |us|), Between(text, from, |text|), text, 0, from, |text|);
  }

  lemma PartPrints(part: Part, find: string -> seq<UrlMatch>)
    requires Finds(find)
    ensures Print(ExpandPart(part, find)) == PrintPart(part)
  {
    if part.Text? {
      assert UrlPlaced(part.text, find(part.text), |find(part.text)|);
      UrlSplitPrints(part.text, find(part.text));
    } else {
      PrintOne(part);
    }
  }

  lemma {:induction false} ExpandPrints(parts: seq<Part>, find: string -> seq<UrlMatch>)
    requires Finds(find)
    ensures Print(Expand(parts, find)) == Print(parts)
  {
    if parts != [] {
      var init, last := parts[..|parts| - 1], parts[|parts| - 1];
      ExpandPrints(init, find);
      PartPrints(last, find);
      PrintConcat(Expand(init, find), ExpandPart(last, find));
    }
  }

  /** Printing the parts gives the message back, whatever the matches, the empty message included. */
  lemma SplittingIsLossless(content: string, ms: seq<MdMatch>, find: string -> seq<UrlMatch>)
    requires MdPlaced(content, ms, |ms|) && Finds(find)
    ensures Print(Parsed(content, ms, find)) == content
  {
    SplitsPrint(content, ms);
    ExpandPrints(OrWhole(SplitMarkdown(content, ms), content), find);
    PrintOne(Text(content));
  }

  // ---- what the parts are

  /** No empty text, and no alternative text for a bare URL. */
  predicate Neat(part: Part) {
    if part.Text? then part.text != "" else part.origin.BareUrl? ==> part.alt == ""
  }

  predicate AllNeat(parts: seq<Part>) {
    forall i | 0 <= i < |parts| :: Neat(parts[i])
  }

  predicate IsMarkdown(part: Part) {
    part.Image? && part.origin.Markdown?
  }

  /** The Markdown images among the parts, in order. */
  function MarkdownImages(parts: seq<Part>): seq<Part> {
    if parts == [] then []
    else MarkdownImages(parts[..|parts| - 1]) + if IsMarkdown(parts[|parts| - 1]) then [parts[|parts| - 1]] else []
  }

  function Images(ms: seq<MdMatch>, n: nat): seq<Part>
    requires n <= |ms|
  {
    if n == 0 then [] else Images(ms, n - 1) + [Image(ms[n - 1].url, ms[n - 1].alt, Markdown)]
  }

  lemma {:induction false} ImagesConcat(a: seq<Part>, b: seq<Part>)
    ensures MarkdownImages(a + b) == MarkdownImages(a) + MarkdownImages(b)
  {
    if b == [] {
      assert a + b == a;
    } else {
      assert (a + b)[..|a + b| - 1] == a + b[..|b| - 1];
      ImagesConcat(a, b[..|b| - 1]);
    }
  }

  lemma {:induction false} NoImages(parts: seq<Part>)
    requires forall i | 0 <= i < |parts| :: !IsMarkdown(parts[i])
    ensures MarkdownImages(parts) == []
  {
    if parts != [] { NoImages(parts[..|parts| - 1]); }
  }

  lemma MdPartsImages(content: string, m: MdMatch, from: nat)
    requires MdMatches(content, m, from)
    ensures MarkdownImages(MdParts(content, m, from)) == [Image(m.url, m.alt, Markdown)]
  {
    var image := Image(m.url, m.alt, Markdown);
    NoImages(Between(content, from, m.index));
    assert [image][..0] == [];
    ImagesConcat(Between(content, from, m.index), [image]);
  }

  lemma {:induction false} MarkdownUpTo(content: string, ms: seq<MdMatch>, n: nat)
    requires n <= |ms| && MdPlaced(content, ms, n)
    ensures MarkdownImages(MdUpTo(content, ms, n)) == Images(ms, n)
  {
    if n > 0 {
      var m, from := ms[n - 1], MdFrom(ms, n - 1);
      var before, more := MdUpTo(content, ms, n - 1), MdParts(content, m, from);
      assert MarkdownImages(before + more) == Images(ms, n) by {
        MarkdownUpTo(content, ms, n - 1);
        MdPartsImages(content, m, from);
        ImagesConcat(before, more);
      }
    }
  }

  lemma {:induction false} MarkdownOnly(content: string, ms: seq<MdMatch>, n: nat)
    requires n <= |ms| && MdPlaced(content, ms, n)
    ensures AllMarkdown(MdUpTo(content, ms, n))
  {
    if n > 0 { MarkdownOnly(content, ms, n - 1); }
  }

  /** Parts without a Markdown image may be put behind others. */
  lemma WithoutImages(parts: seq<Part>, more: seq<Part>)
    requires forall i | 0 <= i < |more| :: !IsMarkdown(more[i])
    ensures MarkdownImages(parts + more) == MarkdownImages(parts)
  {
    NoImages(more);
    ImagesConcat(parts, more);
    assert MarkdownImages(parts) + [] == MarkdownImages(parts);
  }

  lemma SplitImages(content: string, ms: seq<MdMatch>)
    requires MdPlaced(content, ms, |ms|)
    ensures MarkdownImages(SplitMarkdown(content, ms)) == Images(ms, |ms|)
  {
    MarkdownUpTo(content, ms, |ms|);
    MdBound(content, ms, |ms|);
    WithoutImages(MdUpTo(content, ms, |ms|), Between(content, MdFrom(ms, |ms|), |content|));
  }

  lemma SplitIsMarkdown(content: string, ms: seq<MdMatch>)
    requires MdPlaced(content, ms, |ms|)
    ensures AllMarkdown(SplitMarkdown(content, ms))
  {
    MarkdownOnly(content, ms, |ms|);
  }

  lemma {:induction false} UrlsUpTo(text: string, us: seq<UrlMatch>, n: nat)
    requires n <= |us| && UrlPlaced(text, us, n)
    ensures forall part | part in UrlUpTo(text, us, n) :: Neat(part) && !IsMarkdown(part)
  {
    if n > 0 {
      UrlsUpTo(text, us, n - 1);
    }
  }

  lemma UrlSplitIsNeat(text: string, us: seq<UrlMatch>)
    requires UrlPlaced(text, us, |us|)
    ensures forall part | part in SplitUrls(text, us) :: Neat(part) && !IsMarkdown(part)
  {
    UrlsUpTo(text, us, |us|);
    UrlBound(text, us, |us|);
  }

  lemma PartImages(part: Part, find: string -> seq<UrlMatch>)
    requires Finds(find) && (part.Image? ==> IsMarkdown(part))
    ensures MarkdownImages(ExpandPart(part, find)) == MarkdownImages([part])
    ensures AllNeat(ExpandPart(part, find))
  {
    if part.Text? {
      var expanded := ExpandPart(part, find);
      assert forall i | 0 <= i < |expanded| :: Neat(expanded[i]) && !IsMarkdown(expanded[i]) by {
        assert UrlPlaced(part.text, find(part.text), |find(part.text)|);
        UrlSplitIsNeat(part.text, find(part.text));
      }
      NoImages(expanded);
      NoImages([part]);
    }
  }

  predicate AllMarkdown(parts: seq<Part>) {
    forall i | 0 <= i < |parts| && parts[i].Image? :: IsMarkdown(parts[i])
  }

  lemma LastImage(parts: seq<Part>)
    requires parts != []
    ensures MarkdownImages(parts) == MarkdownImages(parts[..|parts| - 1]) + MarkdownImages([parts[|parts| - 1]])
  {
    var last := parts[|parts| - 1];
    assert [last][..0] == [];
  }

  lemma {:induction false} ExpandImages(parts: seq<Part>, find: string -> seq<UrlMatch>)
    requires Finds(find) && AllMarkdown(parts)
    ensures MarkdownImages(Expand(parts, find)) == MarkdownImages(parts)
  {
    if parts != [] {
      var init, last := parts[..|parts| - 1], parts[|parts| - 1];
      ExpandImages(init, find);
      PartImages(last, find);
      ImagesConcat(Expand(init, find), ExpandPart(last, find));
      LastImage(parts);
    }
  }

  lemma {:induction false} ExpandIsNeat(parts: seq<Part>, find: string -> seq<UrlMatch>)
    requires Finds(find) && AllMarkdown(parts)
    ensures AllNeat(Expand(parts, find))
  {
    if parts != [] {
      ExpandIsNeat(parts[..|parts| - 1], find);
      PartImages(parts[|parts| - 1], find);
    }
  }

  lemma WholeIsText(parts: seq<Part>, content: string)
    ensures MarkdownImages(OrWhole(parts, content)) == MarkdownImages(parts)
    ensures AllMarkdown(parts) ==> AllMarkdown(OrWhole(parts, content))
    ensures content != "" && AllNeat(parts) ==> AllNeat(OrWhole(parts, content))
  {
    if parts == [] { NoImages([Text(content)]); }
  }

  /** The Markdown matches become the Markdown images, one for one and in order, and no part is
      empty unless the message is. */
  lemma PartsAreTheMatches(content: string, ms: seq<MdMatch>, find: string -> seq<UrlMatch>)
    requires MdPlaced(content, ms, |ms|) && Finds(find)
    ensures MarkdownImages(Parsed(content, ms, find)) == Images(ms, |ms|)
    ensures content != "" ==> AllNeat(Parsed(content, ms, find))
  {
    var split := SplitMarkdown(content, ms);
    var first := OrWhole(split, content);
    assert MarkdownImages(first) == Images(ms, |ms|) && AllMarkdown(first) by {
      SplitImages(content, ms);
      SplitIsMarkdown(content, ms);
      WholeIsText(split, content);
    }
    ExpandImages(first, find);
    ExpandIsNeat(first, find);
    WholeIsText(Expand(first, find), content);
  }

  // ---- the two loops

  method FirstPass(content: string, ms: seq<MdMatch>) returns (parts: seq<Part>)
    requires MdPlaced(content, ms, |ms|)
    ensures parts == OrWhole(SplitMarkdown(content, ms), content)
  {
    MdBound(content, ms, |ms|);
    parts := [];
    var lastIndex: nat := 0;
    for i := 0 to |ms|
      invariant lastIndex == MdFrom(ms, i) <= |content|
      invariant MdPlaced(content, ms, i) && parts == MdUpTo(content, ms, i)
    {
      var found := ms[i];
      MdPrefix(content, ms, i + 1, |ms|);
      assert MdUpTo(content, ms, i + 1) == parts + MdParts(content, found, lastIndex);
      if found.index > lastIndex {
        parts := parts + [Text(content[lastIndex..found.index])];
      }
      parts := parts + [Image(found.url, found.alt, Markdown)];
      lastIndex := found.index + |Syntax(found.alt, found.url)|;
    }
    assert content[lastIndex..] == content[lastIndex..|content|] && parts + [] == parts;
    if lastIndex < |content| {
      parts := parts + [Text(content[lastIndex..])];
    }
    if |parts| == 0 {
      parts := parts + [Text(content)];
    }
  }

  /** One round of the loop over the bare URLs. */
  lemma UrlStep(text: string, us: seq<UrlMatch>, i: nat)
    requires i < |us| && UrlPlaced(text, us, |us|)
    ensures UrlPlaced(text, us, i) && UrlPlaced(text, us, i + 1)
    ensures UrlFrom(us, i) <= UrlStart(us[i]) <= UrlFrom(us, i + 1) <= |text|
    ensures var image := [Image(us[i].url, "", BareUrl)];
            UrlUpTo(text, us, i + 1)
            == if UrlStart(us[i]) > UrlFrom(us, i)
               then UrlUpTo(text, us, i) + [Text(text[UrlFrom(us, i)..UrlStart(us[i])])] + image
               else UrlUpTo(text, us, i) + image
  {
    UrlPrefix(text, us, i + 1, |us|);
    assert UrlUpTo(text, us, i + 1) == UrlUpTo(text, us, i) + UrlParts(text, us[i], UrlFrom(us, i));
  }

  lemma UrlTail(text: string, us: seq<UrlMatch>)
    requires UrlPlaced(text, us, |us|)
    ensures UrlFrom(us, |us|) <= |text|
    ensures SplitUrls(text, us)
            == if UrlFrom(us, |us|) < |text| then UrlUpTo(text, us, |us|) + [Text(text[UrlFrom(us, |us|)..])]
               else UrlUpTo(text, us, |us|)
  {
    UrlBound(text, us, |us|);
    assert text[UrlFrom(us, |us|)..] == text[UrlFrom(us, |us|)..|text|];
  }

  method ExpandText(text: string, us: seq<UrlMatch>) returns (expanded: seq<Part>)
    requires UrlPlaced(text, us, |us|)
    ensures expanded == SplitUrls(text, us)
  {
    UrlBound(text, us, |us|);
    expanded := [];
    var textLastIndex: nat := 0;
    for i := 0 to |us|
      invariant textLastIndex == UrlFrom(us, i) <= |text|
      invariant UrlPlaced(text, us, i) && expanded == UrlUpTo(text, us, i)
    {
      var found := us[i];
      UrlStep(text, us, i);
      var url := found.url;
      var whole := found.lead + url;
      var start := found.index + (|whole| - |url|);
      if start > textLastIndex {
        expanded := expanded + [Text(text[textLastIndex..start])];
      }
      expanded := expanded + [Image(url, "", BareUrl)];
      textLastIndex := start + |url|;
    }
    UrlTail(text, us);
    if textLastIndex < |text| {
      expanded := expanded + [Text(text[textLastIndex..])];
    }
  }

  lemma ExpandStep(parts: seq<Part>, i: nat, find: string -> seq<UrlMatch>)
    requires i < |parts| && Finds(find)
    ensures Expand(parts[..i + 1], find) == Expand(parts[..i], find) + ExpandPart(parts[i], find)
  {
    assert parts[..i + 1][..i] == parts[..i];
  }

  method ParseContent(content: string, ms: seq<MdMatch>, find: string -> seq<UrlMatch>) returns (expanded: seq<Part>)
    requires MdPlaced(content, ms, |ms|) && Finds(find)
    ensures expanded == Parsed(content, ms, find)
    ensures Print(expanded) == content
  {
    var parts := FirstPass(content, ms);
    expanded := [];
    for i := 0 to |parts|
      invariant expanded == Expand(parts[..i], find)
    {
      ExpandStep(parts, i, find);
      if parts[i].Text? {
        assert UrlPlaced(parts[i].text, find(parts[i].text), |find(parts[i].text)|);
        var more := ExpandText(parts[i].text, find(parts[i].text));
        expanded := expanded + more;
      } else {
        expanded := expanded + [parts[i]];
      }
    }
    assert parts[..|parts|] == parts;
    SplittingIsLossless(content, ms, find);
    if |expanded| == 0 {
      expanded := [Text(content)];
    }
  }
}
