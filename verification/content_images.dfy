/** Where the images of a split message stand, stated by the matches alone. */
module ContentImages {
  import opened Texts
  import opened ContentParts

  type Spot = (nat, Part)

  /** The images among the parts, each with its position in the message printed from them. */
  function Located(parts: seq<Part>, from: nat): seq<Spot> {
    if parts == [] then []
    else
      var init, last := parts[..|parts| - 1], parts[|parts| - 1];
      Located(init, from) + if last.Image? then [(from + |Print(init)|, last)] else []
  }

  function SpotOf(u: UrlMatch, from: nat): Spot {
    (from + u.index + |u.lead|, Image(u.url, "", BareUrl))
  }

  /** The first n bare URLs, as matched in a text that starts at from. */
  function UrlSpots(us: seq<UrlMatch>, n: nat, from: nat): seq<Spot>
    requires n <= |us|
  {
    if n == 0 then [] else UrlSpots(us, n - 1, from) + [SpotOf(us[n - 1], from)]
  }

  /** Those of a stretch of the message, which is searched unless it is empty. */
  ghost function StretchSpots(content: string, from: nat, to: nat, find: string -> seq<UrlMatch>): seq<Spot>
    requires from <= to <= |content|
  {
    if from == to then [] else UrlSpots(find(content[from..to]), |find(content[from..to])|, from)
  }

  /** The bare URLs before a Markdown match, then its image. */
  ghost function MdSpots(content: string, m: MdMatch, from: nat, find: string -> seq<UrlMatch>): seq<Spot>
    requires MdMatches(content, m, from)
  {
    StretchSpots(content, from, m.index, find) + [(m.index, Image(m.url, m.alt, Markdown))]
  }

  /** Those of the first n Markdown matches. */
  ghost function Spots(content: string, ms: seq<MdMatch>, find: string -> seq<UrlMatch>, n: nat): seq<Spot>
    requires n <= |ms| && MdPlaced(content, ms, n)
  {
    if n == 0 then [] else Spots(content, ms, find, n - 1) + MdSpots(content, ms[n - 1], MdFrom(ms, n - 1), find)
  }

  lemma {:induction false} LocatedConcat(a: seq<Part>, b: seq<Part>, from: nat)
    ensures Located(a + b, from) == Located(a, from) + Located(b, from + |Print(a)|)
  {
    if b == [] {
      assert a + b == a;
    } else {
      var init, last := b[..|b| - 1], b[|b| - 1];
      assert (a + b)[..|a + b| - 1] == a + init && (a + b)[|a + b| - 1] == last;
      LocatedConcat(a, init, from);
      PrintConcat(a, init);
    }
  }

  /** Two runs of parts, the second starting where the first one ends. */
  lemma LocatedJoin(a: seq<Part>, b: seq<Part>, from: nat, middle: nat, spots: seq<Spot>, more: seq<Spot>)
    requires from + |Print(a)| == middle
    requires Located(a, from) == spots && Located(b, middle) == more
    ensures Located(a + b, from) == spots + more
  {
    LocatedConcat(a, b, from);
  }

  lemma Reassociate(a: seq<Spot>, b: seq<Spot>, c: seq<Spot>)
    ensures a + (b + c) == a + b + c
  {
  }

  lemma TextHasNoSpot(content: string, from: nat, to: nat, at: nat)
    requires from <= to <= |content|
    ensures Located(Between(content, from, to), at) == []
  {
    if from < to { assert [Text(content[from..to])][..0] == []; }
  }

  lemma ImageHasSpot(image: Part, at: nat)
    requires image.Image?
    ensures Located([image], at) == [(at, image)]
  {
    assert [image][..0] == [] && Print([]) == "";
  }

  lemma UrlPartsLocated(text: string, u: UrlMatch, from: nat, at: nat)
    requires UrlMatches(text, u, from)
    ensures Located(UrlParts(text, u, from), at + from) == [SpotOf(u, at)]
  {
    var before, image := Between(text, from, UrlStart(u)), Image(u.url, "", BareUrl);
    LocatedConcat(before, [image], at + from);
    TextHasNoSpot(text, from, UrlStart(u), at + from);
    PrintBetween(text, from, UrlStart(u));
    ImageHasSpot(image, at + from + |Print(before)|);
  }

  lemma OneUrlMore(before: seq<Part>, spots: seq<Spot>, text: string, u: UrlMatch, from: nat, at: nat)
    requires UrlMatches(text, u, from) && |Print(before)| == from && Located(before, at) == spots
    ensures Located(before + UrlParts(text, u, from), at)
            == spots + [SpotOf(u, at)]
  {
    UrlPartsLocated(text, u, from, at);
    LocatedConcat(before, UrlParts(text, u, from), at);
  }

  lemma {:induction false} UrlsLocated(text: string, us: seq<UrlMatch>, n: nat, at: nat)
    requires n <= |us| && UrlPlaced(text, us, n)
    ensures Located(UrlUpTo(text, us, n), at) == UrlSpots(us, n, at)
  {
    if n > 0 {
      var before, more := UrlUpTo(text, us, n - 1), UrlParts(text, us[n - 1], UrlFrom(us, n - 1));
      var spots, spot := UrlSpots(us, n - 1, at), SpotOf(us[n - 1], at);
      assert Located(before + more, at) == spots + [spot] by {
        UrlsPrint(text, us, n - 1);
        UrlsLocated(text, us, n - 1, at);
        OneUrlMore(before, spots, text, us[n - 1], UrlFrom(us, n - 1), at);
      }
    }
  }

  lemma SplitUrlsLocated(text: string, us: seq<UrlMatch>, at: nat)
    requires UrlPlaced(text, us, |us|)
    ensures Located(SplitUrls(text, us), at) == UrlSpots(us, |us|, at)
  {
    UrlBound(text, us, |us|);
    var before, from := UrlUpTo(text, us, |us|), UrlFrom(us, |us|);
    var tail := Between(text, from, |text|);
    var middle := at + |Print(before)|;
    assert Located(before, at) == UrlSpots(us, |us|, at) by { UrlsLocated(text, us, |us|, at); }
    assert Located(tail, middle) == [] by { TextHasNoSpot(text, from, |text|, middle); }
    LocatedJoin(before, tail, at, middle, UrlSpots(us, |us|, at), []);
  }

  lemma RegroupParts(a: seq<Part>, b: seq<Part>, c: seq<Part>)
    ensures (a + b) + c == a + (b + c)
  {
  }

  lemma {:induction false} ExpandConcat(a: seq<Part>, b: seq<Part>, find: string -> seq<UrlMatch>)
    requires Finds(find)
    ensures Expand(a + b, find) == Expand(a, find) + Expand(b, find)
  {
    if b == [] {
      assert a + b == a;
    } else {
      var init, last := b[..|b| - 1], b[|b| - 1];
      assert (a + b)[..|a + b| - 1] == a + init;
      ExpandConcat(a, init, find);
      RegroupParts(Expand(a, find), Expand(init, find), ExpandPart(last, find));
    }
  }

  lemma ExpandOne(part: Part, find: string -> seq<UrlMatch>)
    requires Finds(find)
    ensures Expand([part], find) == ExpandPart(part, find)
  {
    assert [part][..0] == [];
  }

  lemma StretchLocated(content: string, from: nat, to: nat, find: string -> seq<UrlMatch>)
    requires Finds(find) && from <= to <= |content|
    ensures Located(Expand(Between(content, from, to), find), from) == StretchSpots(content, from, to, find)
    ensures |Print(Expand(Between(content, from, to), find))| == to - from
  {
    ExpandPrints(Between(content, from, to), find);
    PrintBetween(content, from, to);
    if from < to {
      var text := content[from..to];
      ExpandOne(Text(text), find);
      assert UrlPlaced(text, find(text), |find(text)|);
      SplitUrlsLocated(text, find(text), from);
    }
  }

  lemma MdPartsLocated(content: string, m: MdMatch, from: nat, find: string -> seq<UrlMatch>)
    requires Finds(find) && MdMatches(content, m, from)
    ensures Located(Expand(MdParts(content, m, from), find), from)
            == MdSpots(content, m, from, find)
  {
    var before, image := Between(content, from, m.index), Image(m.url, m.alt, Markdown);
    ExpandConcat(before, [image], find);
    ExpandOne(image, find);
    StretchLocated(content, from, m.index, find);
    LocatedConcat(Expand(before, find), [image], from);
    ImageHasSpot(image, m.index);
  }

  lemma OneMatchMore(before: seq<Part>, spots: seq<Spot>, content: string, m: MdMatch, from: nat,
                     find: string -> seq<UrlMatch>)
    requires Finds(find) && MdMatches(content, m, from)
    requires |Print(before)| == from && Located(Expand(before, find), 0) == spots
    ensures Located(Expand(before + MdParts(content, m, from), find), 0) == spots + MdSpots(content, m, from, find)
  {
    var more := MdParts(content, m, from);
    assert Expand(before + more, find) == Expand(before, find) + Expand(more, find) by { ExpandConcat(before, more, find); }
    assert |Print(Expand(before, find))| == from by { ExpandPrints(before, find); }
    MdPartsLocated(content, m, from, find);
    LocatedJoin(Expand(before, find), Expand(more, find), 0, from, spots, MdSpots(content, m, from, find));
  }

  lemma {:induction false} MarkdownLocated(content: string, ms: seq<MdMatch>, n: nat, find: string -> seq<UrlMatch>)
    requires Finds(find) && n <= |ms| && MdPlaced(content, ms, n)
    ensures Located(Expand(MdUpTo(content, ms, n), find), 0) == Spots(content, ms, find, n)
  {
    if n > 0 {
      var before, more := MdUpTo(content, ms, n - 1), MdParts(content, ms[n - 1], MdFrom(ms, n - 1));
      var spots, last := Spots(content, ms, find, n - 1), MdSpots(content, ms[n - 1], MdFrom(ms, n - 1), find);
      assert Located(Expand(before + more, find), 0) == spots + last by {
        MarkdownPrints(content, ms, n - 1);
        MarkdownLocated(content, ms, n - 1, find);
        OneMatchMore(before, spots, content, ms[n - 1], MdFrom(ms, n - 1), find);
      }
    }
  }

  // ---- theorems

  /** All images of the message: those of the Markdown matches, then the bare URLs behind the last one. */
  ghost function AllSpots(content: string, ms: seq<MdMatch>, find: string -> seq<UrlMatch>): seq<Spot>
    requires MdPlaced(content, ms, |ms|) && MdFrom(ms, |ms|) <= |content|
  {
    Spots(content, ms, find, |ms|) + StretchSpots(content, MdFrom(ms, |ms|), |content|, find)
  }

  lemma WholeStaysLocated(parts: seq<Part>, content: string)
    ensures Located(OrWhole(parts, content), 0) == Located(parts, 0)
  {
    if parts == [] { assert [Text(content)][..0] == []; }
  }

  lemma SplitLocated(content: string, ms: seq<MdMatch>, find: string -> seq<UrlMatch>)
    requires MdPlaced(content, ms, |ms|) && Finds(find)
    ensures MdFrom(ms, |ms|) <= |content|
    ensures Located(Expand(SplitMarkdown(content, ms), find), 0) == AllSpots(content, ms, find)
  {
    MdBound(content, ms, |ms|);
    var before, from := MdUpTo(content, ms, |ms|), MdFrom(ms, |ms|);
    var tail := Between(content, from, |content|);
    assert |Print(Expand(before, find))| == from by {
      ExpandPrints(before, find);
      MarkdownPrints(content, ms, |ms|);
    }
    assert Located(Expand(before, find), 0) == Spots(content, ms, find, |ms|) by {
      MarkdownLocated(content, ms, |ms|, find);
    }
    assert Located(Expand(tail, find), from) == StretchSpots(content, from, |content|, find) by {
      StretchLocated(content, from, |content|, find);
    }
    LocatedJoin(Expand(before, find), Expand(tail, find), 0, from,
                Spots(content, ms, find, |ms|), StretchSpots(content, from, |content|, find));
    ExpandConcat(before, tail, find);
  }

  /** In every message but the empty one the images are, in order and each at the position of its
      match, those of the Markdown matches and, between and around them, those of the URLs found in
      the stretches of text in between; there are no others. */
  lemma ImagesStandWhereMatched(content: string, ms: seq<MdMatch>, find: string -> seq<UrlMatch>)
    requires MdPlaced(content, ms, |ms|) && Finds(find) && content != ""
    ensures MdFrom(ms, |ms|) <= |content|
    ensures Located(Parsed(content, ms, find), 0) == AllSpots(content, ms, find)
  {
    SplitLocated(content, ms, find);
    var split := SplitMarkdown(content, ms);
    assert split != [] by {
      SplitsPrint(content, ms);
      assert Print([]) == "";
    }
    WholeStaysLocated(Expand(split, find), content);
  }

  /** A message without Markdown images, the empty one included, has exactly the images of its URLs. */
  lemma WithoutMarkdown(content: string, find: string -> seq<UrlMatch>)
    requires Finds(find)
    ensures Located(Parsed(content, [], find), 0) == UrlSpots(find(content), |find(content)|, 0)
  {
    var whole := [Text(content)];
    assert content[0..|content|] == content;
    assert OrWhole(SplitMarkdown(content, []), content) == whole;
    assert UrlPlaced(content, find(content), |find(content)|);
    ExpandOne(Text(content), find);
    SplitUrlsLocated(content, find(content), 0);
    WholeStaysLocated(Expand(whole, find), content);
  }

  // ---- the bare URLs alone

  function BareUrls(parts: seq<Part>): seq<string> {
    if parts == [] then []
    else
      var last := parts[|parts| - 1];
      BareUrls(parts[..|parts| - 1]) + if last.Image? && last.origin.BareUrl? then [last.url] else []
  }

  function BareOf(spots: seq<Spot>): seq<string> {
    if spots == [] then []
    else
      var last := spots[|spots| - 1].1;
      BareOf(spots[..|spots| - 1]) + if last.Image? && last.origin.BareUrl? then [last.url] else []
  }

  function Urls(us: seq<UrlMatch>, n: nat): seq<string>
    requires n <= |us|
  {
    if n == 0 then [] else Urls(us, n - 1) + [us[n - 1].url]
  }

  ghost function StretchUrls(content: string, from: nat, to: nat, find: string -> seq<UrlMatch>): seq<string>
    requires from <= to <= |content|
  {
    if from == to then [] else Urls(find(content[from..to]), |find(content[from..to])|)
  }

  /** The URLs found in the stretches before each of the first n Markdown matches. */
  ghost function UrlsBefore(content: string, ms: seq<MdMatch>, find: string -> seq<UrlMatch>, n: nat): seq<string>
    requires n <= |ms| && MdPlaced(content, ms, n)
  {
    if n == 0 then []
    else UrlsBefore(content, ms, find, n - 1) + StretchUrls(content, MdFrom(ms, n - 1), ms[n - 1].index, find)
  }

  lemma {:induction false} BareConcat(a: seq<Spot>, b: seq<Spot>)
    ensures BareOf(a + b) == BareOf(a) + BareOf(b)
  {
    if b == [] {
      assert a + b == a;
    } else {
      assert (a + b)[..|a + b| - 1] == a + b[..|b| - 1];
      BareConcat(a, b[..|b| - 1]);
    }
  }

  lemma BareOfOne(spot: Spot)
    ensures BareOf([spot]) == if spot.1.Image? && spot.1.origin.BareUrl? then [spot.1.url] else []
  {
    assert |[spot][..0]| == 0;
  }

  lemma {:induction false} BareAreLocated(parts: seq<Part>, from: nat)
    ensures BareUrls(parts) == BareOf(Located(parts, from))
  {
    if parts != [] {
      var init, last := parts[..|parts| - 1], parts[|parts| - 1];
      BareAreLocated(init, from);
      if last.Image? {
        BareConcat(Located(init, from), [(from + |Print(init)|, last)]);
        BareOfOne((from + |Print(init)|, last));
      } else {
        assert Located(init, from) + [] == Located(init, from);
      }
    }
  }

  lemma {:induction false} BareOfUrls(us: seq<UrlMatch>, n: nat, from: nat)
    requires n <= |us|
    ensures BareOf(UrlSpots(us, n, from)) == Urls(us, n)
  {
    if n > 0 {
      BareOfUrls(us, n - 1, from);
      var spots := UrlSpots(us, n - 1, from);
      assert (spots + [SpotOf(us[n - 1], from)])[..|spots|] == spots;
    }
  }

  lemma BareOfStretch(content: string, from: nat, to: nat, find: string -> seq<UrlMatch>)
    requires from <= to <= |content|
    ensures BareOf(StretchSpots(content, from, to, find)) == StretchUrls(content, from, to, find)
  {
    if from < to { BareOfUrls(find(content[from..to]), |find(content[from..to])|, from); }
  }

  lemma BareOfMatch(content: string, m: MdMatch, from: nat, find: string -> seq<UrlMatch>)
    requires MdMatches(content, m, from)
    ensures BareOf(MdSpots(content, m, from, find)) == StretchUrls(content, from, m.index, find)
  {
    var spot: Spot := (m.index, Image(m.url, m.alt, Markdown));
    BareConcat(StretchSpots(content, from, m.index, find), [spot]);
    BareOfOne(spot);
    BareOfStretch(content, from, m.index, find);
  }

  lemma {:induction false} BareOfSpots(content: string, ms: seq<MdMatch>, find: string -> seq<UrlMatch>, n: nat)
    requires n <= |ms| && MdPlaced(content, ms, n)
    ensures BareOf(Spots(content, ms, find, n)) == UrlsBefore(content, ms, find, n)
  {
    if n > 0 {
      var spots, more := Spots(content, ms, find, n - 1), MdSpots(content, ms[n - 1], MdFrom(ms, n - 1), find);
      assert BareOf(spots + more) == UrlsBefore(content, ms, find, n) by {
        BareOfSpots(content, ms, find, n - 1);
        BareOfMatch(content, ms[n - 1], MdFrom(ms, n - 1), find);
        BareConcat(spots, more);
      }
    }
  }

  /** The images made of bare URLs are, in order and one for one, the URLs found in the stretches of
      text before, between and behind the Markdown matches. */
  lemma BareUrlsAreFound(content: string, ms: seq<MdMatch>, find: string -> seq<UrlMatch>)
    requires MdPlaced(content, ms, |ms|) && Finds(find) && content != ""
    ensures MdFrom(ms, |ms|) <= |content|
    ensures BareUrls(Parsed(content, ms, find))
            == UrlsBefore(content, ms, find, |ms|) + StretchUrls(content, MdFrom(ms, |ms|), |content|, find)
  {
    ImagesStandWhereMatched(content, ms, find);
    BareAreLocated(Parsed(content, ms, find), 0);
    BareConcat(Spots(content, ms, find, |ms|), StretchSpots(content, MdFrom(ms, |ms|), |content|, find));
    BareOfSpots(content, ms, find, |ms|);
    BareOfStretch(content, MdFrom(ms, |ms|), |content|, find);
  }

  /** With no Markdown match they are exactly the URLs found in the message. */
  lemma BareUrlsOfPlainText(content: string, find: string -> seq<UrlMatch>)
    requires Finds(find)
    ensures BareUrls(Parsed(content, [], find)) == Urls(find(content), |find(content)|)
  {
    WithoutMarkdown(content, find);
    BareAreLocated(Parsed(content, [], find), 0);
    BareOfUrls(find(content), |find(content)|, 0);
  }

  // ---- text in between is one part

  predicate EndsInText(parts: seq<Part>) {
    parts != [] && parts[|parts| - 1].Text?
  }

  /** No two parts of text in a row. */
  predicate Alternates(parts: seq<Part>) {
    forall i | 0 < i < |parts| :: parts[i - 1].Image? || parts[i].Image?
  }

  lemma AlternatesConcat(a: seq<Part>, b: seq<Part>)
    requires Alternates(a) && Alternates(b) && (EndsInText(a) ==> b == [] || b[0].Image?)
    ensures Alternates(a + b) && (b != [] ==> (EndsInText(a + b) <==> EndsInText(b)))
  {
    forall i | 0 < i < |a + b|
      ensures (a + b)[i - 1].Image? || (a + b)[i].Image?
    {
      if i > |a| { assert (a + b)[i - 1] == b[i - |a| - 1] && (a + b)[i] == b[i - |a|]; }
    }
  }

  lemma {:induction false} UrlsAlternate(text: string, us: seq<UrlMatch>, n: nat)
    requires n <= |us| && UrlPlaced(text, us, n)
    ensures Alternates(UrlUpTo(text, us, n)) && !EndsInText(UrlUpTo(text, us, n))
  {
    if n > 0 {
      UrlsAlternate(text, us, n - 1);
      AlternatesConcat(UrlUpTo(text, us, n - 1), UrlParts(text, us[n - 1], UrlFrom(us, n - 1)));
    }
  }

  lemma {:induction false} MarkdownAlternates(content: string, ms: seq<MdMatch>, n: nat)
    requires n <= |ms| && MdPlaced(content, ms, n)
    ensures Alternates(MdUpTo(content, ms, n)) && !EndsInText(MdUpTo(content, ms, n))
  {
    if n > 0 {
      MarkdownAlternates(content, ms, n - 1);
      AlternatesConcat(MdUpTo(content, ms, n - 1), MdParts(content, ms[n - 1], MdFrom(ms, n - 1)));
    }
  }

  lemma PartAlternates(part: Part, find: string -> seq<UrlMatch>)
    requires Finds(find)
    ensures Alternates(ExpandPart(part, find)) && (part.Image? ==> ExpandPart(part, find) == [part])
  {
    if part.Text? {
      var text, us := part.text, find(part.text);
      assert UrlPlaced(text, us, |us|);
      UrlBound(text, us, |us|);
      UrlsAlternate(text, us, |us|);
      AlternatesConcat(UrlUpTo(text, us, |us|), Between(text, UrlFrom(us, |us|), |text|));
    }
  }

  lemma {:induction false} ExpandAlternates(parts: seq<Part>, find: string -> seq<UrlMatch>)
    requires Finds(find) && Alternates(parts)
    ensures Alternates(Expand(parts, find)) && (!EndsInText(parts) ==> !EndsInText(Expand(parts, find)))
  {
    if parts != [] {
      var init, last := parts[..|parts| - 1], parts[|parts| - 1];
      ExpandAlternates(init, find);
      PartAlternates(last, find);
      AlternatesConcat(Expand(init, find), ExpandPart(last, find));
    }
  }

  /** So with the images in their places and the whole printing back, the parts are determined: no two
      parts of text follow each other. */
  lemma TextIsNotSplit(content: string, ms: seq<MdMatch>, find: string -> seq<UrlMatch>)
    requires MdPlaced(content, ms, |ms|) && Finds(find)
    ensures Alternates(Parsed(content, ms, find))
  {
    MdBound(content, ms, |ms|);
    MarkdownAlternates(content, ms, |ms|);
    AlternatesConcat(MdUpTo(content, ms, |ms|), Between(content, MdFrom(ms, |ms|), |content|));
    ExpandAlternates(OrWhole(SplitMarkdown(content, ms), content), find);
  }
}
