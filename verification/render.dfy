/** The texts the bot renders: the caption of a search-result photo
    (index.js:129) and the download-record message (index.js:161-171). The
    rendering is fixed by the concatenations below; the lemmas describe each
    text by the list of lines it splits into. */
module Render {
  import opened Text
  import opened Catalog

  const NewLine := '\n'

  /** A field that can be rendered on one line. */
  predicate SingleLine(s: string) {
    NewLine !in s
  }

  // The photo caption.

  const TitleOpen := "🎬 *"
  const TitleClose := "*"
  const TypeLabel := "📅 *Type:* "

  /** The caption of a search-result photo: the bold title, then the type. */
  function Caption(m: Movie): (c: string)
    ensures c == Join([TitleOpen + m.title + TitleClose, TypeLabel + m.kind, ""], "\n")
  {
    var lines := [TitleOpen + m.title + TitleClose, TypeLabel + m.kind, ""];
    assert lines[1..] == [TypeLabel + m.kind, ""] && lines[1..][1..] == [""];
    assert Join(lines[1..][1..], "\n") == "";
    assert Join(lines[1..], "\n") == lines[1] + "\n" + "";
    assert Join(lines, "\n") == lines[0] + "\n" + (lines[1] + "\n" + "");
    TitleOpen + m.title + TitleClose + "\n" + TypeLabel + m.kind + "\n"
  }

  /** A caption is exactly two lines, title then type, each ended by a line
      break. */
  lemma CaptionLines(m: Movie)
    requires SingleLine(m.title) && SingleLine(m.kind)
    ensures Split(Caption(m), NewLine) == [TitleOpen + m.title + TitleClose, TypeLabel + m.kind, ""]
  {
    var l1 := TitleOpen + m.title + TitleClose;
    var l2 := TypeLabel + m.kind;
    assert Caption(m) == l1 + [NewLine] + (l2 + [NewLine] + "");
    SplitAfter(l1, NewLine, l2 + [NewLine] + "");
    SplitAfter(l2, NewLine, "");
  }

  // The download-record message.

  const Banner := "🎬 *By skymansion.site*"
  const DateLabel := "📅 *Date:* "
  const CountryLabel := "🌍 *Country:* "
  const DurationLabel := "⏱️ *Duration:* "
  const GenresLabel := "🎭 *Genres:* "
  const ImdbLabel := "⭐ *IMDB:* "
  const TmdbLabel := "🌟 *TMDB:* "
  const GenreSeparator := ", "
  const LinksHeading := "*Download Links:*"
  const NoLinks := "No download links available."
  const FetchFailed := "Failed to fetch download links."

  /** The text of one link line, without its line break: the bold quality
      and the size in parentheses, then a Markdown link to the URL. The line
      is exactly that head followed by that link. */
  function LinkText(l: Link): (t: string)
    ensures StartsWith(t, LinkHead(l))
    ensures EndsWith(t, LinkTarget(l))
    ensures |t| == |LinkHead(l)| + |LinkTarget(l)|
    ensures SingleLineLink(l) ==> SingleLine(t)
  {
    assert SingleLine("📥 *") && SingleLine("* (") && SingleLine(") - ");
    assert SingleLine("[Download](") && SingleLine(")");
    var t := LinkHead(l) + LinkTarget(l);
    assert t[..|LinkHead(l)|] == LinkHead(l) && t[|LinkHead(l)|..] == LinkTarget(l);
    t
  }

  /** What a link line shows before the link: the quality in bold and the
      size in parentheses. */
  function LinkHead(l: Link): string {
    "📥 *" + l.quality + "* (" + l.size + ") - "
  }

  /** The Markdown link at the end of a link line. */
  function LinkTarget(l: Link): string {
    "[Download](" + l.url + ")"
  }

  /** The link lines appended one per link, in list order. */
  function LinkLines(links: seq<Link>): (s: string)
    ensures s == Join(LinkTexts(links) + [""], "\n")
  {
    if |links| == 0 then ""
    else
      var lines := LinkTexts(links) + [""];
      assert LinkTexts(links) == [LinkText(links[0])] + LinkTexts(links[1..]);
      assert lines[1..] == LinkTexts(links[1..]) + [""];
      LinkText(links[0]) + "\n" + LinkLines(links[1..])
  }

  /** The part after the metadata: a heading and the link lines, or the
      no-links notice when there are no Telegram links. */
  function LinksSection(links: seq<Link>): (s: string)
    ensures s == NoLinks <==> |links| == 0
    ensures |links| > 0 ==> StartsWith(s, LinksHeading + "\n")
  {
    if |links| > 0 then LinksHeading + "\n" + LinkLines(links) else NoLinks
  }

  /** The download-record message. Only the Telegram link group is rendered. */
  function DownloadMessage(d: DownloadRecord): (m: string)
    ensures StartsWith(m, Banner + "\n")
    ensures EndsWith(m, LinksSection(d.links.telegramLinks))
  {
    var head := Banner + "\n";
    var metadata := "\n" + DateLabel + d.date + "\n" + CountryLabel + d.country + "\n"
      + DurationLabel + d.duration + "\n" + GenresLabel + Join(d.genres, GenreSeparator) + "\n"
      + ImdbLabel + d.imdb + "\n" + TmdbLabel + d.tmdb + "\n\n";
    var section := LinksSection(d.links.telegramLinks);
    Framed(head, metadata, section);
    head + metadata + section
  }

  /** A string built as `a + b + c` starts with `a` and ends with `c`. */
  lemma Framed(a: string, b: string, c: string)
    ensures StartsWith(a + b + c, a) && EndsWith(a + b + c, c)
  {
    assert (a + b + c)[..|a|] == a;
    assert (a + b + c)[|a + b|..] == c;
  }

  /** Every metadata field and link field fits on one line. */
  predicate SingleLineRecord(d: DownloadRecord) {
    && SingleLine(d.date) && SingleLine(d.country) && SingleLine(d.duration)
    && (forall k :: 0 <= k < |d.genres| ==> SingleLine(d.genres[k]))
    && SingleLine(d.imdb) && SingleLine(d.tmdb)
    && (forall k :: 0 <= k < |d.links.telegramLinks| ==> SingleLineLink(d.links.telegramLinks[k]))
  }

  predicate SingleLineLink(l: Link) {
    SingleLine(l.quality) && SingleLine(l.size) && SingleLine(l.url)
  }

  /** The link texts of a list of links, in list order. */
  function LinkTexts(links: seq<Link>): (r: seq<string>)
    ensures |r| == |links|
    ensures forall i :: 0 <= i < |links| ==> r[i] == LinkText(links[i])
  {
    if |links| == 0 then [] else [LinkText(links[0])] + LinkTexts(links[1..])
  }

  /** The lines of the download message, as a reader sees them: the banner,
      a blank line, the six metadata lines with the genres joined by ", ", a
      blank line, and then either the no-links notice or the heading, one line
      per Telegram link in list order, and the empty remainder after the last
      line break. */
  function MessageLines(d: DownloadRecord): seq<string> {
    var tg := d.links.telegramLinks;
    [Banner, "", DateLabel + d.date, CountryLabel + d.country, DurationLabel + d.duration,
     GenresLabel + Join(d.genres, GenreSeparator), ImdbLabel + d.imdb, TmdbLabel + d.tmdb, ""]
    + SectionLines(tg)
  }

  /** The lines after the metadata. */
  function SectionLines(tg: seq<Link>): seq<string> {
    if |tg| == 0 then [NoLinks] else [LinksHeading] + LinkTexts(tg) + [""]
  }

  /** None of the fixed labels contains a line break. Checked as one proof
      in the context of the whole project, the ten literals take about three
      quarters of the verifier's resource budget, so they are checked in the
      three groups below. */
  lemma LabelsSingleLine()
    ensures SingleLine(Banner) && SingleLine(DateLabel) && SingleLine(CountryLabel)
    ensures SingleLine(DurationLabel) && SingleLine(GenresLabel) && SingleLine(ImdbLabel)
    ensures SingleLine(TmdbLabel) && SingleLine(GenreSeparator) && SingleLine(LinksHeading)
    ensures SingleLine(NoLinks)
  {
    HeaderLabelsSingleLine();
    MetadataLabelsSingleLine();
    SectionLabelsSingleLine();
  }

  lemma HeaderLabelsSingleLine()
    ensures SingleLine(Banner) && SingleLine(DateLabel) && SingleLine(CountryLabel)
  {
  }

  lemma MetadataLabelsSingleLine()
    ensures SingleLine(DurationLabel) && SingleLine(GenresLabel) && SingleLine(ImdbLabel)
    ensures SingleLine(TmdbLabel) && SingleLine(GenreSeparator)
  {
  }

  lemma SectionLabelsSingleLine()
    ensures SingleLine(LinksHeading) && SingleLine(NoLinks)
  {
  }

  /** The link lines split into one line per link, in order, followed by the
      empty remainder. */
  lemma {:induction false} LinkLinesSplit(links: seq<Link>)
    requires forall k :: 0 <= k < |links| ==> SingleLineLink(links[k])
    ensures Split(LinkLines(links), NewLine) == LinkTexts(links) + [""]
    decreases |links|
  {
    if |links| == 0 {
      SplitWithout("", NewLine);
    } else {
      var t := LinkText(links[0]);
      assert SingleLineLink(links[0]);
      LinkLinesSplit(links[1..]);
      assert LinkLines(links) == t + [NewLine] + LinkLines(links[1..]);
      SplitAfter(t, NewLine, LinkLines(links[1..]));
      assert LinkTexts(links) == [t] + LinkTexts(links[1..]);
    }
  }

  /** The section after the metadata, split into lines. */
  lemma LinksSectionSplit(links: seq<Link>)
    requires forall k :: 0 <= k < |links| ==> SingleLineLink(links[k])
    ensures Split(LinksSection(links), NewLine) == SectionLines(links)
  {
    SectionLabelsSingleLine();
    if |links| == 0 {
      SplitWithout(NoLinks, NewLine);
    } else {
      LinkLinesSplit(links);
      assert LinksSection(links) == LinksHeading + [NewLine] + LinkLines(links);
      SplitAfter(LinksHeading, NewLine, LinkLines(links));
    }
  }

  /** Regrouping of the message's concatenation, stated over arbitrary
      pieces so that the fixed labels need not be unfolded. */
  lemma Regroup(b: string, l1: string, v1: string, l2: string, v2: string, l3: string, v3: string,
                l4: string, v4: string, l5: string, v5: string, l6: string, v6: string, rest: string)
    ensures b + "\n" + ("\n" + l1 + v1 + "\n" + l2 + v2 + "\n" + l3 + v3 + "\n" + l4 + v4 + "\n"
            + l5 + v5 + "\n" + l6 + v6 + "\n\n") + rest
         == b + "\n" + ("" + "\n" + (l1 + v1 + "\n" + (l2 + v2 + "\n" + (l3 + v3 + "\n"
            + (l4 + v4 + "\n" + (l5 + v5 + "\n" + (l6 + v6 + "\n" + ("" + "\n" + rest))))))))
  {
  }

  /** The download message regrouped as one line after another, each line
      followed by its break. */
  lemma DownloadMessageShape(d: DownloadRecord)
    ensures DownloadMessage(d)
         == Banner + "\n" + ("" + "\n" + (DateLabel + d.date + "\n" + (CountryLabel + d.country + "\n"
          + (DurationLabel + d.duration + "\n" + (GenresLabel + Join(d.genres, GenreSeparator) + "\n"
          + (ImdbLabel + d.imdb + "\n" + (TmdbLabel + d.tmdb + "\n" + ("" + "\n"
          + LinksSection(d.links.telegramLinks)))))))))
  {
    Regroup(Banner, DateLabel, d.date, CountryLabel, d.country, DurationLabel, d.duration,
            GenresLabel, Join(d.genres, GenreSeparator), ImdbLabel, d.imdb, TmdbLabel, d.tmdb,
            LinksSection(d.links.telegramLinks));
  }

  /** Three single-line pieces, each followed by a break, split into those
      three lines and the lines of what follows. */
  lemma SplitThreeLines(x1: string, x2: string, x3: string, rest: string)
    requires SingleLine(x1) && SingleLine(x2) && SingleLine(x3)
    ensures Split(x1 + "\n" + (x2 + "\n" + (x3 + "\n" + rest)), NewLine)
         == [x1, x2, x3] + Split(rest, NewLine)
  {
    SplitAfter(x3, NewLine, rest);
    SplitAfter(x2, NewLine, x3 + "\n" + rest);
    SplitAfter(x1, NewLine, x2 + "\n" + (x3 + "\n" + rest));
  }

  /** Six single-line pieces, each followed by a break, split into those six
      lines and the lines of what follows. */
  lemma SplitSixLines(x1: string, x2: string, x3: string, x4: string, x5: string, x6: string, rest: string)
    requires SingleLine(x1) && SingleLine(x2) && SingleLine(x3)
    requires SingleLine(x4) && SingleLine(x5) && SingleLine(x6)
    ensures Split(x1 + "\n" + (x2 + "\n" + (x3 + "\n" + (x4 + "\n" + (x5 + "\n" + (x6 + "\n" + rest))))), NewLine)
         == [x1, x2, x3, x4, x5, x6] + Split(rest, NewLine)
  {
    SplitThreeLines(x4, x5, x6, rest);
    SplitThreeLines(x1, x2, x3, x4 + "\n" + (x5 + "\n" + (x6 + "\n" + rest)));
    assert [x1, x2, x3] + ([x4, x5, x6] + Split(rest, NewLine)) == [x1, x2, x3, x4, x5, x6] + Split(rest, NewLine);
  }

  /** Splitting the regrouped message, stated over arbitrary single-line
      pieces. */
  lemma SplitRegrouped(b: string, x1: string, x2: string, x3: string, x4: string, x5: string,
                       x6: string, rest: string)
    requires SingleLine(b) && SingleLine(x1) && SingleLine(x2) && SingleLine(x3)
    requires SingleLine(x4) && SingleLine(x5) && SingleLine(x6)
    ensures Split(b + "\n" + ("" + "\n" + (x1 + "\n" + (x2 + "\n" + (x3 + "\n"
              + (x4 + "\n" + (x5 + "\n" + (x6 + "\n" + ("" + "\n" + rest)))))))), NewLine)
         == [b, "", x1, x2, x3, x4, x5, x6, ""] + Split(rest, NewLine)
  {
    var tail := x6 + "\n" + ("" + "\n" + rest);
    SplitAfter(x6, NewLine, "" + "\n" + rest);
    SplitAfter("", NewLine, rest);
    SplitSixLines(b, "", x1, x2, x3, x4, x5 + "\n" + tail);
    SplitAfter(x5, NewLine, tail);
    assert [b, "", x1, x2, x3, x4] + ([x5] + ([x6] + ([""] + Split(rest, NewLine))))
        == [b, "", x1, x2, x3, x4, x5, x6, ""] + Split(rest, NewLine);
  }

  /** The download message consists of exactly the lines of `MessageLines`. */
  lemma DownloadMessageLines(d: DownloadRecord)
    requires SingleLineRecord(d)
    ensures Split(DownloadMessage(d), NewLine) == MessageLines(d)
  {
    var g := Join(d.genres, GenreSeparator);
    LabelsSingleLine();
    JoinAvoids(d.genres, GenreSeparator, NewLine);
    DownloadMessageShape(d);
    LinksSectionSplit(d.links.telegramLinks);
    SplitRegrouped(Banner, DateLabel + d.date, CountryLabel + d.country, DurationLabel + d.duration,
                   GenresLabel + g, ImdbLabel + d.imdb, TmdbLabel + d.tmdb,
                   LinksSection(d.links.telegramLinks));
  }

  /** The message ends with the no-links notice exactly when the record has
      no Telegram links; otherwise it ends with the line break of its last
      link line. */
  lemma NoLinksNoticeIffEmpty(d: DownloadRecord)
    ensures EndsWith(DownloadMessage(d), NoLinks) <==> |d.links.telegramLinks| == 0
  {
    var tg := d.links.telegramLinks;
    var m := DownloadMessage(d);
    if |tg| > 0 {
      assert LinkLines(tg) == LinkText(tg[0]) + "\n" + LinkLines(tg[1..]);
      LinkLinesEndWithBreak(tg);
      assert m[|m| - 1] == NewLine;
      assert NoLinks[|NoLinks| - 1] == '.';
    } else {
      assert m == (m[..|m| - |NoLinks|]) + NoLinks;
    }
  }

  /** Non-empty link lines end with a line break. */
  lemma {:induction false} LinkLinesEndWithBreak(links: seq<Link>)
    requires |links| > 0
    ensures |LinkLines(links)| > 0 && LinkLines(links)[|LinkLines(links)| - 1] == NewLine
    decreases |links|
  {
    if |links| > 1 {
      LinkLinesEndWithBreak(links[1..]);
    }
  }

  /** The drive and other link groups never reach the message. */
  lemma OnlyTelegramLinksRendered(d: DownloadRecord, drive: seq<Link>, other: seq<Link>)
    ensures DownloadMessage(d.(links := d.links.(driveLinks := drive, otherLinks := other)))
         == DownloadMessage(d)
  {
  }
}
