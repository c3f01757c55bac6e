/**
 * The worker revision's text rendering (worker/postManager.js): the markdown
 * cleaner it applies to captured times, the records it aggregates with it,
 * and the pages of the bounty board — five activities per page, each page a
 * list of lines joined with line feeds.
 */
module WorkerPages {
  import opened Wrappers
  import opened Lodash
  import opened JsStrings
  import opened Discord
  import opened Planner

  const ActivitiesPerPost := 5
  const CommanderTagEmoji := "<:BlueTag:825327515957854219>"
  const Header := "**__Bounty board__**"
  const Description := "*Check out all ongoing raids and activities organized by our fine commanders here!* :point_down:\n"
  const EmptyDescription := "*Uh oh, looks like there are no planned raids at this time. Check back later!*"
  const FooterPrefix := "Last updated •"

  // ---------------------------------------------------------------------
  // trimMarkdownFormatting: every `*`, `_` and `~` removed

  predicate Plain(c: char) {
    !IsEmphasis(c)
  }

  function StripMarkdown(s: string): (r: string)
    ensures |r| <= |s|
    ensures forall i :: 0 <= i < |r| ==> !IsEmphasis(r[i])
  {
    if |s| == 0 then "" else (if IsEmphasis(s[0]) then "" else [s[0]]) + StripMarkdown(s[1..])
  }

  /** Apart from the markdown characters the text is kept, in order. */
  lemma {:induction false} StripMarkdownIsFilter(s: string)
    ensures StripMarkdown(s) == Filter(s, Plain)
  {
    if |s| > 0 {
      StripMarkdownIsFilter(s[1..]);
    }
  }

  /** Text without markdown characters is left alone, so cleaning twice is cleaning once. */
  lemma StripMarkdownIdempotent(s: string)
    ensures StripMarkdown(StripMarkdown(s)) == StripMarkdown(s)
  {
    var r := StripMarkdown(s);
    StripMarkdownIsFilter(r);
    FilterKeepsAll(r, Plain);
  }

  /** Cleaning works character by character: it distributes over concatenation. */
  lemma StripMarkdownConcat(a: string, b: string)
    ensures StripMarkdown(a + b) == StripMarkdown(a) + StripMarkdown(b)
  {
    StripMarkdownIsFilter(a + b);
    StripMarkdownIsFilter(a);
    StripMarkdownIsFilter(b);
    FilterConcat(a, b, Plain);
  }

  /** `getParsedPostsInfo(guild)` with the default pattern and this revision's cleaner. */
  function WorkerPostsInfo(channels: seq<GuildChannel>, fromNow: int -> string): seq<ActivityInfo>
  {
    PostsInfo(channels, ChannelNamePattern, StripMarkdown, fromNow)
  }

  /** The text holds no markdown character. */
  predicate Clean(s: string) {
    forall i :: 0 <= i < |s| ==> !IsEmphasis(s[i])
  }

  /** No time this revision reports carries a markdown character. */
  lemma WorkerWhenIsClean(channels: seq<GuildChannel>, fromNow: int -> string)
    ensures forall r :: r in WorkerPostsInfo(channels, fromNow) && r.when.Some? ==>
      forall i :: 0 <= i < |r.when.value| ==> !IsEmphasis(r.when.value[i])
  {
    PostsInfoWhen(channels, ChannelNamePattern, StripMarkdown, fromNow, Clean);
  }

  // ---------------------------------------------------------------------
  // One page

  function TimeHeader(hour: string): string {
    "┎┈┈┈┈┈┈┈┈┈┒\n" + " Current Time **" + hour + "**\n" + "┖┈┈┈┈┈┈┈┈┈┚"
  }

  function Footer(dateTime: string): string {
    "*" + FooterPrefix + " " + dateTime + "*"
  }

  /** `(k+1 of n) ` when there is not exactly one page. */
  function Counter(k: nat, n: nat): string {
    if n != 1 then "(" + NatToString(k + 1) + " of " + NatToString(n) + ") " else ""
  }

  function TitleLine(k: nat, n: nat, count: nat): string {
    Header + " " + Counter(k, n) + "- **" + NatToString(count) + " " + Pluralize(count) + "**"
  }

  /** The five lines of the `i`-th record of a page; `i` counts from 0 within the page. */
  function RecordLines(i: nat, r: ActivityInfo): (lines: seq<string>)
    ensures |lines| == 5
  {
    [ "──── 〔" + NatToString(i + 1) + "〕────",
      "**" + r.title + "** _(posted " + r.relativeCreatedAt + ")_",
      "> **:calendar: When:** " + WhenText(r.when),
      "> **:hash: Channel:** " + r.channel,
      "> **" + CommanderTagEmoji + " Commander:** " + r.commander + "\n" ]
  }

  /** The lines the first `n` records of a page push. */
  function RecordBlocks(page: seq<ActivityInfo>, n: nat): seq<string>
    requires n <= |page|
  {
    if n == 0 then [] else RecordBlocks(page, n - 1) + RecordLines(n - 1, page[n - 1])
  }

  /** `_.some(activitiesInfo)`: a record is an object, so any record makes the page non-empty. */
  function PageDescription(page: seq<ActivityInfo>): string {
    if |page| > 0 then Description else EmptyDescription
  }

  /** `messageContentArr` once the footer is pushed, for page `k` of `n`. */
  function PageLines(page: seq<ActivityInfo>, k: nat, n: nat, hour: string, dateTime: string): seq<string>
  {
    [TimeHeader(hour), TitleLine(k, n, |page|), PageDescription(page)] + RecordBlocks(page, |page|) + [Footer(dateTime)]
  }

  /** The array the page is built in: the three head lines, five pushed per record, then the footer. */
  method BuildPage(page: seq<ActivityInfo>, k: nat, n: nat, hour: string, dateTime: string) returns (lines: seq<string>)
    ensures lines == PageLines(page, k, n, hour, dateTime)
  {
    var head := [TimeHeader(hour), TitleLine(k, n, |page|), PageDescription(page)];
    lines := head;
    var i := 0;
    while i < |page|
      invariant 0 <= i <= |page|
      invariant lines == head + RecordBlocks(page, i)
    {
      lines := lines + RecordLines(i, page[i]);
      i := i + 1;
    }
    lines := lines + [Footer(dateTime)];
    assert PageLines(page, k, n, hour, dateTime) == head + RecordBlocks(page, |page|) + [Footer(dateTime)];
  }

  lemma {:induction false} RecordBlocksLayout(page: seq<ActivityInfo>, n: nat)
    requires n <= |page|
    ensures |RecordBlocks(page, n)| == 5 * n
    ensures forall i, j :: 0 <= i < n && 0 <= j < 5 ==> RecordBlocks(page, n)[5 * i + j] == RecordLines(i, page[i])[j]
  {
    if n > 0 {
      RecordBlocksLayout(page, n - 1);
      var prev, last := RecordBlocks(page, n - 1), RecordLines(n - 1, page[n - 1]);
      assert RecordBlocks(page, n) == prev + last;
      forall i, j | 0 <= i < n && 0 <= j < 5
        ensures RecordBlocks(page, n)[5 * i + j] == RecordLines(i, page[i])[j]
      {
        if i < n - 1 {
          assert 5 * i + j < |prev|;
        } else {
          assert 5 * i + j == |prev| + j;
        }
      }
    }
  }

  /**
   * A page is the time header, the title line, the description, five lines
   * for each of its records in order, and the footer.
   */
  lemma PageLayout(page: seq<ActivityInfo>, k: nat, n: nat, hour: string, dateTime: string)
    ensures var lines := PageLines(page, k, n, hour, dateTime);
      && |lines| == 4 + 5 * |page|
      && lines[0] == TimeHeader(hour)
      && lines[1] == TitleLine(k, n, |page|)
      && lines[2] == PageDescription(page)
      && lines[|lines| - 1] == Footer(dateTime)
      && (forall i, j :: 0 <= i < |page| && 0 <= j < 5 ==> lines[3 + 5 * i + j] == RecordLines(i, page[i])[j])
  {
    var head := [TimeHeader(hour), TitleLine(k, n, |page|), PageDescription(page)];
    var blocks := RecordBlocks(page, |page|);
    var lines := PageLines(page, k, n, hour, dateTime);
    assert lines == head + blocks + [Footer(dateTime)];
    RecordBlocksLayout(page, |page|);
    forall i, j | 0 <= i < |page| && 0 <= j < 5
      ensures lines[3 + 5 * i + j] == RecordLines(i, page[i])[j]
    {
      assert lines[3 + 5 * i + j] == blocks[5 * i + j];
    }
  }

  /** The page counter is shown exactly when there is not exactly one page. */
  lemma TitleCounterIff(k: nat, n: nat, count: nat)
    ensures |TitleLine(k, n, count)| > |Header| + 1
    ensures TitleLine(k, n, count)[|Header| + 1] == '(' <==> n != 1
  {
  }

  // ---------------------------------------------------------------------
  // All pages

  function Pages(records: seq<ActivityInfo>): seq<seq<ActivityInfo>>
  {
    Chunk(records, ActivitiesPerPost)
  }

  /** Page `k` of the pages, joined with line feeds. */
  function PageContent(pages: seq<seq<ActivityInfo>>, k: nat, hour: string, dateTime: string): string
    requires k < |pages|
  {
    JoinLines(PageLines(pages[k], k, |pages|, hour, dateTime))
  }

  /** `messageContents`: each page rendered and joined with line feeds. */
  function MessageContents(records: seq<ActivityInfo>, hour: string, dateTime: string): (r: seq<string>)
    ensures |r| == |Pages(records)|
  {
    var pages := Pages(records);
    seq(|pages|, k requires 0 <= k < |pages| => PageContent(pages, k, hour, dateTime))
  }

  /** A prefix grows by the next element, and the full prefix is the whole sequence. */
  lemma PrefixStep(all: seq<string>, k: nat)
    requires k <= |all|
    ensures k < |all| ==> all[..k + 1] == all[..k] + [all[k]]
    ensures k == |all| ==> all[..k] == all
  {
  }

  /** Message `k` is page `k`, laid out and joined with line feeds. */
  lemma MessageContentsAt(records: seq<ActivityInfo>, hour: string, dateTime: string, k: nat)
    requires k < |Pages(records)|
    ensures MessageContents(records, hour, dateTime)[k] == PageContent(Pages(records), k, hour, dateTime)
  {
  }

  /** Every rendered page carries the board header on its title line. */
  lemma PagesCarryHeader(records: seq<ActivityInfo>, hour: string, dateTime: string)
    ensures var contents := MessageContents(records, hour, dateTime);
      forall k :: 0 <= k < |contents| ==> Includes(contents[k], Header)
  {
    var pages := Pages(records);
    forall k | 0 <= k < |pages| ensures Includes(PageContent(pages, k, hour, dateTime), Header) {
      var n := |pages[k]|;
      var lines := PageLines(pages[k], k, |pages|, hour, dateTime);
      var tail := " " + Counter(k, |pages|) + "- **" + NatToString(n) + " " + Pluralize(n) + "**";
      assert lines[1] == Header + tail;
      JoinIncludesSecond(lines, Header, tail);
    }
  }

  /** One page: built by pushes, then joined with line feeds. */
  method RenderPage(pages: seq<seq<ActivityInfo>>, k: nat, hour: string, dateTime: string) returns (text: string)
    requires k < |pages|
    ensures text == PageContent(pages, k, hour, dateTime)
  {
    var lines := BuildPage(pages[k], k, |pages|, hour, dateTime);
    text := JoinLines(lines);
  }

  /** The `_.map` over the pages, with the page built by pushes. */
  method RenderPages(records: seq<ActivityInfo>, hour: string, dateTime: string) returns (contents: seq<string>)
    ensures contents == MessageContents(records, hour, dateTime)
  {
    var pages := Pages(records);
    ghost var all := MessageContents(records, hour, dateTime);
    contents := [];
    var k := 0;
    while k < |pages|
      invariant 0 <= k <= |pages|
      invariant contents == all[..k]
    {
      var text := RenderPage(pages, k, hour, dateTime);
      MessageContentsAt(records, hour, dateTime, k);
      PrefixStep(all, k);
      contents := contents + [text];
      k := k + 1;
    }
    PrefixStep(all, k);
  }

  /**
   * The records are cut into ceil(N/5) pages — none at all for no records —
   * that keep the records in order, hold five each except possibly the last,
   * and put record `k` at place `k mod 5` of page `k / 5`.
   */
  lemma PaginationSpec(records: seq<ActivityInfo>)
    ensures |Pages(records)| == (|records| + ActivitiesPerPost - 1) / ActivitiesPerPost
    ensures |records| == 0 ==> |Pages(records)| == 0
    ensures Flatten(Pages(records)) == records
    ensures forall k :: 0 <= k < |Pages(records)| ==> 1 <= |Pages(records)[k]| <= ActivitiesPerPost
    ensures forall k :: 0 <= k < |Pages(records)| - 1 ==> |Pages(records)[k]| == ActivitiesPerPost
    ensures forall k :: 0 <= k < |records| ==>
      k / ActivitiesPerPost < |Pages(records)| && k % ActivitiesPerPost < |Pages(records)[k / ActivitiesPerPost]|
      && Pages(records)[k / ActivitiesPerPost][k % ActivitiesPerPost] == records[k]
  {
    ChunkShape(records, ActivitiesPerPost);
    ChunkFlatten(records, ActivitiesPerPost);
    forall k | 0 <= k < |records|
      ensures k / ActivitiesPerPost < |Pages(records)| && k % ActivitiesPerPost < |Pages(records)[k / ActivitiesPerPost]|
      ensures Pages(records)[k / ActivitiesPerPost][k % ActivitiesPerPost] == records[k]
    {
      ChunkAt(records, ActivitiesPerPost, k);
    }
  }

  /** Every page has a record, so the empty-board description is never shown. */
  lemma EmptyDescriptionUnused(records: seq<ActivityInfo>)
    ensures forall k :: 0 <= k < |Pages(records)| ==> PageDescription(Pages(records)[k]) == Description
  {
    ChunkShape(records, ActivitiesPerPost);
  }
}
