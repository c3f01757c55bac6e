/**
 * The aggregation pipeline the two post-manager revisions share: choose the
 * planner channels of a guild, walk each one's history back to its first
 * message, order those posts by channel position, and parse each into an
 * activity record (title, time, age, commander, channel). The revisions
 * differ only in how the captured time is cleaned, which is a parameter here.
 */
module Planner {
  import opened Wrappers
  import opened Lodash
  import opened JsStrings
  import opened Utils
  import opened Discord

  /** `CHANNEL_NAME_PATTERN`, and the literal the older revision writes in its place. */
  const ChannelNamePattern := "-planner-"
  /** `{ limit: 100 }` of the history walk. */
  const HistoryPageSize := 100
  /** The channel walks run five at a time, a second apart. */
  const ChannelGroupSize := 5
  const ChannelDelayMs := 1000

  // ---------------------------------------------------------------------
  // The when-line matcher: /^(?:[*_~]*)(?:when)(?:[:\- *_~])+(?<time>.+)$/i

  predicate IsEmphasis(c: char) {
    c == '*' || c == '_' || c == '~'
  }

  /** The class `[:\- *_~]`. */
  predicate IsSeparator(c: char) {
    c == ':' || c == '-' || c == ' ' || IsEmphasis(c)
  }

  /** The characters `.` does not match without the `s` flag. */
  predicate IsLineTerminator(c: char) {
    c == '\n' || c == '\r' || c == '\U{2028}' || c == '\U{2029}'
  }

  predicate NoTerminator(s: string) {
    forall i :: 0 <= i < |s| ==> !IsLineTerminator(s[i])
  }

  /** The length of the longest prefix of `s` whose characters all satisfy `p`. */
  function LeadingRun(s: string, p: char -> bool): (n: nat)
    ensures n <= |s|
    ensures forall i :: 0 <= i < n ==> p(s[i])
    ensures n == |s| || !p(s[n])
  {
    if |s| == 0 || !p(s[0]) then 0 else 1 + LeadingRun(s[1..], p)
  }

  /** A prefix that satisfies `p` and is followed by a character that does not is the leading run. */
  lemma LeadingRunExact(s: string, p: char -> bool, n: int)
    requires 0 <= n < |s| && !p(s[n])
    requires forall i :: 0 <= i < n ==> p(s[i])
    ensures LeadingRun(s, p) == n
  {
  }

  /**
   * The regular expression matches `line` with the keyword `when` at `a` and
   * the `time` group starting at `b`: emphasis characters before `a`, one or
   * more separators between `a + 4` and `b`, and at least one character from
   * `b` to the end, none of them a line terminator.
   */
  predicate WhenSplit(line: string, a: int, b: int) {
    && 0 <= a && a + 4 < b < |line|
    && (forall i :: 0 <= i < a ==> IsEmphasis(line[i]))
    && EqualsIgnoreCase(line[a..a + 4], "when")
    && (forall i :: a + 4 <= i < b ==> IsSeparator(line[i]))
    && (forall i :: b <= i < |line| ==> !IsLineTerminator(line[i]))
  }

  /**
   * Where the `time` group starts, or None when the line does not match.
   * `when` cannot begin with an emphasis character, so the prefix is the
   * whole leading emphasis run; the separator run is greedy and gives back
   * one character only when it would otherwise leave nothing for `time`.
   */
  function CaptureStart(line: string): Option<nat>
  {
    var a := LeadingRun(line, IsEmphasis);
    if |line| < a + 5 || !EqualsIgnoreCase(line[a..a + 4], "when") then None
    else
      var k := LeadingRun(line[a + 4..], IsSeparator);
      var b := if a + 4 + k < |line| then a + 4 + k else |line| - 1;
      if b <= a + 4 || !NoTerminator(line[b..]) then None else Some(b)
  }

  /** The `time` group of the match, or None when the line does not match. */
  function WhenTime(line: string): Option<string>
  {
    match CaptureStart(line)
    case None => None
    case Some(b) => Some(line[b..])
  }

  /**
   * Every capture comes from a match of the expression, and it is the one
   * the greedy separator run leaves: it starts with a non-separator unless
   * it is a single character.
   */
  lemma WhenTimeSound(line: string) returns (a: nat, b: nat)
    requires WhenTime(line).Some?
    ensures WhenSplit(line, a, b)
    ensures WhenTime(line).value == line[b..]
    ensures |line| - b == 1 || !IsSeparator(line[b])
  {
    a := LeadingRun(line, IsEmphasis);
    b := CaptureStart(line).value;
    var rest := line[a + 4..];
    var k := LeadingRun(rest, IsSeparator);
    assert b == if a + 4 + k < |line| then a + 4 + k else |line| - 1;
    forall i | a + 4 <= i < b ensures IsSeparator(line[i]) {
      assert line[i] == rest[i - a - 4];
    }
    forall i | b <= i < |line| ensures !IsLineTerminator(line[i]) {
      assert line[i] == line[b..][i - b];
    }
  }

  /** Every line the expression matches has a capture, no longer than any match allows. */
  lemma WhenTimeComplete(line: string, a: int, b: int)
    requires WhenSplit(line, a, b)
    ensures WhenTime(line).Some?
    ensures |WhenTime(line).value| <= |line| - b
  {
    assert LowerChar(line[a]) == 'w';
    LeadingRunExact(line, IsEmphasis, a);
    var rest := line[a + 4..];
    var k := LeadingRun(rest, IsSeparator);
    forall i | 0 <= i < b - a - 4 ensures IsSeparator(rest[i]) {
      assert rest[i] == line[a + 4 + i];
    }
    assert k >= b - a - 4;
    var start := if a + 4 + k < |line| then a + 4 + k else |line| - 1;
    forall j | 0 <= j < |line| - start ensures !IsLineTerminator(line[start..][j]) {
      assert line[start..][j] == line[start + j];
    }
    assert NoTerminator(line[start..]);
  }

  /** `whenLineRegex.test(line)`. */
  predicate WhenTest(line: string) {
    WhenTime(line).Some?
  }

  /** `_.find(contentLines, test)`, as the index of the first matching line. */
  function FirstWhenLine(lines: seq<string>): (r: Option<nat>)
    ensures r.Some? ==> r.value < |lines| && WhenTest(lines[r.value])
    ensures forall j :: 0 <= j < |lines| && (r.None? || j < r.value) ==> !WhenTest(lines[j])
  {
    if |lines| == 0 then None
    else if WhenTest(lines[0]) then Some(0)
    else match FirstWhenLine(lines[1..])
      case None => None
      case Some(i) => Some(i + 1)
  }

  // ---------------------------------------------------------------------
  // The history walk

  /** The messages strictly older than the message with id `before`. */
  function OlderThan(history: seq<Message>, before: nat): seq<Message>
  {
    Filter(history, (m: Message) => m.id < before)
  }

  /** What a fetch with the given `before` cursor pages through, newest first. */
  function Remaining(history: seq<Message>, before: Option<nat>): seq<Message>
  {
    match before
    case None => history
    case Some(c) => OlderThan(history, c)
  }

  /** `channel.messages.fetch({ limit: 100, before })`. */
  function FetchPage(history: seq<Message>, before: Option<nat>): (r: seq<Message>)
    ensures |r| == if |Remaining(history, before)| < HistoryPageSize then |Remaining(history, before)| else HistoryPageSize
    ensures r == Remaining(history, before)[..|r|]
  {
    var rem := Remaining(history, before);
    rem[..if |rem| < HistoryPageSize then |rem| else HistoryPageSize]
  }

  /** The oldest message of a newest-first history, if any. */
  function Oldest(history: seq<Message>): Option<Message>
  {
    if |history| == 0 then None else Some(history[|history| - 1])
  }

  /** In a newest-first history, the messages older than the one at `j` are those after it. */
  lemma OlderThanAt(history: seq<Message>, j: int)
    requires NewestFirst(history) && 0 <= j < |history|
    ensures OlderThan(history, history[j].id) == history[j + 1..]
  {
    FilterDropsPrefix(history, (m: Message) => m.id < history[j].id, j + 1);
  }

  /** Whatever the cursor, what remains to be paged is a suffix of the history. */
  lemma {:induction false} RemainingIsSuffix(history: seq<Message>, before: Option<nat>) returns (s: nat)
    requires NewestFirst(history)
    ensures s <= |history| && Remaining(history, before) == history[s..]
    decreases |history|
  {
    if before.None? || |history| == 0 {
      s := 0;
    } else if history[0].id < before.value {
      FilterDropsPrefix(history, (m: Message) => m.id < before.value, 0);
      s := 0;
    } else {
      var s' := RemainingIsSuffix(history[1..], before);
      s := s' + 1;
      assert history[1..][s'..] == history[s..];
    }
  }

  /**
   * `getLastMessageFromChannel`: page backwards a hundred messages at a time
   * until a fetch comes back empty, and return the last message of the last
   * non-empty page. The result is the oldest message the first fetch could
   * reach; it is None exactly when that first fetch is empty; and the walk
   * makes one fetch per full or partial page plus the final empty one.
   */
  method GetLastMessageFromChannel(history: seq<Message>, before: Option<nat>) returns (last: Option<Message>, fetches: nat)
    requires NewestFirst(history)
    ensures last == Oldest(Remaining(history, before))
    ensures last.None? <==> |FetchPage(history, before)| == 0
    ensures fetches == (|Remaining(history, before)| + HistoryPageSize - 1) / HistoryPageSize + 1
    decreases |Remaining(history, before)|
  {
    var rem := Remaining(history, before);
    var messages := FetchPage(history, before);
    fetches := 1;
    var mainPostMessage := if |messages| > 0 then Some(messages[|messages| - 1]) else None;
    if mainPostMessage.Some? {
      var s := RemainingIsSuffix(history, before);
      OlderThanAt(history, s + |messages| - 1);
      assert Remaining(history, Some(mainPostMessage.value.id)) == rem[|messages|..];
      var lastMessage, more := GetLastMessageFromChannel(history, Some(mainPostMessage.value.id));
      fetches := 1 + more;
      if |rem| <= HistoryPageSize {
        DivUnique(|rem| + HistoryPageSize - 1, HistoryPageSize, 1, |rem| - 1);
      } else {
        DivStep(|rem| - 1, HistoryPageSize);
      }
      if lastMessage.Some? {
        return lastMessage, fetches;
      }
    }
    return mainPostMessage, fetches;
  }

  // ---------------------------------------------------------------------
  // Channel selection and the posts

  /** The channel filter: a text channel, not deleted, whose lower-cased name contains the pattern and which has a last message. */
  predicate IsPlannerChannel(c: GuildChannel, pattern: string) {
    c.kind == Text && !c.deleted && Includes(ToLower(c.name), pattern) && c.lastMessageId.Some?
  }

  function PlannerTest(pattern: string): GuildChannel -> bool {
    c => IsPlannerChannel(c, pattern)
  }

  predicate HasLastMessage(c: GuildChannel) {
    c.lastMessageId.Some?
  }

  /** `nonEmptyPlannerChannels`: the planner filter, then the (already implied) last-message filter. */
  function SelectedChannels(channels: seq<GuildChannel>, pattern: string): seq<GuildChannel>
  {
    Filter(Filter(channels, PlannerTest(pattern)), HasLastMessage)
  }

  /** The selected channels are exactly the planner channels, in guild-cache order; the second filter drops nothing. */
  lemma SelectedChannelsSpec(channels: seq<GuildChannel>, pattern: string)
    ensures SelectedChannels(channels, pattern) == Filter(channels, PlannerTest(pattern))
    ensures forall c :: c in SelectedChannels(channels, pattern) <==> c in channels && IsPlannerChannel(c, pattern)
  {
    var planner := Filter(channels, PlannerTest(pattern));
    FilterKeepsAll(planner, HasLastMessage);
    FilterMembers(channels, PlannerTest(pattern));
  }

  /** A channel's main post: its first message, together with the channel it was posted in. */
  datatype Post = Post(channel: GuildChannel, message: Message)

  function ChannelPost(c: GuildChannel): (r: Option<Post>)
    ensures r.None? <==> |c.history| == 0
    ensures r.Some? ==> r.value.channel == c && r.value.message == c.history[|c.history| - 1]
  {
    match Oldest(c.history)
    case None => None
    case Some(m) => Some(Post(c, m))
  }

  /** The walk's callback: it ignores the index the executor passes. */
  function ChannelWalk(c: GuildChannel, i: nat): Option<Post>
  {
    ChannelPost(c)
  }

  function PostPosition(p: Post): int {
    p.channel.position
  }

  /** The channels' main posts, compacted and stably sorted by channel position. */
  function SourcePosts(channels: seq<GuildChannel>, pattern: string): seq<Post>
  {
    SortBy(Compact(BatchResults(SelectedChannels(channels, pattern), ChannelWalk, IsSome, ChannelGroupSize)), PostPosition)
  }

  /**
   * The posts are exactly the first messages of the non-empty planner
   * channels, one per channel, ordered by position, and channels at the same
   * position keep their guild-cache order.
   */
  lemma SourcePostsSpec(channels: seq<GuildChannel>, pattern: string)
    ensures SortedBy(SourcePosts(channels, pattern), PostPosition)
    ensures forall p :: p in SourcePosts(channels, pattern) <==>
      p.channel in channels && IsPlannerChannel(p.channel, pattern) && ChannelPost(p.channel) == Some(p)
    ensures forall k :: KeyClass(SourcePosts(channels, pattern), PostPosition, k)
                     == KeyClass(Compact(Map(SelectedChannels(channels, pattern), ChannelPost)), PostPosition, k)
  {
    var selected := SelectedChannels(channels, pattern);
    var posts := Compact(Map(selected, ChannelPost));
    WalkIgnoresDroppedGroups(selected);
    SortByPermutes(posts, PostPosition);
    WalkedMembers(selected);
    SelectedChannelsSpec(channels, pattern);
    forall k ensures KeyClass(SortBy(posts, PostPosition), PostPosition, k) == KeyClass(posts, PostPosition, k) {
      SortByStable(posts, PostPosition, k);
    }
  }

  /** The channels whose walks the executor dropped had no post to give. */
  lemma WalkIgnoresDroppedGroups(selected: seq<GuildChannel>)
    ensures Compact(BatchResults(selected, ChannelWalk, IsSome, ChannelGroupSize)) == Compact(Map(selected, ChannelPost))
  {
    CompactIgnoresDroppedGroups(selected, ChannelWalk, ChannelGroupSize);
    assert PositionalResults(selected, ChannelWalk, ChannelGroupSize) == Map(selected, ChannelPost);
  }

  /** A post comes out of the walks exactly when it is the post of one of the walked channels. */
  lemma WalkedMembers(selected: seq<GuildChannel>)
    ensures forall p :: p in Compact(Map(selected, ChannelPost)) <==> p.channel in selected && ChannelPost(p.channel) == Some(p)
  {
    var walked := Map(selected, ChannelPost);
    CompactMembers(walked);
    forall p: Post ensures Some(p) in walked <==> p.channel in selected && ChannelPost(p.channel) == Some(p) {
      if Some(p) in walked {
        var i :| 0 <= i < |walked| && walked[i] == Some(p);
        assert ChannelPost(selected[i]) == Some(p);
      }
      if p.channel in selected && ChannelPost(p.channel) == Some(p) {
        var i :| 0 <= i < |selected| && selected[i] == p.channel;
        assert walked[i] == Some(p);
      }
    }
  }

  // ---------------------------------------------------------------------
  // Parsing a post

  /** One activity as the board shows it. `when` is None where the source leaves it `undefined`. */
  datatype ActivityInfo = ActivityInfo(title: string, when: Option<string>, relativeCreatedAt: string, commander: string, channel: string)

  /**
   * The record of one post. `trim` is the revision's markdown cleaner;
   * `fromNow` is the relative-time formatter, left abstract. A message always
   * has a creation date, so the age is always formatted.
   */
  function ParsePost(p: Post, trim: string -> string, fromNow: int -> string): ActivityInfo
  {
    var lines := SplitLines(p.message.content);
    var when := match FirstWhenLine(lines)
      case None => None
      case Some(i) => Some(trim(WhenTime(lines[i]).value));
    ActivityInfo(lines[0], when, fromNow(p.message.createdAt), p.message.author.mention, p.channel.mention)
  }

  /**
   * The title is the body up to its first line feed (possibly empty); `when`
   * is absent exactly when no line matches the expression, and otherwise is
   * the cleaned capture of the first line that does.
   */
  lemma ParsePostSpec(p: Post, trim: string -> string, fromNow: int -> string)
    ensures var r := ParsePost(p, trim, fromNow); var body := p.message.content;
      && |r.title| <= |body| && r.title == body[..|r.title|]
      && (|r.title| == |body| || body[|r.title|] == '\n')
      && '\n' !in r.title
    ensures var r := ParsePost(p, trim, fromNow); var lines := SplitLines(p.message.content);
      && (r.when.None? <==> forall j :: 0 <= j < |lines| ==> !WhenTest(lines[j]))
      && (r.when.Some? ==>
            (exists i :: 0 <= i < |lines| && WhenTest(lines[i])
              && r.when.value == trim(WhenTime(lines[i]).value)
              && (forall j :: 0 <= j < i ==> !WhenTest(lines[j]))))
    ensures ParsePost(p, trim, fromNow).commander == p.message.author.mention
    ensures ParsePost(p, trim, fromNow).channel == p.channel.mention
  {
    FirstLine(p.message.content);
  }

  /** The pipeline's output: one record per post, in post order. */
  function PostsInfo(channels: seq<GuildChannel>, pattern: string, trim: string -> string, fromNow: int -> string): (r: seq<ActivityInfo>)
    ensures |r| == |SourcePosts(channels, pattern)|
    ensures forall i :: 0 <= i < |r| ==> r[i] == ParsePost(SourcePosts(channels, pattern)[i], trim, fromNow)
  {
    Map(SourcePosts(channels, pattern), (p: Post) => ParsePost(p, trim, fromNow))
  }

  predicate HasHistory(c: GuildChannel) {
    |c.history| > 0
  }

  /** The walks give one post per walked channel that has a message. */
  lemma {:induction false} WalkedCount(selected: seq<GuildChannel>)
    ensures |Compact(Map(selected, ChannelPost))| == |Filter(selected, HasHistory)|
    decreases |selected|
  {
    if |selected| > 0 {
      WalkedCount(selected[1..]);
      assert Map(selected, ChannelPost)[1..] == Map(selected[1..], ChannelPost);
    }
  }

  /** There is one post per planner channel that has a message. */
  lemma SourcePostsCount(channels: seq<GuildChannel>, pattern: string)
    ensures |SourcePosts(channels, pattern)| == |Filter(Filter(channels, PlannerTest(pattern)), HasHistory)|
  {
    var selected := SelectedChannels(channels, pattern);
    WalkIgnoresDroppedGroups(selected);
    SelectedChannelsSpec(channels, pattern);
    WalkedCount(selected);
  }

  /** Each post is the oldest message of a planner channel, and each planner channel with a message has its post. */
  lemma SourcePostsAt(channels: seq<GuildChannel>, pattern: string)
    ensures forall i :: 0 <= i < |SourcePosts(channels, pattern)| ==>
      var p := SourcePosts(channels, pattern)[i];
      p.channel in channels && IsPlannerChannel(p.channel, pattern) && ChannelPost(p.channel) == Some(p)
    ensures forall c :: c in channels && IsPlannerChannel(c, pattern) && |c.history| > 0 ==>
      exists i :: 0 <= i < |SourcePosts(channels, pattern)| && SourcePosts(channels, pattern)[i].channel == c
  {
    var posts := SourcePosts(channels, pattern);
    SourcePostsSpec(channels, pattern);
    forall i | 0 <= i < |posts|
      ensures posts[i].channel in channels && IsPlannerChannel(posts[i].channel, pattern) && ChannelPost(posts[i].channel) == Some(posts[i])
    {
      assert posts[i] in posts;
    }
    forall c | c in channels && IsPlannerChannel(c, pattern) && |c.history| > 0
      ensures exists i :: 0 <= i < |posts| && posts[i].channel == c
    {
      var p := ChannelPost(c).value;
      assert p in posts;
    }
  }

  /**
   * `getParsedPostsInfo` end to end: one record per planner channel that has
   * a message, in channel-position order with ties in guild-cache order, and
   * record `i` is the parse of the oldest message of its channel.
   */
  lemma PostsInfoSpec(channels: seq<GuildChannel>, pattern: string, trim: string -> string, fromNow: int -> string)
    ensures |PostsInfo(channels, pattern, trim, fromNow)| == |SourcePosts(channels, pattern)|
                                                        == |Filter(Filter(channels, PlannerTest(pattern)), HasHistory)|
    ensures forall i :: 0 <= i < |SourcePosts(channels, pattern)| ==>
      var p := SourcePosts(channels, pattern)[i]; var r := PostsInfo(channels, pattern, trim, fromNow)[i];
      && p.channel in channels && IsPlannerChannel(p.channel, pattern)
      && |p.channel.history| > 0 && p.message == p.channel.history[|p.channel.history| - 1]
      && r == ParsePost(p, trim, fromNow)
      && r.commander == p.message.author.mention && r.channel == p.channel.mention
    ensures forall c :: c in channels && IsPlannerChannel(c, pattern) && |c.history| > 0 ==>
      exists i :: 0 <= i < |SourcePosts(channels, pattern)| && SourcePosts(channels, pattern)[i].channel == c
    ensures forall i, j :: 0 <= i < j < |SourcePosts(channels, pattern)| ==>
      SourcePosts(channels, pattern)[i].channel.position <= SourcePosts(channels, pattern)[j].channel.position
    ensures forall k :: KeyClass(SourcePosts(channels, pattern), PostPosition, k)
                     == KeyClass(Compact(Map(SelectedChannels(channels, pattern), ChannelPost)), PostPosition, k)
  {
    SourcePostsSpec(channels, pattern);
    SourcePostsCount(channels, pattern);
    SourcePostsAt(channels, pattern);
  }

  /** A reported time is always the cleaner's output, so what the cleaner guarantees holds of every reported time. */
  lemma PostsInfoWhen(channels: seq<GuildChannel>, pattern: string, trim: string -> string, fromNow: int -> string, ok: string -> bool)
    requires forall s :: ok(trim(s))
    ensures forall r :: r in PostsInfo(channels, pattern, trim, fromNow) && r.when.Some? ==> ok(r.when.value)
  {
    var info := PostsInfo(channels, pattern, trim, fromNow);
    forall r | r in info && r.when.Some?
      ensures ok(r.when.value)
    {
      var k :| 0 <= k < |info| && info[k] == r;
      var p := SourcePosts(channels, pattern)[k];
      var lines := SplitLines(p.message.content);
      var line := FirstWhenLine(lines).value;
      assert r.when.value == trim(WhenTime(lines[line]).value);
    }
  }

  // ---------------------------------------------------------------------
  // Rendering helpers both revisions use

  /** `mpi.when || 'unknown'`: an absent or empty time shows as `unknown`. */
  function WhenText(when: Option<string>): (r: string)
    ensures |r| > 0
    ensures when.Some? && when.value != "" ==> r == when.value
    ensures when.None? || when.value == "" ==> r == "unknown"
  {
    if when.Some? && when.value != "" then when.value else "unknown"
  }

  /** `pluralize('activity', n)`: singular for exactly one. */
  function Pluralize(n: nat): (r: string)
    ensures r == "activity" <==> n == 1
    ensures r == "activities" <==> n != 1
  {
    if n == 1 then "activity" else "activities"
  }
}
