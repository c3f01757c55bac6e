/**
 * The older, single-post revision of the board (postManager.js): the same
 * post selection and parsing with a cleaner that only trims trailing
 * markdown, and one rich embed — five fields per activity — that is either
 * edited into the bot's existing board post or sent as a new message.
 */
module PostManager {
  import opened Wrappers
  import opened Lodash
  import opened JsStrings
  import opened Discord
  import opened Planner

  const EmbedColor := "#0099ff"
  const Separator := "---"
  const Description := "Check out all ongoing raids and activities organized by our fine commanders here! :point_down::point_down::point_down:"
  const EmptyDescription := "Uh oh, looks like there are no planned raids at this time. Check back later!"

  // ---------------------------------------------------------------------
  // trimMarkdownFormatting: `_.trimEnd(str, '*_~')`

  function TrimTrailingMarkdown(s: string): (r: string)
    ensures |r| <= |s| && r == s[..|r|]
    ensures |r| == 0 || !IsEmphasis(r[|r| - 1])
    ensures forall i :: |r| <= i < |s| ==> IsEmphasis(s[i])
  {
    TrimEnd(s, {'*', '_', '~'})
  }

  /**
   * Only the trailing run goes: text that does not end in a markdown
   * character is kept whole, inner markdown included, so trimming twice is
   * trimming once.
   */
  lemma TrimTrailingKeepsInner(s: string)
    requires |s| == 0 || !IsEmphasis(s[|s| - 1])
    ensures TrimTrailingMarkdown(s) == s
  {
    if |s| > 0 {
      assert s[|s| - 1] !in {'*', '_', '~'};
    }
  }

  lemma TrimTrailingIdempotent(s: string)
    ensures TrimTrailingMarkdown(TrimTrailingMarkdown(s)) == TrimTrailingMarkdown(s)
  {
    TrimTrailingKeepsInner(TrimTrailingMarkdown(s));
  }

  /** `getAggregatedPostsInfo(guild)`: the fixed `-planner-` pattern and the trailing-only cleaner. */
  function AggregatedPostsInfo(channels: seq<GuildChannel>, fromNow: int -> string): seq<ActivityInfo>
  {
    PostsInfo(channels, "-planner-", TrimTrailingMarkdown, fromNow)
  }

  /** The text does not end in a markdown character. */
  predicate EndsPlain(s: string) {
    |s| == 0 || !IsEmphasis(s[|s| - 1])
  }

  /** No time this revision reports ends in a markdown character. */
  lemma AggregatedWhenTrimmed(channels: seq<GuildChannel>, fromNow: int -> string)
    ensures forall r :: r in AggregatedPostsInfo(channels, fromNow) && r.when.Some? ==>
      |r.when.value| == 0 || !IsEmphasis(r.when.value[|r.when.value| - 1])
  {
    PostsInfoWhen(channels, "-planner-", TrimTrailingMarkdown, fromNow, EndsPlain);
  }

  // ---------------------------------------------------------------------
  // getExistingMasterPost

  /** A board post of this revision: written by the bot and carrying an embed. */
  predicate IsBoardPost(m: Message, bot: User) {
    m.author.id == bot.id && |m.embeds| > 0
  }

  /** The index `_.find` stops at: the first board post in fetch order. */
  function FirstBoardPost(fetched: seq<Message>, bot: User): (r: Option<nat>)
    ensures r.Some? ==> r.value < |fetched| && IsBoardPost(fetched[r.value], bot)
    ensures r.Some? ==> forall j :: 0 <= j < r.value ==> !IsBoardPost(fetched[j], bot)
    ensures r.None? <==> forall j :: 0 <= j < |fetched| ==> !IsBoardPost(fetched[j], bot)
  {
    if |fetched| == 0 then None
    else if IsBoardPost(fetched[0], bot) then Some(0)
    else match FirstBoardPost(fetched[1..], bot)
      case None => None
      case Some(i) => Some(i + 1)
  }

  function ExistingMasterPost(fetched: seq<Message>, bot: User): Option<Message>
  {
    match FirstBoardPost(fetched, bot)
    case None => None
    case Some(i) => Some(fetched[i])
  }

  // ---------------------------------------------------------------------
  // The embed

  function EmbedTitle(n: nat): string {
    "__Bounty board__ - " + NatToString(n) + " " + Pluralize(n)
  }

  function EmbedFooter(dateTime: string): string {
    "Last updated • " + dateTime + " CET/CEST"
  }

  /** The two `addFields` calls for the `i`-th activity, `i` counting from 0. */
  function ActivityFields(i: nat, r: ActivityInfo): (fields: seq<EmbedField>)
    ensures |fields| == 5
  {
    [ EmbedField("\U{200B}", Separator + " " + NatToString(i + 1) + " " + Separator, false),
      EmbedField("**Activity:**", r.title + " _(posted " + r.relativeCreatedAt + ")_", false),
      EmbedField("**When:**", WhenText(r.when), true),
      EmbedField("**Channel:**", r.channel, true),
      EmbedField("**Commander:**", r.commander, true) ]
  }

  /** The fields the first `n` activities add. */
  function FieldsOf(records: seq<ActivityInfo>, n: nat): seq<EmbedField>
    requires n <= |records|
  {
    if n == 0 then [] else FieldsOf(records, n - 1) + ActivityFields(n - 1, records[n - 1])
  }

  function SummaryEmbed(records: seq<ActivityInfo>, dateTime: string): Embed
  {
    Embed(EmbedColor, EmbedTitle(|records|),
          if |records| > 0 then Description else EmptyDescription,
          EmbedFooter(dateTime), FieldsOf(records, |records|))
  }

  /** The embed as `sendPost` builds it: colour, title, description and footer set, then fields added per activity. */
  method BuildEmbed(records: seq<ActivityInfo>, dateTime: string) returns (embed: Embed)
    ensures embed == SummaryEmbed(records, dateTime)
  {
    var description := if |records| > 0 then Description else EmptyDescription;
    embed := Embed(EmbedColor, EmbedTitle(|records|), description, EmbedFooter(dateTime), []);
    var i := 0;
    while i < |records|
      invariant 0 <= i <= |records|
      invariant embed == Embed(EmbedColor, EmbedTitle(|records|), description, EmbedFooter(dateTime), FieldsOf(records, i))
    {
      embed := embed.(fields := embed.fields + ActivityFields(i, records[i]));
      i := i + 1;
    }
  }

  lemma {:induction false} FieldsLayout(records: seq<ActivityInfo>, n: nat)
    requires n <= |records|
    ensures |FieldsOf(records, n)| == 5 * n
    ensures forall i, j :: 0 <= i < n && 0 <= j < 5 ==> FieldsOf(records, n)[5 * i + j] == ActivityFields(i, records[i])[j]
  {
    if n > 0 {
      FieldsLayout(records, n - 1);
      var prev, last := FieldsOf(records, n - 1), ActivityFields(n - 1, records[n - 1]);
      assert FieldsOf(records, n) == prev + last;
      forall i, j | 0 <= i < n && 0 <= j < 5
        ensures FieldsOf(records, n)[5 * i + j] == ActivityFields(i, records[i])[j]
      {
        if i < n - 1 {
          assert 5 * i + j < |prev|;
        } else {
          assert 5 * i + j == |prev| + j;
        }
      }
    }
  }

  /**
   * The embed has exactly five fields per activity, in order; the `When`
   * field of each shows its time or `unknown`; the title carries the count
   * with the right plural; and the empty-board description is used exactly
   * when there are no activities.
   */
  lemma EmbedSpec(records: seq<ActivityInfo>, dateTime: string)
    ensures var e := SummaryEmbed(records, dateTime);
      && |e.fields| == 5 * |records|
      && (forall i, j :: 0 <= i < |records| && 0 <= j < 5 ==> e.fields[5 * i + j] == ActivityFields(i, records[i])[j])
      && (forall i :: 0 <= i < |records| ==>
            e.fields[5 * i + 2] == EmbedField("**When:**", WhenText(records[i].when), true))
      && e.title == "__Bounty board__ - " + NatToString(|records|) + " " + (if |records| == 1 then "activity" else "activities")
      && (e.description == EmptyDescription <==> |records| == 0)
  {
    FieldsLayout(records, |records|);
    var e := SummaryEmbed(records, dateTime);
    forall i | 0 <= i < |records| ensures e.fields[5 * i + 2] == EmbedField("**When:**", WhenText(records[i].when), true) {
      assert e.fields[5 * i + 2] == ActivityFields(i, records[i])[2];
    }
  }

  // ---------------------------------------------------------------------
  // sendPost

  /** The channel after `sendPost`: the embed edited into the found board post, or sent as a new message. */
  function PostState(ms: seq<Message>, now: int, bot: User, embed: Embed): seq<Message>
  {
    match ExistingMasterPost(Newest(ms, DefaultFetchLimit), bot)
    case Some(m) => EditEmbeds(ms, m.id, embed)
    case None => ms + [Message(|ms|, bot, "", [embed], now + 1)]
  }

  /**
   * `sendPost` does exactly one thing: when a board post is among the fetched
   * messages it replaces that post's embed and touches nothing else;
   * otherwise it appends one new message by the bot carrying the embed.
   */
  lemma PostStateSpec(ms: seq<Message>, now: int, bot: User, embed: Embed)
    requires WellFormed(ms, now)
    ensures var found := ExistingMasterPost(Newest(ms, DefaultFetchLimit), bot); var r := PostState(ms, now, bot, embed);
      && (found.Some? ==>
            && found.value.id < |ms| && ms[found.value.id] == found.value
            && r == ms[found.value.id := found.value.(embeds := [embed])])
      && (found.None? ==> r == ms + [Message(|ms|, bot, "", [embed], now + 1)])
  {
    var fetched := Newest(ms, DefaultFetchLimit);
    match FirstBoardPost(fetched, bot)
    case None =>
    case Some(i) =>
      assert fetched[i] == ms[|ms| - 1 - i];
  }

  /** A new board post is the newest message, so the next fetch finds it first. */
  lemma FoundAfterSend(ms: seq<Message>, now: int, bot: User, embed: Embed)
    requires WellFormed(ms, now)
    requires ExistingMasterPost(Newest(ms, DefaultFetchLimit), bot).None?
    ensures var r := PostState(ms, now, bot, embed);
      |r| == |ms| + 1 && WellFormed(r, now + 1) && ExistingMasterPost(Newest(r, DefaultFetchLimit), bot) == Some(r[|ms|])
  {
    var r := PostState(ms, now, bot, embed);
    PostStateSpec(ms, now, bot, embed);
    var after := Newest(r, DefaultFetchLimit);
    assert after[0] == r[|ms|];
    assert FirstBoardPost(after, bot) == Some(0);
  }

  /** The search only looks at which messages are board posts. */
  lemma {:induction false} FirstBoardPostAgrees(a: seq<Message>, b: seq<Message>, bot: User)
    requires |a| == |b|
    requires forall j :: 0 <= j < |a| ==> IsBoardPost(a[j], bot) == IsBoardPost(b[j], bot)
    ensures FirstBoardPost(a, bot) == FirstBoardPost(b, bot)
  {
    if |a| > 0 {
      FirstBoardPostAgrees(a[1..], b[1..], bot);
    }
  }

  /** Two stores that agree on which messages are board posts give the same search result. */
  lemma NewestBoardPostAgrees(ms: seq<Message>, r: seq<Message>, bot: User)
    requires |ms| == |r|
    requires forall j :: 0 <= j < |ms| ==> IsBoardPost(r[j], bot) == IsBoardPost(ms[j], bot)
    ensures FirstBoardPost(Newest(r, DefaultFetchLimit), bot) == FirstBoardPost(Newest(ms, DefaultFetchLimit), bot)
  {
    var before, after := Newest(ms, DefaultFetchLimit), Newest(r, DefaultFetchLimit);
    forall j | 0 <= j < |after| ensures IsBoardPost(after[j], bot) == IsBoardPost(before[j], bot) {
      assert after[j] == r[|ms| - 1 - j] && before[j] == ms[|ms| - 1 - j];
    }
    FirstBoardPostAgrees(after, before, bot);
  }

  /** Replacing a board post's embed keeps the store well formed and every message's standing as a board post. */
  lemma EditEmbedsKeepsBoardPosts(ms: seq<Message>, now: int, bot: User, x: nat, embed: Embed)
    requires WellFormed(ms, now)
    requires x < |ms| && IsBoardPost(ms[x], bot)
    ensures var r := EditEmbeds(ms, x, embed);
      && WellFormed(r, now)
      && r[x] == ms[x].(embeds := [embed])
      && forall j :: 0 <= j < |ms| ==> IsBoardPost(r[j], bot) == IsBoardPost(ms[j], bot)
  {
  }

  /** An edited board post keeps its place and stays a board post, and no earlier match appears. */
  lemma FoundAfterEdit(ms: seq<Message>, now: int, bot: User, embed: Embed)
    requires WellFormed(ms, now)
    requires ExistingMasterPost(Newest(ms, DefaultFetchLimit), bot).Some?
    ensures var found := ExistingMasterPost(Newest(ms, DefaultFetchLimit), bot).value; var r := PostState(ms, now, bot, embed);
      found.id < |r| && WellFormed(r, now) && ExistingMasterPost(Newest(r, DefaultFetchLimit), bot) == Some(r[found.id])
  {
    var fetched := Newest(ms, DefaultFetchLimit);
    var i := FirstBoardPost(fetched, bot).value;
    var x := |ms| - 1 - i;
    assert fetched[i] == ms[x];
    var r := EditEmbeds(ms, x, embed);
    assert PostState(ms, now, bot, embed) == r;
    EditEmbedsKeepsBoardPosts(ms, now, bot, x, embed);
    NewestBoardPostAgrees(ms, r, bot);
    assert Newest(r, DefaultFetchLimit)[i] == r[x];
  }

  /**
   * After `sendPost` the next run finds the post just written: the edited
   * post, or the new message. So repeated runs keep editing one post and
   * never send a second.
   */
  lemma PostStateFoundAgain(ms: seq<Message>, now: int, bot: User, embed: Embed)
    requires WellFormed(ms, now)
    ensures var found := ExistingMasterPost(Newest(ms, DefaultFetchLimit), bot); var r := PostState(ms, now, bot, embed);
      && WellFormed(r, now + (|r| - |ms|))
      && (found.Some? ==> found.value.id < |r| && ExistingMasterPost(Newest(r, DefaultFetchLimit), bot) == Some(r[found.value.id]))
      && (found.None? ==> |r| == |ms| + 1 && ExistingMasterPost(Newest(r, DefaultFetchLimit), bot) == Some(r[|ms|]))
  {
    if ExistingMasterPost(Newest(ms, DefaultFetchLimit), bot).Some? {
      FoundAfterEdit(ms, now, bot, embed);
    } else {
      FoundAfterSend(ms, now, bot, embed);
    }
  }

  /** The edit-or-send step of `sendPost`: edit the found board post, or send a new one. */
  method PublishEmbed(channel: TextChannel, bot: User, embed: Embed)
    requires channel.Valid()
    modifies channel
    ensures channel.Valid() && channel.now == old(channel.now) + (|channel.messages| - |old(channel.messages)|)
    ensures channel.messages == PostState(old(channel.messages), old(channel.now), bot, embed)
  {
    var existing := ExistingMasterPost(channel.Fetch(), bot);
    if existing.Some? {
      channel.EditEmbed(existing.value.id, embed);
    } else {
      var _ := channel.Send(bot, "", [embed]);
    }
  }

  /** `sendPost(channel)`: build the embed from the aggregated records, then edit the found board post or send a new one. */
  method SendPost(channel: TextChannel, bot: User, guildChannels: seq<GuildChannel>, fromNow: int -> string, dateTime: string)
    requires channel.Valid()
    modifies channel
    ensures channel.Valid() && channel.now == old(channel.now) + (|channel.messages| - |old(channel.messages)|)
    ensures channel.messages == PostState(old(channel.messages), old(channel.now), bot,
                                          SummaryEmbed(AggregatedPostsInfo(guildChannels, fromNow), dateTime))
  {
    var records := AggregatedPostsInfo(guildChannels, fromNow);
    var embed := BuildEmbed(records, dateTime);
    PublishEmbed(channel, bot, embed);
  }
}
