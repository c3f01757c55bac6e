/**
 * The slice of the chat platform the bounty board talks to: users, messages,
 * embeds and guild channels as values, and the target channel's message store
 * as an object that sending and editing update in place.
 */
module Discord {
  import opened Wrappers

  datatype User = User(id: nat, mention: string)

  /** One field of a rich embed: `{ name, value, inline }`. */
  datatype EmbedField = EmbedField(name: string, value: string, inline: bool)

  datatype Embed = Embed(color: string, title: string, description: string, footer: string, fields: seq<EmbedField>)

  /**
   * A message. Ids are snowflakes: they grow with creation time, so within one
   * channel the id orders messages the way creation does.
   */
  datatype Message = Message(id: nat, author: User, content: string, embeds: seq<Embed>, createdAt: int)

  function CreatedAt(m: Message): int {
    m.createdAt
  }

  function MessageId(m: Message): int {
    m.id
  }

  datatype ChannelType = Text | Voice | Category | News | Store | Unknown

  /**
   * A guild channel as the client's channel cache shows it, with its message
   * history newest first (the order in which the platform pages it out).
   */
  datatype GuildChannel = GuildChannel(
    id: nat,
    name: string,
    kind: ChannelType,
    deleted: bool,
    lastMessageId: Option<nat>,
    position: int,
    mention: string,
    history: seq<Message>)

  function Position(c: GuildChannel): int {
    c.position
  }

  /** A history as the platform returns it: newest first, so ids strictly decrease. */
  predicate NewestFirst(history: seq<Message>) {
    forall i, j :: 0 <= i < j < |history| ==> history[i].id > history[j].id
  }

  // ---------------------------------------------------------------------
  // The target channel's message store

  /**
   * The messages of one channel in creation order: the message at position i
   * has id i, creation times never decrease, and none lies after the clock.
   */
  predicate WellFormed(ms: seq<Message>, now: int) {
    && (forall i :: 0 <= i < |ms| ==> ms[i].id == i && ms[i].createdAt <= now)
    && (forall i, j :: 0 <= i < j < |ms| ==> ms[i].createdAt <= ms[j].createdAt)
  }

  /** `channel.messages.fetch()` without options returns the platform's default page of 50. */
  const DefaultFetchLimit := 50

  /** The `limit` newest messages, newest first. */
  function Newest(ms: seq<Message>, limit: nat): (r: seq<Message>)
    ensures |r| == if limit < |ms| then limit else |ms|
    ensures forall i :: 0 <= i < |r| ==> r[i] == ms[|ms| - 1 - i]
  {
    var n := if limit < |ms| then limit else |ms|;
    seq(n, i requires 0 <= i < n => ms[|ms| - 1 - i])
  }

  /** After messages are added, the newest `limit` are the added ones, newest first, then the newest of the rest. */
  lemma NewestSplit(ms: seq<Message>, more: seq<Message>, limit: nat)
    requires |more| <= limit
    ensures Newest(ms + more, limit) == Newest(more, |more|) + Newest(ms, limit - |more|)
  {
  }

  /** The newest `k` messages begin the newest `limit`, for `k <= limit`. */
  lemma NewestPrefix(ms: seq<Message>, k: nat, limit: nat)
    requires k <= limit
    ensures |Newest(ms, k)| <= |Newest(ms, limit)|
    ensures Newest(ms, limit) == Newest(ms, k) + Newest(ms, limit)[|Newest(ms, k)|..]
  {
  }

  /** `message.edit(text)`: replaces the text, keeps the embeds; an unknown id changes nothing. */
  function EditContent(ms: seq<Message>, id: nat, content: string): (r: seq<Message>)
    ensures |r| == |ms|
  {
    if id < |ms| then ms[id := ms[id].(content := content)] else ms
  }

  /** `message.edit(embed)`: replaces the embeds, keeps the text. */
  function EditEmbeds(ms: seq<Message>, id: nat, embed: Embed): (r: seq<Message>)
    ensures |r| == |ms|
  {
    if id < |ms| then ms[id := ms[id].(embeds := [embed])] else ms
  }

  /** One `message.edit(text)` of a batch: the id of the message and its new text. */
  datatype EditOp = EditOp(id: nat, content: string)

  /** A batch of text edits, applied one after the other. */
  function ApplyEdits(ms: seq<Message>, edits: seq<EditOp>): (r: seq<Message>)
    ensures |r| == |ms|
  {
    if |edits| == 0 then ms
    else
      var last := edits[|edits| - 1];
      EditContent(ApplyEdits(ms, edits[..|edits| - 1]), last.id, last.content)
  }

  /** The text of the last edit of the batch aimed at `id`, if there is one. */
  function LastEditFor(edits: seq<EditOp>, id: nat): Option<string>
  {
    if |edits| == 0 then None
    else if edits[|edits| - 1].id == id then Some(edits[|edits| - 1].content)
    else LastEditFor(edits[..|edits| - 1], id)
  }

  /** After a batch a message carries the text of the last edit aimed at it, and nothing else about it changes. */
  lemma {:induction false} ApplyEditsAt(ms: seq<Message>, edits: seq<EditOp>, x: nat)
    requires x < |ms|
    ensures ApplyEdits(ms, edits)[x] == match LastEditFor(edits, x)
      case None => ms[x]
      case Some(c) => ms[x].(content := c)
  {
    if |edits| > 0 {
      ApplyEditsAt(ms, edits[..|edits| - 1], x);
    }
  }

  /** Text edits keep every id and creation time, so a well-formed store stays well-formed. */
  lemma ApplyEditsWellFormed(ms: seq<Message>, now: int, edits: seq<EditOp>)
    requires WellFormed(ms, now)
    ensures WellFormed(ApplyEdits(ms, edits), now)
  {
    var r := ApplyEdits(ms, edits);
    forall x | 0 <= x < |ms| ensures r[x].id == ms[x].id && r[x].createdAt == ms[x].createdAt {
      ApplyEditsAt(ms, edits, x);
    }
  }

  /** A batch of text edits changes nothing about a message but its text. */
  lemma ApplyEditsRetexts(ms: seq<Message>, edits: seq<EditOp>)
    ensures forall x :: 0 <= x < |ms| ==> ApplyEdits(ms, edits)[x] == ms[x].(content := ApplyEdits(ms, edits)[x].content)
  {
    forall x | 0 <= x < |ms| ensures ApplyEdits(ms, edits)[x] == ms[x].(content := ApplyEdits(ms, edits)[x].content) {
      ApplyEditsAt(ms, edits, x);
    }
  }

  /** Sending the same two batches again changes nothing: every message already shows what they leave it with. */
  lemma ReapplyEdits(ms: seq<Message>, first: seq<EditOp>, second: seq<EditOp>)
    ensures var r := ApplyEdits(ApplyEdits(ms, first), second);
      ApplyEdits(ApplyEdits(r, first), second) == r
  {
    var r := ApplyEdits(ApplyEdits(ms, first), second);
    var again := ApplyEdits(ApplyEdits(r, first), second);
    forall x | 0 <= x < |ms| ensures again[x] == r[x] {
      ApplyEditsAt(ms, first, x);
      ApplyEditsAt(ApplyEdits(ms, first), second, x);
      ApplyEditsAt(r, first, x);
      ApplyEditsAt(ApplyEdits(r, first), second, x);
    }
  }

  /** Two batches in a row: a message the second batch does not aim at carries the first batch's last edit. */
  lemma PageThenBlanksAt(ms: seq<Message>, first: seq<EditOp>, second: seq<EditOp>, x: nat, text: string)
    requires x < |ms|
    requires LastEditFor(first, x) == Some(text) && LastEditFor(second, x) == None
    ensures ApplyEdits(ApplyEdits(ms, first), second)[x] == ms[x].(content := text)
  {
    ApplyEditsAt(ms, first, x);
    ApplyEditsAt(ApplyEdits(ms, first), second, x);
  }

  /** Two batches in a row: a message neither batch aims at is unchanged. */
  lemma UntouchedAt(ms: seq<Message>, first: seq<EditOp>, second: seq<EditOp>, x: nat)
    requires x < |ms|
    requires LastEditFor(first, x) == None && LastEditFor(second, x) == None
    ensures ApplyEdits(ApplyEdits(ms, first), second)[x] == ms[x]
  {
    ApplyEditsAt(ms, first, x);
    ApplyEditsAt(ApplyEdits(ms, first), second, x);
  }

  /** Two batches in a row: a message the second batch aims at carries its text there, whatever the first did. */
  lemma SecondBatchWinsAt(ms: seq<Message>, first: seq<EditOp>, second: seq<EditOp>, x: nat, text: string)
    requires x < |ms| && LastEditFor(second, x) == Some(text)
    ensures ApplyEdits(ApplyEdits(ms, first), second)[x] == ms[x].(content := text)
  {
    ApplyEditsAt(ms, first, x);
    ApplyEditsAt(ApplyEdits(ms, first), second, x);
  }

  /** The last edit aimed at `id` is the one at `k` when no later edit aims at it. */
  lemma {:induction false} LastEditAt(edits: seq<EditOp>, k: int, id: nat)
    requires 0 <= k < |edits| && edits[k].id == id
    requires forall i :: k < i < |edits| ==> edits[i].id != id
    ensures LastEditFor(edits, id) == Some(edits[k].content)
  {
    if k < |edits| - 1 {
      LastEditAt(edits[..|edits| - 1], k, id);
    }
  }

  /** No edit aimed at `id`: the batch leaves it alone. */
  lemma {:induction false} LastEditNone(edits: seq<EditOp>, id: nat)
    requires forall k :: 0 <= k < |edits| ==> edits[k].id != id
    ensures LastEditFor(edits, id) == None
  {
    if |edits| > 0 {
      LastEditNone(edits[..|edits| - 1], id);
    }
  }

  /** When every edit aims at a different message, each message gets the text of its own edit. */
  lemma {:induction false} LastEditDistinct(edits: seq<EditOp>, k: int)
    requires forall i, j :: 0 <= i < j < |edits| ==> edits[i].id != edits[j].id
    requires 0 <= k < |edits|
    ensures LastEditFor(edits, edits[k].id) == Some(edits[k].content)
  {
    if k < |edits| - 1 {
      LastEditDistinct(edits[..|edits| - 1], k);
    }
  }

  class TextChannel {
    var messages: seq<Message>
    /** The platform's clock for this channel: no message is newer, and each send moves it on by one tick. */
    var now: int

    ghost predicate Valid()
      reads this
    {
      WellFormed(messages, now)
    }

    constructor (now: int)
      ensures Valid() && messages == [] && this.now == now
    {
      messages := [];
      this.now := now;
    }

    /** `channel.messages.fetch()`: the newest messages, newest first. */
    function Fetch(): (r: seq<Message>)
      reads this
    {
      Newest(messages, DefaultFetchLimit)
    }

    /**
     * `channel.send(...)`: a new message with the next id, created one tick
     * after the clock, so it is strictly newer than every earlier message.
     */
    method Send(author: User, content: string, embeds: seq<Embed>) returns (m: Message)
      requires Valid()
      modifies this
      ensures Valid() && now == old(now) + 1
      ensures m == Message(|old(messages)|, author, content, embeds, now)
      ensures messages == old(messages) + [m]
      ensures forall i :: 0 <= i < |old(messages)| ==> old(messages)[i].createdAt < m.createdAt
    {
      now := now + 1;
      m := Message(|messages|, author, content, embeds, now);
      messages := messages + [m];
    }

    method Edit(id: nat, content: string)
      requires Valid()
      modifies this
      ensures Valid() && now == old(now)
      ensures messages == EditContent(old(messages), id, content)
    {
      messages := EditContent(messages, id, content);
    }

    method EditEmbed(id: nat, embed: Embed)
      requires Valid()
      modifies this
      ensures Valid() && now == old(now)
      ensures messages == EditEmbeds(old(messages), id, embed)
    {
      messages := EditEmbeds(messages, id, embed);
    }
  }
}
