/**
 * How the worker revision keeps the board in its channel (worker/postManager.js):
 * find the bot's earlier board posts, reuse them or send placeholders until
 * there is one container per page, write each page into a container, and
 * mark the left-over earlier posts inactive.
 *
 * The channel is a `TextChannel` whose messages have ids equal to their
 * positions, so an edit names its target by index.
 */
module WorkerPostManager {
  import opened Wrappers
  import opened Lodash
  import opened JsStrings
  import opened Utils
  import opened Discord
  import opened Planner
  import opened WorkerPages

  /** Containers are gathered, and pages and blanks written, five at a time. */
  const BatchGroupSize := 5

  // ---------------------------------------------------------------------
  // getExistingMasterPosts

  /** A board post: written by the bot, and with an embed or, for a non-empty determiner, containing it. */
  predicate IsMasterPost(m: Message, bot: User, determiner: string) {
    m.author.id == bot.id && (|m.embeds| > 0 || (determiner != "" && Includes(m.content, determiner)))
  }

  function MasterTest(bot: User, determiner: string): Message -> bool {
    m => IsMasterPost(m, bot, determiner)
  }

  /** The board posts among the fetched messages, oldest first. */
  function ExistingMasterPosts(fetched: seq<Message>, bot: User, determiner: string): seq<Message>
  {
    SortBy(Filter(fetched, MasterTest(bot, determiner)), CreatedAt)
  }

  /**
   * The result holds exactly the fetched board posts, ordered by creation
   * time; posts created at the same moment keep the order of the fetch.
   */
  lemma ExistingMasterPostsSpec(fetched: seq<Message>, bot: User, determiner: string)
    ensures SortedBy(ExistingMasterPosts(fetched, bot, determiner), CreatedAt)
    ensures forall m :: m in ExistingMasterPosts(fetched, bot, determiner) <==> m in fetched && IsMasterPost(m, bot, determiner)
    ensures forall t :: KeyClass(ExistingMasterPosts(fetched, bot, determiner), CreatedAt, t)
                     == KeyClass(Filter(fetched, MasterTest(bot, determiner)), CreatedAt, t)
  {
    var owned := Filter(fetched, MasterTest(bot, determiner));
    SortByPermutes(owned, CreatedAt);
    FilterMembers(fetched, MasterTest(bot, determiner));
    forall t ensures KeyClass(SortBy(owned, CreatedAt), CreatedAt, t) == KeyClass(owned, CreatedAt, t) {
      SortByStable(owned, CreatedAt, t);
    }
  }

  /** The board posts of a channel as the worker sees them: among the newest 50 messages. */
  function MasterPostsOf(ms: seq<Message>, bot: User): seq<Message>
  {
    ExistingMasterPosts(Newest(ms, DefaultFetchLimit), bot, Header)
  }

  predicate DistinctIds(ms: seq<Message>) {
    forall i, j :: 0 <= i < j < |ms| ==> ms[i].id != ms[j].id
  }

  /** The posts found are messages of the channel, each once, none newer than the clock, oldest first. */
  lemma MasterPostsOfStore(ms: seq<Message>, now: int, bot: User)
    requires WellFormed(ms, now)
    ensures var e := MasterPostsOf(ms, bot);
      && SortedBy(e, CreatedAt)
      && DistinctIds(e)
      && forall i :: 0 <= i < |e| ==> e[i].id < |ms| && ms[e[i].id] == e[i] && e[i].createdAt <= now
  {
    var fetched := Newest(ms, DefaultFetchLimit);
    var owned := Filter(fetched, MasterTest(bot, Header));
    var e := MasterPostsOf(ms, bot);
    assert e == SortBy(owned, CreatedAt);
    FetchedFromStore(ms, now);
    FilterDistinct(fetched, MasterTest(bot, Header), MessageId);
    SortByDistinct(owned, CreatedAt, MessageId);
    SortByPermutes(owned, CreatedAt);
    forall i | 0 <= i < |e| ensures e[i].id < |ms| && ms[e[i].id] == e[i] && e[i].createdAt <= now {
      assert e[i] in owned;
      FilterMember(fetched, MasterTest(bot, Header), e[i]);
    }
  }

  /** A fetch returns messages of the store, each once. */
  lemma FetchedFromStore(ms: seq<Message>, now: int)
    requires WellFormed(ms, now)
    ensures var fetched := Newest(ms, DefaultFetchLimit);
      && (forall i, j :: 0 <= i < j < |fetched| ==> MessageId(fetched[i]) != MessageId(fetched[j]))
      && (forall m :: m in fetched ==> m.id < |ms| && ms[m.id] == m && m.createdAt <= now)
  {
    var fetched := Newest(ms, DefaultFetchLimit);
    forall m | m in fetched ensures m.id < |ms| && ms[m.id] == m && m.createdAt <= now {
      var t :| 0 <= t < |fetched| && fetched[t] == m;
      assert fetched[t] == ms[|ms| - 1 - t];
    }
  }

  // ---------------------------------------------------------------------
  // getMessageContainers

  /**
   * The `'.'` messages sent for the positions no earlier post fills, with the
   * ids the store gives them and one clock tick each after `now`.
   */
  function Placeholders(first: nat, n: nat, bot: User, now: int): seq<Message>
  {
    seq(n, j requires 0 <= j < n => Message(first + j, bot, ".", [], now + 1 + j))
  }

  /** How many earlier posts are reused for `count` containers. */
  function Reused(count: nat, existing: seq<Message>): nat {
    if count < |existing| then count else |existing|
  }

  /** The containers in the order the executor returns them: the reused posts, then the placeholders. */
  function ContainerList(first: nat, now: int, bot: User, count: nat, existing: seq<Message>): (r: seq<Message>)
    ensures |r| == count
  {
    existing[..Reused(count, existing)] + Placeholders(first, count - Reused(count, existing), bot, now)
  }

  /**
   * Position i reuses `existing[i]` when there is one and otherwise sends a
   * `'.'` message; the containers are then sorted by creation time. Every
   * position yields a message, so the executor drops no group and the
   * positions come out in order.
   */
  method GetMessageContainers(channel: TextChannel, bot: User, count: nat, existing: seq<Message>) returns (containers: seq<Message>)
    requires channel.Valid()
    modifies channel
    ensures channel.Valid() && channel.now == old(channel.now) + (count - Reused(count, existing))
    ensures channel.messages == old(channel.messages) + Placeholders(|old(channel.messages)|, count - Reused(count, existing), bot, old(channel.now))
    ensures containers == SortBy(ContainerList(|old(channel.messages)|, old(channel.now), bot, count, existing), CreatedAt)
  {
    var first := |channel.messages|;
    var start := channel.now;
    var unsorted: seq<Message> := [];
    var i := 0;
    while i < count
      invariant 0 <= i <= count
      invariant channel.Valid() && channel.now == start + (i - Reused(i, existing))
      invariant unsorted == ContainerList(first, start, bot, i, existing)
      invariant channel.messages == old(channel.messages) + Placeholders(first, i - Reused(i, existing), bot, start)
    {
      if i < |existing| {
        assert existing[..i + 1] == existing[..i] + [existing[i]];
        unsorted := unsorted + [existing[i]];
      } else {
        var m := channel.Send(bot, ".", []);
        unsorted := unsorted + [m];
      }
      i := i + 1;
    }
    containers := SortBy(unsorted, CreatedAt);
  }

  /**
   * When the earlier posts are in creation order and none is newer than the
   * clock, the sort keeps the executor's order: the reused posts first, the
   * placeholders after them.
   */
  lemma ContainersInOrder(first: nat, now: int, bot: User, count: nat, existing: seq<Message>)
    requires SortedBy(existing, CreatedAt)
    requires forall i :: 0 <= i < |existing| ==> existing[i].createdAt <= now
    ensures SortBy(ContainerList(first, now, bot, count, existing), CreatedAt) == ContainerList(first, now, bot, count, existing)
  {
    SortByIdentity(ContainerList(first, now, bot, count, existing), CreatedAt);
  }

  // ---------------------------------------------------------------------
  // Writing the pages and blanking the rest

  /** The intended edit batch: page k into container k. */
  function PageEdits(containers: seq<Message>, pages: seq<string>): seq<EditOp>
    requires |pages| <= |containers|
  {
    seq(|pages|, k requires 0 <= k < |pages| => EditOp(containers[k].id, pages[k]))
  }

  /**
   * The edit batch as the source writes it: the executor hands the callback
   * the page's index within its group of five, and the callback uses it as
   * the container index, so page k goes into container k mod 5.
   */
  function PageEditsAsWritten(containers: seq<Message>, pages: seq<string>): seq<EditOp>
    requires |pages| <= |containers|
  {
    seq(|pages|, k requires 0 <= k < |pages| => EditOp(containers[k % BatchGroupSize].id, pages[k]))
  }

  /** The as-written batch is what the executor's calls give: call k carries page k and the index k mod 5. */
  lemma PageEditsFollowCalls(containers: seq<Message>, pages: seq<string>)
    requires |pages| <= |containers|
    ensures |Invocations(pages, BatchGroupSize)| == |pages|
    ensures forall k :: 0 <= k < |pages| ==>
      Invocations(pages, BatchGroupSize)[k].1 < |containers|
      && PageEditsAsWritten(containers, pages)[k]
         == EditOp(containers[Invocations(pages, BatchGroupSize)[k].1].id, Invocations(pages, BatchGroupSize)[k].0)
  {
    InvocationsAt(pages, BatchGroupSize);
  }

  function ContainerIds(containers: seq<Message>): seq<nat> {
    seq(|containers|, i requires 0 <= i < |containers| => containers[i].id)
  }

  function NotAmong(ids: seq<nat>): Message -> bool {
    (m: Message) => m.id !in ids
  }

  /** `_.reject(existing, m => containerIds includes m.id)`. */
  function Unutilized(existing: seq<Message>, containers: seq<Message>): seq<Message> {
    Filter(existing, NotAmong(ContainerIds(containers)))
  }

  /** The text a left-over board post is blanked to. */
  function InactiveContent(dateTime: string): string {
    JoinLines([Header + " (inactive)\n", Footer(dateTime)])
  }

  function BlankEdits(posts: seq<Message>, dateTime: string): seq<EditOp> {
    seq(|posts|, i requires 0 <= i < |posts| => EditOp(posts[i].id, InactiveContent(dateTime)))
  }

  /** Each left-over post gets the inactive text from its own blanking edit. */
  lemma BlankEditsAt(posts: seq<Message>, dateTime: string, b: int)
    requires DistinctIds(posts) && 0 <= b < |posts|
    ensures LastEditFor(BlankEdits(posts, dateTime), posts[b].id) == Some(InactiveContent(dateTime))
  {
    var blanks := BlankEdits(posts, dateTime);
    assert blanks[b].id == posts[b].id;
    LastEditDistinct(blanks, b);
  }

  // ---------------------------------------------------------------------
  // The channel after sendSummaryPosts

  /** How many placeholders a run with `count` pages sends. */
  function Sent(ms: seq<Message>, bot: User, count: nat): nat {
    count - Reused(count, MasterPostsOf(ms, bot))
  }

  /** The channel once the placeholders are sent. */
  function WithPlaceholders(ms: seq<Message>, now: int, bot: User, count: nat): seq<Message> {
    ms + Placeholders(|ms|, Sent(ms, bot, count), bot, now)
  }

  /** Sending the placeholders leaves the earlier messages in place. */
  lemma WithPlaceholdersKeeps(ms: seq<Message>, now: int, bot: User, count: nat, x: nat)
    requires x < |ms|
    ensures x < |WithPlaceholders(ms, now, bot, count)| && WithPlaceholders(ms, now, bot, count)[x] == ms[x]
  {
  }

  function ContainersOf(ms: seq<Message>, now: int, bot: User, count: nat): (r: seq<Message>)
    ensures |r| == count
  {
    SortBy(ContainerList(|ms|, now, bot, count, MasterPostsOf(ms, bot)), CreatedAt)
  }

  /** The channel after a run with page k written into container k. */
  function SummaryState(ms: seq<Message>, now: int, bot: User, pages: seq<string>, dateTime: string): seq<Message>
  {
    var containers := ContainersOf(ms, now, bot, |pages|);
    var blanks := BlankEdits(Unutilized(MasterPostsOf(ms, bot), containers), dateTime);
    ApplyEdits(ApplyEdits(WithPlaceholders(ms, now, bot, |pages|), PageEdits(containers, pages)), blanks)
  }

  /** The channel after a run as the source writes it, with page k written into container k mod 5. */
  function SummaryStateAsWritten(ms: seq<Message>, now: int, bot: User, pages: seq<string>, dateTime: string): seq<Message>
  {
    var containers := ContainersOf(ms, now, bot, |pages|);
    var blanks := BlankEdits(Unutilized(MasterPostsOf(ms, bot), containers), dateTime);
    ApplyEdits(ApplyEdits(WithPlaceholders(ms, now, bot, |pages|), PageEditsAsWritten(containers, pages)), blanks)
  }

  /** In a well-formed channel the containers are the first `m` board posts followed by the new placeholders. */
  lemma ContainersShape(ms: seq<Message>, now: int, bot: User, count: nat)
    requires WellFormed(ms, now)
    ensures var e := MasterPostsOf(ms, bot); var m := Reused(count, e); var c := ContainersOf(ms, now, bot, count);
      && (forall k :: 0 <= k < m ==> c[k] == e[k])
      && (forall k :: m <= k < count ==> c[k] == Message(|ms| + k - m, bot, ".", [], now + 1 + k - m))
  {
    var e := MasterPostsOf(ms, bot);
    var m := Reused(count, e);
    MasterPostsOfStore(ms, now, bot);
    ContainersInOrder(|ms|, now, bot, count, e);
    var list := ContainerList(|ms|, now, bot, count, e);
    assert ContainersOf(ms, now, bot, count) == list;
    forall k | m <= k < count ensures list[k] == Message(|ms| + k - m, bot, ".", [], now + 1 + k - m) {
      assert list[k] == Placeholders(|ms|, count - m, bot, now)[k - m];
    }
  }

  /** The containers are different messages of the channel once the placeholders are sent. */
  lemma ContainersInChannel(ms: seq<Message>, now: int, bot: User, count: nat)
    requires WellFormed(ms, now)
    ensures var c := ContainersOf(ms, now, bot, count); var w := WithPlaceholders(ms, now, bot, count);
      && |w| == |ms| + count - Reused(count, MasterPostsOf(ms, bot))
      && DistinctIds(c)
      && (forall k :: 0 <= k < count ==> c[k].id < |w| && w[c[k].id] == c[k])
  {
    var e := MasterPostsOf(ms, bot);
    var m := Reused(count, e);
    var c := ContainersOf(ms, now, bot, count);
    var w := WithPlaceholders(ms, now, bot, count);
    ContainersShape(ms, now, bot, count);
    MasterPostsOfStore(ms, now, bot);
    forall k | 0 <= k < count ensures c[k].id < |w| && w[c[k].id] == c[k] {
      if k >= m {
        assert w[|ms| + k - m] == Placeholders(|ms|, count - m, bot, now)[k - m];
      }
    }
    forall i, j | 0 <= i < j < count ensures c[i].id != c[j].id {
      if j < m {
        assert c[i] == e[i] && c[j] == e[j];
      } else if i < m {
        assert c[i] == e[i];
      }
    }
  }

  /** The board posts from `m` on are not among the containers. */
  lemma LeftOverNotContainers(ms: seq<Message>, now: int, bot: User, count: nat)
    requires WellFormed(ms, now)
    ensures var e := MasterPostsOf(ms, bot); var m := Reused(count, e); var c := ContainersOf(ms, now, bot, count);
      forall i, k :: m <= i < |e| && 0 <= k < count ==> e[i].id != c[k].id
  {
    var e := MasterPostsOf(ms, bot);
    var m := Reused(count, e);
    var c := ContainersOf(ms, now, bot, count);
    ContainersShape(ms, now, bot, count);
    MasterPostsOfStore(ms, now, bot);
    forall i, k | m <= i < |e| && 0 <= k < count ensures e[i].id != c[k].id {
      if k < m {
        assert c[k] == e[k];
      }
    }
  }

  /** The posts left unused are exactly the board posts from `m` on, oldest first. */
  lemma UnutilizedIsTail(ms: seq<Message>, now: int, bot: User, count: nat)
    requires WellFormed(ms, now)
    ensures var e := MasterPostsOf(ms, bot);
      Unutilized(e, ContainersOf(ms, now, bot, count)) == e[Reused(count, e)..]
  {
    var e := MasterPostsOf(ms, bot);
    var m := Reused(count, e);
    var c := ContainersOf(ms, now, bot, count);
    var ids := ContainerIds(c);
    ContainersShape(ms, now, bot, count);
    LeftOverNotContainers(ms, now, bot, count);
    forall i | 0 <= i < |e| ensures NotAmong(ids)(e[i]) <==> i >= m {
      if i < m {
        assert ids[i] == e[i].id;
      } else {
        forall k | 0 <= k < count ensures ids[k] != e[i].id {
        }
      }
    }
    FilterDropsPrefix(e, NotAmong(ids), m);
  }

  /** Every edit of the intended batch aims at a different container. */
  lemma PageEditsDistinct(containers: seq<Message>, pages: seq<string>)
    requires |pages| <= |containers| && DistinctIds(containers)
    ensures forall k :: 0 <= k < |pages| ==> LastEditFor(PageEdits(containers, pages), containers[k].id) == Some(pages[k])
  {
    var edits := PageEdits(containers, pages);
    forall k | 0 <= k < |pages| ensures LastEditFor(edits, containers[k].id) == Some(pages[k]) {
      LastEditDistinct(edits, k);
    }
  }

  /**
   * After an intended run the channel has grown by the placeholders only, and
   * container k shows page k.
   */
  lemma SummaryPagesLand(ms: seq<Message>, now: int, bot: User, pages: seq<string>, dateTime: string)
    requires WellFormed(ms, now)
    ensures var e := MasterPostsOf(ms, bot); var c := ContainersOf(ms, now, bot, |pages|);
      var r := SummaryState(ms, now, bot, pages, dateTime);
      && |r| == |ms| + (if |pages| > |e| then |pages| - |e| else 0)
      && (forall k :: 0 <= k < |pages| ==> c[k].id < |r| && r[c[k].id] == c[k].(content := pages[k]))
  {
    var e := MasterPostsOf(ms, bot);
    var c := ContainersOf(ms, now, bot, |pages|);
    var w := WithPlaceholders(ms, now, bot, |pages|);
    ContainersInChannel(ms, now, bot, |pages|);
    BlanksMissContainers(ms, now, bot, |pages|, dateTime);
    var blanks := BlankEdits(Unutilized(e, c), dateTime);
    assert SummaryState(ms, now, bot, pages, dateTime) == ApplyEdits(ApplyEdits(w, PageEdits(c, pages)), blanks);
    PageEditsDistinct(c, pages);
    forall k | 0 <= k < |pages| ensures ApplyEdits(ApplyEdits(w, PageEdits(c, pages)), blanks)[c[k].id] == c[k].(content := pages[k]) {
      PageThenBlanksAt(w, PageEdits(c, pages), blanks, c[k].id, pages[k]);
    }
  }

  /** The channel after the placeholders, a batch of page edits, and the blanking of the left-over board posts. */
  function AfterPagesAndBlanks(ms: seq<Message>, now: int, bot: User, count: nat, edits: seq<EditOp>, dateTime: string): seq<Message>
  {
    var blanks := BlankEdits(Unutilized(MasterPostsOf(ms, bot), ContainersOf(ms, now, bot, count)), dateTime);
    ApplyEdits(ApplyEdits(WithPlaceholders(ms, now, bot, count), edits), blanks)
  }

  /** Whatever batch of page edits came first, each left-over board post ends with the inactive text. */
  lemma LeftOversBlanked(ms: seq<Message>, now: int, bot: User, count: nat, edits: seq<EditOp>, dateTime: string)
    requires WellFormed(ms, now)
    ensures var e := MasterPostsOf(ms, bot); var r := AfterPagesAndBlanks(ms, now, bot, count, edits, dateTime);
      forall i :: Reused(count, e) <= i < |e| ==> e[i].id < |ms| && r[e[i].id] == e[i].(content := InactiveContent(dateTime))
  {
    var e := MasterPostsOf(ms, bot);
    var m := Reused(count, e);
    var w := WithPlaceholders(ms, now, bot, count);
    MasterPostsOfStore(ms, now, bot);
    UnutilizedIsTail(ms, now, bot, count);
    var blanks := BlankEdits(e[m..], dateTime);
    var r := AfterPagesAndBlanks(ms, now, bot, count, edits, dateTime);
    assert r == ApplyEdits(ApplyEdits(w, edits), blanks);
    var tail := e[m..];
    assert DistinctIds(tail);
    forall i | m <= i < |e| ensures e[i].id < |ms| && r[e[i].id] == e[i].(content := InactiveContent(dateTime)) {
      var x := e[i].id;
      assert x < |ms| && ms[x] == e[i];
      WithPlaceholdersKeeps(ms, now, bot, count, x);
      assert tail[i - m] == e[i];
      BlankedAt(w, edits, tail, dateTime, i - m);
    }
  }

  /** A post of a blanking batch ends with the inactive text, whatever edits came before. */
  lemma BlankedAt(w: seq<Message>, edits: seq<EditOp>, posts: seq<Message>, dateTime: string, b: int)
    requires DistinctIds(posts) && 0 <= b < |posts| && posts[b].id < |w| && w[posts[b].id] == posts[b]
    ensures ApplyEdits(ApplyEdits(w, edits), BlankEdits(posts, dateTime))[posts[b].id] == posts[b].(content := InactiveContent(dateTime))
  {
    BlankEditsAt(posts, dateTime, b);
    SecondBatchWinsAt(w, edits, BlankEdits(posts, dateTime), posts[b].id, InactiveContent(dateTime));
  }

  /**
   * When every page edit aims at a container, the run removes no message,
   * changes nothing but texts, and leaves every message that is neither a
   * container nor a left-over board post as it was.
   */
  lemma OthersUntouched(ms: seq<Message>, now: int, bot: User, count: nat, edits: seq<EditOp>, dateTime: string)
    requires WellFormed(ms, now)
    requires forall k :: 0 <= k < |edits| ==> edits[k].id in ContainerIds(ContainersOf(ms, now, bot, count))
    ensures var e := MasterPostsOf(ms, bot); var c := ContainersOf(ms, now, bot, count);
      var w := WithPlaceholders(ms, now, bot, count); var r := AfterPagesAndBlanks(ms, now, bot, count, edits, dateTime);
      && |r| == |w|
      && (forall x :: 0 <= x < |r| && x !in ContainerIds(c) && x !in ContainerIds(e[Reused(count, e)..]) ==> r[x] == w[x])
      && (forall x :: 0 <= x < |ms| ==> r[x] == ms[x].(content := r[x].content))
  {
    var e := MasterPostsOf(ms, bot);
    var m := Reused(count, e);
    var c := ContainersOf(ms, now, bot, count);
    var w := WithPlaceholders(ms, now, bot, count);
    UnutilizedIsTail(ms, now, bot, count);
    var blanks := BlankEdits(e[m..], dateTime);
    var mid := ApplyEdits(w, edits);
    var r := AfterPagesAndBlanks(ms, now, bot, count, edits, dateTime);
    assert r == ApplyEdits(mid, blanks);
    forall x | 0 <= x < |r| && x !in ContainerIds(c) && x !in ContainerIds(e[m..]) ensures r[x] == w[x] {
      forall b | 0 <= b < |blanks| ensures blanks[b].id != x {
        assert ContainerIds(e[m..])[b] == e[m..][b].id;
      }
      LastEditNone(edits, x);
      LastEditNone(blanks, x);
      UntouchedAt(w, edits, blanks, x);
    }
    forall x | 0 <= x < |ms| ensures r[x] == ms[x].(content := r[x].content) {
      ApplyEditsAt(w, edits, x);
      ApplyEditsAt(mid, blanks, x);
    }
  }

  /** Every intended page edit aims at a container. */
  lemma PageEditsAimAtContainers(c: seq<Message>, pages: seq<string>)
    requires |pages| <= |c|
    ensures forall k :: 0 <= k < |pages| ==> PageEdits(c, pages)[k].id in ContainerIds(c)
  {
    forall k | 0 <= k < |pages| ensures PageEdits(c, pages)[k].id in ContainerIds(c) {
      assert ContainerIds(c)[k] == c[k].id;
    }
  }

  /** Every as-written page edit aims at one of the first five containers. */
  lemma AsWrittenAimsAtContainers(c: seq<Message>, pages: seq<string>)
    requires |pages| <= |c|
    ensures forall k :: 0 <= k < |pages| ==> PageEditsAsWritten(c, pages)[k].id in ContainerIds(c)
  {
    forall k | 0 <= k < |pages| ensures PageEditsAsWritten(c, pages)[k].id in ContainerIds(c) {
      assert ContainerIds(c)[k % BatchGroupSize] == c[k % BatchGroupSize].id;
    }
  }

  /** After an intended run each left-over board post shows the inactive text. */
  lemma SummaryBlanksLeftOvers(ms: seq<Message>, now: int, bot: User, pages: seq<string>, dateTime: string)
    requires WellFormed(ms, now)
    ensures var e := MasterPostsOf(ms, bot); var r := SummaryState(ms, now, bot, pages, dateTime);
      forall i :: Reused(|pages|, e) <= i < |e| ==> e[i].id < |ms| && r[e[i].id] == e[i].(content := InactiveContent(dateTime))
  {
    var c := ContainersOf(ms, now, bot, |pages|);
    LeftOversBlanked(ms, now, bot, |pages|, PageEdits(c, pages), dateTime);
  }

  /** An intended run changes only the texts of containers and left-over board posts. */
  lemma SummaryLeavesOthers(ms: seq<Message>, now: int, bot: User, pages: seq<string>, dateTime: string)
    requires WellFormed(ms, now)
    ensures var e := MasterPostsOf(ms, bot); var c := ContainersOf(ms, now, bot, |pages|);
      var w := WithPlaceholders(ms, now, bot, |pages|); var r := SummaryState(ms, now, bot, pages, dateTime);
      && |r| == |w|
      && (forall x :: 0 <= x < |r| && x !in ContainerIds(c) && x !in ContainerIds(e[Reused(|pages|, e)..]) ==> r[x] == w[x])
      && (forall x :: 0 <= x < |ms| ==> r[x] == ms[x].(content := r[x].content))
  {
    var c := ContainersOf(ms, now, bot, |pages|);
    PageEditsAimAtContainers(c, pages);
    OthersUntouched(ms, now, bot, |pages|, PageEdits(c, pages), dateTime);
  }

  /** After a run as written, too, each left-over board post shows the inactive text, whatever the page count. */
  lemma SummaryAsWrittenBlanksLeftOvers(ms: seq<Message>, now: int, bot: User, pages: seq<string>, dateTime: string)
    requires WellFormed(ms, now)
    ensures var e := MasterPostsOf(ms, bot); var r := SummaryStateAsWritten(ms, now, bot, pages, dateTime);
      forall i :: Reused(|pages|, e) <= i < |e| ==> e[i].id < |ms| && r[e[i].id] == e[i].(content := InactiveContent(dateTime))
  {
    var c := ContainersOf(ms, now, bot, |pages|);
    LeftOversBlanked(ms, now, bot, |pages|, PageEditsAsWritten(c, pages), dateTime);
  }

  /** A run as written, too, changes only the texts of containers and left-over board posts, whatever the page count. */
  lemma SummaryAsWrittenLeavesOthers(ms: seq<Message>, now: int, bot: User, pages: seq<string>, dateTime: string)
    requires WellFormed(ms, now)
    ensures var e := MasterPostsOf(ms, bot); var c := ContainersOf(ms, now, bot, |pages|);
      var w := WithPlaceholders(ms, now, bot, |pages|); var r := SummaryStateAsWritten(ms, now, bot, pages, dateTime);
      && |r| == |w|
      && (forall x :: 0 <= x < |r| && x !in ContainerIds(c) && x !in ContainerIds(e[Reused(|pages|, e)..]) ==> r[x] == w[x])
      && (forall x :: 0 <= x < |ms| ==> r[x] == ms[x].(content := r[x].content))
  {
    var c := ContainersOf(ms, now, bot, |pages|);
    AsWrittenAimsAtContainers(c, pages);
    OthersUntouched(ms, now, bot, |pages|, PageEditsAsWritten(c, pages), dateTime);
  }

  // ---------------------------------------------------------------------
  // The edit loop as written: page k into container k mod 5

  /** The last page whose index is `j` modulo 5: the page container `j` shows at the end. */
  function LastPageFor(j: nat, n: nat): (r: int)
    requires j < n
    ensures j <= r < n && n - BatchGroupSize <= r
  {
    j + BatchGroupSize * ((n - 1 - j) / BatchGroupSize)
  }

  /**
   * Under the as-written batch container `j` (one of the first five) is
   * written last by the last page whose index is `j` modulo 5, and that page
   * lies within the batch and is congruent to `j`.
   */
  lemma LastEditModular(containers: seq<Message>, pages: seq<string>, j: nat)
    requires |pages| <= |containers| && DistinctIds(containers)
    requires j < BatchGroupSize && j < |pages|
    ensures LastPageFor(j, |pages|) < |pages| && LastPageFor(j, |pages|) % BatchGroupSize == j
    ensures |pages| - BatchGroupSize <= LastPageFor(j, |pages|)
    ensures LastEditFor(PageEditsAsWritten(containers, pages), containers[j].id) == Some(pages[LastPageFor(j, |pages|)])
  {
    var n := |pages|;
    var last := LastPageFor(j, n);
    var q := (n - 1 - j) / BatchGroupSize;
    var e := PageEditsAsWritten(containers, pages);
    DivUnique(last, BatchGroupSize, q, j);
    assert e[last] == EditOp(containers[j].id, pages[last]);
    forall k | last < k < n ensures e[k].id != containers[j].id {
      var d := k - last;
      if j + d < BatchGroupSize {
        DivUnique(k, BatchGroupSize, q, j + d);
      } else {
        DivUnique(k, BatchGroupSize, q + 1, j + d - BatchGroupSize);
      }
    }
    LastEditAt(e, last, containers[j].id);
  }

  /** No blanking edit aims at a container. */
  lemma BlanksMissContainers(ms: seq<Message>, now: int, bot: User, count: nat, dateTime: string)
    requires WellFormed(ms, now)
    ensures var e := MasterPostsOf(ms, bot); var c := ContainersOf(ms, now, bot, count);
      forall j :: 0 <= j < count ==> LastEditFor(BlankEdits(Unutilized(e, c), dateTime), c[j].id) == None
  {
    var e := MasterPostsOf(ms, bot);
    var m := Reused(count, e);
    var c := ContainersOf(ms, now, bot, count);
    LeftOverNotContainers(ms, now, bot, count);
    UnutilizedIsTail(ms, now, bot, count);
    var blanks := BlankEdits(e[m..], dateTime);
    forall j | 0 <= j < count ensures LastEditFor(blanks, c[j].id) == None {
      forall b | 0 <= b < |blanks| ensures blanks[b].id != c[j].id {
        assert blanks[b].id == e[m + b].id;
      }
      LastEditNone(blanks, c[j].id);
    }
  }

  /**
   * After a run as written the channel grows by the placeholders only, and
   * each of the first five containers shows the last page congruent to it
   * modulo 5.
   */
  lemma SummaryAsWrittenFirstFive(ms: seq<Message>, now: int, bot: User, pages: seq<string>, dateTime: string)
    requires WellFormed(ms, now)
    ensures var e := MasterPostsOf(ms, bot); var c := ContainersOf(ms, now, bot, |pages|);
      var r := SummaryStateAsWritten(ms, now, bot, pages, dateTime);
      && |r| == |ms| + (if |pages| > |e| then |pages| - |e| else 0)
      && (forall j :: 0 <= j < |pages| && j < BatchGroupSize ==>
            c[j].id < |r| && LastPageFor(j, |pages|) < |pages|
            && r[c[j].id] == c[j].(content := pages[LastPageFor(j, |pages|)]))
  {
    var e := MasterPostsOf(ms, bot);
    var c := ContainersOf(ms, now, bot, |pages|);
    var w := WithPlaceholders(ms, now, bot, |pages|);
    ContainersInChannel(ms, now, bot, |pages|);
    BlanksMissContainers(ms, now, bot, |pages|, dateTime);
    var blanks := BlankEdits(Unutilized(e, c), dateTime);
    var r := SummaryStateAsWritten(ms, now, bot, pages, dateTime);
    assert r == ApplyEdits(ApplyEdits(w, PageEditsAsWritten(c, pages)), blanks);
    forall j | 0 <= j < |pages| && j < BatchGroupSize
      ensures c[j].id < |r| && LastPageFor(j, |pages|) < |pages|
      ensures r[c[j].id] == c[j].(content := pages[LastPageFor(j, |pages|)])
    {
      AsWrittenContainerAt(w, c, pages, blanks, j);
    }
  }

  /** Container `j` of the first five, after the as-written page batch and a blanking batch that misses it. */
  lemma AsWrittenContainerAt(w: seq<Message>, c: seq<Message>, pages: seq<string>, blanks: seq<EditOp>, j: nat)
    requires |pages| <= |c| && DistinctIds(c)
    requires j < BatchGroupSize && j < |pages|
    requires c[j].id < |w| && LastEditFor(blanks, c[j].id) == None
    ensures LastPageFor(j, |pages|) < |pages|
    ensures ApplyEdits(ApplyEdits(w, PageEditsAsWritten(c, pages)), blanks)[c[j].id]
         == w[c[j].id].(content := pages[LastPageFor(j, |pages|)])
  {
    LastEditModular(c, pages, j);
    PageThenBlanksAt(w, PageEditsAsWritten(c, pages), blanks, c[j].id, pages[LastPageFor(j, |pages|)]);
  }

  /** After a run as written every container from the sixth on keeps what it held: an earlier post's old text or `'.'`. */
  lemma SummaryAsWrittenRest(ms: seq<Message>, now: int, bot: User, pages: seq<string>, dateTime: string)
    requires WellFormed(ms, now)
    ensures var c := ContainersOf(ms, now, bot, |pages|); var r := SummaryStateAsWritten(ms, now, bot, pages, dateTime);
      forall j :: BatchGroupSize <= j < |pages| ==> c[j].id < |r| && r[c[j].id] == c[j]
  {
    var e := MasterPostsOf(ms, bot);
    var c := ContainersOf(ms, now, bot, |pages|);
    var w := WithPlaceholders(ms, now, bot, |pages|);
    ContainersInChannel(ms, now, bot, |pages|);
    BlanksMissContainers(ms, now, bot, |pages|, dateTime);
    var edits := PageEditsAsWritten(c, pages);
    var blanks := BlankEdits(Unutilized(e, c), dateTime);
    var mid := ApplyEdits(w, edits);
    var r := SummaryStateAsWritten(ms, now, bot, pages, dateTime);
    assert r == ApplyEdits(mid, blanks);
    forall j | BatchGroupSize <= j < |pages| ensures c[j].id < |r| && r[c[j].id] == c[j] {
      forall k | 0 <= k < |edits| ensures edits[k].id != c[j].id {
        assert edits[k].id == c[k % BatchGroupSize].id;
      }
      LastEditNone(edits, c[j].id);
      UntouchedAt(w, edits, blanks, c[j].id);
    }
  }

  /** Up to five pages the index within the group is the page index, so the run as written is the intended one. */
  lemma AsWrittenAgreesUpToFive(ms: seq<Message>, now: int, bot: User, pages: seq<string>, dateTime: string)
    requires |pages| <= BatchGroupSize
    ensures SummaryStateAsWritten(ms, now, bot, pages, dateTime) == SummaryState(ms, now, bot, pages, dateTime)
  {
    AsWrittenEditsUpToFive(ContainersOf(ms, now, bot, |pages|), pages);
  }

  /** Up to five pages the as-written batch is the intended one. */
  lemma AsWrittenEditsUpToFive(c: seq<Message>, pages: seq<string>)
    requires |pages| <= |c| && |pages| <= BatchGroupSize
    ensures PageEditsAsWritten(c, pages) == PageEdits(c, pages)
  {
    forall k | 0 <= k < |pages| ensures PageEditsAsWritten(c, pages)[k] == PageEdits(c, pages)[k] {
      DivUnique(k, BatchGroupSize, 0, k);
    }
  }

  /**
   * With six pages the run as written puts the sixth page into the first
   * container and leaves the sixth container as it was, so the first page is
   * shown nowhere; the intended run shows page 0 in container 0 and page 5 in
   * container 5.
   */
  lemma SixPagesMisplaced(ms: seq<Message>, now: int, bot: User, pages: seq<string>, dateTime: string)
    requires WellFormed(ms, now) && |pages| == 6
    ensures var c := ContainersOf(ms, now, bot, 6);
      var r := SummaryStateAsWritten(ms, now, bot, pages, dateTime);
      var intended := SummaryState(ms, now, bot, pages, dateTime);
      && c[0].id < |r| && c[5].id < |r| && |r| == |intended|
      && r[c[0].id].content == pages[5]
      && r[c[5].id] == c[5]
      && intended[c[0].id].content == pages[0]
      && intended[c[5].id].content == pages[5]
  {
    SummaryAsWrittenFirstFive(ms, now, bot, pages, dateTime);
    SummaryAsWrittenRest(ms, now, bot, pages, dateTime);
    SummaryPagesLand(ms, now, bot, pages, dateTime);
    assert LastPageFor(0, 6) == 5;
  }

  // ---------------------------------------------------------------------
  // Two runs in a row

  /** Sending the placeholders keeps the store well-formed, with the clock one tick on per placeholder. */
  lemma WithPlaceholdersWellFormed(ms: seq<Message>, now: int, bot: User, count: nat)
    requires WellFormed(ms, now)
    ensures WellFormed(WithPlaceholders(ms, now, bot, count), now + Sent(ms, bot, count))
  {
    var n := Sent(ms, bot, count);
    var w := WithPlaceholders(ms, now, bot, count);
    forall i | |ms| <= i < |w| ensures w[i] == Message(i, bot, ".", [], now + 1 + i - |ms|) {
      assert w[i] == Placeholders(|ms|, n, bot, now)[i - |ms|];
    }
  }

  /** A run leaves a well-formed channel at the clock it moved on, whatever page batch it wrote. */
  lemma AfterPagesAndBlanksWellFormed(ms: seq<Message>, now: int, bot: User, count: nat, edits: seq<EditOp>, dateTime: string)
    requires WellFormed(ms, now)
    ensures WellFormed(AfterPagesAndBlanks(ms, now, bot, count, edits, dateTime), now + Sent(ms, bot, count))
  {
    var w := WithPlaceholders(ms, now, bot, count);
    WithPlaceholdersWellFormed(ms, now, bot, count);
    ApplyEditsWellFormed(w, now + Sent(ms, bot, count), edits);
    var blanks := BlankEdits(Unutilized(MasterPostsOf(ms, bot), ContainersOf(ms, now, bot, count)), dateTime);
    ApplyEditsWellFormed(ApplyEdits(w, edits), now + Sent(ms, bot, count), blanks);
  }

  /** Every container is written by the bot: a reused board post or a placeholder. */
  lemma ContainersByBot(ms: seq<Message>, now: int, bot: User, count: nat)
    requires WellFormed(ms, now)
    ensures var c := ContainersOf(ms, now, bot, count);
      forall k :: 0 <= k < count ==> c[k].author.id == bot.id
  {
    var e := MasterPostsOf(ms, bot);
    var c := ContainersOf(ms, now, bot, count);
    ContainersShape(ms, now, bot, count);
    ExistingMasterPostsSpec(Newest(ms, DefaultFetchLimit), bot, Header);
    forall k | 0 <= k < Reused(count, e) ensures c[k].author.id == bot.id {
      assert c[k] == e[k] && e[k] in e;
    }
  }

  /**
   * Board posts at distinct ids that the default fetch still reaches are all
   * found: the worker sees at least as many board posts as there are ids.
   */
  lemma BoardPostsFound(ms: seq<Message>, bot: User, ids: seq<nat>)
    requires forall i, j :: 0 <= i < j < |ids| ==> ids[i] != ids[j]
    requires forall i :: 0 <= i < |ids| ==> ids[i] < |ms| <= ids[i] + DefaultFetchLimit
    requires forall i :: 0 <= i < |ids| ==> IsMasterPost(ms[ids[i]], bot, Header)
    ensures |MasterPostsOf(ms, bot)| >= |ids|
  {
    var fetched := Newest(ms, DefaultFetchLimit);
    var at := seq(|ids|, i requires 0 <= i < |ids| => |ms| - 1 - ids[i]);
    var xs := set i | 0 <= i < |at| :: at[i];
    forall x | x in xs ensures 0 <= x < |fetched| && MasterTest(bot, Header)(fetched[x]) {
      var i :| 0 <= i < |at| && at[i] == x;
      assert fetched[x] == ms[ids[i]];
    }
    DistinctValues(at);
    FilterCountAtLeast(fetched, MasterTest(bot, Header), xs);
  }

  /**
   * When every page carries the header and the containers stay within the
   * newest 50 messages, an intended run leaves a well-formed channel in which
   * the next run finds a board post for every page and sends no placeholder.
   */
  lemma SummaryRerunSendsNothing(ms: seq<Message>, now: int, bot: User, pages: seq<string>, dateTime: string)
    requires WellFormed(ms, now)
    requires forall k :: 0 <= k < |pages| ==> Includes(pages[k], Header)
    requires forall k :: 0 <= k < |pages| ==>
      |SummaryState(ms, now, bot, pages, dateTime)| <= ContainersOf(ms, now, bot, |pages|)[k].id + DefaultFetchLimit
    ensures var r := SummaryState(ms, now, bot, pages, dateTime);
      && WellFormed(r, now + Sent(ms, bot, |pages|))
      && |MasterPostsOf(r, bot)| >= |pages|
      && Sent(r, bot, |pages|) == 0
      && SummaryState(r, now + Sent(ms, bot, |pages|), bot, pages, dateTime) == r
  {
    AfterPagesAndBlanksWellFormed(ms, now, bot, |pages|, PageEdits(ContainersOf(ms, now, bot, |pages|), pages), dateTime);
    RerunFindsEveryPage(ms, now, bot, pages, dateTime);
    SummaryRerunKeepsChannel(ms, now, now + Sent(ms, bot, |pages|), bot, pages, dateTime);
  }

  /** The counting half: the next run finds every container of this one among the board posts. */
  lemma RerunFindsEveryPage(ms: seq<Message>, now: int, bot: User, pages: seq<string>, dateTime: string)
    requires WellFormed(ms, now)
    requires forall k :: 0 <= k < |pages| ==> Includes(pages[k], Header)
    requires forall k :: 0 <= k < |pages| ==>
      |SummaryState(ms, now, bot, pages, dateTime)| <= ContainersOf(ms, now, bot, |pages|)[k].id + DefaultFetchLimit
    ensures |MasterPostsOf(SummaryState(ms, now, bot, pages, dateTime), bot)| >= |pages|
  {
    var c := ContainersOf(ms, now, bot, |pages|);
    ContainersInChannel(ms, now, bot, |pages|);
    WrittenContainersAreBoardPosts(ms, now, bot, pages, dateTime);
    BoardPostsFound(SummaryState(ms, now, bot, pages, dateTime), bot, ContainerIds(c));
  }

  /** After an intended run, each container holds its page and is written by the bot, so it is a board post. */
  lemma WrittenContainersAreBoardPosts(ms: seq<Message>, now: int, bot: User, pages: seq<string>, dateTime: string)
    requires WellFormed(ms, now)
    requires forall k :: 0 <= k < |pages| ==> Includes(pages[k], Header)
    ensures var c := ContainersOf(ms, now, bot, |pages|); var r := SummaryState(ms, now, bot, pages, dateTime);
      forall k :: 0 <= k < |pages| ==> c[k].id < |r| && IsMasterPost(r[c[k].id], bot, Header)
  {
    SummaryPagesLand(ms, now, bot, pages, dateTime);
    ContainersByBot(ms, now, bot, |pages|);
  }

  /**
   * From an empty channel, a run as written with more than five pages leaves
   * only the first five containers as board posts, because the later ones
   * still read `'.'`. The next run therefore finds five board posts and sends
   * a placeholder for every page past the fifth again.
   */
  lemma AsWrittenRerunResends(now: int, bot: User, pages: seq<string>, dateTime: string)
    requires BatchGroupSize < |pages| <= DefaultFetchLimit
    requires forall k :: 0 <= k < |pages| ==> Includes(pages[k], Header)
    ensures var r := SummaryStateAsWritten([], now, bot, pages, dateTime);
      && |r| == |pages|
      && |MasterPostsOf(r, bot)| == BatchGroupSize
      && Sent(r, bot, |pages|) == |pages| - BatchGroupSize
  {
    var n := |pages|;
    var r := SummaryStateAsWritten([], now, bot, pages, dateTime);
    var c := ContainersOf([], now, bot, n);
    assert MasterPostsOf([], bot) == [];
    ContainersShape([], now, bot, n);
    SummaryAsWrittenFirstFive([], now, bot, pages, dateTime);
    SummaryAsWrittenRest([], now, bot, pages, dateTime);
    forall j | 0 <= j < n ensures IsMasterPost(r[j], bot, Header) <==> j < BatchGroupSize {
      assert c[j].id == j;
      if j >= BatchGroupSize {
        assert r[j] == c[j];
        PlaceholderNotBoardPost(c[j], bot);
      }
    }
    OnlyOldestAreBoardPosts(r, bot, BatchGroupSize);
  }

  /** A `'.'` message without embeds is not a board post. */
  lemma PlaceholderNotBoardPost(m: Message, bot: User)
    requires m.content == "." && m.embeds == []
    ensures !IsMasterPost(m, bot, Header)
  {
  }

  /** When only the `m` oldest messages of a channel of at most 50 are board posts, the worker finds exactly `m`. */
  lemma OnlyOldestAreBoardPosts(ms: seq<Message>, bot: User, m: nat)
    requires m <= |ms| <= DefaultFetchLimit
    requires forall j :: 0 <= j < |ms| ==> (IsMasterPost(ms[j], bot, Header) <==> j < m)
    ensures |MasterPostsOf(ms, bot)| == m
  {
    var n := |ms|;
    var fetched := Newest(ms, DefaultFetchLimit);
    var newer := fetched[..n - m];
    var older := fetched[n - m..];
    forall i | 0 <= i < |newer| ensures !MasterTest(bot, Header)(newer[i]) {
      assert newer[i] == ms[n - 1 - i];
    }
    forall i | 0 <= i < |older| ensures MasterTest(bot, Header)(older[i]) {
      assert older[i] == ms[m - 1 - i];
    }
    assert fetched == newer + older;
    FilterConcat(newer, older, MasterTest(bot, Header));
    FilterNone(newer, MasterTest(bot, Header));
    FilterKeepsAll(older, MasterTest(bot, Header));
  }

  // ---------------------------------------------------------------------
  // The second run finds the same board and rewrites the same texts

  /** The containers stay within the default fetch once the run is over. */
  predicate WithinNextFetch(ms: seq<Message>, now: int, bot: User, pages: seq<string>, dateTime: string)
  {
    forall k :: 0 <= k < |pages| ==>
      |SummaryState(ms, now, bot, pages, dateTime)| <= ContainersOf(ms, now, bot, |pages|)[k].id + DefaultFetchLimit
  }

  /** A message with the text that `r` holds under its id; its id, author, embeds and time are kept. */
  function Refreshed(r: seq<Message>): Message -> Message {
    (m: Message) => if m.id < |r| then m.(content := r[m.id].content) else m
  }

  /** The inactive notice carries the header, so a blanked post stays a board post. */
  lemma InactiveCarriesHeader(dateTime: string)
    ensures Includes(InactiveContent(dateTime), Header)
  {
    var parts := [Header + " (inactive)\n", Footer(dateTime)];
    var rest := " (inactive)\n" + "\n" + Footer(dateTime);
    assert parts[1..] == [Footer(dateTime)];
    assert JoinLines(parts[1..]) == Footer(dateTime);
    assert InactiveContent(dateTime) == JoinLines(parts) == parts[0] + "\n" + Footer(dateTime);
    assert parts[0] + "\n" + Footer(dateTime) == "" + Header + rest;
    IncludesInfix("", Header, rest);
  }

  /** An intended run changes nothing but texts, placeholders included. */
  lemma RunRetexts(ms: seq<Message>, now: int, bot: User, pages: seq<string>, dateTime: string)
    ensures var w := WithPlaceholders(ms, now, bot, |pages|); var r := SummaryState(ms, now, bot, pages, dateTime);
      |r| == |w| && forall x :: 0 <= x < |w| ==> r[x] == w[x].(content := r[x].content)
  {
    var c := ContainersOf(ms, now, bot, |pages|);
    var w := WithPlaceholders(ms, now, bot, |pages|);
    var blanks := BlankEdits(Unutilized(MasterPostsOf(ms, bot), c), dateTime);
    ApplyEditsRetexts(w, PageEdits(c, pages));
    ApplyEditsRetexts(ApplyEdits(w, PageEdits(c, pages)), blanks);
  }

  /** After a run, the newest messages are those the run started from, with their new texts. */
  lemma NewestAfterRun(ms: seq<Message>, now: int, bot: User, pages: seq<string>, dateTime: string)
    requires WellFormed(ms, now)
    ensures var w := WithPlaceholders(ms, now, bot, |pages|); var r := SummaryState(ms, now, bot, pages, dateTime);
      Newest(r, DefaultFetchLimit) == Map(Newest(w, DefaultFetchLimit), Refreshed(r))
  {
    RunRetexts(ms, now, bot, pages, dateTime);
    WithPlaceholdersWellFormed(ms, now, bot, |pages|);
    NewestRefreshed(WithPlaceholders(ms, now, bot, |pages|), SummaryState(ms, now, bot, pages, dateTime), DefaultFetchLimit);
  }

  /** Retexting a channel retexts its newest messages. */
  lemma NewestRefreshed(w: seq<Message>, r: seq<Message>, limit: nat)
    requires |r| == |w|
    requires forall x :: 0 <= x < |w| ==> w[x].id == x && r[x] == w[x].(content := r[x].content)
    ensures Newest(r, limit) == Map(Newest(w, limit), Refreshed(r))
  {
    forall i | 0 <= i < |Newest(r, limit)|
      ensures Newest(r, limit)[i] == Refreshed(r)(Newest(w, limit)[i])
    {
      assert w[|w| - 1 - i].id == |w| - 1 - i;
    }
  }

  /** With the containers within the next fetch, a run sends at most 50 placeholders. */
  lemma PlaceholdersWithinFetch(ms: seq<Message>, now: int, bot: User, pages: seq<string>, dateTime: string)
    requires WellFormed(ms, now) && WithinNextFetch(ms, now, bot, pages, dateTime)
    ensures |SummaryState(ms, now, bot, pages, dateTime)| == |ms| + Sent(ms, bot, |pages|)
    ensures Sent(ms, bot, |pages|) <= DefaultFetchLimit
  {
    var e := MasterPostsOf(ms, bot);
    SummaryPagesLand(ms, now, bot, pages, dateTime);
    ContainersShape(ms, now, bot, |pages|);
    if Sent(ms, bot, |pages|) > 0 {
      assert ContainersOf(ms, now, bot, |pages|)[|e|].id == |ms|;
    }
  }

  /** Every board post lies among the newest 50 messages of the channel it was found in. */
  lemma BoardIdsInWindow(ms: seq<Message>, now: int, bot: User)
    requires WellFormed(ms, now)
    ensures var e := MasterPostsOf(ms, bot);
      forall j :: 0 <= j < |e| ==> |ms| <= e[j].id + DefaultFetchLimit
  {
    var e := MasterPostsOf(ms, bot);
    var fetched := Newest(ms, DefaultFetchLimit);
    ExistingMasterPostsSpec(fetched, bot, Header);
    forall j | 0 <= j < |e| ensures |ms| <= e[j].id + DefaultFetchLimit {
      assert e[j] in fetched;
      var t :| 0 <= t < |fetched| && fetched[t] == e[j];
      assert fetched[t] == ms[|ms| - 1 - t];
    }
  }

  /** Every board post the run started from lies within the next fetch. */
  lemma BoardWithinNextFetch(ms: seq<Message>, now: int, bot: User, pages: seq<string>, dateTime: string)
    requires WellFormed(ms, now) && WithinNextFetch(ms, now, bot, pages, dateTime)
    ensures var e := MasterPostsOf(ms, bot); var r := SummaryState(ms, now, bot, pages, dateTime);
      forall j :: 0 <= j < |e| ==> |r| <= e[j].id + DefaultFetchLimit
  {
    var e := MasterPostsOf(ms, bot);
    PlaceholdersWithinFetch(ms, now, bot, pages, dateTime);
    if Sent(ms, bot, |pages|) == 0 {
      BoardIdsInWindow(ms, now, bot);
    } else {
      ContainersShape(ms, now, bot, |pages|);
    }
  }


  /** A run neither makes nor unmakes a board post among the messages it started from. */
  lemma KeepsBoardStatus(ms: seq<Message>, now: int, bot: User, pages: seq<string>, dateTime: string)
    requires WellFormed(ms, now)
    requires forall k :: 0 <= k < |pages| ==> Includes(pages[k], Header)
    ensures var r := SummaryState(ms, now, bot, pages, dateTime);
      forall x :: 0 <= x < |ms| ==> x < |r| && (IsMasterPost(r[x], bot, Header) <==> IsMasterPost(ms[x], bot, Header))
  {
    var e := MasterPostsOf(ms, bot);
    var c := ContainersOf(ms, now, bot, |pages|);
    var r := SummaryState(ms, now, bot, pages, dateTime);
    SummaryLeavesOthers(ms, now, bot, pages, dateTime);
    forall x | 0 <= x < |ms| ensures IsMasterPost(r[x], bot, Header) <==> IsMasterPost(ms[x], bot, Header) {
      if x in ContainerIds(c) || x in ContainerIds(e[Reused(|pages|, e)..]) {
        EditedStaysBoardPost(ms, now, bot, pages, dateTime, x);
      } else {
        assert r[x] == WithPlaceholders(ms, now, bot, |pages|)[x] == ms[x];
      }
    }
  }

  /** A message the run edits was a board post and still is one. */
  lemma EditedStaysBoardPost(ms: seq<Message>, now: int, bot: User, pages: seq<string>, dateTime: string, x: nat)
    requires WellFormed(ms, now)
    requires forall k :: 0 <= k < |pages| ==> Includes(pages[k], Header)
    requires x < |ms|
    requires var e := MasterPostsOf(ms, bot);
      x in ContainerIds(ContainersOf(ms, now, bot, |pages|)) || x in ContainerIds(e[Reused(|pages|, e)..])
    ensures var r := SummaryState(ms, now, bot, pages, dateTime);
      x < |r| && IsMasterPost(ms[x], bot, Header) && IsMasterPost(r[x], bot, Header)
  {
    var e := MasterPostsOf(ms, bot);
    var m := Reused(|pages|, e);
    var c := ContainersOf(ms, now, bot, |pages|);
    if x in ContainerIds(c) {
      var k :| 0 <= k < |pages| && ContainerIds(c)[k] == x;
      PagedStaysBoardPost(ms, now, bot, pages, dateTime, k);
    } else {
      var i :| 0 <= i < |e| - m && ContainerIds(e[m..])[i] == x;
      BlankedStaysBoardPost(ms, now, bot, pages, dateTime, m + i);
    }
  }

  /** A container that was already in the channel was a board post, and holding its page it still is one. */
  lemma PagedStaysBoardPost(ms: seq<Message>, now: int, bot: User, pages: seq<string>, dateTime: string, k: nat)
    requires WellFormed(ms, now)
    requires forall k :: 0 <= k < |pages| ==> Includes(pages[k], Header)
    requires k < |pages| && ContainersOf(ms, now, bot, |pages|)[k].id < |ms|
    ensures var x := ContainersOf(ms, now, bot, |pages|)[k].id; var r := SummaryState(ms, now, bot, pages, dateTime);
      x < |r| && IsMasterPost(ms[x], bot, Header) && IsMasterPost(r[x], bot, Header)
  {
    var e := MasterPostsOf(ms, bot);
    var c := ContainersOf(ms, now, bot, |pages|);
    WrittenContainersAreBoardPosts(ms, now, bot, pages, dateTime);
    ContainersShape(ms, now, bot, |pages|);
    assert k < Reused(|pages|, e) && c[k] == e[k];
    MasterPostsOfStore(ms, now, bot);
    ExistingMasterPostsSpec(Newest(ms, DefaultFetchLimit), bot, Header);
    assert e[k] in e;
  }

  /** A left-over post was a board post, and blanked it still is one. */
  lemma BlankedStaysBoardPost(ms: seq<Message>, now: int, bot: User, pages: seq<string>, dateTime: string, i: nat)
    requires WellFormed(ms, now)
    requires var e := MasterPostsOf(ms, bot); Reused(|pages|, e) <= i < |e|
    ensures var x := MasterPostsOf(ms, bot)[i].id; var r := SummaryState(ms, now, bot, pages, dateTime);
      x < |ms| && x < |r| && IsMasterPost(ms[x], bot, Header) && IsMasterPost(r[x], bot, Header)
  {
    var e := MasterPostsOf(ms, bot);
    SummaryLeavesOthers(ms, now, bot, pages, dateTime);
    SummaryBlanksLeftOvers(ms, now, bot, pages, dateTime);
    InactiveCarriesHeader(dateTime);
    MasterPostsOfStore(ms, now, bot);
    ExistingMasterPostsSpec(Newest(ms, DefaultFetchLimit), bot, Header);
    assert e[i] in e;
  }


  /** After a run every placeholder holds its page, so it is a board post. */
  lemma PlaceholdersBoardAfterRun(ms: seq<Message>, now: int, bot: User, pages: seq<string>, dateTime: string)
    requires WellFormed(ms, now)
    requires forall k :: 0 <= k < |pages| ==> Includes(pages[k], Header)
    ensures var r := SummaryState(ms, now, bot, pages, dateTime);
      forall x :: |ms| <= x < |r| ==> IsMasterPost(r[x], bot, Header)
  {
    var e := MasterPostsOf(ms, bot);
    var m := Reused(|pages|, e);
    var c := ContainersOf(ms, now, bot, |pages|);
    var r := SummaryState(ms, now, bot, pages, dateTime);
    WrittenContainersAreBoardPosts(ms, now, bot, pages, dateTime);
    SummaryPagesLand(ms, now, bot, pages, dateTime);
    ContainersShape(ms, now, bot, |pages|);
    forall x | |ms| <= x < |r| ensures IsMasterPost(r[x], bot, Header) {
      assert c[m + x - |ms|].id == x;
    }
  }

  /** The board posts the worker fetched before the run are still all it finds among the older messages. */
  lemma NearWindowSameBoard(ms: seq<Message>, now: int, bot: User, pages: seq<string>, dateTime: string)
    requires WellFormed(ms, now) && WithinNextFetch(ms, now, bot, pages, dateTime)
    ensures var n := Sent(ms, bot, |pages|);
      n <= DefaultFetchLimit
      && Filter(Newest(ms, DefaultFetchLimit - n), MasterTest(bot, Header)) == Filter(Newest(ms, DefaultFetchLimit), MasterTest(bot, Header))
  {
    var n := Sent(ms, bot, |pages|);
    OlderHoldNoBoardPost(ms, now, bot, pages, dateTime);
    NewestPrefix(ms, DefaultFetchLimit - n, DefaultFetchLimit);
    FilterPrefix(Newest(ms, DefaultFetchLimit), |Newest(ms, DefaultFetchLimit - n)|, MasterTest(bot, Header));
  }

  /** Dropping a tail the filter rejects does not change the filtered sequence. */
  lemma FilterPrefix(s: seq<Message>, k: nat, p: Message -> bool)
    requires k <= |s|
    requires forall i :: k <= i < |s| ==> !p(s[i])
    ensures Filter(s[..k], p) == Filter(s, p)
  {
    assert s == s[..k] + s[k..];
    FilterConcat(s[..k], s[k..], p);
    FilterNone(s[k..], p);
  }


  /** The messages the next fetch misses hold no board post. */
  lemma OlderHoldNoBoardPost(ms: seq<Message>, now: int, bot: User, pages: seq<string>, dateTime: string)
    requires WellFormed(ms, now) && WithinNextFetch(ms, now, bot, pages, dateTime)
    ensures var n := Sent(ms, bot, |pages|); var big := Newest(ms, DefaultFetchLimit);
      n <= DefaultFetchLimit
      && forall i :: |Newest(ms, DefaultFetchLimit - n)| <= i < |big| ==> !MasterTest(bot, Header)(big[i])
  {
    var n := Sent(ms, bot, |pages|);
    var big := Newest(ms, DefaultFetchLimit);
    PlaceholdersWithinFetch(ms, now, bot, pages, dateTime);
    BoardWithinNextFetch(ms, now, bot, pages, dateTime);
    ExistingMasterPostsSpec(big, bot, Header);
    forall i | |Newest(ms, DefaultFetchLimit - n)| <= i < |big| ensures !MasterTest(bot, Header)(big[i]) {
      assert big[i] == ms[|ms| - 1 - i];
    }
  }

  /** Retexted messages that keep their board status filter like the originals. */
  lemma FilterRetexted(s: seq<Message>, g: Message -> Message, bot: User)
    requires forall i :: 0 <= i < |s| ==> IsMasterPost(g(s[i]), bot, Header) == IsMasterPost(s[i], bot, Header)
    ensures Filter(Map(s, g), MasterTest(bot, Header)) == Map(Filter(s, MasterTest(bot, Header)), g)
  {
    FilterMap(s, g, MasterTest(bot, Header), MasterTest(bot, Header));
  }

  /** Retexted messages that all become board posts are all kept by the filter. */
  lemma FilterRetextedBoard(s: seq<Message>, g: Message -> Message, bot: User)
    requires forall i :: 0 <= i < |s| ==> IsMasterPost(g(s[i]), bot, Header)
    ensures Filter(Map(s, g), MasterTest(bot, Header)) == Map(s, g)
  {
    FilterKeepsAll(Map(s, g), MasterTest(bot, Header));
  }

  /** The placeholders, newest first, are board posts once the run is over. */
  lemma PlaceholdersStayBoard(ms: seq<Message>, now: int, bot: User, pages: seq<string>, dateTime: string)
    requires WellFormed(ms, now)
    requires forall k :: 0 <= k < |pages| ==> Includes(pages[k], Header)
    ensures var n := Sent(ms, bot, |pages|); var r := SummaryState(ms, now, bot, pages, dateTime);
      var front := Newest(Placeholders(|ms|, n, bot, now), n);
      Filter(Map(front, Refreshed(r)), MasterTest(bot, Header)) == Map(front, Refreshed(r))
  {
    var n := Sent(ms, bot, |pages|);
    var r := SummaryState(ms, now, bot, pages, dateTime);
    var w := WithPlaceholders(ms, now, bot, |pages|);
    var front := Newest(Placeholders(|ms|, n, bot, now), n);
    RunRetexts(ms, now, bot, pages, dateTime);
    PlaceholdersBoardAfterRun(ms, now, bot, pages, dateTime);
    forall i | 0 <= i < |front| ensures IsMasterPost(Refreshed(r)(front[i]), bot, Header) {
      assert front[i] == w[|ms| + n - 1 - i];
    }
    FilterRetextedBoard(front, Refreshed(r), bot);
  }

  /** The messages the run started from keep their board status under their new texts. */
  lemma OlderKeepStatus(ms: seq<Message>, now: int, bot: User, pages: seq<string>, dateTime: string, limit: nat)
    requires WellFormed(ms, now)
    requires forall k :: 0 <= k < |pages| ==> Includes(pages[k], Header)
    ensures var r := SummaryState(ms, now, bot, pages, dateTime); var near := Newest(ms, limit);
      Filter(Map(near, Refreshed(r)), MasterTest(bot, Header)) == Map(Filter(near, MasterTest(bot, Header)), Refreshed(r))
  {
    SummaryLeavesOthers(ms, now, bot, pages, dateTime);
    KeepsBoardStatus(ms, now, bot, pages, dateTime);
    NewestStatusKept(ms, now, SummaryState(ms, now, bot, pages, dateTime), bot, limit);
  }

  /** Retexting messages without changing their board status filters their newest ones alike. */
  lemma NewestStatusKept(ms: seq<Message>, now: int, r: seq<Message>, bot: User, limit: nat)
    requires WellFormed(ms, now) && |ms| <= |r|
    requires forall x :: 0 <= x < |ms| ==> r[x] == ms[x].(content := r[x].content)
    requires forall x :: 0 <= x < |ms| ==> (IsMasterPost(r[x], bot, Header) <==> IsMasterPost(ms[x], bot, Header))
    ensures var near := Newest(ms, limit);
      Filter(Map(near, Refreshed(r)), MasterTest(bot, Header)) == Map(Filter(near, MasterTest(bot, Header)), Refreshed(r))
  {
    var near := Newest(ms, limit);
    forall i | 0 <= i < |near|
      ensures IsMasterPost(Refreshed(r)(near[i]), bot, Header) == IsMasterPost(near[i], bot, Header)
    {
      assert near[i] == ms[|ms| - 1 - i];
    }
    FilterRetexted(near, Refreshed(r), bot);
  }


  /** After a run the newest messages are the placeholders, newest first, then the older messages, all with their new texts. */
  lemma NewestAfterRunSplit(ms: seq<Message>, now: int, bot: User, pages: seq<string>, dateTime: string)
    requires WellFormed(ms, now) && Sent(ms, bot, |pages|) <= DefaultFetchLimit
    ensures var n := Sent(ms, bot, |pages|); var r := SummaryState(ms, now, bot, pages, dateTime);
      Newest(r, DefaultFetchLimit)
      == Map(Newest(Placeholders(|ms|, n, bot, now), n), Refreshed(r)) + Map(Newest(ms, DefaultFetchLimit - n), Refreshed(r))
  {
    var n := Sent(ms, bot, |pages|);
    var ph := Placeholders(|ms|, n, bot, now);
    var r := SummaryState(ms, now, bot, pages, dateTime);
    NewestSplit(ms, ph, DefaultFetchLimit);
    NewestAfterRun(ms, now, bot, pages, dateTime);
    assert WithPlaceholders(ms, now, bot, |pages|) == ms + ph;
    MapConcat(Newest(ph, n), Newest(ms, DefaultFetchLimit - n), Refreshed(r));
  }

  /** Filtering a window made of two retexted parts, when each part filters as stated. */
  lemma FilterWindow(window: seq<Message>, front: seq<Message>, near: seq<Message>, g: Message -> Message, p: Message -> bool)
    requires window == Map(front, g) + Map(near, g)
    requires Filter(Map(front, g), p) == Map(front, g)
    requires Filter(Map(near, g), p) == Map(Filter(near, p), g)
    ensures Filter(window, p) == Map(front + Filter(near, p), g)
  {
    FilterConcat(Map(front, g), Map(near, g), p);
    MapConcat(front, Filter(near, p), g);
  }

  /**
   * The board posts among the newest messages after a run: the placeholders,
   * newest first, then the board posts fetched before the run, all with
   * their new texts.
   */
  lemma BoardWindowAfterRun(ms: seq<Message>, now: int, bot: User, pages: seq<string>, dateTime: string)
    requires WellFormed(ms, now) && WithinNextFetch(ms, now, bot, pages, dateTime)
    requires forall k :: 0 <= k < |pages| ==> Includes(pages[k], Header)
    ensures var n := Sent(ms, bot, |pages|); var r := SummaryState(ms, now, bot, pages, dateTime);
      Filter(Newest(r, DefaultFetchLimit), MasterTest(bot, Header))
      == Map(Newest(Placeholders(|ms|, n, bot, now), n) + Filter(Newest(ms, DefaultFetchLimit), MasterTest(bot, Header)), Refreshed(r))
  {
    NearWindowSameBoard(ms, now, bot, pages, dateTime);
    WindowAfterRun(ms, now, bot, pages, dateTime);
  }

  /**
   * The board posts among the newest messages after a run that sends at most
   * 50 placeholders: the placeholders, newest first, then the board posts
   * among the older messages that the window still reaches.
   */
  lemma WindowAfterRun(ms: seq<Message>, now: int, bot: User, pages: seq<string>, dateTime: string)
    requires WellFormed(ms, now) && Sent(ms, bot, |pages|) <= DefaultFetchLimit
    requires forall k :: 0 <= k < |pages| ==> Includes(pages[k], Header)
    ensures var n := Sent(ms, bot, |pages|); var r := SummaryState(ms, now, bot, pages, dateTime);
      Filter(Newest(r, DefaultFetchLimit), MasterTest(bot, Header))
      == Map(Newest(Placeholders(|ms|, n, bot, now), n) + Filter(Newest(ms, DefaultFetchLimit - n), MasterTest(bot, Header)), Refreshed(r))
  {
    var n := Sent(ms, bot, |pages|);
    var r := SummaryState(ms, now, bot, pages, dateTime);
    var front := Newest(Placeholders(|ms|, n, bot, now), n);
    var near := Newest(ms, DefaultFetchLimit - n);
    var g, mt := Refreshed(r), MasterTest(bot, Header);
    assert Newest(r, DefaultFetchLimit) == Map(front, g) + Map(near, g) by {
      NewestAfterRunSplit(ms, now, bot, pages, dateTime);
    }
    assert Filter(Map(front, g), mt) == Map(front, g) by {
      PlaceholdersStayBoard(ms, now, bot, pages, dateTime);
    }
    assert Filter(Map(near, g), mt) == Map(Filter(near, mt), g) by {
      OlderKeepStatus(ms, now, bot, pages, dateTime, DefaultFetchLimit - n);
    }
    FilterWindow(Newest(r, DefaultFetchLimit), front, near, g, mt);
  }

  /** Placeholders are newer than every fetched message, so they sort after the board posts, oldest first. */
  lemma PlaceholdersSortLast(ms: seq<Message>, now: int, bot: User, n: nat)
    requires WellFormed(ms, now)
    ensures var ph := Placeholders(|ms|, n, bot, now);
      SortBy(Newest(ph, n) + Filter(Newest(ms, DefaultFetchLimit), MasterTest(bot, Header)), CreatedAt)
      == MasterPostsOf(ms, bot) + ph
  {
    var ph := Placeholders(|ms|, n, bot, now);
    var front := Newest(ph, n);
    var f := Filter(Newest(ms, DefaultFetchLimit), MasterTest(bot, Header));
    assert forall i :: 0 <= i < |f| ==> CreatedAt(f[i]) <= now by {
      FetchedFromStore(ms, now);
      FilterMembers(Newest(ms, DefaultFetchLimit), MasterTest(bot, Header));
      forall i | 0 <= i < |f| ensures CreatedAt(f[i]) <= now {
        assert f[i] in f;
      }
    }
    assert forall i :: 0 <= i < |front| ==> front[i] == ph[n - 1 - i] && CreatedAt(front[i]) == now + n - i;
    SortByLargerFront(front, f, ph, CreatedAt);
  }


  /** After a run the worker finds the board posts it started from, then the placeholders, oldest first, with their new texts. */
  lemma FoundAfterRun(ms: seq<Message>, now: int, bot: User, pages: seq<string>, dateTime: string)
    requires WellFormed(ms, now) && WithinNextFetch(ms, now, bot, pages, dateTime)
    requires forall k :: 0 <= k < |pages| ==> Includes(pages[k], Header)
    ensures var r := SummaryState(ms, now, bot, pages, dateTime);
      MasterPostsOf(r, bot)
      == Map(MasterPostsOf(ms, bot) + Placeholders(|ms|, Sent(ms, bot, |pages|), bot, now), Refreshed(r))
  {
    var n := Sent(ms, bot, |pages|);
    var r := SummaryState(ms, now, bot, pages, dateTime);
    var f := Filter(Newest(ms, DefaultFetchLimit), MasterTest(bot, Header));
    BoardWindowAfterRun(ms, now, bot, pages, dateTime);
    SortByMap(Newest(Placeholders(|ms|, n, bot, now), n) + f, Refreshed(r), CreatedAt);
    PlaceholdersSortLast(ms, now, bot, n);
  }

  /** Before a run, the containers are the first board posts followed by the placeholders it sends. */
  lemma ContainersArePrefix(ms: seq<Message>, now: int, bot: User, count: nat)
    requires WellFormed(ms, now)
    ensures var all := MasterPostsOf(ms, bot) + Placeholders(|ms|, Sent(ms, bot, count), bot, now);
      count <= |all| && ContainersOf(ms, now, bot, count) == all[..count]
  {
    var e := MasterPostsOf(ms, bot);
    var ph := Placeholders(|ms|, Sent(ms, bot, count), bot, now);
    var c := ContainersOf(ms, now, bot, count);
    ContainersShape(ms, now, bot, count);
    forall k | 0 <= k < count ensures c[k] == (e + ph)[k] {
      if k >= Reused(count, e) {
        assert (e + ph)[k] == ph[k - |e|];
      }
    }
  }

  /** A second run sends no placeholder and takes the first run's containers. */
  lemma RerunSameContainers(ms: seq<Message>, now: int, later: int, bot: User, pages: seq<string>, dateTime: string)
    requires WellFormed(ms, now) && WithinNextFetch(ms, now, bot, pages, dateTime)
    requires forall k :: 0 <= k < |pages| ==> Includes(pages[k], Header)
    ensures var r := SummaryState(ms, now, bot, pages, dateTime); var c := ContainersOf(ms, now, bot, |pages|);
      && Sent(r, bot, |pages|) == 0
      && ContainersOf(r, later, bot, |pages|) == Map(c, Refreshed(r))
  {
    var r := SummaryState(ms, now, bot, pages, dateTime);
    var e2 := MasterPostsOf(r, bot);
    assert |pages| <= |e2| && e2[..|pages|] == Map(ContainersOf(ms, now, bot, |pages|), Refreshed(r)) by {
      var all := MasterPostsOf(ms, bot) + Placeholders(|ms|, Sent(ms, bot, |pages|), bot, now);
      FoundAfterRun(ms, now, bot, pages, dateTime);
      ContainersArePrefix(ms, now, bot, |pages|);
      assert e2[..|pages|] == Map(all[..|pages|], Refreshed(r));
    }
    assert ContainerList(|r|, later, bot, |pages|, e2) == e2[..|pages|];
    ExistingMasterPostsSpec(Newest(r, DefaultFetchLimit), bot, Header);
    SortByIdentity(e2[..|pages|], CreatedAt);
  }


  /** A second run blanks the same left-over posts. */
  lemma RerunSameLeftOvers(ms: seq<Message>, now: int, later: int, bot: User, pages: seq<string>, dateTime: string)
    requires WellFormed(ms, now) && WithinNextFetch(ms, now, bot, pages, dateTime)
    requires forall k :: 0 <= k < |pages| ==> Includes(pages[k], Header)
    ensures var r := SummaryState(ms, now, bot, pages, dateTime); var c := ContainersOf(ms, now, bot, |pages|);
      Unutilized(MasterPostsOf(r, bot), ContainersOf(r, later, bot, |pages|))
      == Map(Unutilized(MasterPostsOf(ms, bot), c), Refreshed(r))
  {
    var e := MasterPostsOf(ms, bot);
    var ph := Placeholders(|ms|, Sent(ms, bot, |pages|), bot, now);
    var r := SummaryState(ms, now, bot, pages, dateTime);
    var c := ContainersOf(ms, now, bot, |pages|);
    var ids := ContainerIds(c);
    FoundAfterRun(ms, now, bot, pages, dateTime);
    RerunSameContainers(ms, now, later, bot, pages, dateTime);
    assert ContainerIds(Map(c, Refreshed(r))) == ids;
    FilterMap(e + ph, Refreshed(r), NotAmong(ids), NotAmong(ids));
    FilterConcat(e, ph, NotAmong(ids));
    PlaceholdersAreContainers(ms, now, bot, |pages|);
  }

  /** Every placeholder a run sends is one of its containers, so none is left over. */
  lemma PlaceholdersAreContainers(ms: seq<Message>, now: int, bot: User, count: nat)
    requires WellFormed(ms, now)
    ensures var ph := Placeholders(|ms|, Sent(ms, bot, count), bot, now);
      Filter(ph, NotAmong(ContainerIds(ContainersOf(ms, now, bot, count)))) == []
  {
    var e := MasterPostsOf(ms, bot);
    var ph := Placeholders(|ms|, Sent(ms, bot, count), bot, now);
    var c := ContainersOf(ms, now, bot, count);
    var ids := ContainerIds(c);
    if |ph| > 0 {
      assert c == e + ph by {
        ContainersArePrefix(ms, now, bot, count);
        assert |e + ph| == count;
      }
      forall j | 0 <= j < |ph| ensures !NotAmong(ids)(ph[j]) {
        assert ids[|e| + j] == ph[j].id;
      }
    }
    FilterNone(ph, NotAmong(ids));
  }


  /** Edits aimed by id are the same for refreshed messages. */
  lemma EditsOfRefreshed(c: seq<Message>, pages: seq<string>, posts: seq<Message>, r: seq<Message>, dateTime: string)
    requires |pages| <= |c|
    ensures PageEdits(Map(c, Refreshed(r)), pages) == PageEdits(c, pages)
    ensures BlankEdits(Map(posts, Refreshed(r)), dateTime) == BlankEdits(posts, dateTime)
  {
  }

  /**
   * With the containers within the next fetch and pages that carry the
   * header, a second intended run with the same pages, at any later time,
   * takes the same containers and leaves the channel exactly as it found it.
   */
  lemma SummaryRerunKeepsChannel(ms: seq<Message>, now: int, later: int, bot: User, pages: seq<string>, dateTime: string)
    requires WellFormed(ms, now) && WithinNextFetch(ms, now, bot, pages, dateTime)
    requires forall k :: 0 <= k < |pages| ==> Includes(pages[k], Header)
    ensures var r := SummaryState(ms, now, bot, pages, dateTime);
      && ContainerIds(ContainersOf(r, later, bot, |pages|)) == ContainerIds(ContainersOf(ms, now, bot, |pages|))
      && SummaryState(r, later, bot, pages, dateTime) == r
  {
    var r := SummaryState(ms, now, bot, pages, dateTime);
    var c := ContainersOf(ms, now, bot, |pages|);
    var w := WithPlaceholders(ms, now, bot, |pages|);
    var leftOver := Unutilized(MasterPostsOf(ms, bot), c);
    RerunSameContainers(ms, now, later, bot, pages, dateTime);
    RerunSameLeftOvers(ms, now, later, bot, pages, dateTime);
    EditsOfRefreshed(c, pages, leftOver, r, dateTime);
    assert WithPlaceholders(r, later, bot, |pages|) == r;
    ReapplyEdits(w, PageEdits(c, pages), BlankEdits(leftOver, dateTime));
  }

  // ---------------------------------------------------------------------
  // sendSummaryPosts

  /** A batch of text edits sent one after the other. */
  method EditEach(channel: TextChannel, edits: seq<EditOp>)
    requires channel.Valid()
    modifies channel
    ensures channel.Valid() && channel.now == old(channel.now)
    ensures channel.messages == ApplyEdits(old(channel.messages), edits)
  {
    var i := 0;
    while i < |edits|
      invariant 0 <= i <= |edits|
      invariant channel.Valid() && channel.now == old(channel.now)
      invariant channel.messages == ApplyEdits(old(channel.messages), edits[..i])
    {
      channel.Edit(edits[i].id, edits[i].content);
      assert edits[..i + 1][..i] == edits[..i];
      i := i + 1;
    }
    assert edits[..i] == edits;
  }

  /**
   * The page edits as the source sends them: call k of the executor gets
   * page k and the index k mod 5, and edits the container at that index.
   */
  method EditPagesAsWritten(channel: TextChannel, containers: seq<Message>, pages: seq<string>)
    requires channel.Valid() && |pages| <= |containers|
    modifies channel
    ensures channel.Valid() && channel.now == old(channel.now)
    ensures channel.messages == ApplyEdits(old(channel.messages), PageEditsAsWritten(containers, pages))
  {
    ghost var edits := PageEditsAsWritten(containers, pages);
    var k := 0;
    while k < |pages|
      invariant 0 <= k <= |pages|
      invariant channel.Valid() && channel.now == old(channel.now)
      invariant channel.messages == ApplyEdits(old(channel.messages), edits[..k])
    {
      var i := k % BatchGroupSize;  // the index the executor hands the callback
      assert edits[k] == EditOp(containers[i].id, pages[k]);
      channel.Edit(containers[i].id, pages[k]);
      assert edits[..k + 1][..k] == edits[..k];
      k := k + 1;
    }
    assert edits[..k] == edits;
  }

  /**
   * Writing the rendered pages as the source does: find the earlier board
   * posts, gather one container per page, write page k into container k mod 5,
   * and blank the earlier posts left over.
   */
  method PublishPagesAsWritten(channel: TextChannel, bot: User, pages: seq<string>, dateTime: string)
    requires channel.Valid()
    modifies channel
    ensures channel.Valid() && channel.now == old(channel.now) + Sent(old(channel.messages), bot, |pages|)
    ensures channel.messages == SummaryStateAsWritten(old(channel.messages), old(channel.now), bot, pages, dateTime)
  {
    var existing := ExistingMasterPosts(channel.Fetch(), bot, Header);
    ghost var before := old(channel.messages);
    assert existing == MasterPostsOf(before, bot);
    var containers := GetMessageContainers(channel, bot, |pages|, existing);
    assert containers == ContainersOf(before, old(channel.now), bot, |pages|);
    assert channel.messages == WithPlaceholders(before, old(channel.now), bot, |pages|);
    EditPagesAsWritten(channel, containers, pages);
    var unutilized := Unutilized(existing, containers);
    if |unutilized| > 0 {
      EditEach(channel, BlankEdits(unutilized, dateTime));
    }
  }

  /** The same, with page k written into container k. */
  method PublishPages(channel: TextChannel, bot: User, pages: seq<string>, dateTime: string)
    requires channel.Valid()
    modifies channel
    ensures channel.Valid() && channel.now == old(channel.now) + Sent(old(channel.messages), bot, |pages|)
    ensures channel.messages == SummaryState(old(channel.messages), old(channel.now), bot, pages, dateTime)
  {
    var existing := ExistingMasterPosts(channel.Fetch(), bot, Header);
    ghost var before := old(channel.messages);
    assert existing == MasterPostsOf(before, bot);
    var containers := GetMessageContainers(channel, bot, |pages|, existing);
    assert containers == ContainersOf(before, old(channel.now), bot, |pages|);
    assert channel.messages == WithPlaceholders(before, old(channel.now), bot, |pages|);
    EditEach(channel, PageEdits(containers, pages));
    var unutilized := Unutilized(existing, containers);
    if |unutilized| > 0 {
      EditEach(channel, BlankEdits(unutilized, dateTime));
    }
  }

  /** One refresh of the board as the source writes it: render the pages, then write them with the group-local index. */
  method SendSummaryPosts(channel: TextChannel, bot: User, guildChannels: seq<GuildChannel>,
                          fromNow: int -> string, hour: string, dateTime: string)
    returns (pages: seq<string>)
    requires channel.Valid()
    modifies channel
    ensures channel.Valid() && channel.now == old(channel.now) + Sent(old(channel.messages), bot, |pages|)
    ensures pages == MessageContents(WorkerPostsInfo(guildChannels, fromNow), hour, dateTime)
    ensures channel.messages == SummaryStateAsWritten(old(channel.messages), old(channel.now), bot, pages, dateTime)
  {
    pages := RenderPages(WorkerPostsInfo(guildChannels, fromNow), hour, dateTime);
    PublishPagesAsWritten(channel, bot, pages, dateTime);
  }

  /** The same refresh with page k written into container k. */
  method SendSummaryPostsCorrected(channel: TextChannel, bot: User, guildChannels: seq<GuildChannel>,
                                   fromNow: int -> string, hour: string, dateTime: string)
    returns (pages: seq<string>)
    requires channel.Valid()
    modifies channel
    ensures channel.Valid() && channel.now == old(channel.now) + Sent(old(channel.messages), bot, |pages|)
    ensures pages == MessageContents(WorkerPostsInfo(guildChannels, fromNow), hour, dateTime)
    ensures channel.messages == SummaryState(old(channel.messages), old(channel.now), bot, pages, dateTime)
  {
    pages := RenderPages(WorkerPostsInfo(guildChannels, fromNow), hour, dateTime);
    PublishPages(channel, bot, pages, dateTime);
  }
}
