# Bounty board — a Dafny model

The bounty board is a Discord bot that serves one guild. It does three things:

1. Scans the guild for "planner" channels (text channels whose name contains `-planner-`).
2. In each planner channel, walks the message history back to the channel's first message, the "main post" of a raid or activity.
3. Reads each main post's title, the time after a `When:` line, its commander and its channel.

It then publishes a summary in a board channel. There are two revisions of the publisher:

- **The older one** (`postManager.js`) keeps one rich embed. It has five embed fields per activity. It edits the embed in place when the bot's earlier board post exists, and sends a new post otherwise.
- **The worker one** (`worker/postManager.js`) renders plain-text pages of five activities each. It reuses the bot's earlier board messages as page "containers". It sends "." placeholders when it needs more containers. It replaces the text of any left-over board message with an "(inactive)" notice.

Both revisions run their channel scans through a batch executor (`utils.js`). The executor runs a callback over the items five at a time, waits between groups, and keeps only the groups that produced something.

The bot's entry point (`index.js`) listens for messages. When a message by someone else contains the bot's id anywhere in its text and matches the install pattern (`<`, a run of digits with optional `@`, `$` and `!` before it, `>`, whitespace, then `install` in any case), it records the channel in the installation table. The pattern accepts a mention of any id, so the two tests are independent. It replies according to whether the entry is new, already enabled, or disabled.

## Layout

**Shared building blocks**

| file | module | what it holds |
|---|---|---|
| `wrappers.dfy` | `Wrappers` | `Option`. |
| `lodash.dfy` | `Lodash` | The lodash helpers the code relies on, with their laws: `map`, `filter`, `flatten`, `chunk`, `compact`, the stable `sortBy`, and `trimEnd`. |
| `strings.dfy` | `JsStrings` | `split('\n')` and `join('\n')` with their round trips, `includes`, ASCII case-insensitive comparison, and decimal rendering of ids. |
| `discord.dfy` | `Discord` | Users, messages, embeds and guild channels as values. The board channel is a `TextChannel` class: `send` appends a message, `edit` updates one in place. |

**Modelled source files**

| file | module | what it holds |
|---|---|---|
| `utils.dfy` | `Utils` | `batchPromiseAll` as a loop, against a functional specification. |
| `planner.dfy` | `Planner` | The history walk, channel selection, the `When` regular expression and post parsing. Both revisions share these. |
| `worker_pages.dfy` | `WorkerPages` | The worker revision's markdown cleaner, page layout and pagination. |
| `worker_post_manager.dfy` | `WorkerPostManager` | The worker revision's board messages, containers, page edits and blanking. This covers the code as written and the corrected edit plan. |
| `post_manager.dfy` | `PostManager` | The older revision's trailing-markdown trim, embed and edit-or-send. |
| `index.dfy` | `Index` | The install-command expression, the installation table and the message handler. |

Message ids in the board channel are the messages' positions: a sent message gets the next id, as snowflakes grow with time. Time strings (`dayjs` formatting in the CET/CEST zone, "x hours ago") are parameters of the model.

## Model

| member | source | states |
|---|---|---|
| Lodash.FilterMembers | worker/postManager.js:33-36 | An element survives `_.filter` exactly when it was in the input and satisfies the predicate. |
| Lodash.ChunkFlatten | worker/postManager.js:77-78 | Chunking loses and reorders nothing: flattening the chunks gives back the input. |
| Lodash.ChunkShape | worker/postManager.js:77-78 | There are ceil(N/size) chunks. Each holds between 1 and size elements, and every chunk but the last is full. |
| Lodash.ChunkAt | utils.js:12-16 | Element k lands in chunk k / size, at place k mod size. |
| Lodash.SortByStable | worker/postManager.js:164-165 | `_.sortBy` keeps the input order among elements with equal keys. |
| Lodash.SortByPermutes | worker/postManager.js:164-165 | `_.sortBy` returns a permutation of its input, sorted by the key. |
| Lodash.TrimEnd | postManager.js:146 | `_.trimEnd(s, chars)` is a prefix of s. What it removed is all in chars, and what it kept does not end in one of them. |
| JsStrings.SplitLines | worker/postManager.js:167 | `split('\n')` gives at least one piece, and no piece holds a line feed. |
| JsStrings.SplitThenJoin | worker/postManager.js:167 | Joining the pieces of a split with line feeds gives back the text. |
| JsStrings.JoinThenSplit | worker/postManager.js:101 | A general law of `join('\n')`, the partner of SplitThenJoin: splitting a join of line-free pieces gives back the pieces. The page joined here does not meet it, because its commander lines end in a line feed. |
| JsStrings.FirstLine | worker/postManager.js:175 | The first piece of a split is the text up to its first line feed, or the whole text. |
| JsStrings.NatToString | index.js:31 | The decimal rendering of an id is a non-empty string of digits. |
| JsStrings.NatToStringValue | index.js:31 | The decimal rendering of n denotes n, and has no leading zero unless n is 0. |
| JsStrings.NatToStringInjective | index.js:31 | Distinct ids are rendered as distinct strings. |
| Discord.ApplyEditsAt | worker/postManager.js:109-112 | After a batch of text edits, a message carries the text of the last edit aimed at it. Messages with no edit are unchanged. |
| Discord.LastEditDistinct | worker/postManager.js:109-112 | When every edit aims at a different message, each message's last edit is its own. |
| Discord.TextChannel.Send | worker/postManager.js:49 | Sending appends one message with the next id and the sender. The channel's clock moves on one tick and stamps it, so it is strictly newer than every earlier message. |
| Discord.TextChannel.Edit | worker/postManager.js:111 | Editing replaces the text of the message with that id and nothing else. An unknown id changes nothing. |
| Discord.TextChannel.EditEmbed | postManager.js:74 | Editing with an embed replaces the embed of the message with that id, keeps its text, and leaves every other message alone. |
| Utils.BatchPromiseAll | utils.js:11-28 | The result is the flattened output of the groups in which some result is truthy. The callback is called once per item, in order, with the item and its index within its group of five. There is one wait between consecutive groups and none after the last. |
| Utils.InvocationsAt | utils.js:15-16 | Item k is passed to the callback with index k mod group size, not k. |
| Utils.AllTruthyKeepsEverything | utils.js:16-27 | When every result is truthy, the executor returns every result in input order. |
| Utils.CompactIgnoresDroppedGroups | utils.js:17-19 | Dropping all-falsy groups loses nothing once the falsy results are compacted away. |
| Planner.LeadingRun | worker/postManager.js:162 | The longest prefix whose characters all satisfy the predicate: every character in it does, and the next one does not. |
| Planner.WhenTimeSound | worker/postManager.js:162 | Every capture comes from a match of the `When` expression: leading emphasis, `when` in any case, one or more separators, then a non-empty rest without line terminators. The capture is what the greedy separator run leaves. |
| Planner.WhenTimeComplete | worker/postManager.js:162 | Every line the expression matches yields a capture. |
| Planner.FirstWhenLine | worker/postManager.js:169-171 | `_.find` gives the first matching line: it matches, and no earlier line does. None means no line matches. |
| Planner.GetLastMessageFromChannel | worker/postManager.js:127-140 | The walk returns the oldest message of the history, before the cursor. It returns nothing exactly when the first fetch is empty. It makes ceil(remaining/100)+1 fetches. |
| Planner.SelectedChannelsSpec | worker/postManager.js:144-153 | The scanned channels are exactly the planner channels, in cache order. The last-message filter drops nothing further. |
| Planner.ChannelPost | worker/postManager.js:155-158 | A channel's post is its oldest message, and there is none exactly when the history is empty. |
| Planner.SourcePostsSpec | worker/postManager.js:155-165 | The posts are exactly the main posts of the non-empty planner channels, one per channel. They are sorted by channel position, and ties keep cache order. |
| Planner.ParsePostSpec | worker/postManager.js:166-178 | The title is the body up to its first line feed. `when` is absent exactly when no line matches; otherwise it is the cleaned capture of the first matching line. Commander and channel are the mentions. |
| Planner.PostsInfoSpec | worker/postManager.js:142-188 | One record per planner channel that has a message, counted and each found. Records are ordered by channel position, and ties keep guild-cache order. Record i is the parse of its channel's oldest message, with that message's author and channel mentions. |
| Planner.WhenText | worker/postManager.js:93 | An absent or empty time shows as `unknown`; any other time shows as itself. |
| Planner.Pluralize | worker/postManager.js:85 | `activity` exactly for one, `activities` otherwise. |
| WorkerPages.StripMarkdown | worker/postManager.js:193 | The cleaned text holds no `*`, `_` or `~`, and is no longer than the input. |
| WorkerPages.StripMarkdownIsFilter | worker/postManager.js:193 | Cleaning keeps every other character, in order. |
| WorkerPages.StripMarkdownIdempotent | worker/postManager.js:193 | Cleaning twice is cleaning once. |
| WorkerPages.StripMarkdownConcat | worker/postManager.js:193 | Cleaning distributes over concatenation. |
| WorkerPages.WorkerWhenIsClean | worker/postManager.js:173-174 | No time the worker reports carries a markdown character. |
| WorkerPages.BuildPage | worker/postManager.js:80-101 | The pushed array is the page's lines: the head, five lines per record, and the footer. |
| WorkerPages.RenderPage | worker/postManager.js:80-102 | The text of one page is its pushed lines joined with line feeds. |
| WorkerPages.PageLayout | worker/postManager.js:82-99 | A page has 4 + 5n lines: time banner, title, description, each record's five lines at place 3+5i, and the footer last. |
| WorkerPages.TitleCounterIff | worker/postManager.js:82-86 | The `(k of n)` counter shows exactly when there is not exactly one page. |
| WorkerPages.RenderPages | worker/postManager.js:77-103 | The message contents are the pages, rendered and joined with line feeds, one per chunk. |
| WorkerPages.PaginationSpec | worker/postManager.js:77-78 | There are ceil(N/5) pages, none for no records. They keep the records in order, hold five each except the last, and put record k at place k mod 5 of page k / 5. |
| WorkerPages.EmptyDescriptionUnused | worker/postManager.js:81 | Every page has a record, so the "no planned raids" description never appears. |
| WorkerPostManager.ExistingMasterPostsSpec | worker/postManager.js:28-41 | The board messages are exactly the fetched messages by the bot that have an embed or contain the header. They are ordered by creation time, oldest first, and ties keep the fetch order. |
| WorkerPostManager.MasterPostsOfStore | worker/postManager.js:28-41 | Over a channel history, the board messages have distinct ids, each is the message the channel holds under its id, and none is newer than the clock. They are sorted by creation time. Messages created at the same moment keep the fetch order, newest first (see ExistingMasterPostsSpec), so the result is not necessarily sorted by id. |
| WorkerPostManager.GetMessageContainers | worker/postManager.js:43-57 | The containers are the first `count` existing board messages plus one "." placeholder per missing one, sorted by creation time. The channel grows by exactly those placeholders, and the clock moves on one tick per placeholder. |
| WorkerPostManager.ContainersInOrder | worker/postManager.js:55 | Sorting the containers by creation time keeps reused messages before new placeholders. |
| WorkerPostManager.ContainersShape | worker/postManager.js:43-57 | There are as many containers as pages. Each is a reused board message or a new "." placeholder by the bot. Placeholder i is stamped i+1 ticks after the clock. |
| WorkerPostManager.ContainersInChannel | worker/postManager.js:43-57 | The containers have distinct ids, and each is the message the channel holds under its id. |
| WorkerPostManager.UnutilizedIsTail | worker/postManager.js:116-117 | The unused board messages are exactly those beyond the page count. |
| WorkerPostManager.PageEditsFollowCalls | worker/postManager.js:109-112 | The as-written edit plan is what the batch executor's calls produce: page k goes to container k mod 5. |
| WorkerPostManager.SummaryPagesLand | worker/postManager.js:105-112 | With page k edited into container k, every container ends with its page. The channel grows only by the placeholders. |
| WorkerPostManager.SummaryBlanksLeftOvers | worker/postManager.js:116-124 | Every board message beyond the page count ends with the "(inactive)" notice. |
| WorkerPostManager.SummaryLeavesOthers | worker/postManager.js:105-124 | Messages that are neither containers nor left-overs are untouched, and no message changes anything but its text. |
| WorkerPostManager.LastEditModular | worker/postManager.js:109-112 | Under the as-written plan, container j < 5 ends with the last page congruent to j mod 5. |
| WorkerPostManager.SummaryAsWrittenFirstFive | worker/postManager.js:109-112 | As written, container j < 5 shows page j + 5·floor((P−1−j)/5), the last page congruent to j. |
| WorkerPostManager.SummaryAsWrittenRest | worker/postManager.js:109-112 | As written, container j ≥ 5 is never edited and keeps its old text. |
| WorkerPostManager.SummaryAsWrittenBlanksLeftOvers | worker/postManager.js:116-124 | As written, for any page count, every board message beyond the page count still ends with the "(inactive)" notice. |
| WorkerPostManager.SummaryAsWrittenLeavesOthers | worker/postManager.js:105-124 | As written, for any page count, messages that are neither containers nor left-overs are untouched, and no message changes anything but its text. |
| WorkerPostManager.AsWrittenAgreesUpToFive | worker/postManager.js:109-112 | With five pages or fewer, the code as written and the corrected plan give the same channel. |
| WorkerPostManager.SixPagesMisplaced | worker/postManager.js:109-112 | With six pages, the code as written puts page 6 in container 1 and leaves container 6 untouched. The corrected plan puts page 1 there and page 6 in container 6. |
| WorkerPages.PagesCarryHeader | worker/postManager.js:83-85 | Every rendered page includes the board header on its title line, so a page the worker has written counts as a board message on its next run. |
| WorkerPostManager.AfterPagesAndBlanksWellFormed | worker/postManager.js:105-124 | Whatever page edits a run makes, the channel it leaves is well-formed at the clock moved on by its placeholders. A later run may start from it. |
| WorkerPostManager.BoardPostsFound | worker/postManager.js:28-41 | Board messages at distinct ids within the newest 50 are all found: the worker sees at least as many board messages as there are such ids. |
| WorkerPostManager.SummaryRerunSendsNothing | worker/postManager.js:43-57 | With page k in container k, pages that carry the header, and containers still among the newest 50 messages, the next run finds a board message for every page. It sends no placeholder, so the run creates no duplicates. The next run with the same pages, at the clock the first one left, leaves the channel exactly as it found it. |
| WorkerPostManager.SummaryRerunKeepsChannel | worker/postManager.js:105-124 | Under the same conditions, a second run with the same pages at any later clock takes containers with the same ids and leaves the channel exactly as the first run left it. |
| WorkerPostManager.FoundAfterRun | worker/postManager.js:28-41 | After a run, the worker finds the board messages the run started from, then the placeholders it sent, oldest first, each with its new text. |
| WorkerPostManager.BoardWindowAfterRun | worker/postManager.js:28-36 | After a run, the board messages among the newest 50 are the placeholders, newest first, followed by the board messages fetched before the run, each with its new text. |
| WorkerPostManager.PlaceholdersSortLast | worker/postManager.js:37 | Placeholders are newer than every fetched message, so sorting by creation time puts them after the board messages, oldest first. |
| WorkerPostManager.KeepsBoardStatus | worker/postManager.js:32-36 | Because every page and the "(inactive)" notice carry the header, a run neither makes nor unmakes a board message among the messages it started from. |
| WorkerPostManager.EditedStaysBoardPost | worker/postManager.js:105-124 | A message the run edits, as a container or a left-over, was a board message and still is one. |
| WorkerPostManager.PlaceholdersBoardAfterRun | worker/postManager.js:105-112 | After a run, every placeholder it sent holds its page and is a board message. |
| WorkerPostManager.OlderHoldNoBoardPost | worker/postManager.js:29 | With the containers within the next fetch, none of the messages the next fetch misses is a board message. |
| WorkerPostManager.PlaceholdersWithinFetch | worker/postManager.js:43-57 | With the containers within the next fetch, the channel grows by exactly the placeholders, and there are at most 50 of them. |
| WorkerPostManager.ContainersArePrefix | worker/postManager.js:43-57 | The containers are the first `count` of the board messages followed by the placeholders the run sends. |
| WorkerPostManager.RerunSameContainers | worker/postManager.js:43-57 | A second run sends no placeholder and takes as containers the first run's containers, each with its new text. |
| WorkerPostManager.RerunSameLeftOvers | worker/postManager.js:116-117 | A second run leaves over the same board messages as the first, each with its new text. |
| WorkerPostManager.PlaceholdersAreContainers | worker/postManager.js:116-117 | No placeholder a run sends is left over. |
| WorkerPostManager.OnlyOldestAreBoardPosts | worker/postManager.js:28-41 | In a channel of at most 50 messages where exactly the m oldest are board messages, the worker finds exactly m. |
| WorkerPostManager.AsWrittenRerunResends | worker/postManager.js:109-112 | As written, a first run with between 6 and 50 header-carrying pages leaves only five board messages, because containers 6 and on still read ".". The next run sends a placeholder for every page past the fifth again. |
| WorkerPostManager.EditEach | worker/postManager.js:119-124 | Editing each message of a plan in turn gives the channel the plan describes. |
| WorkerPostManager.EditPagesAsWritten | worker/postManager.js:109-112 | The edit loop, indexing containers by the group-local index, applies the as-written plan. |
| WorkerPostManager.PublishPagesAsWritten | worker/postManager.js:105-124 | Fetching the board, gathering containers, editing pages in by the group-local index and blanking the left-overs ends in the as-written summary state. The clock moves on by the number of placeholders sent. |
| WorkerPostManager.PublishPages | worker/postManager.js:105-124 | The same steps with page k edited into container k end in the intended summary state. |
| WorkerPostManager.SendSummaryPosts | worker/postManager.js:59-125 | The pages are the rendered records. The channel ends in the as-written summary state. |
| WorkerPostManager.SendSummaryPostsCorrected | worker/postManager.js:59-125 | With page k edited into container k, the channel ends in the intended summary state. |
| PostManager.TrimTrailingMarkdown | postManager.js:146 | The trimmed time is a prefix of the capture that does not end in `*`, `_` or `~`. Everything cut off is such a character. |
| PostManager.TrimTrailingKeepsInner | postManager.js:146 | Markdown characters inside the text survive; only the trailing run goes. |
| PostManager.TrimTrailingIdempotent | postManager.js:146 | Trimming twice is trimming once. |
| PostManager.AggregatedWhenTrimmed | postManager.js:126-127 | No time the older revision reports ends in a markdown character. |
| PostManager.FirstBoardPost | postManager.js:22-34 | The board post is the first fetched message by the bot that has an embed. There is none exactly when no fetched message qualifies. |
| PostManager.BuildEmbed | postManager.js:59-69 | The field loop builds the embed's field list. |
| PostManager.EmbedSpec | postManager.js:44-69 | Five fields per activity, in record order, with the activity's `When`. The title carries the count with the right plural. The "no raids" description shows exactly when there are no records. |
| PostManager.PostStateSpec | postManager.js:71-77 | An existing board post gets the new embed and nothing else changes. Otherwise exactly one message by the bot with that embed is appended, one tick after the clock. |
| PostManager.PostStateFoundAgain | postManager.js:22-34 | After a send or an edit, the next run finds the same board post. |
| PostManager.PublishEmbed | postManager.js:71-77 | The board post found in the channel gets the embed; without one, the embed is sent as a new message. Either way the channel ends in the edit-or-send state. The clock moves on only when a message is sent. |
| PostManager.SendPost | postManager.js:36-78 | The channel ends in the edit-or-send state for the rendered embed. |
| Index.TriggerSound | index.js:23 | Whenever the matcher succeeds, the text has the expression's shape: `<`, `@`s, `$`s, `!`s, digits, `>`, whitespace, then `install` in any case. |
| Index.TriggerComplete | index.js:23 | Whenever the text has that shape, the matcher finds it and ends at the same place. |
| Index.TriggerExample | index.js:23 | A nickname mention followed by `Install` is an install command. |
| Index.KeyInjective | index.js:40-46 | For all-digit ids, the key `guild_channel` names one guild and one channel. A direct message has no guild, so its key is `undefined_channel`, and that never names a guild channel. |
| Index.InstallSpec | index.js:46-63 | Afterwards the channel's entry exists and is enabled, and every other entry is unchanged. The reply says whether the entry was new, already enabled, or re-enabled. |
| Index.InstallIdempotent | index.js:46-63 | Installing twice is installing once, and the second reply is "already reporting". |
| Index.Database.InstallBountyBoard | index.js:39-66 | The table is updated as above, and the file is written once in every case. |
| Index.Database.OnMessage | index.js:25-35 | A message is handled exactly when it is not the bot's own, contains the bot's id and matches the command. This holds in a direct message too, where the entry is keyed `undefined_<channel id>`. Otherwise the table, the file and the reply are untouched. |

## Edge cases the code decides

- The history walk keeps fetching until a fetch comes back empty (worker/postManager.js:127-140), and does not stop at a page shorter than 100 messages.
- With no records `_.chunk([])` is empty (worker/postManager.js:77), so no page is sent and every old board message is blanked. The "no planned raids" description is never shown (WorkerPages.EmptyDescriptionUnused).
- The board is looked for only among the newest 50 messages (worker/postManager.js:29). Once more than 50 messages follow a board message, the next run no longer finds it and sends placeholders anew. This is why WorkerPostManager.SummaryRerunSendsNothing asks that the containers stay within that window.
- The worker removes every `*`, `_` and `~` (worker/postManager.js:193), and the older revision trims only the trailing run (postManager.js:146). Each is modelled as written.

## Left out

- Discord client login, the `ready` handler, the activity status and logging are not modelled. `scheduler.js` and `ecosystem.config.js` are not part of this model.
- Time is a parameter: the `dayjs` clock, the CET/CEST zone and its daylight-saving switch, and the "x hours ago" rendering. A message created without a timestamp (the empty relative-time branch) is not modelled. Every model message has a time.
- Utils.BatchPromiseAll: the calls within a group run one after another, not concurrently. The waits are counted, not timed. A rejected promise, which aborts the whole batch, is not modelled.
- WorkerPostManager.GetMessageContainers: the placeholders of one group are sent in order, so new ids follow the pages. Concurrent sends that the platform might number out of order are not modelled.
- Failures of the platform's API (network errors, missing permissions) and the channel-lookup errors that would reject the batch are not modelled.
- The platform's limits (25 embed fields, 2000 characters per message) are not modelled. The code does not check them.
- Planner.IsPlannerChannel: `toLowerCase` is modelled for ASCII letters only.
- Index.Database: the installation file is modelled as the in-memory table plus a count of writes. Reading it, parsing its JSON, and a missing or malformed file are not modelled.
- Index.Database.OnMessage: the reply is returned instead of being sent to the channel. The author check compares user ids rather than object identity.
- Index.Database.InstallBountyBoard: a direct-message channel has no name, so the stored record of such a channel has only its id. The model still gives every channel a `name` field. Nothing reads that field, and the key uses only the id.
- The older revision's `getLastMessageFromChannel` (postManager.js:80-93) and the body of `getAggregatedPostsInfo` (postManager.js:95-144) are the same code as the worker's. Both use Planner.GetLastMessageFromChannel and Planner.PostsInfo. They differ only in the cleaner passed in.

## Findings

| source | as written | input that shows it | evidently intended | confidence | as-written member | corrected member |
|---|---|---|---|---|---|---|
| worker/postManager.js:109-112 | The edit callback picks the container by the index the batch executor passes. That index is the page's place within its group of five, so page k is written into container k mod 5. | Six pages (26 to 30 activities). Container 1 is written first with page 1, then with page 6, so page 1 is shown nowhere. Container 6 is never edited and keeps its "." or its old text. | Page k is written into container k. | not executed | WorkerPostManager.SixPagesMisplaced | WorkerPostManager.SummaryPagesLand |
| worker/postManager.js:109-112 | Containers from the sixth on are never edited. On a fresh channel they keep "." and no embed, so the next run does not count them as board messages. | A fresh channel and six pages. The first run sends six placeholders. The second run finds five board messages and sends a sixth placeholder again. | Every container holds its page, so the second run finds one board message per page and sends nothing. | not executed | WorkerPostManager.AsWrittenRerunResends | WorkerPostManager.SummaryRerunSendsNothing |
