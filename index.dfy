/**
 * The bot's entry point (index.js): the message handler that recognises the
 * install command addressed to the bot, and the installation table it
 * updates — insert a new entry, re-enable a disabled one, or leave an
 * enabled one alone — with the reply chosen by the entry's prior state.
 */
module Index {
  import opened Wrappers
  import opened JsStrings
  import opened Discord
  import opened Planner

  // ---------------------------------------------------------------------
  // The install command: /<@*\$*\!*[0-9]+>\s+install/i anywhere in the text

  predicate IsAt(c: char) { c == '@' }
  predicate IsDollar(c: char) { c == '$' }
  predicate IsBang(c: char) { c == '!' }

  /** `\s`: the ECMAScript white space and line terminator characters. */
  predicate IsSpace(c: char) {
    || c == '\t' || c == '\n' || c == '\U{000B}' || c == '\U{000C}' || c == '\r' || c == ' '
    || c == '\U{00A0}' || c == '\U{1680}' || ('\U{2000}' <= c <= '\U{200A}')
    || c == '\U{2028}' || c == '\U{2029}' || c == '\U{202F}' || c == '\U{205F}'
    || c == '\U{3000}' || c == '\U{FEFF}'
  }

  /**
   * The expression matches `s` from `i`, split into its parts: `<` at `i`,
   * `@`s up to `j1`, `$`s up to `j2`, `!`s up to `j3`, one or more digits up to
   * `j4`, `>` at `j4`, one or more white-space characters up to `j5`, and the
   * word `install` in any ASCII case from `j5`.
   */
  predicate TriggerSplit(s: string, i: int, j1: int, j2: int, j3: int, j4: int, j5: int) {
    && 0 <= i < j1 <= j2 <= j3 < j4 && j4 + 1 < j5 && j5 + 7 <= |s|
    && s[i] == '<'
    && (forall k :: i < k < j1 ==> s[k] == '@')
    && (forall k :: j1 <= k < j2 ==> s[k] == '$')
    && (forall k :: j2 <= k < j3 ==> s[k] == '!')
    && (forall k :: j3 <= k < j4 ==> IsDigit(s[k]))
    && s[j4] == '>'
    && (forall k :: j4 < k < j5 ==> IsSpace(s[k]))
    && EqualsIgnoreCase(s[j5..j5 + 7], "install")
  }

  // Where the greedy runs after the `<` at `i` end: the `@`s, then the `$`s, the `!`s and the digits.

  function AtEnd(s: string, i: nat): (r: nat)
    requires i < |s|
    ensures i < r <= |s|
  {
    i + 1 + LeadingRun(s[i + 1..], IsAt)
  }

  function DollarEnd(s: string, i: nat): (r: nat)
    requires i < |s|
    ensures AtEnd(s, i) <= r <= |s|
  {
    AtEnd(s, i) + LeadingRun(s[AtEnd(s, i)..], IsDollar)
  }

  function BangEnd(s: string, i: nat): (r: nat)
    requires i < |s|
    ensures DollarEnd(s, i) <= r <= |s|
  {
    DollarEnd(s, i) + LeadingRun(s[DollarEnd(s, i)..], IsBang)
  }

  function DigitEnd(s: string, i: nat): (r: nat)
    requires i < |s|
    ensures BangEnd(s, i) <= r <= |s|
  {
    BangEnd(s, i) + LeadingRun(s[BangEnd(s, i)..], IsDigit)
  }

  /** Where the greedy run of white space after the `>` at `j4` ends. */
  function SpaceEnd(s: string, j4: nat): (r: nat)
    requires j4 < |s|
    ensures j4 < r <= |s|
  {
    j4 + 1 + LeadingRun(s[j4 + 1..], IsSpace)
  }

  /**
   * The matcher from position `i`: every part of the expression is a run of
   * one character class followed by a character outside it, so the greedy
   * runs are the only way to match. The result is where the match ends.
   */
  function TriggerEnd(s: string, i: nat): Option<nat>
  {
    if i >= |s| || s[i] != '<' then None
    else
      var j4 := DigitEnd(s, i);
      if j4 == BangEnd(s, i) || j4 >= |s| || s[j4] != '>' then None
      else
        var j5 := SpaceEnd(s, j4);
        if j5 == j4 + 1 || j5 + 7 > |s| || !EqualsIgnoreCase(s[j5..j5 + 7], "install") then None
        else Some(j5 + 7)
  }

  /** `installCommandRegex.test(content)`: the expression is not anchored, so it may match from any position. */
  predicate InstallCommand(s: string) {
    exists i :: 0 <= i < |s| && TriggerEnd(s, i).Some?
  }

  /** Every character of the run of `p` that starts at `start` satisfies `p`. */
  lemma RunFrom(s: string, start: nat, p: char -> bool)
    requires start <= |s|
    ensures start + LeadingRun(s[start..], p) <= |s|
    ensures forall k :: start <= k < start + LeadingRun(s[start..], p) ==> p(s[k])
  {
    forall k | start <= k < start + LeadingRun(s[start..], p) ensures p(s[k]) {
      assert s[start..][k - start] == s[k];
    }
  }

  /** The runs found after `i` hold what their classes say. */
  lemma RunsSound(s: string, i: nat)
    requires i < |s|
    ensures forall k :: i < k < AtEnd(s, i) ==> s[k] == '@'
    ensures forall k :: AtEnd(s, i) <= k < DollarEnd(s, i) ==> s[k] == '$'
    ensures forall k :: DollarEnd(s, i) <= k < BangEnd(s, i) ==> s[k] == '!'
    ensures forall k :: BangEnd(s, i) <= k < DigitEnd(s, i) ==> IsDigit(s[k])
  {
    RunFrom(s, i + 1, IsAt);
    RunFrom(s, AtEnd(s, i), IsDollar);
    RunFrom(s, DollarEnd(s, i), IsBang);
    RunFrom(s, BangEnd(s, i), IsDigit);
  }

  /** Runs that are each followed by a character outside their class are the greedy runs. */
  lemma RunsExact(s: string, i: nat, j1: int, j2: int, j3: int, j4: int)
    requires 0 <= i < j1 <= j2 <= j3 < j4 < |s| && !IsDigit(s[j4])
    requires (forall k :: i < k < j1 ==> s[k] == '@')
    requires (forall k :: j1 <= k < j2 ==> s[k] == '$')
    requires (forall k :: j2 <= k < j3 ==> s[k] == '!')
    requires (forall k :: j3 <= k < j4 ==> IsDigit(s[k]))
    ensures AtEnd(s, i) == j1 && DollarEnd(s, i) == j2 && BangEnd(s, i) == j3 && DigitEnd(s, i) == j4
  {
    // The character after each run belongs to the next part, which is never the run's own class.
    assert !IsAt(s[j1]) by {
      if j1 < j2 { assert s[j1] == '$'; } else if j1 < j3 { assert s[j1] == '!'; } else { assert IsDigit(s[j1]); }
    }
    RunExactAt(s, i + 1, j1, IsAt);
    assert AtEnd(s, i) == j1;
    assert !IsDollar(s[j2]) by {
      if j2 < j3 { assert s[j2] == '!'; } else { assert IsDigit(s[j2]); }
    }
    RunExactAt(s, j1, j2, IsDollar);
    assert DollarEnd(s, i) == j2;
    RunExactAt(s, j2, j3, IsBang);
    assert BangEnd(s, i) == j3;
    RunExactAt(s, j3, j4, IsDigit);
  }

  /** A run of `p` from `start` to `end` followed by a character outside `p` is the greedy run from `start`. */
  lemma RunExactAt(s: string, start: nat, end: int, p: char -> bool)
    requires start <= end < |s| && !p(s[end])
    requires forall k :: start <= k < end ==> p(s[k])
    ensures LeadingRun(s[start..], p) == end - start
  {
    forall x | 0 <= x < end - start ensures p(s[start..][x]) {
      assert s[start..][x] == s[start + x];
    }
    LeadingRunExact(s[start..], p, end - start);
  }

  /** The conditions under which the matcher succeeds from `i`, one per part of the expression. */
  lemma TriggerEndIs(s: string, i: nat, j4: nat, j5: nat)
    requires i < |s| && s[i] == '<' && DigitEnd(s, i) == j4 && BangEnd(s, i) != j4 && j4 < |s| && s[j4] == '>'
    requires SpaceEnd(s, j4) == j5 && j5 != j4 + 1 && j5 + 7 <= |s| && EqualsIgnoreCase(s[j5..j5 + 7], "install")
    ensures TriggerEnd(s, i) == Some(j5 + 7)
  {
  }

  lemma TriggerEndParts(s: string, i: nat)
    requires TriggerEnd(s, i).Some?
    ensures i < |s| && s[i] == '<' && BangEnd(s, i) != DigitEnd(s, i) && DigitEnd(s, i) < |s| && s[DigitEnd(s, i)] == '>'
    ensures var j5 := SpaceEnd(s, DigitEnd(s, i));
      j5 != DigitEnd(s, i) + 1 && j5 + 7 <= |s| && EqualsIgnoreCase(s[j5..j5 + 7], "install")
      && TriggerEnd(s, i) == Some(j5 + 7)
  {
  }

  /** When the matcher succeeds from `i`, the text has the shape the expression describes. */
  lemma TriggerSound(s: string, i: nat) returns (j1: int, j2: int, j3: int, j4: int, j5: int)
    requires TriggerEnd(s, i).Some?
    ensures TriggerSplit(s, i, j1, j2, j3, j4, j5)
    ensures TriggerEnd(s, i).value == j5 + 7
  {
    TriggerEndParts(s, i);
    j1, j2, j3, j4 := AtEnd(s, i), DollarEnd(s, i), BangEnd(s, i), DigitEnd(s, i);
    j5 := SpaceEnd(s, j4);
    RunsSound(s, i);
    RunFrom(s, j4 + 1, IsSpace);
  }

  /** The word `install`, in any case, does not start with white space. */
  lemma InstallNotSpace(s: string, j5: nat)
    requires j5 + 7 <= |s| && EqualsIgnoreCase(s[j5..j5 + 7], "install")
    ensures !IsSpace(s[j5])
  {
    assert LowerChar(s[j5..j5 + 7][0]) == 'i';
  }

  /** Whenever the text has that shape from `i`, the matcher finds it and ends at the same place. */
  lemma TriggerComplete(s: string, i: nat, j1: int, j2: int, j3: int, j4: int, j5: int)
    requires TriggerSplit(s, i, j1, j2, j3, j4, j5)
    ensures TriggerEnd(s, i) == Some(j5 + 7)
  {
    RunsExact(s, i, j1, j2, j3, j4);
    InstallNotSpace(s, j5);
    RunExactAt(s, j4 + 1, j5, IsSpace);
    TriggerEndIs(s, i, j4, j5);
  }

  /** A mention with a nickname marker followed by the word in any case is the install command. */
  lemma TriggerExample()
    ensures InstallCommand("hey <@!825> Install please")
  {
    var s := "hey <@!825> Install please";
    assert s[4] == '<';
    assert s[5] == '@';
    assert s[6] == '!';
    assert s[10] == '>';
    assert s[11] == ' ';
    assert forall k :: 7 <= k < 10 ==> IsDigit(s[k]) by {
      assert s[7..10] == "825";
    }
    assert EqualsIgnoreCase(s[12..19], "install") by {
      assert s[12..19] == "Install";
    }
    TriggerComplete(s, 4, 6, 6, 7, 10, 12);
  }

  // ---------------------------------------------------------------------
  // The installation table

  /**
   * `_.pick(x, ['id', 'name'])` of a guild or a channel. A direct message has
   * no guild, and picking from it gives `{}`: the guild is then `None`.
   */
  datatype Ref = Ref(id: string, name: string)

  datatype Installation = Installation(guild: Option<Ref>, channel: Ref, enabled: bool)

  const InstalledReply := "Yes boss! Installed!"
  const AlreadyReportingReply := "I'm already reporting on this channel, boss!"
  const EnabledReply := "Yes boss! Enabled!"

  /** The guild's part of the key: a template literal prints a missing id as `undefined`. */
  function GuildKeyPart(guild: Option<Ref>): string {
    match guild
    case Some(g) => g.id
    case None => "undefined"
  }

  function InstallationKey(guild: Option<Ref>, channel: Ref): string {
    GuildKeyPart(guild) + "_" + channel.id
  }

  predicate Digits(s: string) {
    forall i :: 0 <= i < |s| ==> IsDigit(s[i])
  }

  /** In a key whose guild id is all digits, the first `_` is the separator. */
  lemma FirstUnderscore(a: string, b: string)
    requires Digits(a)
    ensures (a + "_" + b)[|a|] == '_'
    ensures forall k :: 0 <= k < |a| ==> (a + "_" + b)[k] != '_'
  {
  }

  /**
   * Ids are snowflakes, strings of digits, so the key names one guild and one
   * channel, and a direct message's key never names a guild channel.
   */
  lemma KeyInjective(g1: Option<Ref>, c1: Ref, g2: Option<Ref>, c2: Ref)
    requires g1.Some? ==> Digits(g1.value.id)
    requires g2.Some? ==> Digits(g2.value.id)
    requires InstallationKey(g1, c1) == InstallationKey(g2, c2)
    ensures g1.None? <==> g2.None?
    ensures g1.Some? && g2.Some? ==> g1.value.id == g2.value.id
    ensures c1.id == c2.id
  {
    var a1, a2 := GuildKeyPart(g1), GuildKeyPart(g2);
    var k1, k2 := InstallationKey(g1, c1), InstallationKey(g2, c2);
    if g1.Some? && g2.None? {
      GuildKeyStart(g1.value.id, c1.id);
    } else if g1.None? && g2.Some? {
      GuildKeyStart(g2.value.id, c2.id);
    } else {
      if g1.Some? {
        FirstUnderscore(a1, c1.id);
        FirstUnderscore(a2, c2.id);
      }
      assert |a1| == |a2|;
      assert a1 == k1[..|a1|] == k2[..|a2|] == a2;
      assert c1.id == k1[|a1| + 1..] == k2[|a2| + 1..] == c2.id;
    }
  }

  /** A guild's key starts with a digit or the separator, never with the `u` of `undefined`. */
  lemma GuildKeyStart(a: string, b: string)
    requires Digits(a)
    ensures (a + "_" + b)[0] != 'u'
  {
    if |a| == 0 {
      assert (a + "_" + b)[0] == '_';
    } else {
      assert (a + "_" + b)[0] == a[0];
    }
  }

  /** The table after `installBountyBoard`. */
  function AfterInstall(table: map<string, Installation>, guild: Option<Ref>, channel: Ref): map<string, Installation>
  {
    var key := InstallationKey(guild, channel);
    if key !in table then table[key := Installation(guild, channel, true)]
    else if table[key].enabled then table
    else table[key := table[key].(enabled := true)]
  }

  /** The reply `installBountyBoard` sends. */
  function InstallReply(table: map<string, Installation>, guild: Option<Ref>, channel: Ref): string
  {
    var key := InstallationKey(guild, channel);
    if key !in table then InstalledReply
    else if table[key].enabled then AlreadyReportingReply
    else EnabledReply
  }

  /**
   * Afterwards the channel's entry exists and is enabled and every other entry
   * is as it was; a new entry records the guild and channel, an existing one
   * only has its flag set; the reply says which of the three cases it was.
   */
  lemma InstallSpec(table: map<string, Installation>, guild: Option<Ref>, channel: Ref)
    ensures var key := InstallationKey(guild, channel); var r := AfterInstall(table, guild, channel);
      var reply := InstallReply(table, guild, channel);
      && key in r && r[key].enabled
      && r.Keys == table.Keys + {key}
      && (forall k :: k in table && k != key ==> r[k] == table[k])
      && (key !in table ==> r[key] == Installation(guild, channel, true) && reply == InstalledReply)
      && (key in table && table[key].enabled ==> r == table && reply == AlreadyReportingReply)
      && (key in table && !table[key].enabled ==> r[key] == table[key].(enabled := true) && reply == EnabledReply)
  {
  }

  /** Installing twice is installing once, and the second time the bot says it is already reporting. */
  lemma InstallIdempotent(table: map<string, Installation>, guild: Option<Ref>, channel: Ref)
    ensures AfterInstall(AfterInstall(table, guild, channel), guild, channel) == AfterInstall(table, guild, channel)
    ensures InstallReply(AfterInstall(table, guild, channel), guild, channel) == AlreadyReportingReply
  {
    InstallSpec(table, guild, channel);
  }

  /** The installation file, read and written whole by every install. */
  class Database {
    var installations: map<string, Installation>
    /** How many times the file has been written. */
    var writes: nat

    constructor (installations: map<string, Installation>)
      ensures this.installations == installations && writes == 0
    {
      this.installations := installations;
      writes := 0;
    }

    /** `installBountyBoard(channel)`: update the entry for the channel, reply, and write the table back in every case. */
    method InstallBountyBoard(guild: Option<Ref>, channel: Ref) returns (reply: string)
      modifies this
      ensures installations == AfterInstall(old(installations), guild, channel)
      ensures reply == InstallReply(old(installations), guild, channel)
      ensures writes == old(writes) + 1
    {
      var key := InstallationKey(guild, channel);
      if key !in installations {
        installations := installations[key := Installation(guild, channel, true)];
        reply := InstalledReply;
      } else if installations[key].enabled {
        reply := AlreadyReportingReply;
      } else {
        installations := installations[key := installations[key].(enabled := true)];
        reply := EnabledReply;
      }
      writes := writes + 1;
    }

    /**
     * The `message` handler: the bot's own messages are ignored; a message
     * that contains the bot's id and the install command installs the board
     * in its channel; any other message changes nothing.
     */
    method OnMessage(bot: User, author: User, content: string, guild: Option<Ref>, channel: Ref) returns (reply: Option<string>)
      modifies this
      ensures var handled := author.id != bot.id && Includes(content, NatToString(bot.id)) && InstallCommand(content);
        && (handled ==> installations == AfterInstall(old(installations), guild, channel)
                        && writes == old(writes) + 1
                        && reply == Some(InstallReply(old(installations), guild, channel)))
        && (!handled ==> installations == old(installations) && writes == old(writes) && reply == None)
    {
      if author.id == bot.id {
        return None;
      }
      if Includes(content, NatToString(bot.id)) && InstallCommand(content) {
        var r := InstallBountyBoard(guild, channel);
        reply := Some(r);
      } else {
        reply := None;
      }
    }
  }
}
