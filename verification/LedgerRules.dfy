/** What keeps a ledger file well formed (lib/forum.ts:951-1113), one table change at a time,
    and what no operation ever undoes. */
module LedgerRules {
  import opened Identity
  import opened LedgerFile

  // ------------------------------------------------------------ well-formed files

  predicate Canonical<T(==)>(rows: seq<T>, f: T -> Option<T>) {
    forall r | r in rows :: f(r) == Some(r)
  }

  predicate CanonicalRows(file: File) {
    && Canonical(file.channels, AsChannel) && Canonical(file.bots, AsBot) && Canonical(file.memberships, AsMembership)
    && Canonical(file.messages, AsMessage) && Canonical(file.invites, AsInvite) && Canonical(file.groups, AsGroup)
    && Canonical(file.groupMembers, AsGroupMember) && Canonical(file.desktops, AsDesktop)
  }

  predicate WellFormed(file: File) {
    CanonicalRows(file) && Consistent(file)
  }

  lemma {:induction false} ConvertedSame<T>(rows: seq<T>, f: T -> Option<T>)
    ensures Converted(rows, f) == Some(rows) <==> Canonical(rows, f)
  {
    if rows != [] {
      ConvertedSame(rows[1..], f);
      assert rows == [rows[0]] + rows[1..];
      if Converted(rows, f) == Some(rows) {
        assert Converted(rows[1..], f).value == rows[1..];
      }
    }
  }

  lemma {:induction false} ConvertedMembers<T>(rows: seq<T>, f: T -> Option<T>)
    requires Converted(rows, f).Some?
    ensures |Converted(rows, f).value| == |rows|
    ensures forall i | 0 <= i < |rows| :: f(rows[i]) == Some(Converted(rows, f).value[i])
  {
    if rows != [] {
      ConvertedMembers(rows[1..], f);
    }
  }

  /** The parser accepts a file and returns it unchanged exactly when it is well formed. */
  lemma ParsesToItself(file: File)
    ensures Parse(file) == Loaded(file) <==> WellFormed(file)
  {
    hide Consistent, Canonical, Converted;
    ConvertedSame(file.channels, AsChannel);
    ConvertedSame(file.bots, AsBot);
    ConvertedSame(file.memberships, AsMembership);
    ConvertedSame(file.messages, AsMessage);
    ConvertedSame(file.invites, AsInvite);
    ConvertedSame(file.groups, AsGroup);
    ConvertedSame(file.groupMembers, AsGroupMember);
    ConvertedSame(file.desktops, AsDesktop);
  }

  lemma CanonicalOutput<T>(rows: seq<T>, f: T -> Option<T>)
    requires Converted(rows, f).Some? && forall r | r in rows && f(r).Some? :: f(f(r).value) == f(r)
    ensures Canonical(Converted(rows, f).value, f)
  {
    ConvertedMembers(rows, f);
    var out := Converted(rows, f).value;
    forall x | x in out ensures f(x) == Some(x) {
      var i :| 0 <= i < |out| && out[i] == x;
      assert rows[i] in rows;
    }
  }

  lemma {:induction false} CleanTwice(rows: seq<Text>)
    requires Converted(rows, Clean).Some?
    ensures Converted(Converted(rows, Clean).value, Clean) == Converted(rows, Clean)
  {
    CanonicalOutput(rows, Clean);
    ConvertedSame(Converted(rows, Clean).value, Clean);
  }

  lemma DesktopTwice(d: Desktop)
    requires AsDesktop(d).Some?
    ensures AsDesktop(AsDesktop(d).value) == AsDesktop(d)
  {
    CleanTwice(d.thinking);
    CleanTwice(d.files);
    CleanTwice(d.secrets);
    ConvertedMembers(d.thinking, Clean);
    ConvertedMembers(d.files, Clean);
    ConvertedMembers(d.secrets, Clean);
  }

  /** What the parser returns is well formed, whatever it was given. */
  lemma ParsedIsWellFormed(file: File)
    requires Parse(file).Loaded?
    ensures WellFormed(Parse(file).file)
  {
    forall d | d in file.desktops && AsDesktop(d).Some? ensures AsDesktop(AsDesktop(d).value) == AsDesktop(d) {
      DesktopTwice(d);
    }
    CanonicalOutput(file.channels, AsChannel);
    CanonicalOutput(file.bots, AsBot);
    CanonicalOutput(file.memberships, AsMembership);
    CanonicalOutput(file.messages, AsMessage);
    CanonicalOutput(file.invites, AsInvite);
    CanonicalOutput(file.groups, AsGroup);
    CanonicalOutput(file.groupMembers, AsGroupMember);
    hide AsDesktop, Consistent;
    CanonicalOutput(file.desktops, AsDesktop);
    hide Converted, Canonical, AsChannel, AsBot, AsMembership, AsMessage, AsInvite, AsGroup, AsGroupMember;
  }

  // ------------------------------------------------------------ references survive

  /** Everything another row may refer to is still there. */
  predicate Refers(file: File, next: File) {
    && (forall c | c in file.channels :: c in next.channels)
    && (forall b | b in file.bots :: exists n :: n in next.bots && n.id == b.id && n.owner == b.owner)
    && (forall g | g in file.groups :: g in next.groups)
  }

  lemma StillRefers(file: File, next: File)
    requires Refers(file, next)
    ensures forall id, owner | HasChannel(file, id, owner) :: HasChannel(next, id, owner)
    ensures forall id | AnyChannel(file, id) :: AnyChannel(next, id)
    ensures forall id, owner | HasBot(file, id, owner) :: HasBot(next, id, owner)
    ensures forall id, member | HasGroupFor(file, id, member) :: HasGroupFor(next, id, member)
  {
  }

  lemma UniqueAppend<T, K>(rows: seq<T>, key: T -> K, row: T)
    requires Unique(rows, key) && forall r | r in rows :: key(r) != key(row)
    ensures Unique(rows + [row], key)
  {
  }

  lemma CanonicalAppend<T>(rows: seq<T>, f: T -> Option<T>, row: T)
    ensures Canonical(rows + [row], f) <==> Canonical(rows, f) && f(row) == Some(row)
    ensures Exact(rows + [row], f) <==> Exact(rows, f) && (f(row) == None || f(row) == Some(row))
  {
    assert row in rows + [row];
    assert forall r | r in rows :: r in rows + [row];
  }

  /** Every row is spelled as the parser would return it, or is refused by it. */
  predicate Exact<T(==)>(rows: seq<T>, f: T -> Option<T>) {
    forall r | r in rows :: f(r) == None || f(r) == Some(r)
  }

  predicate ExactRows(file: File) {
    && Exact(file.channels, AsChannel) && Exact(file.bots, AsBot) && Exact(file.memberships, AsMembership)
    && Exact(file.messages, AsMessage) && Exact(file.invites, AsInvite) && Exact(file.groups, AsGroup)
    && Exact(file.groupMembers, AsGroupMember) && Exact(file.desktops, AsDesktop)
  }

  /** Well formed but for the time stamps: what holds of a file while it is being changed. */
  predicate Proper(file: File) {
    Consistent(file) && ExactRows(file) && forall c | c in file.channels :: c.id == ChannelOf(c.owner)
  }

  lemma WellFormedIsProper(file: File)
    ensures WellFormed(file) <==> Proper(file) && CanonicalRows(file)
  {
    if WellFormed(file) {
      forall c | c in file.channels ensures c.id == ChannelOf(c.owner) {
        assert AsChannel(c) == Some(c);
      }
    }
    hide Consistent, AsChannel, AsBot, AsMembership, AsMessage, AsInvite, AsGroup, AsGroupMember, AsDesktop;
  }

  lemma {:induction false} ExactConverted<T>(rows: seq<T>, f: T -> Option<T>)
    requires Exact(rows, f)
    ensures Converted(rows, f) == if Canonical(rows, f) then Some(rows) else None
  {
    if rows != [] {
      ExactConverted(rows[1..], f);
      assert rows == [rows[0]] + rows[1..];
    }
  }

  /** A proper file is read back unchanged or not at all. */
  lemma ProperParses(file: File)
    requires Proper(file)
    ensures Parse(file) == if CanonicalRows(file) then Loaded(file) else Unreadable
  {
    ExactConverted(file.channels, AsChannel);
    ExactConverted(file.bots, AsBot);
    ExactConverted(file.memberships, AsMembership);
    ExactConverted(file.messages, AsMessage);
    ExactConverted(file.invites, AsInvite);
    ExactConverted(file.groups, AsGroup);
    ExactConverted(file.groupMembers, AsGroupMember);
    ExactConverted(file.desktops, AsDesktop);
    hide Consistent, Canonical, Converted, Exact;
  }

  /** The tables that did not change are still consistent. */
  lemma UnchangedTables(file: File, next: File)
    requires Consistent(file) && Refers(file, next)
    ensures next.memberships == file.memberships ==> ConsistentMemberships(next)
    ensures next.messages == file.messages ==> ConsistentMessages(next)
    ensures next.invites == file.invites ==> ConsistentInvites(next)
    ensures next.groups == file.groups ==> ConsistentGroups(next)
    ensures next.groupMembers == file.groupMembers ==> ConsistentGroupMembers(next)
    ensures next.desktops == file.desktops ==> ConsistentDesktops(next)
  {
    StillRefers(file, next);
    hide Unique, HasChannel, HasBot, AnyChannel, HasGroupFor;
  }

  /** Channels, bots and groups as they were: the other tables decide. */
  lemma SameElsewhere(file: File, next: File)
    requires Consistent(file) && next.channels == file.channels && next.bots == file.bots && next.groups == file.groups
    requires next.memberships == file.memberships || ConsistentMemberships(next)
    requires next.messages == file.messages || ConsistentMessages(next)
    requires next.invites == file.invites || ConsistentInvites(next)
    requires next.groupMembers == file.groupMembers || ConsistentGroupMembers(next)
    requires next.desktops == file.desktops || ConsistentDesktops(next)
    ensures Consistent(next)
  {
    UnchangedTables(file, next);
    assert ConsistentChannels(next) && ConsistentBots(next);
    hide ConsistentMemberships, ConsistentMessages, ConsistentInvites, ConsistentGroups, ConsistentGroupMembers,
         ConsistentDesktops, ConsistentBots, ConsistentChannels;
  }

  // ------------------------------------------------------------ one change at a time

  predicate IsOwner(a: Account) {
    Checksum(a) == Some(a)
  }

  lemma AddChannel(file: File, owner: Account, now: int)
    requires Proper(file) && IsOwner(owner) && forall c | c in file.channels :: c.owner != owner
    ensures var next := file.(channels := file.channels + [Channel(ChannelOf(owner), owner, now)]);
            Proper(next) && (CanonicalRows(next) <==> CanonicalRows(file) && IsTime(now))
  {
    var row := Channel(ChannelOf(owner), owner, now);
    var next := file.(channels := file.channels + [row]);
    CanonicalAppend(file.channels, AsChannel, row);
    UniqueAppend(file.channels, (c: Channel) => c.owner, row);
    UniqueAppend(file.channels, (c: Channel) => c.id, row);
    hide Canonical, Unique;
    assert ConsistentBots(next);
    UnchangedTables(file, next);
    hide ConsistentMemberships, ConsistentMessages, ConsistentInvites, ConsistentGroups, ConsistentGroupMembers,
         ConsistentDesktops, ConsistentBots;
  }

  lemma AddBot(file: File, bot: Bot)
    requires Proper(file) && IsOwner(bot.owner) && Clean(bot.name) == Some(bot.name)
    requires bot.id.BotIdOf? && bot.id.owner == bot.owner && bot.status == Active && bot.archivedAt == None
    requires forall b | b in file.bots :: b.id != bot.id && (b.owner != bot.owner || b.name != bot.name)
    ensures var next := file.(bots := file.bots + [bot]);
            Proper(next) && (CanonicalRows(next) <==> CanonicalRows(file) && IsTime(bot.created))
  {
    var next := file.(bots := file.bots + [bot]);
    CanonicalAppend(file.bots, AsBot, bot);
    UniqueAppend(file.bots, (b: Bot) => b.id, bot);
    UniqueAppend(file.bots, (b: Bot) => (b.owner, b.name), bot);
    hide Canonical, Unique;
    forall b | b in file.bots ensures exists n :: n in next.bots && n.id == b.id && n.owner == b.owner {
      assert b in next.bots;
    }
    assert ConsistentBots(next) && ConsistentChannels(next);
    UnchangedTables(file, next);
    hide ConsistentMemberships, ConsistentMessages, ConsistentInvites, ConsistentGroups, ConsistentGroupMembers,
         ConsistentDesktops, ConsistentBots, ConsistentChannels;
  }

  lemma MembershipTable(file: File, row: Membership)
    requires ConsistentMemberships(file) && HasChannel(file, row.channel, row.owner) && HasBot(file, row.bot, row.owner)
    requires forall m | m in file.memberships :: m.channel != row.channel || m.bot != row.bot
    ensures ConsistentMemberships(file.(memberships := file.memberships + [row]))
  {
    var next := file.(memberships := file.memberships + [row]);
    UniqueAppend(file.memberships, (m: Membership) => (m.channel, m.bot), row);
    StillRefers(file, next);
    hide Unique, HasChannel, HasBot;
  }

  lemma MessageTable(file: File, row: Message)
    requires ConsistentMessages(file) && AnyChannel(file, row.channel) && HasBot(file, row.bot, row.owner)
    requires forall m | m in file.messages :: m.id != row.id
    ensures ConsistentMessages(file.(messages := file.messages + [row]))
  {
    var next := file.(messages := file.messages + [row]);
    UniqueAppend(file.messages, (m: Message) => m.id, row);
    StillRefers(file, next);
    hide Unique, AnyChannel, HasBot;
  }

  lemma AddMembership(file: File, row: Membership)
    requires Proper(file) && IsOwner(row.owner) && HasChannel(file, row.channel, row.owner) &&
             HasBot(file, row.bot, row.owner)
    requires forall m | m in file.memberships :: m.channel != row.channel || m.bot != row.bot
    ensures var next := file.(memberships := file.memberships + [row]);
            Proper(next) && (CanonicalRows(next) <==> CanonicalRows(file) && IsTime(row.joined))
  {
    var next := file.(memberships := file.memberships + [row]);
    CanonicalAppend(file.memberships, AsMembership, row);
    MembershipTable(file, row);
    hide Canonical, Consistent, ConsistentMemberships, HasChannel, HasBot;
    SameElsewhere(file, next);
  }

  lemma AddMessage(file: File, row: Message)
    requires Proper(file) && IsOwner(row.owner) && AnyChannel(file, row.channel) && HasBot(file, row.bot, row.owner)
    requires !row.id.BlankMessage? && 0 < row.bodyLength <= CHAT_BODY_MAX && forall m | m in file.messages ::
             m.id != row.id
    ensures var next := file.(messages := file.messages + [row]);
            Proper(next) && (CanonicalRows(next) <==> CanonicalRows(file) && IsTime(row.ts))
  {
    var next := file.(messages := file.messages + [row]);
    CanonicalAppend(file.messages, AsMessage, row);
    MessageTable(file, row);
    hide Canonical, Consistent, ConsistentMessages, AnyChannel, HasBot;
    SameElsewhere(file, next);
  }

  lemma AddInvite(file: File, row: Invite, channel: Channel)
    requires Proper(file) && IsOwner(row.guest) && channel in file.channels && channel.id == row.channel &&
             channel.owner != row.guest
    requires forall i | i in file.invites :: i.channel != row.channel || i.guest != row.guest
    ensures var next := file.(invites := file.invites + [row]);
            Proper(next) && (CanonicalRows(next) <==> CanonicalRows(file) && IsTime(row.created))
  {
    var next := file.(invites := file.invites + [row]);
    CanonicalAppend(file.invites, AsInvite, row);
    UniqueAppend(file.invites, (i: Invite) => (i.channel, i.guest), row);
    hide Canonical, Unique;
    assert channel in next.channels;
    assert ConsistentInvites(next);
    assert ConsistentBots(next) && ConsistentChannels(next);
    UnchangedTables(file, next);
    hide ConsistentMemberships, ConsistentMessages, ConsistentInvites, ConsistentGroups, ConsistentGroupMembers,
         ConsistentDesktops, ConsistentBots, ConsistentChannels;
  }

  lemma AddGroup(file: File, row: Group)
    requires Proper(file) && IsOwner(row.owner) && Clean(row.name) == Some(row.name) &&
             HasChannel(file, row.channel, row.owner)
    requires row.id.GroupIdOf? && row.id.owner == row.owner
    requires forall g | g in file.groups :: g.id != row.id && (g.owner != row.owner || g.name != row.name)
    ensures var next := file.(groups := file.groups + [row]);
            Proper(next) && (CanonicalRows(next) <==> CanonicalRows(file) && IsTime(row.created))
  {
    var next := file.(groups := file.groups + [row]);
    CanonicalAppend(file.groups, AsGroup, row);
    UniqueAppend(file.groups, (g: Group) => g.id, row);
    UniqueAppend(file.groups, (g: Group) => (g.owner, g.name), row);
    StillRefers(file, next);
    hide Canonical, Unique, HasChannel;
    assert ConsistentGroups(next);
    assert ConsistentBots(next) && ConsistentChannels(next);
    UnchangedTables(file, next);
    hide ConsistentMemberships, ConsistentMessages, ConsistentInvites, ConsistentGroups, ConsistentGroupMembers,
         ConsistentDesktops, ConsistentBots, ConsistentChannels;
  }

  lemma AddGroupMember(file: File, row: GroupMember)
    requires Proper(file) && IsOwner(row.member) && HasGroupFor(file, row.group, row.member)
    requires forall m | m in file.groupMembers :: m.group != row.group || m.member != row.member
    ensures var next := file.(groupMembers := file.groupMembers + [row]);
            Proper(next) && (CanonicalRows(next) <==> CanonicalRows(file) && IsTime(row.joined))
  {
    var next := file.(groupMembers := file.groupMembers + [row]);
    CanonicalAppend(file.groupMembers, AsGroupMember, row);
    UniqueAppend(file.groupMembers, (m: GroupMember) => (m.group, m.member), row);
    StillRefers(file, next);
    hide Canonical, Unique, HasGroupFor;
    assert ConsistentGroupMembers(next);
    assert ConsistentBots(next) && ConsistentChannels(next);
    UnchangedTables(file, next);
    hide ConsistentMemberships, ConsistentMessages, ConsistentInvites, ConsistentGroups, ConsistentGroupMembers,
         ConsistentDesktops, ConsistentBots, ConsistentChannels;
  }

  // ------------------------------------------------------------ filters

  function Filtered<T>(rows: seq<T>, keep: T -> bool): seq<T> {
    if rows == [] then [] else (if keep(rows[0]) then [rows[0]] else []) + Filtered(rows[1..], keep)
  }

  method Filter<T>(rows: seq<T>, keep: T -> bool) returns (kept: seq<T>)
    ensures kept == Filtered(rows, keep)
  {
    kept := [];
    assert rows[0..] == rows;
    for i := 0 to |rows|
      invariant kept + Filtered(rows[i..], keep) == Filtered(rows, keep)
    {
      assert rows[i..][1..] == rows[i + 1..];
      if keep(rows[i]) {
        kept := kept + [rows[i]];
      }
    }
  }

  lemma {:induction false} FilteredFacts<T, K>(rows: seq<T>, keep: T -> bool, key: T -> K)
    requires Unique(rows, key)
    ensures forall r | r in Filtered(rows, keep) :: r in rows && keep(r)
    ensures forall r | r in rows && keep(r) :: r in Filtered(rows, keep)
    ensures |Filtered(rows, keep)| <= |rows|
    ensures |Filtered(rows, keep)| == |rows| <==> forall r | r in rows :: keep(r)
    ensures Unique(Filtered(rows, keep), key)
  {
    if rows != [] {
      var head, rest := rows[0], Filtered(rows[1..], keep);
      assert rows == [head] + rows[1..];
      FilteredFacts(rows[1..], keep, key);
      forall j | 0 <= j < |rest| ensures key(head) != key(rest[j]) {
        assert rest[j] in rest;
        assert rest[j] in rows[1..];
        var i :| 0 <= i < |rows[1..]| && rows[1..][i] == rest[j];
        assert rows[i + 1] == rest[j];
      }
    }
  }

  lemma RemoveInvites(file: File, keep: Invite -> bool)
    requires WellFormed(file)
    ensures WellFormed(file.(invites := Filtered(file.invites, keep)))
  {
    var next := file.(invites := Filtered(file.invites, keep));
    FilteredFacts(file.invites, keep, (i: Invite) => (i.channel, i.guest));
    hide Unique, Filtered;
    assert ConsistentInvites(next);
    hide Consistent, ConsistentInvites;
    SameElsewhere(file, next);
  }

  lemma RemoveGroupMembers(file: File, keep: GroupMember -> bool)
    requires WellFormed(file)
    ensures WellFormed(file.(groupMembers := Filtered(file.groupMembers, keep)))
  {
    var next := file.(groupMembers := Filtered(file.groupMembers, keep));
    FilteredFacts(file.groupMembers, keep, (m: GroupMember) => (m.group, m.member));
    StillRefers(file, next);
    hide Unique, Filtered, HasGroupFor;
    assert ConsistentGroupMembers(next);
    hide Consistent, ConsistentGroupMembers;
    SameElsewhere(file, next);
  }

  /** A channel's desktop is replaced: the old one goes, the new one comes last. */
  lemma ReplaceDesktop(file: File, row: Desktop)
    requires Proper(file) && Canonical(file.desktops, AsDesktop)
    requires AnyChannel(file, row.channel) && AsDesktop(row.(updated := 0)) == Some(row.(updated := 0))
    ensures var next := file.(desktops := Filtered(file.desktops, (d: Desktop) => d.channel != row.channel) + [row]);
            Proper(next) && (CanonicalRows(next) <==> CanonicalRows(file) && IsTime(row.updated))
  {
    var keep := (d: Desktop) => d.channel != row.channel;
    var kept := Filtered(file.desktops, keep);
    var next := file.(desktops := kept + [row]);
    FilteredFacts(file.desktops, keep, (d: Desktop) => d.channel);
    UniqueAppend(kept, (d: Desktop) => d.channel, row);
    StillRefers(file, next);
    DesktopTime(row);
    assert Canonical(kept, AsDesktop);
    CanonicalAppend(kept, AsDesktop, row);
    hide Unique, Filtered, AnyChannel, AsDesktop;
    assert ConsistentDesktops(next);
    hide Consistent, ConsistentDesktops, Canonical;
    SameElsewhere(file, next);
  }

  lemma DesktopTime(row: Desktop)
    requires AsDesktop(row.(updated := 0)) == Some(row.(updated := 0))
    ensures AsDesktop(row) == Some(row) <==> IsTime(row.updated)
    ensures Clean(row.session).Some? && (row.snapshot.Some? ==> IsSnapshot(row.snapshot.value))
  {
  }

  // ------------------------------------------------------------ archiving

  function ArchivedAt(file: File, i: nat, now: int): File
    requires i < |file.bots|
  {
    file.(bots := file.bots[i := file.bots[i].(status := Archived, archivedAt := Some(now))])
  }

  lemma ArchiveKeeps(file: File, i: nat, now: int)
    requires Proper(file) && CanonicalRows(file) && i < |file.bots|
    ensures var next := ArchivedAt(file, i, now);
            Proper(next) && (CanonicalRows(next) <==> IsTime(now))
  {
    var next := ArchivedAt(file, i, now);
    var was, row := file.bots[i], next.bots[i];
    assert AsBot(was) == Some(was);
    assert AsBot(row) == Some(row) <==> IsTime(now);
    ReplaceBot(file, i, row);
    assert row in next.bots;
    hide Consistent;
  }

  lemma ReplaceBot(file: File, i: nat, row: Bot)
    requires Consistent(file) && i < |file.bots| && row.id == file.bots[i].id && row.owner == file.bots[i].owner &&
             row.name == file.bots[i].name
    ensures Consistent(file.(bots := file.bots[i := row]))
  {
    var next := file.(bots := file.bots[i := row]);
    forall b | b in file.bots ensures exists n :: n in next.bots && n.id == b.id && n.owner == b.owner {
      var j :| 0 <= j < |file.bots| && file.bots[j] == b;
      assert next.bots[j] in next.bots;
    }
    assert ConsistentBots(next) by {
      forall b | b in next.bots ensures b.id.BotIdOf? && b.id.owner == b.owner {
        var j :| 0 <= j < |next.bots| && next.bots[j] == b;
        assert file.bots[j] in file.bots;
      }
    }
    assert ConsistentChannels(next);
    UnchangedTables(file, next);
    hide ConsistentMemberships, ConsistentMessages, ConsistentInvites, ConsistentGroups, ConsistentGroupMembers,
         ConsistentDesktops, ConsistentBots, ConsistentChannels;
  }

  // ------------------------------------------------------------ what no operation undoes

  predicate BotKept(a: Bot, b: Bot) {
    && a.id == b.id && a.owner == b.owner && a.name == b.name && a.kind == b.kind && a.created == b.created
    && (a.status == Archived ==> a == b)
  }

  predicate IsArchived(file: File, id: BotId) {
    exists b :: b in file.bots && b.id == id && b.status == Archived
  }

  /** Channels, bots and messages only grow; an archived bot stays as it is; and no message of
      a bot that was archived before is added. */
  predicate Kept(a: File, b: File) {
    && a.channels <= b.channels && a.messages <= b.messages && |a.bots| <= |b.bots|
    && (forall i | 0 <= i < |a.bots| :: BotKept(a.bots[i], b.bots[i]))
    && (forall k | |a.messages| <= k < |b.messages| :: !IsArchived(a, b.messages[k].bot))
  }

  lemma KeptReflexive(a: File)
    ensures Kept(a, a)
  {
  }

  lemma ArchivedStays(a: File, b: File, id: BotId)
    requires Kept(a, b) && IsArchived(a, id)
    ensures IsArchived(b, id)
  {
    var x :| x in a.bots && x.id == id && x.status == Archived;
    var i :| 0 <= i < |a.bots| && a.bots[i] == x;
    assert b.bots[i] in b.bots;
  }

  lemma KeptTransitive(a: File, b: File, c: File)
    requires Kept(a, b) && Kept(b, c)
    ensures Kept(a, c)
  {
    forall k | |a.messages| <= k < |c.messages| ensures !IsArchived(a, c.messages[k].bot) {
      if k < |b.messages| {
        assert c.messages[k] == b.messages[k];
      } else if IsArchived(a, c.messages[k].bot) {
        ArchivedStays(a, b, c.messages[k].bot);
      }
    }
    forall i | 0 <= i < |a.bots| ensures BotKept(a.bots[i], c.bots[i]) {
      assert BotKept(a.bots[i], b.bots[i]) && BotKept(b.bots[i], c.bots[i]);
    }
  }

  /** A label names one bot of its owner, now and later. */
  lemma SameLabelSameId(a: File, b: File, x: Bot, y: Bot)
    requires Kept(a, b) && WellFormed(b) && x in a.bots && y in b.bots && x.owner == y.owner && x.name == y.name
    ensures x.id == y.id
  {
    var i :| 0 <= i < |a.bots| && a.bots[i] == x;
    assert BotKept(a.bots[i], b.bots[i]);
    assert b.bots[i] in b.bots;
    SameBot(b, b.bots[i], y);
  }
}
