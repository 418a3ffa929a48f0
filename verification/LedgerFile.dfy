/** The forum ledger's file (lib/forum.ts:861-1113): nine cross-referenced tables, the parser
    that admits them, and what a well-formed file is. */
module LedgerFile {
  import opened Identity

  const CHAT_BODY_MAX := 280
  const MAX_THINKING := 64
  const MAX_HANDLES := 32
  const MAX_SEQ := 1000000000

  // ------------------------------------------------------------ spellings

  /** An address in some spelling; spelling 0 is the checksummed one. */
  datatype Account = Account(address: nat, spelling: nat) | NotAnAccount(text: nat)

  function Checksum(a: Account): Option<Account> {
    if a.Account? then Some(Account(a.address, 0)) else None
  }

  /** A label, session, handle or line of text in some spelling; 0 is the cleaned one. */
  datatype Text = Text(content: nat, spelling: nat) | BadText(text: nat)

  function Clean(t: Text): Option<Text> {
    if t.Text? then Some(Text(t.content, 0)) else None
  }

  datatype ChannelId = ChannelOf(owner: Account) | OtherChannel(text: nat)
  datatype BotId = BotIdOf(owner: Account, suffix: nat) | OtherBot(text: nat)
  datatype GroupId = GroupIdOf(owner: Account, suffix: nat) | OtherGroup(text: nat)
  datatype MessageId = MessageIdOf(owner: Account, ts: int, suffix: nat) | OtherMessage(text: nat) | BlankMessage

  // ------------------------------------------------------------ rows

  datatype Channel = Channel(id: ChannelId, owner: Account, created: int)
  datatype BotKind = Robot | CloudAgent
  datatype BotStatus = Active | Archived
  datatype Bot = Bot(id: BotId, owner: Account, name: Text, kind: BotKind, status: BotStatus, created: int,
                     archivedAt: Option<int>)
  datatype Membership = Membership(channel: ChannelId, bot: BotId, owner: Account, joined: int)
  datatype Message = Message(id: MessageId, channel: ChannelId, owner: Account, bot: BotId, body: nat, bodyLength: nat,
                             ts: int)
  datatype Invite = Invite(channel: ChannelId, guest: Account, created: int)
  datatype Group = Group(id: GroupId, owner: Account, channel: ChannelId, name: Text, created: int)
  datatype GroupMember = GroupMember(group: GroupId, member: Account, joined: int)
  datatype Snapshot = Snapshot(handle: Text, number: int)
  datatype Desktop = Desktop(channel: ChannelId, session: Text, snapshot: Option<Snapshot>,
                             thinking: seq<Text>, files: seq<Text>, secrets: seq<Text>, updated: int)

  datatype File = File(
    channels: seq<Channel>, bots: seq<Bot>, memberships: seq<Membership>, messages: seq<Message>,
    invites: seq<Invite>, groups: seq<Group>, groupMembers: seq<GroupMember>, desktops: seq<Desktop>)

  // ------------------------------------------------------------ the converters

  predicate IsTime(t: int) {
    t >= 0
  }

  function AsChannel(c: Channel): Option<Channel> {
    if Checksum(c.owner).None? || c.id != ChannelOf(Checksum(c.owner).value) || !IsTime(c.created) then None
    else Some(c.(owner := Checksum(c.owner).value))
  }

  function AsBot(b: Bot): Option<Bot> {
    var owner := Checksum(b.owner);
    if owner.None? || Clean(b.name) != Some(b.name) || !b.id.BotIdOf? || b.id.owner != owner.value ||
       !IsTime(b.created) then None
    else if b.status == Active && b.archivedAt.Some? then None
    else if b.status == Archived && (b.archivedAt.None? || !IsTime(b.archivedAt.value)) then None
    else Some(b.(owner := owner.value))
  }

  function AsMembership(m: Membership): Option<Membership> {
    if Checksum(m.owner).None? || !IsTime(m.joined) then None else Some(m.(owner := Checksum(m.owner).value))
  }

  function AsMessage(m: Message): Option<Message> {
    if Checksum(m.owner).None? || m.id.BlankMessage? || m.bodyLength == 0 || m.bodyLength > CHAT_BODY_MAX ||
       !IsTime(m.ts) then None
    else Some(m.(owner := Checksum(m.owner).value))
  }

  function AsInvite(i: Invite): Option<Invite> {
    if Checksum(i.guest).None? || !IsTime(i.created) then None else Some(i.(guest := Checksum(i.guest).value))
  }

  function AsGroup(g: Group): Option<Group> {
    if Checksum(g.owner).None? || Clean(g.name) != Some(g.name) || !IsTime(g.created) then None
    else Some(g.(owner := Checksum(g.owner).value))
  }

  function AsGroupMember(m: GroupMember): Option<GroupMember> {
    if Checksum(m.member).None? || !IsTime(m.joined) then None else Some(m.(member := Checksum(m.member).value))
  }

  predicate IsSnapshot(s: Snapshot) {
    Clean(s.handle) == Some(s.handle) && 1 <= s.number <= MAX_SEQ
  }

  function AsSnapshot(s: Snapshot): Option<Snapshot> {
    if Clean(s.handle).None? || !IsSnapshot(s.(handle := Clean(s.handle).value)) then None
    else Some(s.(handle := Clean(s.handle).value))
  }

  function AsDesktop(d: Desktop): Option<Desktop> {
    var session, thinking, files, secrets := Clean(d.session), CleanAll(d.thinking, MAX_THINKING),
        CleanAll(d.files, MAX_HANDLES), CleanAll(d.secrets, MAX_HANDLES);
    if !d.channel.ChannelOf? || session.None? || !IsTime(d.updated) then None
    else if d.snapshot.Some? && AsSnapshot(d.snapshot.value).None? then None
    else if thinking.None? || files.None? || secrets.None? then None
    else Some(Desktop(d.channel, session.value, if d.snapshot.Some? then AsSnapshot(d.snapshot.value) else None,
                      thinking.value, files.value, secrets.value, d.updated))
  }

  function CleanAll(rows: seq<Text>, limit: nat): Option<seq<Text>> {
    if |rows| > limit then None else Converted(rows, Clean)
  }

  /** Every row converted, or none. */
  function Converted<T, U>(rows: seq<T>, f: T -> Option<U>): Option<seq<U>> {
    if rows == [] then Some([])
    else
      var first, rest := f(rows[0]), Converted(rows[1..], f);
      if first.None? || rest.None? then None else Some([first.value] + rest.value)
  }

  function Before<U>(done: seq<U>, rest: Option<seq<U>>): Option<seq<U>> {
    if rest.None? then None else Some(done + rest.value)
  }

  /** The loop that each table of the parser runs. */
  method ConvertRows<T, U>(rows: seq<T>, f: T -> Option<U>) returns (r: Option<seq<U>>)
    ensures r == Converted(rows, f)
  {
    var out: seq<U> := [];
    assert rows[0..] == rows;
    if Converted(rows, f).Some? {
      assert [] + Converted(rows, f).value == Converted(rows, f).value;
    }
    for i := 0 to |rows|
      invariant Converted(rows, f) == Before(out, Converted(rows[i..], f))
    {
      assert rows[i..][1..] == rows[i + 1..];
      var next := f(rows[i]);
      if next.None? {
        return None;
      }
      ghost var rest := Converted(rows[i + 1..], f);
      if rest.Some? {
        assert out + ([next.value] + rest.value) == (out + [next.value]) + rest.value;
      }
      out := out + [next.value];
    }
    assert rows[|rows|..] == [];
    assert out + [] == out;
    return Some(out);
  }

  // ------------------------------------------------------------ consistency

  predicate Unique<T, K(==)>(rows: seq<T>, key: T -> K) {
    forall i, j :: 0 <= i < j < |rows| ==> key(rows[i]) != key(rows[j])
  }

  predicate HasChannel(file: File, id: ChannelId, owner: Account) {
    exists c :: c in file.channels && c.id == id && c.owner == owner
  }

  predicate HasBot(file: File, id: BotId, owner: Account) {
    exists b :: b in file.bots && b.id == id && b.owner == owner
  }

  predicate AnyChannel(file: File, id: ChannelId) {
    exists c :: c in file.channels && c.id == id
  }

  predicate HasGroupFor(file: File, id: GroupId, member: Account) {
    exists g :: g in file.groups && g.id == id && g.owner != member
  }

  predicate ConsistentChannels(file: File) {
    Unique(file.channels, (c: Channel) => c.owner) && Unique(file.channels, (c: Channel) => c.id)
  }

  predicate ConsistentBots(file: File) {
    && Unique(file.bots, (b: Bot) => b.id) && Unique(file.bots, (b: Bot) => (b.owner, b.name))
    && forall b | b in file.bots :: b.id.BotIdOf? && b.id.owner == b.owner
  }

  predicate ConsistentMemberships(file: File) {
    && Unique(file.memberships, (m: Membership) => (m.channel, m.bot))
    && forall m | m in file.memberships :: HasChannel(file, m.channel, m.owner) && HasBot(file, m.bot, m.owner)
  }

  predicate ConsistentMessages(file: File) {
    && Unique(file.messages, (m: Message) => m.id)
    && forall m | m in file.messages :: AnyChannel(file, m.channel) && HasBot(file, m.bot, m.owner)
  }

  predicate ConsistentInvites(file: File) {
    && Unique(file.invites, (i: Invite) => (i.channel, i.guest))
    && forall i | i in file.invites :: exists c :: c in file.channels && c.id == i.channel && c.owner != i.guest
  }

  predicate ConsistentGroups(file: File) {
    && Unique(file.groups, (g: Group) => g.id) && Unique(file.groups, (g: Group) => (g.owner, g.name))
    && forall g | g in file.groups :: g.id.GroupIdOf? && g.id.owner == g.owner && HasChannel(file, g.channel, g.owner)
  }

  predicate ConsistentGroupMembers(file: File) {
    && Unique(file.groupMembers, (m: GroupMember) => (m.group, m.member))
    && forall m | m in file.groupMembers :: HasGroupFor(file, m.group, m.member)
  }

  predicate ConsistentDesktops(file: File) {
    && Unique(file.desktops, (d: Desktop) => d.channel)
    && forall d | d in file.desktops ::
         AnyChannel(file, d.channel) && Clean(d.session).Some? && (d.snapshot.Some? ==> IsSnapshot(d.snapshot.value))
  }

  predicate Consistent(file: File) {
    && ConsistentChannels(file) && ConsistentBots(file) && ConsistentMemberships(file) && ConsistentMessages(file)
    && ConsistentInvites(file) && ConsistentGroups(file) && ConsistentGroupMembers(file) && ConsistentDesktops(file)
  }

  datatype Load = Unreadable | Loaded(file: File)

  function Parse(file: File): Load {
    var channels, bots, memberships, messages := Converted(file.channels, AsChannel), Converted(file.bots, AsBot),
        Converted(file.memberships, AsMembership), Converted(file.messages, AsMessage);
    var invites, groups, members, desktops := Converted(file.invites, AsInvite), Converted(file.groups, AsGroup),
        Converted(file.groupMembers, AsGroupMember), Converted(file.desktops, AsDesktop);
    if channels.None? || bots.None? || memberships.None? || messages.None? || invites.None? || groups.None? ||
       members.None? || desktops.None?
    then Unreadable
    else
      var parsed := File(channels.value, bots.value, memberships.value, messages.value, invites.value, groups.value,
                         members.value, desktops.value);
      if Consistent(parsed) then Loaded(parsed) else Unreadable
  }

  // ------------------------------------------------------------ the loops of the consistency check

  method UniqueKeys<T, K(==)>(rows: seq<T>, key: T -> K) returns (ok: bool)
    ensures ok == Unique(rows, key)
  {
    var keys: set<K> := {};
    for i := 0 to |rows|
      invariant forall j | 0 <= j < i :: key(rows[j]) in keys
      invariant forall k | k in keys :: exists j :: 0 <= j < i && key(rows[j]) == k
      invariant Unique(rows[..i], key)
    {
      if key(rows[i]) in keys {
        return false;
      }
      keys := keys + {key(rows[i])};
    }
    assert rows[..|rows|] == rows;
    return true;
  }

  method FindChannel(channels: seq<Channel>, id: ChannelId) returns (found: Option<Channel>)
    ensures found.Some? ==> found.value in channels && found.value.id == id
    ensures found.None? ==> forall c | c in channels :: c.id != id
  {
    for i := 0 to |channels|
      invariant forall c | c in channels[..i] :: c.id != id
    {
      if channels[i].id == id {
        return Some(channels[i]);
      }
    }
    return None;
  }

  method FindBot(bots: seq<Bot>, id: BotId) returns (found: Option<Bot>)
    ensures found.Some? ==> found.value in bots && found.value.id == id
    ensures found.None? ==> forall b | b in bots :: b.id != id
  {
    for i := 0 to |bots|
      invariant forall b | b in bots[..i] :: b.id != id
    {
      if bots[i].id == id {
        return Some(bots[i]);
      }
    }
    return None;
  }

  method FindGroup(groups: seq<Group>, id: GroupId) returns (found: Option<Group>)
    ensures found.Some? ==> found.value in groups && found.value.id == id
    ensures found.None? ==> forall g | g in groups :: g.id != id
  {
    for i := 0 to |groups|
      invariant forall g | g in groups[..i] :: g.id != id
    {
      if groups[i].id == id {
        return Some(groups[i]);
      }
    }
    return None;
  }

  lemma UniqueValue<T, K>(rows: seq<T>, key: T -> K, a: T, b: T)
    requires Unique(rows, key) && a in rows && b in rows && key(a) == key(b)
    ensures a == b
  {
    var i :| 0 <= i < |rows| && rows[i] == a;
    var j :| 0 <= j < |rows| && rows[j] == b;
  }

  lemma SameChannel(file: File, a: Channel, b: Channel)
    requires ConsistentChannels(file) && a in file.channels && b in file.channels
    ensures a.id == b.id || a.owner == b.owner ==> a == b
  {
    if a.id == b.id { UniqueValue(file.channels, (c: Channel) => c.id, a, b); }
    if a.owner == b.owner { UniqueValue(file.channels, (c: Channel) => c.owner, a, b); }
  }

  lemma SameBot(file: File, a: Bot, b: Bot)
    requires ConsistentBots(file) && a in file.bots && b in file.bots
    ensures a.id == b.id || (a.owner == b.owner && a.name == b.name) ==> a == b
  {
    if a.id == b.id { UniqueValue(file.bots, (c: Bot) => c.id, a, b); }
    if a.owner == b.owner && a.name == b.name { UniqueValue(file.bots, (c: Bot) => (c.owner, c.name), a, b); }
  }

  lemma SameGroup(file: File, a: Group, b: Group)
    requires ConsistentGroups(file) && a in file.groups && b in file.groups && a.id == b.id
    ensures a == b
  {
    UniqueValue(file.groups, (c: Group) => c.id, a, b);
  }

  /** The first channel with an id is the only one. */
  lemma OnlyChannel(file: File, found: Option<Channel>, id: ChannelId)
    requires ConsistentChannels(file)
    requires found.Some? ==> found.value in file.channels && found.value.id == id
    requires found.None? ==> forall c | c in file.channels :: c.id != id
    ensures AnyChannel(file, id) <==> found.Some?
    ensures forall owner :: HasChannel(file, id, owner) <==> found.Some? && found.value.owner == owner
    ensures forall c | c in file.channels && c.id == id :: found == Some(c)
  {
    forall c | c in file.channels && c.id == id ensures found == Some(c) {
      if found.Some? { SameChannel(file, found.value, c); }
    }
  }

  lemma OnlyBot(file: File, found: Option<Bot>, id: BotId)
    requires ConsistentBots(file)
    requires found.Some? ==> found.value in file.bots && found.value.id == id
    requires found.None? ==> forall b | b in file.bots :: b.id != id
    ensures forall owner :: HasBot(file, id, owner) <==> found.Some? && found.value.owner == owner
  {
    forall b | b in file.bots && b.id == id ensures found == Some(b) {
      if found.Some? { SameBot(file, found.value, b); }
    }
  }

  lemma OnlyGroup(file: File, found: Option<Group>, id: GroupId)
    requires ConsistentGroups(file)
    requires found.Some? ==> found.value in file.groups && found.value.id == id
    requires found.None? ==> forall g | g in file.groups :: g.id != id
    ensures forall member :: HasGroupFor(file, id, member) <==> found.Some? && found.value.owner != member
  {
    forall g | g in file.groups && g.id == id ensures found == Some(g) {
      if found.Some? { SameGroup(file, found.value, g); }
    }
  }

  method CheckBots(file: File) returns (ok: bool)
    ensures ok == ConsistentBots(file)
  {
    var ids := UniqueKeys(file.bots, (b: Bot) => b.id);
    var labels := UniqueKeys(file.bots, (b: Bot) => (b.owner, b.name));
    if !ids || !labels {
      return false;
    }
    for i := 0 to |file.bots|
      invariant forall b | b in file.bots[..i] :: b.id.BotIdOf? && b.id.owner == b.owner
    {
      if !file.bots[i].id.BotIdOf? || file.bots[i].id.owner != file.bots[i].owner {
        assert file.bots[i] in file.bots;
        return false;
      }
    }
    return true;
  }

  method CheckMemberships(file: File) returns (ok: bool)
    requires ConsistentChannels(file) && ConsistentBots(file)
    ensures ok == ConsistentMemberships(file)
  {
    hide ConsistentChannels, ConsistentBots, HasChannel, HasBot, Unique;
    ok := UniqueKeys(file.memberships, (m: Membership) => (m.channel, m.bot));
    if !ok {
      return;
    }
    for i := 0 to |file.memberships|
      invariant forall m | m in file.memberships[..i] ::
                HasChannel(file, m.channel, m.owner) && HasBot(file, m.bot, m.owner)
    {
      var m := file.memberships[i];
      var channel := FindChannel(file.channels, m.channel);
      var bot := FindBot(file.bots, m.bot);
      OnlyChannel(file, channel, m.channel);
      OnlyBot(file, bot, m.bot);
      if channel.None? || bot.None? || channel.value.owner != m.owner || bot.value.owner != m.owner {
        assert m in file.memberships;
        return false;
      }
    }
  }

  method CheckMessages(file: File) returns (ok: bool)
    requires ConsistentChannels(file) && ConsistentBots(file)
    ensures ok == ConsistentMessages(file)
  {
    hide ConsistentChannels, ConsistentBots, AnyChannel, HasBot, Unique;
    ok := UniqueKeys(file.messages, (m: Message) => m.id);
    if !ok {
      return;
    }
    for i := 0 to |file.messages|
      invariant forall m | m in file.messages[..i] :: AnyChannel(file, m.channel) && HasBot(file, m.bot, m.owner)
    {
      var m := file.messages[i];
      var channel := FindChannel(file.channels, m.channel);
      var bot := FindBot(file.bots, m.bot);
      OnlyChannel(file, channel, m.channel);
      OnlyBot(file, bot, m.bot);
      if channel.None? || bot.None? || bot.value.owner != m.owner {
        assert m in file.messages;
        return false;
      }
    }
  }

  method CheckInvites(file: File) returns (ok: bool)
    requires ConsistentChannels(file)
    ensures ok == ConsistentInvites(file)
  {
    hide ConsistentChannels, Unique;
    ok := UniqueKeys(file.invites, (i: Invite) => (i.channel, i.guest));
    if !ok {
      return;
    }
    for k := 0 to |file.invites|
      invariant forall i | i in file.invites[..k] :: exists c ::
                c in file.channels && c.id == i.channel && c.owner != i.guest
    {
      var i := file.invites[k];
      var channel := FindChannel(file.channels, i.channel);
      OnlyChannel(file, channel, i.channel);
      if channel.None? || channel.value.owner == i.guest {
        assert i in file.invites;
        return false;
      }
    }
  }

  method CheckGroups(file: File) returns (ok: bool)
    requires ConsistentChannels(file)
    ensures ok == ConsistentGroups(file)
  {
    hide ConsistentChannels, HasChannel, Unique;
    var ids := UniqueKeys(file.groups, (g: Group) => g.id);
    var labels := UniqueKeys(file.groups, (g: Group) => (g.owner, g.name));
    if !ids || !labels {
      return false;
    }
    for i := 0 to |file.groups|
      invariant forall g | g in file.groups[..i] ::
                g.id.GroupIdOf? && g.id.owner == g.owner && HasChannel(file, g.channel, g.owner)
    {
      var g := file.groups[i];
      var channel := FindChannel(file.channels, g.channel);
      OnlyChannel(file, channel, g.channel);
      if !g.id.GroupIdOf? || g.id.owner != g.owner || channel.None? || channel.value.owner != g.owner {
        assert g in file.groups;
        return false;
      }
    }
    return true;
  }

  method CheckGroupMembers(file: File) returns (ok: bool)
    requires ConsistentGroups(file)
    ensures ok == ConsistentGroupMembers(file)
  {
    hide ConsistentGroups, HasGroupFor, Unique;
    ok := UniqueKeys(file.groupMembers, (m: GroupMember) => (m.group, m.member));
    if !ok {
      return;
    }
    for i := 0 to |file.groupMembers|
      invariant forall m | m in file.groupMembers[..i] :: HasGroupFor(file, m.group, m.member)
    {
      var m := file.groupMembers[i];
      var group := FindGroup(file.groups, m.group);
      OnlyGroup(file, group, m.group);
      if group.None? || group.value.owner == m.member {
        assert m in file.groupMembers;
        return false;
      }
    }
  }

  method CheckDesktops(file: File) returns (ok: bool)
    ensures ok == ConsistentDesktops(file)
  {
    hide Unique;
    ok := UniqueKeys(file.desktops, (d: Desktop) => d.channel);
    if !ok {
      return;
    }
    for i := 0 to |file.desktops|
      invariant forall d | d in file.desktops[..i] ::
                  AnyChannel(file, d.channel) && Clean(d.session).Some? &&
                    (d.snapshot.Some? ==> IsSnapshot(d.snapshot.value))
    {
      var d := file.desktops[i];
      var channel := FindChannel(file.channels, d.channel);
      if channel.None? || Clean(d.session).None? || (d.snapshot.Some? && !IsSnapshot(d.snapshot.value)) {
        assert d in file.desktops;
        return false;
      }
    }
  }

  /** The whole check, table after table. */
  method FileIsConsistent(file: File) returns (ok: bool)
    ensures ok == Consistent(file)
  {
    hide Unique, ConsistentBots, ConsistentMemberships, ConsistentMessages, ConsistentInvites, ConsistentGroups,
         ConsistentGroupMembers, ConsistentDesktops;
    var owners := UniqueKeys(file.channels, (c: Channel) => c.owner);
    var ids := UniqueKeys(file.channels, (c: Channel) => c.id);
    if !owners || !ids {
      return false;
    }
    ok := CheckBots(file);
    if ok { ok := CheckMemberships(file); }
    if ok { ok := CheckMessages(file); }
    if ok { ok := CheckInvites(file); }
    if ok { ok := CheckGroups(file); }
    if ok { ok := CheckGroupMembers(file); }
    if ok { ok := CheckDesktops(file); }
  }

  method ParseForumFile(file: File) returns (r: Load)
    ensures r == Parse(file)
  {
    hide Consistent, AsChannel, AsBot, AsMembership, AsMessage, AsInvite, AsGroup, AsGroupMember, AsDesktop, Converted;
    var channels := ConvertRows(file.channels, AsChannel);
    var bots := ConvertRows(file.bots, AsBot);
    var memberships := ConvertRows(file.memberships, AsMembership);
    var messages := ConvertRows(file.messages, AsMessage);
    var invites := ConvertRows(file.invites, AsInvite);
    var groups := ConvertRows(file.groups, AsGroup);
    var members := ConvertRows(file.groupMembers, AsGroupMember);
    var desktops := ConvertRows(file.desktops, AsDesktop);
    if channels.None? || bots.None? || memberships.None? || messages.None? || invites.None? || groups.None? ||
       members.None? || desktops.None? {
      return Unreadable;
    }
    var parsed := File(channels.value, bots.value, memberships.value, messages.value, invites.value, groups.value,
                       members.value, desktops.value);
    var ok := FileIsConsistent(parsed);
    return if ok then Loaded(parsed) else Unreadable;
  }
}
