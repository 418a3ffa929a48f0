/** The forum ledger (lib/forum.ts:332-721): eleven operations that load the file, change its
    tables in place and save it. A file is saved well formed exactly when its time stamp is
    not negative; nothing that was said is ever unsaid. */
module Ledger {
  import opened Identity
  import opened LedgerFile
  import opened LedgerRules

  datatype Reason =
    | BadOwner | BadLabel | StoreUnreadable | KindMismatch | BadEntropy | UnknownBot | LabelTaken
    | ArchivedBot | BadBody | UnknownChannel | NotInvited | NotMember | BadGuest | UnknownGroup | BadMember
    | BadDesktop | BadSnapshot

  datatype Result<T> = Denied(reason: Reason) | Granted(value: T)

  /** One operation as the store sees it. `after` is the file the answer is about. */
  ghost predicate Step(before: File, stored: File, after: File, stamp: Option<int>) {
    match Parse(before)
    case Unreadable => stored == before && after == before
    case Loaded(file) =>
      && Kept(file, after)
      && ((stored == before && after == file) ||
          (stored == after && Parse(after) == if stamp.None? || IsTime(stamp.value) then Loaded(after) else Unreadable))
  }

  /** The file that is read from a store. */
  function View(stored: File): File {
    match Parse(stored)
    case Unreadable => stored
    case Loaded(file) => file
  }

  lemma NothingSaved(before: File, stamp: Option<int>)
    ensures Step(before, before, View(before), stamp)
  {
    if Parse(before).Loaded? {
      KeptReflexive(Parse(before).file);
    }
  }

  lemma SavedStep(before: File, after: File, stamp: Option<int>)
    requires Parse(before).Loaded? && Kept(Parse(before).file, after) && Proper(after)
    requires CanonicalRows(after) <==> stamp.None? || IsTime(stamp.value)
    ensures Step(before, after, after, stamp)
  {
    ProperParses(after);
    hide Parse, Proper, CanonicalRows;
  }

  // ------------------------------------------------------------ who sees what

  predicate CanSee(file: File, actor: Account, channel: Channel) {
    || channel.owner == actor
    || (exists i :: i in file.invites && i.channel == channel.id && i.guest == actor)
    || InGroupFor(file, actor, channel.id)
  }

  predicate InGroupFor(file: File, actor: Account, id: ChannelId) {
    exists m :: m in file.groupMembers && m.member == actor && exists g ::
      g in file.groups && g.id == m.group && g.channel == id
  }

  predicate IsMember(file: File, channel: ChannelId, bot: BotId) {
    exists m :: m in file.memberships && m.channel == channel && m.bot == bot
  }

  /** An invitation admits its guest to its channel, and nobody else to anything. */
  lemma InviteAdmits(file: File, row: Invite, actor: Account, channel: Channel)
    ensures CanSee(file.(invites := file.invites + [row]), actor, channel) <==>
              CanSee(file, actor, channel) || (row.guest == actor && row.channel == channel.id)
  {
    var next := file.(invites := file.invites + [row]);
    if exists i :: i in file.invites && i.channel == channel.id && i.guest == actor {
      var i :| i in file.invites && i.channel == channel.id && i.guest == actor;
      assert i in next.invites;
    }
    assert row in next.invites;
    assert InGroupFor(next, actor, channel.id) == InGroupFor(file, actor, channel.id);
  }

  /** Withdrawing an invitation leaves its guest only what groups and ownership give. */
  lemma UninviteAdmits(file: File, id: ChannelId, guest: Account, actor: Account, channel: Channel)
    requires WellFormed(file)
    ensures var next := file.(invites := Filtered(file.invites, (i: Invite) => !(i.channel == id && i.guest == guest)));
            CanSee(next, actor, channel) <==>
              if actor == guest && channel.id == id then channel.owner == actor || InGroupFor(file, actor, id)
              else CanSee(file, actor, channel)
  {
    var keep := (i: Invite) => !(i.channel == id && i.guest == guest);
    var next := file.(invites := Filtered(file.invites, keep));
    FilteredFacts(file.invites, keep, (i: Invite) => (i.channel, i.guest));
    hide Filtered, Unique;
    assert InGroupFor(next, actor, channel.id) == InGroupFor(file, actor, channel.id);
  }

  // ------------------------------------------------------------ the operations

  /** The channels, with one for this owner. */
  function Housed(channels: seq<Channel>, owner: Account, now: int): seq<Channel> {
    if exists c :: c in channels && c.owner == owner then channels
       else channels + [Channel(ChannelOf(owner), owner, now)]
  }

  /** A label that is known is registered for its own kind, and a new one needs a free id. */
  predicate MayRegister(file: File, owner: Option<Account>, name: Option<Text>, kind: Option<BotKind>,
                        entropy: Option<nat>) {
    && owner.Some? && name.Some?
    && (forall b | b in file.bots && b.owner == owner.value && b.name == name.value ::
          kind.None? || b.kind == kind.value)
    && ((forall b | b in file.bots :: b.owner != owner.value || b.name != name.value) ==>
          entropy.Some? && forall b | b in file.bots :: b.id != BotIdOf(owner.value, entropy.value))
  }

  /** The bots under one owner and id: there is one, and all are active. */
  predicate HasActiveBot(file: File, owner: Account, id: BotId) {
    && (exists b :: b in file.bots && b.owner == owner && b.id == id)
    && (forall b | b in file.bots && b.owner == owner && b.id == id :: b.status == Active)
  }

  predicate HasHome(file: File, owner: Account) {
    exists c :: c in file.channels && c.owner == owner
  }

  predicate HasGroup(file: File, owner: Account, id: GroupId) {
    exists g :: g in file.groups && g.owner == owner && g.id == id
  }

  /** The source is the owner's, the label is not taken, and the new id is free. */
  predicate MayCopy(file: File, owner: Option<Account>, source: BotId, name: Option<Text>, entropy: Option<nat>) {
    && owner.Some? && name.Some? && entropy.Some?
    && (exists b :: b in file.bots && b.owner == owner.value && b.id == source)
    && (forall b | b in file.bots :: b.owner != owner.value || b.name != name.value)
    && (forall b | b in file.bots :: b.id != BotIdOf(owner.value, entropy.value))
  }

  predicate MayArchive(file: File, owner: Option<Account>, id: BotId) {
    owner.Some? && exists b :: b in file.bots && b.owner == owner.value && b.id == id
  }

  /** An active bot speaks where it was asked to, if its owner sees that channel, and if it is a
      member at home. The text is neither empty nor too long, and the new id is free. */
  predicate MayPost(file: File, owner: Option<Account>, id: BotId, bodyLength: nat, requested: Option<ChannelId>,
                    now: int, entropy: Option<nat>) {
    && owner.Some? && 0 < bodyLength <= CHAT_BODY_MAX && entropy.Some?
    && HasActiveBot(file, owner.value, id)
    && HasHome(file, owner.value) && IsMember(file, ChannelOf(owner.value), id)
    && (requested.Some? ==>
          && (exists c :: c in file.channels && c.id == requested.value)
          && (forall c | c in file.channels && c.id == requested.value :: CanSee(file, owner.value, c)))
    && (forall m | m in file.messages :: m.id != MessageIdOf(owner.value, now, entropy.value))
  }

  /** The group is known by its label, or its new id is free. */
  predicate MayGather(file: File, owner: Option<Account>, name: Option<Text>, entropy: Option<nat>) {
    && owner.Some? && name.Some?
    && ((exists g :: g in file.groups && g.owner == owner.value && g.name == name.value) ||
        (entropy.Some? && forall g | g in file.groups :: g.id != GroupIdOf(owner.value, entropy.value)))
  }

  predicate Others(owner: Option<Account>, other: Option<Account>) {
    owner.Some? && other.Some? && other != owner
  }

  class Forum {
    var stored: File

    constructor (stored: File)
      ensures this.stored == stored
    {
      this.stored := stored;
    }

    /** A loaded file is well formed, whatever the store held. */
    method Load() returns (r: Load)
      ensures r == Parse(stored)
      ensures r.Loaded? ==> Proper(r.file) && CanonicalRows(r.file) && View(stored) == r.file
    {
      hide Proper, CanonicalRows;
      r := ParseForumFile(stored);
      if r.Loaded? {
        ParsedIsWellFormed(stored);
        WellFormedIsProper(r.file);
      }
    }

    static method ChannelFor(file: File, owner: Account) returns (found: Option<Channel>)
      ensures found.Some? ==> found.value in file.channels && found.value.owner == owner
      ensures found.None? ==> forall c | c in file.channels :: c.owner != owner
    {
      for i := 0 to |file.channels|
        invariant forall c | c in file.channels[..i] :: c.owner != owner
      {
        if file.channels[i].owner == owner {
          return Some(file.channels[i]);
        }
      }
      return None;
    }

    /** The owner's channel, pushed onto the table when there is none yet. */
    static method EnsureChannel(file: File, owner: Account, now: int) returns (next: File, channel: Channel)
      requires Proper(file) && IsOwner(owner)
      ensures channel in next.channels && channel.owner == owner && channel.id == ChannelOf(owner)
      ensures next == file || (next == file.(channels := file.channels + [channel]) && channel.created == now)
      ensures (exists c :: c in file.channels && c.owner == owner) <==> next == file
      ensures next.channels == Housed(file.channels, owner, now)
      ensures Proper(next) && Kept(file, next)
      ensures CanonicalRows(next) <==> CanonicalRows(file) && (next == file || IsTime(now))
    {
      hide CanonicalRows, Consistent;
      KeptReflexive(file);
      var found := ChannelFor(file, owner);
      if found.Some? {
        return file, found.value;
      }
      channel := Channel(ChannelOf(owner), owner, now);
      AddChannel(file, owner, now);
      next := file.(channels := file.channels + [channel]);
      assert channel in next.channels && channel !in file.channels;
    }

    static method BotFor(file: File, owner: Account, id: BotId) returns (found: Option<nat>)
      ensures found.Some? ==>
              found.value < |file.bots| && file.bots[found.value].id == id && file.bots[found.value].owner == owner
      ensures found.None? ==> forall b | b in file.bots :: b.id != id || b.owner != owner
    {
      for i := 0 to |file.bots|
        invariant forall b | b in file.bots[..i] :: b.id != id || b.owner != owner
      {
        if file.bots[i].id == id && file.bots[i].owner == owner {
          return Some(i);
        }
      }
      return None;
    }

    static method BotNamed(file: File, owner: Account, name: Text) returns (found: Option<Bot>)
      ensures found.Some? ==> found.value in file.bots && found.value.owner == owner && found.value.name == name
      ensures found.None? ==> forall b | b in file.bots :: b.owner != owner || b.name != name
    {
      for i := 0 to |file.bots|
        invariant forall b | b in file.bots[..i] :: b.owner != owner || b.name != name
      {
        if file.bots[i].owner == owner && file.bots[i].name == name {
          return Some(file.bots[i]);
        }
      }
      return None;
    }

    /** A new bot, unless its id is taken; its name must be free. */
    static method CreateBot(file: File, owner: Account, name: Text, kind: BotKind, now: int, suffix: nat)
      returns (next: File, bot: Option<Bot>)
      requires Proper(file) && IsOwner(owner) && Clean(name) == Some(name)
      requires forall b | b in file.bots :: b.owner != owner || b.name != name
      ensures bot.None? <==> exists b :: b in file.bots && b.id == BotIdOf(owner, suffix)
      ensures bot.Some? ==> bot.value == Bot(BotIdOf(owner, suffix), owner, name, kind, Active, now, None)
      ensures next == file.(bots := file.bots + if bot.Some? then [bot.value] else [])
      ensures bot.Some? ==>
              Proper(next) && Kept(file, next) && (CanonicalRows(next) <==> CanonicalRows(file) && IsTime(now))
    {
      hide CanonicalRows, Proper;
      var id := BotIdOf(owner, suffix);
      var taken := FindBot(file.bots, id);
      if taken.Some? {
        assert file.bots + [] == file.bots;
        return file, None;
      }
      var created := Bot(id, owner, name, kind, Active, now, None);
      AddBot(file, created);
      return file.(bots := file.bots + [created]), Some(created);
    }

    // ---------------------------------------------------------- bots

    /** Register a bot under its label. A known label gives the same bot back, whatever the
        entropy; a new one is created and joins its owner's channel. */
    method RegisterBot(rawOwner: Account, rawName: Text, kind: Option<BotKind>, now: int, entropy: Option<nat>)
      returns (r: Result<(Bot, Channel)>, ghost after: File)
      modifies this
      ensures Step(old(stored), stored, after, Some(now)) && (r.Denied? ==> stored == old(stored))
      ensures r.Granted? ==>
                var (bot, channel), file := r.value, View(old(stored));
                && Checksum(rawOwner) == Some(bot.owner) && Clean(rawName) == Some(bot.name)
                && bot in after.bots && channel in after.channels && channel.owner == bot.owner
                && after.channels == Housed(file.channels, bot.owner, now)
                && (bot in file.bots ==> after == file.(channels := after.channels))
                && (bot !in file.bots ==>
                      && (forall b | b in file.bots :: b.owner != bot.owner || b.name != bot.name)
                      && entropy.Some? && stored == after
                      && bot == Bot(BotIdOf(bot.owner, entropy.value), bot.owner, bot.name, if kind.Some? then
                                    kind.value else Robot, Active, now, None)
                      && after == file.(channels := after.channels, bots := file.bots + [bot],
                                        memberships := file.memberships +
                                          [Membership(channel.id, bot.id, bot.owner, now)]))
      ensures r.Granted? <==>
                Parse(old(stored)).Loaded? &&
                  MayRegister(View(old(stored)), Checksum(rawOwner), Clean(rawName), kind, entropy)
    {
      hide Proper, CanonicalRows, Step, Kept, Parse, View;
      after := View(stored);
      NothingSaved(stored, Some(now));
      var owner, name := Checksum(rawOwner), Clean(rawName);
      if owner.None? { return Denied(BadOwner), after; }
      if name.None? { return Denied(BadLabel), after; }
      var loaded := Load();
      if loaded.Unreadable? { return Denied(StoreUnreadable), after; }
      var file := loaded.file;
      var existing := BotNamed(file, owner.value, name.value);
      if existing.Some? && kind.Some? && existing.value.kind != kind.value { return Denied(KindMismatch), after; }
      if existing.Some? {
        KnownLabel(file, existing.value);
        var next, channel := EnsureChannel(file, owner.value, now);
        if next != file {
          SavedStep(stored, next, Some(now));
          stored, after := next, next;
        }
        return Granted((existing.value, channel)), after;
      }
      if entropy.None? { return Denied(BadEntropy), after; }
      var housed, channel := EnsureChannel(file, owner.value, now);
      var staffed, bot := CreateBot(housed, owner.value, name.value, if kind.Some? then kind.value else Robot, now,
                                    entropy.value);
      if bot.None? { return Denied(BadEntropy), after; }
      var row := Membership(channel.id, bot.value.id, owner.value, now);
      NewBotJoins(file, housed, staffed, channel, bot.value, row);
      stored := staffed.(memberships := staffed.memberships + [row]);
      SavedStep(old(stored), stored, Some(now));
      return Granted((bot.value, channel)), stored;
    }

    /** Copy a bot's kind under a new label. The copy joins nothing. */
    method CopyBot(rawOwner: Account, source: BotId, rawName: Text, now: int, entropy: Option<nat>)
      returns (r: Result<(Bot, Channel)>, ghost after: File)
      modifies this
      ensures Step(old(stored), stored, after, Some(now)) && (r.Denied? ==> stored == old(stored))
      ensures r.Granted? ==>
                var (bot, channel), file := r.value, View(old(stored));
                && bot !in file.bots && bot.id != source && bot.status == Active && bot.created == now &&
                   channel in after.channels
                && Checksum(rawOwner) == Some(bot.owner) && Clean(rawName) == Some(bot.name)
                && after.channels == Housed(file.channels, bot.owner, now)
                && (exists b ::
                      b in file.bots && b.id == source && b.owner == bot.owner && b.kind == bot.kind &&
                      b.name != bot.name)
                && after == file.(channels := after.channels, bots := file.bots + [bot])
      ensures r.Granted? <==>
                Parse(old(stored)).Loaded? &&
                  MayCopy(View(old(stored)), Checksum(rawOwner), source, Clean(rawName), entropy)
    {
      hide Proper, CanonicalRows, Step, Kept, Parse, View;
      after := View(stored);
      NothingSaved(stored, Some(now));
      var owner, name := Checksum(rawOwner), Clean(rawName);
      if owner.None? { return Denied(BadOwner), after; }
      if name.None? { return Denied(BadLabel), after; }
      var loaded := Load();
      if loaded.Unreadable? { return Denied(StoreUnreadable), after; }
      var file := loaded.file;
      var found := BotFor(file, owner.value, source);
      if found.None? { return Denied(UnknownBot), after; }
      var original := file.bots[found.value];
      var taken := BotNamed(file, owner.value, name.value);
      if taken.Some? { return Denied(LabelTaken), after; }
      if entropy.None? { return Denied(BadEntropy), after; }
      var housed, channel := EnsureChannel(file, owner.value, now);
      var next, bot := CreateBot(housed, owner.value, name.value, original.kind, now, entropy.value);
      if bot.None? { return Denied(BadEntropy), after; }
      assert original in file.bots;
      KeptTransitive(file, housed, next);
      stored := next;
      SavedStep(old(stored), stored, Some(now));
      return Granted((bot.value, channel)), stored;
    }

    /** Archive a bot for good; everything it said stays. */
    method ArchiveBot(rawOwner: Account, id: BotId, now: int) returns (r: Result<Bot>, ghost after: File)
      modifies this
      ensures Step(old(stored), stored, after, Some(now)) && (r.Denied? ==> stored == old(stored))
      ensures r.Granted? ==>
                && r.value in after.bots && r.value.id == id && r.value.status == Archived && IsArchived(after, id)
                && after == View(old(stored)).(bots := after.bots)
      ensures r.Granted? ==>
                var file := View(old(stored));
                exists i ::
                  && 0 <= i < |file.bots| && file.bots[i].id == id && Checksum(rawOwner) == Some(file.bots[i].owner)
                  && r.value == (if file.bots[i].status == Archived then file.bots[i]
                                 else file.bots[i].(status := Archived, archivedAt := Some(now)))
                  && after.bots == file.bots[i := r.value]
      ensures r.Granted? <==> Parse(old(stored)).Loaded? && MayArchive(View(old(stored)), Checksum(rawOwner), id)
    {
      hide Proper, CanonicalRows, Step, Kept, Parse, View;
      after := View(stored);
      NothingSaved(stored, Some(now));
      var owner := Checksum(rawOwner);
      if owner.None? { return Denied(BadOwner), after; }
      var loaded := Load();
      if loaded.Unreadable? { return Denied(StoreUnreadable), after; }
      var file := loaded.file;
      var found := BotFor(file, owner.value, id);
      if found.None? { return Denied(UnknownBot), after; }
      var i := found.value;
      if file.bots[i].status != Archived {
        var bot := file.bots[i].(status := Archived, archivedAt := Some(now));
        ArchiveKeeps(file, i, now);
        ArchivedIsKept(file, i, now);
        stored := file.(bots := file.bots[i := bot]);
        assert stored.bots[i] == bot;
        SavedStep(old(stored), stored, Some(now));
        return Granted(bot), stored;
      }
      return Granted(file.bots[i]), after;
    }

    /** An active bot becomes a member of its owner's channel. */
    method JoinBot(rawOwner: Account, id: BotId, now: int) returns (r: Result<(Bot, Channel)>, ghost after: File)
      modifies this
      ensures Step(old(stored), stored, after, Some(now)) && (r.Denied? ==> stored == old(stored))
      ensures r.Granted? ==>
                var (bot, channel), file := r.value, View(old(stored));
                && bot in file.bots && bot.id == id && bot.status == Active && channel.owner == bot.owner
                && IsMember(after, channel.id, id)
                && after == file.(channels := after.channels, memberships := after.memberships)
                && (after.memberships == file.memberships ||
                    after.memberships == file.memberships + [Membership(channel.id, id, bot.owner, now)])
      ensures r.Granted? ==> after.channels == Housed(View(old(stored)).channels, r.value.0.owner, now)
      ensures r.Granted? <==>
                Parse(old(stored)).Loaded? && Checksum(rawOwner).Some? &&
                  HasActiveBot(View(old(stored)), Checksum(rawOwner).value, id)
    {
      hide Proper, CanonicalRows, Step, Kept, Parse, View;
      after := View(stored);
      NothingSaved(stored, Some(now));
      var owner := Checksum(rawOwner);
      if owner.None? { return Denied(BadOwner), after; }
      var loaded := Load();
      if loaded.Unreadable? { return Denied(StoreUnreadable), after; }
      var file := loaded.file;
      var found := BotFor(file, owner.value, id);
      if found.None? { return Denied(UnknownBot), after; }
      var bot := file.bots[found.value];
      if bot.status != Active { return Denied(ArchivedBot), after; }
      ActiveUnderItsId(file, bot);
      var housed, channel := EnsureChannel(file, owner.value, now);
      if IsMember(housed, channel.id, id) {
        MembersHaveChannels(file, housed, channel, id, owner.value);
        return Granted((bot, channel)), after;
      }
      var row := Membership(channel.id, id, owner.value, now);
      Joins(file, housed, channel, bot, row);
      stored := housed.(memberships := housed.memberships + [row]);
      assert row in stored.memberships;
      SavedStep(old(stored), stored, Some(now));
      return Granted((bot, channel)), stored;
    }

    // ---------------------------------------------------------- messages

    /** An active member of its owner's own channel speaks there, or where its owner can see. */
    method Post(rawOwner: Account, id: BotId, body: nat, bodyLength: nat, requested: Option<ChannelId>, now: int,
                entropy: Option<nat>)
      returns (r: Result<Message>, ghost after: File)
      modifies this
      ensures Step(old(stored), stored, after, Some(now)) && (r.Denied? ==> stored == old(stored))
      ensures r.Granted? ==>
                var message, file := r.value, View(old(stored));
                && after == file.(messages := file.messages + [message])
                && message.bot == id && message.body == body && message.ts == now && !IsArchived(file, id)
                && Checksum(rawOwner) == Some(message.owner)
                && IsMember(file, ChannelOf(message.owner), id)
                && (exists c :: c in file.channels && c.id == message.channel && CanSee(file, message.owner, c))
                && (requested.None? ==> message.channel == ChannelOf(message.owner))
                && (requested.Some? ==> message.channel == requested.value)
      ensures r.Granted? <==>
                Parse(old(stored)).Loaded? &&
                  MayPost(View(old(stored)), Checksum(rawOwner), id, bodyLength, requested, now, entropy)
    {
      hide Proper, CanonicalRows, Step, Kept, CanSee, IsMember, IsArchived, Parse, View;
      after := View(stored);
      NothingSaved(stored, Some(now));
      var owner := Checksum(rawOwner);
      if owner.None? { return Denied(BadOwner), after; }
      if bodyLength == 0 || bodyLength > CHAT_BODY_MAX { return Denied(BadBody), after; }
      var loaded := Load();
      if loaded.Unreadable? { return Denied(StoreUnreadable), after; }
      var file := loaded.file;
      var found := BotFor(file, owner.value, id);
      if found.None? { return Denied(UnknownBot), after; }
      var bot := file.bots[found.value];
      if bot.status != Active { return Denied(ArchivedBot), after; }
      ActiveUnderItsId(file, bot);
      var home := ChannelFor(file, owner.value);
      if home.Some? {
        OwnerSees(file, owner.value, home.value);
      }
      var channel := home;
      if requested.Some? {
        channel := FindChannel(file.channels, requested.value);
        if channel.None? { return Denied(UnknownChannel), after; }
        if !CanSee(file, owner.value, channel.value) { return Denied(NotInvited), after; }
        SeenUnderItsId(file, owner.value, channel.value);
      }
      if channel.None? || home.None? || !IsMember(file, home.value.id, id) { return Denied(NotMember), after; }
      if entropy.None? { return Denied(BadEntropy), after; }
      var name := MessageIdOf(owner.value, now, entropy.value);
      if exists m :: m in file.messages && m.id == name { return Denied(BadEntropy), after; }
      var message := Message(name, channel.value.id, owner.value, id, body, bodyLength, now);
      Speaks(file, channel.value, bot, message);
      stored := file.(messages := file.messages + [message]);
      SavedStep(old(stored), stored, Some(now));
      return Granted(message), stored;
    }

    // ---------------------------------------------------------- invitations and groups

    method Invite(rawOwner: Account, rawGuest: Account, now: int)
      returns (r: Result<(LedgerFile.Invite, Channel)>, ghost after: File)
      modifies this
      ensures Step(old(stored), stored, after, Some(now)) && (r.Denied? ==> stored == old(stored))
      ensures r.Granted? ==>
                var (invite, channel), file := r.value, View(old(stored));
                && Checksum(rawOwner) == Some(channel.owner) && Checksum(rawGuest) == Some(invite.guest) &&
                   channel.owner != invite.guest
                && channel in after.channels && invite.channel == channel.id && invite in after.invites
                && after == file.(channels := after.channels, invites := after.invites)
                && after.invites == (if invite in file.invites then file.invites else file.invites + [invite])
                && (CanSee(after, invite.guest, channel))
      ensures r.Granted? ==> after.channels == Housed(View(old(stored)).channels, r.value.1.owner, now)
      ensures r.Granted? && r.value.0 !in View(old(stored)).invites ==> r.value.0.created == now
      ensures r.Granted? <==> Parse(old(stored)).Loaded? && Others(Checksum(rawOwner), Checksum(rawGuest))
    {
      hide Proper, CanonicalRows, Step, Kept, Parse, View;
      after := View(stored);
      NothingSaved(stored, Some(now));
      var owner, guest := Checksum(rawOwner), Checksum(rawGuest);
      if owner.None? { return Denied(BadOwner), after; }
      if guest.None? || guest == owner { return Denied(BadGuest), after; }
      var loaded := Load();
      if loaded.Unreadable? { return Denied(StoreUnreadable), after; }
      var file := loaded.file;
      var housed, channel := EnsureChannel(file, owner.value, now);
      var existing := FindInvite(housed.invites, channel.id, guest.value);
      if existing.Some? {
        InvitesHaveChannels(file, housed, channel, existing.value);
        return Granted((existing.value, channel)), after;
      }
      var row := LedgerFile.Invite(channel.id, guest.value, now);
      Invites(file, housed, channel, row);
      stored := housed.(invites := housed.invites + [row]);
      SavedStep(old(stored), stored, Some(now));
      assert row in stored.invites && row !in file.invites;
      return Granted((row, channel)), stored;
    }

    static method FindInvite(invites: seq<LedgerFile.Invite>, channel: ChannelId, guest: Account)
      returns (found: Option<LedgerFile.Invite>)
      ensures found.Some? ==> found.value in invites && found.value.channel == channel && found.value.guest == guest
      ensures found.None? ==> forall i | i in invites :: i.channel != channel || i.guest != guest
    {
      for k := 0 to |invites|
        invariant forall i | i in invites[..k] :: i.channel != channel || i.guest != guest
      {
        if invites[k].channel == channel && invites[k].guest == guest {
          return Some(invites[k]);
        }
      }
      return None;
    }

    /** Withdraw an invitation. No time is stamped, so the saved file is always well formed. */
    method Uninvite(rawOwner: Account, rawGuest: Account) returns (r: Result<(Channel, bool)>, ghost after: File)
      modifies this
      ensures Step(old(stored), stored, after, None) && (r.Denied? ==> stored == old(stored))
      ensures r.Granted? ==>
                var (channel, removed), file := r.value, View(old(stored));
                && channel in file.channels && Checksum(rawOwner) == Some(channel.owner) && Checksum(rawGuest).Some?
                && after == file.(invites := Filtered(file.invites,
                                                      (i: LedgerFile.Invite) => !(i.channel == channel.id &&
                                                        i.guest == Checksum(rawGuest).value)))
                && (removed <==> exists i ::
                    i in file.invites && i.channel == channel.id && i.guest == Checksum(rawGuest).value)
      ensures r.Granted? <==>
                Parse(old(stored)).Loaded? && Others(Checksum(rawOwner), Checksum(rawGuest)) &&
                  HasHome(View(old(stored)), Checksum(rawOwner).value)
    {
      hide Proper, CanonicalRows, Step, Kept, Parse, View;
      after := View(stored);
      NothingSaved(stored, None);
      var owner, guest := Checksum(rawOwner), Checksum(rawGuest);
      if owner.None? { return Denied(BadOwner), after; }
      if guest.None? || guest == owner { return Denied(BadGuest), after; }
      var loaded := Load();
      if loaded.Unreadable? { return Denied(StoreUnreadable), after; }
      var file := loaded.file;
      var channel := ChannelFor(file, owner.value);
      if channel.None? { return Denied(UnknownChannel), after; }
      var keep := (i: LedgerFile.Invite) => !(i.channel == channel.value.id && i.guest == guest.value);
      var kept := Filter(file.invites, keep);
      InvitesFiltered(file, keep);
      if |kept| != |file.invites| {
        stored := file.(invites := kept);
        SavedStep(old(stored), stored, None);
        return Granted((channel.value, true)), stored;
      }
      return Granted((channel.value, false)), after;
    }

    method CreateGroup(rawOwner: Account, rawName: Text, now: int, entropy: Option<nat>)
      returns (r: Result<(Group, Channel)>, ghost after: File)
      modifies this
      ensures Step(old(stored), stored, after, Some(now)) && (r.Denied? ==> stored == old(stored))
      ensures r.Granted? ==>
                var (group, channel), file := r.value, View(old(stored));
                && Checksum(rawOwner) == Some(group.owner) && Clean(rawName) == Some(group.name)
                && group in after.groups && group.owner == channel.owner && channel in after.channels
                && after == file.(channels := after.channels, groups := after.groups)
                && after.groups == (if group in file.groups then file.groups else file.groups + [group])
      ensures r.Granted? ==> after.channels == Housed(View(old(stored)).channels, r.value.1.owner, now)
      ensures r.Granted? && r.value.0 !in View(old(stored)).groups ==>
                var group := r.value.0;
                && entropy.Some? && group.id == GroupIdOf(group.owner, entropy.value) && group.created == now
                && group.channel == ChannelOf(group.owner)
                && forall g | g in View(old(stored)).groups :: g.owner != group.owner || g.name != group.name
      ensures r.Granted? <==>
                Parse(old(stored)).Loaded? && MayGather(View(old(stored)), Checksum(rawOwner), Clean(rawName), entropy)
    {
      hide Proper, CanonicalRows, Step, Kept, Parse, View;
      after := View(stored);
      NothingSaved(stored, Some(now));
      var owner, name := Checksum(rawOwner), Clean(rawName);
      if owner.None? { return Denied(BadOwner), after; }
      if name.None? { return Denied(BadLabel), after; }
      var loaded := Load();
      if loaded.Unreadable? { return Denied(StoreUnreadable), after; }
      var file := loaded.file;
      var housed, channel := EnsureChannel(file, owner.value, now);
      var existing := GroupNamed(housed.groups, owner.value, name.value);
      if existing.Some? {
        GroupsHaveChannels(file, housed, channel, existing.value);
        return Granted((existing.value, channel)), after;
      }
      if entropy.None? { return Denied(BadEntropy), after; }
      var id := GroupIdOf(owner.value, entropy.value);
      var taken := FindGroup(housed.groups, id);
      if taken.Some? { return Denied(BadEntropy), after; }
      var row := LedgerFile.Group(id, owner.value, channel.id, name.value, now);
      Gathers(file, housed, channel, row);
      stored := housed.(groups := housed.groups + [row]);
      SavedStep(old(stored), stored, Some(now));
      assert row in stored.groups && row !in file.groups;
      return Granted((row, channel)), stored;
    }

    static method GroupNamed(groups: seq<Group>, owner: Account, name: Text) returns (found: Option<Group>)
      ensures found.Some? ==> found.value in groups && found.value.owner == owner && found.value.name == name
      ensures found.None? ==> forall g | g in groups :: g.owner != owner || g.name != name
    {
      for k := 0 to |groups|
        invariant forall g | g in groups[..k] :: g.owner != owner || g.name != name
      {
        if groups[k].owner == owner && groups[k].name == name {
          return Some(groups[k]);
        }
      }
      return None;
    }

    static method OwnGroup(groups: seq<Group>, owner: Account, id: GroupId) returns (found: Option<Group>)
      ensures found.Some? ==> found.value in groups && found.value.owner == owner && found.value.id == id
      ensures found.None? ==> forall g | g in groups :: g.owner != owner || g.id != id
    {
      for k := 0 to |groups|
        invariant forall g | g in groups[..k] :: g.owner != owner || g.id != id
      {
        if groups[k].id == id && groups[k].owner == owner {
          return Some(groups[k]);
        }
      }
      return None;
    }

    method AddMember(rawOwner: Account, id: GroupId, rawMember: Account, now: int)
      returns (r: Result<Group>, ghost after: File)
      modifies this
      ensures Step(old(stored), stored, after, Some(now)) && (r.Denied? ==> stored == old(stored))
      ensures r.Granted? ==>
                var group, file := r.value, View(old(stored));
                && group in file.groups && group.id == id && Checksum(rawOwner) == Some(group.owner) &&
                   Checksum(rawMember).Some?
                && after == file.(groupMembers := after.groupMembers)
                && InGroupFor(after, Checksum(rawMember).value, group.channel)
      ensures r.Granted? ==>
                var file, row := View(old(stored)), LedgerFile.GroupMember(id, Checksum(rawMember).value, now);
                after.groupMembers == file.groupMembers +
                  if exists m :: m in file.groupMembers && m.group == id && m.member == row.member then [] else [row]
      ensures r.Granted? <==>
                Parse(old(stored)).Loaded? && Others(Checksum(rawOwner), Checksum(rawMember)) &&
                  HasGroup(View(old(stored)), Checksum(rawOwner).value, id)
    {
      hide Proper, CanonicalRows, Step, Kept, Parse, View;
      after := View(stored);
      NothingSaved(stored, Some(now));
      var owner, member := Checksum(rawOwner), Checksum(rawMember);
      if owner.None? { return Denied(BadOwner), after; }
      if member.None? || member == owner { return Denied(BadMember), after; }
      var loaded := Load();
      if loaded.Unreadable? { return Denied(StoreUnreadable), after; }
      var file := loaded.file;
      var group := OwnGroup(file.groups, owner.value, id);
      if group.None? { return Denied(UnknownGroup), after; }
      if exists m :: m in file.groupMembers && m.group == group.value.id && m.member == member.value {
        return Granted(group.value), after;
      }
      var row := LedgerFile.GroupMember(group.value.id, member.value, now);
      Enters(file, group.value, row);
      stored := file.(groupMembers := file.groupMembers + [row]);
      SavedStep(old(stored), stored, Some(now));
      assert row in stored.groupMembers && group.value in stored.groups;
      return Granted(group.value), stored;
    }

    method RemoveMember(rawOwner: Account, id: GroupId, rawMember: Account)
      returns (r: Result<(Group, bool)>, ghost after: File)
      modifies this
      ensures Step(old(stored), stored, after, None) && (r.Denied? ==> stored == old(stored))
      ensures r.Granted? ==>
                var (group, removed), file := r.value, View(old(stored));
                && group in file.groups && group.id == id && Checksum(rawOwner) == Some(group.owner) &&
                   Checksum(rawMember).Some?
                && after == file.(groupMembers := Filtered(file.groupMembers,
                                                           (m: GroupMember) => !(m.group == id &&
                                                             m.member == Checksum(rawMember).value)))
                && (removed <==> exists m ::
                    m in file.groupMembers && m.group == id && m.member == Checksum(rawMember).value)
      ensures r.Granted? <==>
                Parse(old(stored)).Loaded? && Others(Checksum(rawOwner), Checksum(rawMember)) &&
                  HasGroup(View(old(stored)), Checksum(rawOwner).value, id)
    {
      hide Proper, CanonicalRows, Step, Kept, Parse, View;
      after := View(stored);
      NothingSaved(stored, None);
      var owner, member := Checksum(rawOwner), Checksum(rawMember);
      if owner.None? { return Denied(BadOwner), after; }
      if member.None? || member == owner { return Denied(BadMember), after; }
      var loaded := Load();
      if loaded.Unreadable? { return Denied(StoreUnreadable), after; }
      var file := loaded.file;
      var group := OwnGroup(file.groups, owner.value, id);
      if group.None? { return Denied(UnknownGroup), after; }
      var keep := (m: GroupMember) => !(m.group == id && m.member == member.value);
      var kept := Filter(file.groupMembers, keep);
      MembersFiltered(file, keep);
      if |kept| != |file.groupMembers| {
        stored := file.(groupMembers := kept);
        SavedStep(old(stored), stored, None);
        return Granted((group.value, true)), stored;
      }
      return Granted((group.value, false)), after;
    }

    // ---------------------------------------------------------- desktops

    /** Show a desktop on the owner's channel, in place of the one that was there. */
    method PublishDesktop(rawOwner: Account, rawSession: Text, snapshot: Option<Snapshot>, rawThinking: seq<Text>,
                          rawFiles: seq<Text>, rawSecrets: seq<Text>, now: int)
      returns (r: Result<Desktop>, ghost after: File)
      modifies this
      ensures Step(old(stored), stored, after, Some(now)) && (r.Denied? ==> stored == old(stored))
      ensures r.Granted? ==>
                var desktop, file := r.value, View(old(stored));
                && Checksum(rawOwner).Some? && desktop.channel == ChannelOf(Checksum(rawOwner).value) &&
                   desktop.updated == now
                && desktop.snapshot == snapshot && Clean(rawSession) == Some(desktop.session)
                && CleanAll(rawThinking, MAX_THINKING) == Some(desktop.thinking)
                && CleanAll(rawFiles, MAX_HANDLES) == Some(desktop.files) &&
                   CleanAll(rawSecrets, MAX_HANDLES) == Some(desktop.secrets)
                && after.channels == Housed(file.channels, Checksum(rawOwner).value, now)
                && after == file.(channels := after.channels,
                                  desktops := Filtered(file.desktops, (d: Desktop) => d.channel != desktop.channel) +
                                    [desktop])
      ensures r.Granted? <==>
                && Parse(old(stored)).Loaded? && Checksum(rawOwner).Some? && Clean(rawSession).Some?
                && CleanAll(rawThinking, MAX_THINKING).Some? && CleanAll(rawFiles, MAX_HANDLES).Some?
                && CleanAll(rawSecrets, MAX_HANDLES).Some? && (snapshot.Some? ==> IsSnapshot(snapshot.value))
    {
      hide Proper, CanonicalRows, Step, Kept, Parse, View, Converted;
      after := View(stored);
      NothingSaved(stored, Some(now));
      var owner, session := Checksum(rawOwner), Clean(rawSession);
      if owner.None? { return Denied(BadOwner), after; }
      var thinking, files, secrets := CleanAll(rawThinking, MAX_THINKING), CleanAll(rawFiles, MAX_HANDLES),
          CleanAll(rawSecrets, MAX_HANDLES);
      if session.None? || thinking.None? || files.None? || secrets.None? { return Denied(BadDesktop), after; }
      if snapshot.Some? && !IsSnapshot(snapshot.value) { return Denied(BadSnapshot), after; }
      var loaded := Load();
      if loaded.Unreadable? { return Denied(StoreUnreadable), after; }
      var file := loaded.file;
      var housed, channel := EnsureChannel(file, owner.value, now);
      var desktop := Desktop(channel.id, session.value, snapshot, thinking.value, files.value, secrets.value, now);
      CleanDesktop(rawThinking, rawFiles, rawSecrets, desktop);
      Shows(file, housed, channel, desktop);
      var kept := Filter(housed.desktops, (d: Desktop) => d.channel != channel.id);
      stored := housed.(desktops := kept + [desktop]);
      SavedStep(old(stored), stored, Some(now));
      return Granted(desktop), stored;
    }
  }

  /** A bot that was just created is no member yet, so its membership is a new row. */
  lemma NewBotJoins(file: File, housed: File, staffed: File, channel: Channel, bot: Bot, row: Membership)
    requires Proper(file) && CanonicalRows(file) && Proper(staffed) && Kept(file, housed) && Kept(housed, staffed)
    requires housed == file.(channels := housed.channels) && channel in housed.channels && channel.owner == bot.owner
    requires staffed == housed.(bots := housed.bots + [bot]) && (forall b | b in file.bots :: b.id != bot.id)
    requires IsOwner(bot.owner) && row == Membership(channel.id, bot.id, bot.owner, bot.created)
    requires CanonicalRows(staffed) <==> IsTime(bot.created)
    ensures var next := staffed.(memberships := staffed.memberships + [row]);
            Proper(next) && Kept(file, next) && (CanonicalRows(next) <==> IsTime(bot.created))
  {
    assert bot in staffed.bots && channel in staffed.channels;
    forall m | m in file.memberships ensures m.bot != bot.id {
      assert HasBot(file, m.bot, m.owner);
    }
    KeptTransitive(file, housed, staffed);
    hide Proper, CanonicalRows;
    AddMembership(staffed, row);
  }

  lemma ActiveUnderItsId(file: File, bot: Bot)
    requires Proper(file) && bot in file.bots && bot.status == Active
    ensures HasActiveBot(file, bot.owner, bot.id)
  {
    forall b | b in file.bots && b.owner == bot.owner && b.id == bot.id ensures b == bot {
      SameBot(file, b, bot);
    }
  }

  lemma SeenUnderItsId(file: File, owner: Account, channel: Channel)
    requires Proper(file) && channel in file.channels && CanSee(file, owner, channel)
    ensures forall c | c in file.channels && c.id == channel.id :: CanSee(file, owner, c)
  {
    hide InGroupFor;
  }

  lemma KnownLabel(file: File, bot: Bot)
    requires Proper(file) && bot in file.bots
    ensures forall b | b in file.bots && b.owner == bot.owner && b.name == bot.name :: b == bot
  {
    forall b | b in file.bots && b.owner == bot.owner && b.name == bot.name ensures b == bot {
      SameBot(file, b, bot);
    }
  }

  lemma ArchivedIsKept(file: File, i: nat, now: int)
    requires i < |file.bots| && file.bots[i].status != Archived
    ensures Kept(file, ArchivedAt(file, i, now))
  {
  }

  /** A membership row names a channel that exists, so its owner needs no new one. */
  lemma MembersHaveChannels(file: File, housed: File, channel: Channel, id: BotId, owner: Account)
    requires Proper(file) && IsMember(housed, channel.id, id)
    requires channel.id == ChannelOf(owner) && channel.owner == owner
    requires housed == file || housed == file.(channels := file.channels + [channel])
    requires (exists c :: c in file.channels && c.owner == owner) <==> housed == file
    ensures housed == file
  {
    var m :| m in housed.memberships && m.channel == channel.id && m.bot == id;
    assert HasChannel(file, m.channel, m.owner);
    var c :| c in file.channels && c.id == m.channel;
  }

  lemma Joins(file: File, housed: File, channel: Channel, bot: Bot, row: Membership)
    requires Proper(housed) && Kept(file, housed) && housed == file.(channels := housed.channels)
    requires bot in file.bots && channel in housed.channels && channel.owner == bot.owner && IsOwner(bot.owner)
    requires row.channel == channel.id && row.bot == bot.id && row.owner == bot.owner &&
             !IsMember(housed, channel.id, bot.id)
    requires CanonicalRows(file) && (CanonicalRows(housed) <==> housed == file || IsTime(row.joined))
    ensures var next := housed.(memberships := housed.memberships + [row]);
            Proper(next) && Kept(file, next) && (CanonicalRows(next) <==> IsTime(row.joined))
  {
    var next := housed.(memberships := housed.memberships + [row]);
    assert bot in housed.bots;
    assert HasChannel(housed, row.channel, row.owner) && HasBot(housed, row.bot, row.owner);
    KeptElsewhere(housed, next);
    KeptTransitive(file, housed, next);
    hide Proper, CanonicalRows, HasChannel, HasBot, Kept;
    AddMembership(housed, row);
  }

  /** A change of other tables keeps channels, bots and messages. */
  lemma KeptElsewhere(a: File, b: File)
    requires a.channels == b.channels && a.bots == b.bots && a.messages == b.messages
    ensures Kept(a, b)
  {
  }

  lemma OwnerSees(file: File, owner: Account, home: Channel)
    requires Proper(file) && home in file.channels && home.owner == owner
    ensures CanSee(file, owner, home) && home.id == ChannelOf(owner)
  {
  }

  lemma Speaks(file: File, channel: Channel, bot: Bot, message: Message)
    requires Proper(file) && CanonicalRows(file) && bot in file.bots && channel in file.channels &&
             bot.status == Active && IsOwner(bot.owner)
    requires message.channel == channel.id && message.bot == bot.id && message.owner == bot.owner
    requires message.id.MessageIdOf? && 0 < message.bodyLength <= CHAT_BODY_MAX && forall m | m in file.messages ::
             m.id != message.id
    ensures var next := file.(messages := file.messages + [message]);
            Proper(next) && Kept(file, next) && (CanonicalRows(next) <==> IsTime(message.ts))
    ensures !IsArchived(file, bot.id)
  {
    assert AnyChannel(file, channel.id) && HasBot(file, bot.id, bot.owner);
    if IsArchived(file, bot.id) {
      var b :| b in file.bots && b.id == bot.id && b.status == Archived;
      SameBot(file, b, bot);
    }
    hide Proper, CanonicalRows, AnyChannel, HasBot, IsArchived;
    AddMessage(file, message);
  }

  lemma InvitesHaveChannels(file: File, housed: File, channel: Channel, invite: LedgerFile.Invite)
    requires Proper(file) && invite in housed.invites && invite.channel == channel.id
    requires channel.id == ChannelOf(channel.owner)
    requires housed == file || housed == file.(channels := file.channels + [channel])
    requires (exists c :: c in file.channels && c.owner == channel.owner) <==> housed == file
    ensures housed == file && invite.guest != channel.owner
  {
    var c :| c in file.channels && c.id == invite.channel && c.owner != invite.guest;
  }

  lemma GroupsHaveChannels(file: File, housed: File, channel: Channel, group: Group)
    requires Proper(file) && group in housed.groups && group.owner == channel.owner
    requires housed == file || housed == file.(channels := file.channels + [channel])
    requires (exists c :: c in file.channels && c.owner == channel.owner) <==> housed == file
    ensures housed == file
  {
    assert HasChannel(file, group.channel, group.owner);
  }

  lemma Invites(file: File, housed: File, channel: Channel, row: LedgerFile.Invite)
    requires Proper(housed) && Kept(file, housed) && CanonicalRows(file) && housed == file.(channels := housed.channels)
    requires channel in housed.channels && IsOwner(row.guest) && row.channel == channel.id && channel.owner != row.guest
    requires forall i | i in housed.invites :: i.channel != row.channel || i.guest != row.guest
    requires CanonicalRows(housed) <==> housed == file || IsTime(row.created)
    ensures var next := housed.(invites := housed.invites + [row]);
            Proper(next) && Kept(file, next) && (CanonicalRows(next) <==> IsTime(row.created))
  {
    var next := housed.(invites := housed.invites + [row]);
    KeptElsewhere(housed, next);
    KeptTransitive(file, housed, next);
    hide Proper, CanonicalRows, Kept;
    AddInvite(housed, row, channel);
  }

  lemma Gathers(file: File, housed: File, channel: Channel, row: Group)
    requires Proper(housed) && Kept(file, housed) && CanonicalRows(file) && housed == file.(channels := housed.channels)
    requires channel in housed.channels && IsOwner(row.owner) && row.channel == channel.id && channel.owner == row.owner
    requires Clean(row.name) == Some(row.name) && row.id.GroupIdOf? && row.id.owner == row.owner
    requires forall g | g in housed.groups :: g.id != row.id && (g.owner != row.owner || g.name != row.name)
    requires CanonicalRows(housed) <==> housed == file || IsTime(row.created)
    ensures var next := housed.(groups := housed.groups + [row]);
            Proper(next) && Kept(file, next) && (CanonicalRows(next) <==> IsTime(row.created))
  {
    var next := housed.(groups := housed.groups + [row]);
    assert HasChannel(housed, row.channel, row.owner);
    KeptElsewhere(housed, next);
    KeptTransitive(file, housed, next);
    hide Proper, CanonicalRows, Kept, HasChannel;
    AddGroup(housed, row);
  }

  lemma Enters(file: File, group: Group, row: GroupMember)
    requires Proper(file) && CanonicalRows(file) && group in file.groups && row.group == group.id &&
             IsOwner(row.member) && group.owner != row.member
    requires forall m | m in file.groupMembers :: m.group != row.group || m.member != row.member
    ensures var next := file.(groupMembers := file.groupMembers + [row]);
            Proper(next) && Kept(file, next) && (CanonicalRows(next) <==> IsTime(row.joined))
  {
    assert HasGroupFor(file, row.group, row.member);
    hide Proper, CanonicalRows, HasGroupFor;
    AddGroupMember(file, row);
  }

  lemma InvitesFiltered(file: File, keep: LedgerFile.Invite -> bool)
    requires Proper(file) && CanonicalRows(file)
    ensures var next := file.(invites := Filtered(file.invites, keep));
            Proper(next) && CanonicalRows(next) && Kept(file, next)
    ensures |Filtered(file.invites, keep)| == |file.invites| <==> forall i | i in file.invites :: keep(i)
    ensures |Filtered(file.invites, keep)| == |file.invites| ==> Filtered(file.invites, keep) == file.invites
  {
    FilteredFacts(file.invites, keep, (i: LedgerFile.Invite) => (i.channel, i.guest));
    FilteredAll(file.invites, keep);
    WellFormedIsProper(file);
    RemoveInvites(file, keep);
    WellFormedIsProper(file.(invites := Filtered(file.invites, keep)));
    hide Proper, CanonicalRows, WellFormed, Filtered;
  }

  lemma MembersFiltered(file: File, keep: GroupMember -> bool)
    requires Proper(file) && CanonicalRows(file)
    ensures var next := file.(groupMembers := Filtered(file.groupMembers, keep));
            Proper(next) && CanonicalRows(next) && Kept(file, next)
    ensures |Filtered(file.groupMembers, keep)| == |file.groupMembers| <==> forall m | m in file.groupMembers :: keep(m)
    ensures |Filtered(file.groupMembers, keep)| == |file.groupMembers| ==>
            Filtered(file.groupMembers, keep) == file.groupMembers
  {
    FilteredFacts(file.groupMembers, keep, (m: GroupMember) => (m.group, m.member));
    FilteredAll(file.groupMembers, keep);
    WellFormedIsProper(file);
    RemoveGroupMembers(file, keep);
    WellFormedIsProper(file.(groupMembers := Filtered(file.groupMembers, keep)));
    hide Proper, CanonicalRows, WellFormed, Filtered;
  }

  lemma {:induction false} FilteredAll<T>(rows: seq<T>, keep: T -> bool)
    ensures |Filtered(rows, keep)| <= |rows|
    ensures |Filtered(rows, keep)| == |rows| ==> Filtered(rows, keep) == rows
  {
    if rows != [] {
      FilteredAll(rows[1..], keep);
      assert rows == [rows[0]] + rows[1..];
    }
  }

  lemma CleanDesktop(thinking: seq<Text>, files: seq<Text>, secrets: seq<Text>, desktop: Desktop)
    requires CleanAll(thinking, MAX_THINKING) == Some(desktop.thinking) &&
             CleanAll(files, MAX_HANDLES) == Some(desktop.files)
    requires CleanAll(secrets, MAX_HANDLES) == Some(desktop.secrets)
    requires Clean(desktop.session) == Some(desktop.session) && desktop.channel.ChannelOf?
    requires desktop.snapshot.Some? ==> IsSnapshot(desktop.snapshot.value)
    ensures AsDesktop(desktop.(updated := 0)) == Some(desktop.(updated := 0))
  {
    CleanTwice(thinking);
    CleanTwice(files);
    CleanTwice(secrets);
    ConvertedMembers(thinking, Clean);
    ConvertedMembers(files, Clean);
    ConvertedMembers(secrets, Clean);
  }

  lemma Shows(file: File, housed: File, channel: Channel, row: Desktop)
    requires Proper(housed) && Kept(file, housed) && CanonicalRows(file) && housed == file.(channels := housed.channels)
    requires channel in housed.channels && row.channel == channel.id &&
             AsDesktop(row.(updated := 0)) == Some(row.(updated := 0))
    requires CanonicalRows(housed) <==> housed == file || IsTime(row.updated)
    ensures var next := housed.(desktops := Filtered(housed.desktops, (d: Desktop) => d.channel != row.channel) +
                                [row]);
            Proper(next) && Kept(file, next) && (CanonicalRows(next) <==> IsTime(row.updated))
  {
    var next := housed.(desktops := Filtered(housed.desktops, (d: Desktop) => d.channel != row.channel) + [row]);
    assert AnyChannel(housed, row.channel);
    assert Canonical(housed.desktops, AsDesktop);
    KeptElsewhere(housed, next);
    KeptTransitive(file, housed, next);
    hide Proper, CanonicalRows, Kept, AnyChannel, AsDesktop, Canonical, Filtered;
    ReplaceDesktop(housed, row);
  }

  // ------------------------------------------------------------ whole histories

  ghost predicate Stamped(before: File, stored: File, after: File, stamp: Option<int>) {
    Step(before, stored, after, stamp) && (stamp.None? || IsTime(stamp.value))
  }

  /** Stored files one after the other, as any operations of any clients leave them, all with
      time stamps that are not negative. */
  ghost predicate Run(stores: seq<File>) {
    && stores != [] && Parse(stores[0]).Loaded?
    && forall i :: 0 <= i < |stores| - 1 ==> Follows(stores[i], stores[i + 1])
  }

  ghost predicate Follows(before: File, stored: File) {
    exists after, stamp :: Stamped(before, stored, after, stamp)
  }

  lemma FollowsKeeps(before: File, stored: File)
    requires Parse(before).Loaded? && Follows(before, stored)
    ensures Parse(stored).Loaded? && Kept(View(before), View(stored))
  {
    var after, stamp :| Stamped(before, stored, after, stamp);
    hide Parse, Kept;
  }

  /** Over every run the ledger stays readable, messages are append-only, no channel or bot is
      deleted, and an archived bot stays archived and never speaks again. */
  lemma {:induction false} LedgerKeeps(stores: seq<File>, i: nat, j: nat)
    requires Run(stores) && i <= j < |stores|
    ensures Parse(stores[i]).Loaded? && Parse(stores[j]).Loaded? && Kept(View(stores[i]), View(stores[j]))
    decreases j
  {
    hide Parse, View, Kept, Follows;
    if j == 0 {
      KeptReflexive(View(stores[0]));
    } else {
      LedgerKeeps(stores, if i < j then i else i - 1, j - 1);
      FollowsKeeps(stores[j - 1], stores[j]);
      if i < j {
        KeptTransitive(View(stores[i]), View(stores[j - 1]), View(stores[j]));
      } else {
        KeptReflexive(View(stores[j]));
      }
    }
  }

  /** Registering the same label again, at any later time, gives the same bot. */
  lemma LabelKeepsItsBot(stores: seq<File>, i: nat, j: nat, x: Bot, y: Bot)
    requires Run(stores) && i <= j < |stores| && x in View(stores[i]).bots && y in View(stores[j]).bots
    requires x.owner == y.owner && x.name == y.name
    ensures x.id == y.id
  {
    LedgerKeeps(stores, i, j);
    ParsedIsWellFormed(stores[j]);
    SameLabelSameId(View(stores[i]), View(stores[j]), x, y);
  }

  /** One save with a negative time stamp, and the ledger is never read or changed again. */
  lemma NegativeStampIsFinal(before: File, stored: File, after: File, stamp: int, later: File, seen: File,
                             next: Option<int>)
    requires Step(before, stored, after, Some(stamp)) && stored != before && stamp < 0
    requires Step(stored, later, seen, next)
    ensures Parse(stored) == Unreadable && later == stored
  {
    hide Parse, Kept;
  }

  const NOTHING := File([], [], [], [], [], [], [], [])
  const ANYONE := Account(1, 0)
  const LABEL := Text(1, 0)
  const HOME := Channel(ChannelOf(ANYONE), ANYONE, -1)
  const FIRST_BOT := Bot(BotIdOf(ANYONE, 0), ANYONE, LABEL, Robot, Active, -1, None)

  /** One bot, registered a second before the epoch. */
  const SPOILED := File([HOME], [FIRST_BOT], [Membership(HOME.id, FIRST_BOT.id, ANYONE, -1)], [], [], [], [], [])

  lemma EarlyFileIsUnreadable()
    ensures Parse(NOTHING) == Loaded(NOTHING) && Parse(SPOILED) == Unreadable
  {
    assert AsChannel(HOME) == None;
  }

  /** An empty ledger in which a bot is registered at second -1 is saved, and never read again. */
  method RegisteredTooEarly() returns (forum: Forum)
    ensures fresh(forum) && forum.stored == SPOILED && Parse(forum.stored) == Unreadable
  {
    EarlyFileIsUnreadable();
    forum := new Forum(NOTHING);
    var r, after := forum.RegisterBot(ANYONE, LABEL, None, -1, Some(0));
    hide Step;
    assert View(NOTHING) == NOTHING && MayRegister(NOTHING, Some(ANYONE), Some(LABEL), None, Some(0)) && r.Granted?;
    assert after.channels == [HOME] && after.bots == [FIRST_BOT];
  }
}
