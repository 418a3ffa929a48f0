/** The life of a need (lib/forum-squad.ts): opened and amended by its owner, closed once by
    the owner or by the subject the owner named. Deliveries come in any order, repeated and
    stale; the board starts from replay floors that nobody vouches for. */
module Needs {
  import opened Identity
  import opened Documents

  datatype Severity = Ordinary | Emergency

  /** An absent spec and an empty one are the same. */
  datatype ForumNeed = ForumNeed(
    id: ObjectId, forum: ObjectId, subject: Key, severity: Severity, body: nat, spec: Option<nat>,
    stated: bool, hamState: nat, acceptedOffer: Option<ObjectId>)

  datatype PostedOffer = PostedOffer(id: ObjectId, need: ObjectId, forum: ObjectId, helper: Key, stated: bool,
                                     valid: bool)

  datatype SeeAnswer = Allowed | NotLoaded | Forbidden

  /** The live offers of the need, and what the graph says about its helpers. */
  datatype Closure = Closure(posted: map<ObjectId, PostedOffer>, known: bool, see: Key -> SeeAnswer)

  datatype Status = Ok | Wait | Denied

  function ClosureStatus(need: ForumNeed, closure: Closure): Status {
    if need.acceptedOffer.None? then Denied
    else if need.acceptedOffer.value !in closure.posted then Wait
    else
      var offer := closure.posted[need.acceptedOffer.value];
      if !offer.valid || !offer.stated || offer.need != need.id || offer.forum != need.forum then Denied
      else if !closure.known then Wait
      else match closure.see(offer.helper)
           case Allowed => Ok
           case NotLoaded => Wait
           case Forbidden => Denied
  }

  predicate SameContent(a: ForumNeed, b: ForumNeed) {
    a.body == b.body && a.severity == b.severity && a.spec == b.spec
  }

  /** `open` is a row the owner signed; it admits the subject that closes it. */
  predicate Admits(open: ForumNeed, close: ForumNeed) {
    && open.stated && !close.stated && close.acceptedOffer.Some?
    && open.id == close.id && open.forum == close.forum
    && IsSeaPubkey(open.subject) && open.subject == close.subject
    && SameContent(open, close) && close.hamState > open.hamState
  }

  /** A verified admission supersedes the remembered row when it is newer. */
  function Freshest(need: ForumNeed, known: Option<ForumNeed>, admitted: Option<ForumNeed>): Option<ForumNeed> {
    if admitted.None? || !Admits(admitted.value, need) then known
    else if known.Some? && (known.value.id != admitted.value.id || known.value.forum != admitted.value.forum ||
            known.value.subject != admitted.value.subject) then known
    else if known.None? || admitted.value.hamState > known.value.hamState then admitted
    else known
  }

  /** A subject may close the open revision it was admitted to, by exactly one step. */
  predicate ClosureRevision(need: ForumNeed, open: Option<ForumNeed>) {
    open.Some? && open.value.stated && !need.stated && need.hamState == open.value.hamState + 1 &&
    need.hamState < MAX_SAFE_INTEGER - 1
  }

  /** The owner's own signature admits this signer as the subject of the close. */
  predicate SubjectOf(need: ForumNeed, signer: Key, admitted: Option<ForumNeed>) {
    admitted.Some? && signer == admitted.value.subject && Admits(admitted.value, need)
  }

  predicate Authorize(need: ForumNeed, signer: Key, owner: Option<Key>, forum: ObjectId, known: Option<ForumNeed>,
                      closure: Option<Closure>, admitted: Option<ForumNeed>)
  {
    if need.forum != forum || !IsSeaPubkey(signer) then false
    else if known.Some? && (need.subject != known.value.subject || need.hamState < known.value.hamState) then false
    else
      var base := Freshest(need, known, admitted);
      var byOwner := owner == Some(signer);
      if !byOwner && !ClosureRevision(need, base) then false
      else if base.Some? && base.value.stated && !need.stated && need.id == base.value.id then
        && (byOwner || signer == base.value.subject)
        && need.hamState > base.value.hamState && SameContent(need, base.value)
        && need.acceptedOffer.Some? && closure.Some? && ClosureStatus(need, closure.value) == Ok
      else if base.None? && !need.stated && need.acceptedOffer.Some? then
        && (byOwner || SubjectOf(need, signer, admitted))
        && closure.Some? && ClosureStatus(need, closure.value) == Ok
      else byOwner
  }

  // ------------------------------------------------------------ who may sign what

  /** A close by one step of an open row, with nothing else changed. */
  predicate Closes(open: ForumNeed, close: ForumNeed) {
    && open.stated && !close.stated && close.hamState == open.hamState + 1
    && open.id == close.id && open.subject == close.subject && SameContent(close, open) && close.acceptedOffer.Some?
  }

  /** The subject's second test is never reached: without a base row nobody but the owner passes
      the first one, and no admission would pass the second. */
  lemma SecondTestIsDead(need: ForumNeed, signer: Key, owner: Option<Key>, forum: ObjectId, known: Option<ForumNeed>,
                         closure: Option<Closure>, admitted: Option<ForumNeed>)
    requires Freshest(need, known, admitted).None?
    ensures !ClosureRevision(need, Freshest(need, known, admitted)) && !SubjectOf(need, signer, admitted)
    ensures Authorize(need, signer, owner, forum, known, closure, admitted) ==> owner == Some(signer)
  {
  }

  // ------------------------------------------------------------ exactly which rows are accepted

  /** The accepted offer is posted and live for this very need and forum, and its helper is
      known to be allowed to see the need. */
  predicate OnLiveOffer(need: ForumNeed, closure: Option<Closure>) {
    && closure.Some? && need.acceptedOffer.Some? && need.acceptedOffer.value in closure.value.posted
    && closure.value.known
    && var offer := closure.value.posted[need.acceptedOffer.value];
       && offer.valid && offer.stated && offer.need == need.id && offer.forum == need.forum
       && closure.value.see(offer.helper) == Allowed
  }

  /** The row that a close is measured against: a verified open row that the owner's signature
      carried along, if nothing as new is remembered of the same need. */
  predicate IsBase(base: Option<ForumNeed>, need: ForumNeed, known: Option<ForumNeed>, admitted: Option<ForumNeed>) {
    if && admitted.Some? && Admits(admitted.value, need)
       && (known.Some? ==> known.value.id == need.id && known.value.forum == need.forum &&
                           known.value.subject == need.subject && known.value.hamState < admitted.value.hamState)
    then base == admitted
    else base == known
  }

  /** Who may publish a row on top of that base. */
  predicate Rightful(need: ForumNeed, signer: Key, owner: Option<Key>, base: Option<ForumNeed>,
                     closure: Option<Closure>) {
    if base.Some? && base.value.stated && !need.stated && need.id == base.value.id then
      // The close of an open row: by its owner, or by its subject in one step.
      && (owner == Some(signer) ||
          (signer == base.value.subject && need.hamState == base.value.hamState + 1 &&
           need.hamState < MAX_SAFE_INTEGER - 1))
      && need.hamState > base.value.hamState && SameContent(need, base.value) && OnLiveOffer(need, closure)
    else if base.None? && !need.stated && need.acceptedOffer.Some? then
      // A close with nothing to close: by the owner only.
      owner == Some(signer) && OnLiveOffer(need, closure)
    else
      // Any other row.
      owner == Some(signer)
  }

  lemma ClosureMeans(need: ForumNeed, closure: Closure)
    ensures ClosureStatus(need, closure) == Ok <==> OnLiveOffer(need, Some(closure))
  {
  }

  lemma FreshestIsBase(need: ForumNeed, known: Option<ForumNeed>, admitted: Option<ForumNeed>)
    requires known.Some? ==> need.subject == known.value.subject
    ensures IsBase(Freshest(need, known, admitted), need, known, admitted)
  {
  }

  /** A row from `signer` that may be published, whatever is cached. */
  ghost predicate Publishable(need: ForumNeed, signer: Key, owner: Option<Key>, forum: ObjectId,
                              known: Option<ForumNeed>, closure: Option<Closure>, admitted: Option<ForumNeed>) {
    && need.forum == forum && IsSeaPubkey(signer)
    && (known.Some? ==> need.subject == known.value.subject && need.hamState >= known.value.hamState)
    && exists base :: IsBase(base, need, known, admitted) && Rightful(need, signer, owner, base, closure)
  }

  /** Exactly which rows are authorized, from whom. */
  lemma AuthorizedExactly(need: ForumNeed, signer: Key, owner: Option<Key>, forum: ObjectId, known: Option<ForumNeed>,
                          closure: Option<Closure>, admitted: Option<ForumNeed>)
    ensures Authorize(need, signer, owner, forum, known, closure, admitted) <==>
            Publishable(need, signer, owner, forum, known, closure, admitted)
  {
    var base := Freshest(need, known, admitted);
    if known.Some? ==> need.subject == known.value.subject {
      FreshestIsBase(need, known, admitted);
    }
    if closure.Some? {
      ClosureMeans(need, closure.value);
    }
  }

  /** An admission that is one step behind is an open row that the close closes, in its forum. */
  lemma AdmissionCloses(open: ForumNeed, close: ForumNeed)
    requires close.hamState == open.hamState + 1
    ensures Admits(open, close) <==> Closes(open, close) && open.forum == close.forum && IsSeaPubkey(open.subject)
  {
  }

  /** Anyone but the owner is accepted exactly as the subject of an open row, remembered or
      newly admitted by the owner's signature, that it closes by one step on a live offer. */
  lemma OutsidersOnlyClose(need: ForumNeed, signer: Key, owner: Option<Key>, forum: ObjectId, known: Option<ForumNeed>,
                           closure: Option<Closure>, admitted: Option<ForumNeed>)
    requires owner != Some(signer)
    ensures Authorize(need, signer, owner, forum, known, closure, admitted) <==>
              && need.forum == forum && IsSeaPubkey(signer)
              && (known.Some? ==> need.subject == known.value.subject && need.hamState >= known.value.hamState)
              && Freshest(need, known, admitted).Some?
              && Closes(Freshest(need, known, admitted).value, need) && signer == need.subject
              && need.hamState < MAX_SAFE_INTEGER - 1 && OnLiveOffer(need, closure)
  {
    if closure.Some? {
      ClosureMeans(need, closure.value);
    }
  }

  lemma OpenRowsAreOwned(need: ForumNeed, signer: Key, owner: Option<Key>, forum: ObjectId, known: Option<ForumNeed>,
                         closure: Option<Closure>, admitted: Option<ForumNeed>)
    requires need.stated && Authorize(need, signer, owner, forum, known, closure, admitted)
    ensures owner == Some(signer)
  {
  }

  // ------------------------------------------------------------ the caches

  function CacheNeed(cache: map<ObjectId, ForumNeed>, incoming: ForumNeed,
                     floor: Option<ForumNeed>): Option<map<ObjectId, ForumNeed>> {
    var cached := if incoming.id in cache then Some(cache[incoming.id]) else None;
    var current := if floor.Some? && floor.value.id == incoming.id &&
        (cached.None? || floor.value.hamState > cached.value.hamState)
                   then floor else cached;
    if current.Some? && current.value.hamState > incoming.hamState then None else Some(cache[incoming.id := incoming])
  }

  /** A row that the life cycle allows, given all rows the owner is known to have signed. */
  predicate Lawful(row: ForumNeed, signed: set<ForumNeed>) {
    row in signed || exists open :: open in signed && Closes(open, row)
  }

  /** Rows accepted so far: each lawful, and per need never a lower HAM state. */
  predicate LawfulHistory(history: seq<ForumNeed>, signed: set<ForumNeed>) {
    && (forall i | 0 <= i < |history| :: Lawful(history[i], signed) && (history[i].stated ==> history[i] in signed))
    && (forall i, j | 0 <= i < j < |history| && history[i].id == history[j].id ::
        history[i].hamState <= history[j].hamState)
  }

  /** Not more than one step above something that the owner signed for the same need. */
  predicate AtMostOneAbove(row: ForumNeed, signed: set<ForumNeed>) {
    exists top :: top in signed && top.id == row.id && row.hamState <= top.hamState + 1
  }

  lemma LawfulIsBounded(history: seq<ForumNeed>, signed: set<ForumNeed>)
    requires LawfulHistory(history, signed)
    ensures forall row | row in history :: AtMostOneAbove(row, signed)
  {
    forall row | row in history ensures AtMostOneAbove(row, signed) {
      var i :| 0 <= i < |history| && history[i] == row;
      if row !in signed {
        var top :| top in signed && Closes(top, row);
      }
    }
  }

  lemma LawfulMore(row: ForumNeed, signed: set<ForumNeed>, more: set<ForumNeed>)
    requires Lawful(row, signed) && signed <= more
    ensures Lawful(row, more)
  {
    if row !in signed {
      var open :| open in signed && Closes(open, row);
      assert open in more;
    }
  }

  class NeedBoard {
    const forum: ObjectId
    var cache: map<ObjectId, ForumNeed>
    var highWater: map<ObjectId, ForumNeed>
    /** Rows whose owner signature was verified, and the rows that entered the cache. */
    ghost var signed: set<ForumNeed>
    ghost var history: seq<ForumNeed>

    ghost predicate Valid()
      reads this
    {
      LawfulHistory(history, signed) && Consistent(cache, highWater, history)
    }

    /** Replay floors come from storage and prove nothing; the cache starts empty. */
    constructor (forum: ObjectId, restored: map<ObjectId, ForumNeed>)
      requires forall id | id in restored :: restored[id].id == id
      ensures Valid() && history == [] && cache == map[] && highWater == restored
    {
      this.forum := forum;
      cache, highWater, signed, history := map[], restored, {}, [];
    }

    method RaiseHighWater(need: ForumNeed) returns (raised: bool)
      modifies `highWater
      ensures raised <==> need.id !in old(highWater) || old(highWater)[need.id].hamState < need.hamState
      ensures highWater == if raised then old(highWater)[need.id := need] else old(highWater)
    {
      if need.id in highWater && highWater[need.id].hamState >= need.hamState {
        return false;
      }
      highWater := highWater[need.id := need];
      return true;
    }

    /** One verified delivery. `proved` says whether the cached row is still proved, and
        `admitted` is an open row whose owner signature was carried inside the close. */
    method Accept(need: ForumNeed, signer: Key, owner: Option<Key>, proved: bool, closure: Option<Closure>,
                  admission: Option<ForumNeed>)
      returns (accepted: bool)
      requires Valid()
      modifies this
      ensures Valid()
      ensures accepted ==> cache == old(cache)[need.id := need] && history == old(history) + [need]
      ensures !accepted ==> cache == old(cache) && history == old(history) && highWater == old(highWater)
      ensures accepted ==> need.id in highWater && highWater[need.id].hamState == need.hamState
      ensures accepted ==> forall row | row in history :: AtMostOneAbove(row, signed)
      ensures signed == old(signed) + (if owner == Some(signer) then {need} else {})
                        + (if owner.Some? && admission.Some? && Admits(admission.value, need) then {admission.value}
                           else {})
      ensures accepted <==>
                var known := if need.id in old(cache) && proved then Some(old(cache)[need.id]) else None;
                var admitted := if owner.Some? && admission.Some? && Admits(admission.value, need) then admission
                    else None;
                && Publishable(need, signer, owner, forum, known, closure, admitted)
                && (need.id in old(cache) ==> old(cache)[need.id].hamState <= need.hamState)
                && (need.id in old(highWater) ==> old(highWater)[need.id].hamState <= need.hamState)
    {
      hide Authorize, ClosureStatus, LawfulHistory, Consistent, Latest, AtMostOneAbove, Publishable;
      var known := if need.id in cache && proved then Some(cache[need.id]) else None;
      var admitted := if owner.Some? && admission.Some? && Admits(admission.value, need) then admission else None;
      ghost var before := signed;
      signed := signed + (if owner == Some(signer) then {need} else {}) + (if admitted.Some? then {admitted.value}
        else {});
      SignedMore(history, before, signed);
      AuthorizedExactly(need, signer, owner, forum, known, closure, admitted);
      InHistory(cache, highWater, history, need.id);
      if !Authorize(need, signer, owner, forum, known, closure, admitted) {
        return false;
      }
      var floor := if need.id in highWater then Some(highWater[need.id]) else None;
      var cached := CacheNeed(cache, need, floor);
      if cached.None? {
        return false;
      }
      AcceptedIsLawful(need, signer, owner, forum, known, closure, admitted, history, signed);
      AcceptKeeps(cache, highWater, history, signed, need);
      cache := cached.value;
      history := history + [need];
      LawfulIsBounded(history, signed);
      var _ := RaiseHighWater(need);
      return true;
    }
  }

  /** The cache holds the latest accepted row of each need, under a floor at least as high. */
  ghost predicate Consistent(cache: map<ObjectId, ForumNeed>, highWater: map<ObjectId, ForumNeed>,
                             history: seq<ForumNeed>) {
    && (forall id | id in cache :: cache[id].id == id && cache[id] in history && Latest(history, cache[id]))
    && (forall id | id in highWater :: highWater[id].id == id)
    && (forall id | id in cache :: id in highWater && highWater[id].hamState >= cache[id].hamState)
    && (forall row | row in history :: row.id in cache)
  }

  lemma InHistory(cache: map<ObjectId, ForumNeed>, highWater: map<ObjectId, ForumNeed>, history: seq<ForumNeed>,
                  id: ObjectId)
    requires Consistent(cache, highWater, history)
    ensures id in cache ==> cache[id] in history && id in highWater && highWater[id].hamState >= cache[id].hamState
    ensures id in highWater ==> highWater[id].id == id
  {
  }

  function Raised(highWater: map<ObjectId, ForumNeed>, need: ForumNeed): map<ObjectId, ForumNeed> {
    if need.id !in highWater || highWater[need.id].hamState < need.hamState then highWater[need.id := need]
       else highWater
  }

  lemma AcceptKeeps(cache: map<ObjectId, ForumNeed>, highWater: map<ObjectId, ForumNeed>, history: seq<ForumNeed>,
                    signed: set<ForumNeed>, need: ForumNeed)
    requires Consistent(cache, highWater, history) && LawfulHistory(history, signed)
    requires Lawful(need, signed) && (need.stated ==> need in signed)
    requires CacheNeed(cache, need, if need.id in highWater then Some(highWater[need.id]) else None).Some?
    ensures Consistent(cache[need.id := need], Raised(highWater, need), history + [need])
    ensures LawfulHistory(history + [need], signed)
    ensures need.id in Raised(highWater, need) && Raised(highWater, need)[need.id].hamState == need.hamState
  {
    hide Latest, LawfulHistory, Lawful;
    HistoryGrows(history, signed, need, if need.id in cache then Some(cache[need.id]) else None);
    LatestGrows(history, need);
  }

  /** No later or higher row of the same need has been accepted. */
  predicate Latest(history: seq<ForumNeed>, row: ForumNeed) {
    forall other | other in history && other.id == row.id :: other.hamState <= row.hamState
  }

  lemma SignedMore(history: seq<ForumNeed>, signed: set<ForumNeed>, more: set<ForumNeed>)
    requires LawfulHistory(history, signed) && signed <= more
    ensures LawfulHistory(history, more)
  {
    forall i | 0 <= i < |history| ensures Lawful(history[i], more) {
      LawfulMore(history[i], signed, more);
    }
  }

  lemma LatestGrows(history: seq<ForumNeed>, need: ForumNeed)
    ensures forall row: ForumNeed | row.id != need.id :: Latest(history + [need], row) == Latest(history, row)
  {
    forall row: ForumNeed | row.id != need.id ensures Latest(history + [need], row) == Latest(history, row) {
      if Latest(history + [need], row) {
        forall other | other in history && other.id == row.id ensures other.hamState <= row.hamState {
          assert other in history + [need];
        }
      }
    }
  }

  lemma HistoryGrows(history: seq<ForumNeed>, signed: set<ForumNeed>, need: ForumNeed, cached: Option<ForumNeed>)
    requires LawfulHistory(history, signed) && Lawful(need, signed) && (need.stated ==> need in signed)
    requires cached.Some? ==>
             cached.value.id == need.id && Latest(history, cached.value) && cached.value.hamState <= need.hamState
    requires cached.None? ==> forall row | row in history :: row.id != need.id
    ensures LawfulHistory(history + [need], signed) && Latest(history + [need], need)
  {
    hide Lawful;
    forall i | 0 <= i < |history| && history[i].id == need.id ensures history[i].hamState <= need.hamState {
      assert history[i] in history;
    }
  }

  lemma AcceptedIsLawful(need: ForumNeed, signer: Key, owner: Option<Key>, forum: ObjectId, known: Option<ForumNeed>,
                         closure: Option<Closure>, admitted: Option<ForumNeed>, history: seq<ForumNeed>,
                         signed: set<ForumNeed>)
    requires Authorize(need, signer, owner, forum, known, closure, admitted)
    requires LawfulHistory(history, signed) && (known.Some? ==> known.value in history)
    requires (owner == Some(signer) ==> need in signed) && (admitted.Some? ==> admitted.value in signed)
    ensures Lawful(need, signed) && (need.stated ==> need in signed)
  {
    if owner != Some(signer) {
      OutsidersOnlyClose(need, signer, owner, forum, known, closure, admitted);
      var open := Freshest(need, known, admitted).value;
      assert open in signed;
      assert Closes(open, need);
    }
  }
}
