/**
 The catalogue in the hands of those who sell: an ownership check before every change that is
 handed on, in every interleaving with other creators and with the operators' own changes.
 */
module CreatorCatalog {
  import opened Wrappers
  import opened Authorization

  /** `body` stands for everything about an artwork but whose it is. */
  datatype Artwork = Artwork(creator: string, body: string)

  datatype Listing = Listing(artworkId: string, body: string)

  datatype Call =
    | CreateArtwork(newId: string)
    | ChangeArtwork(id: string)
    | ArchiveArtwork(id: string)
    | CreateListing(newId: string, artworkId: string)
    | ChangeListing(id: string)

  /** `ending` are the listings of an artwork that archiving it found. */
  datatype Phase = Checked | Loaded(ending: set<string>) | Finished(found: bool)

  datatype Party = Party(actor: Actor, call: Call, phase: Phase)

  /** `used` are the ids ever given out; ids are not given out twice. */
  datatype World = World(artworks: map<string, Artwork>, listings: map<string, Listing>, parties: seq<Party>, used: set<string>)

  datatype Event =
    | Ask(actor: Actor, call: Call)
    | Load(who: nat)
    | Write(who: nat, body: string)
    | Crash(who: nat)
    | OperatorCreate(id: string, accountId: string, body: string)
    | OperatorChange(id: string, body: string)
    | OperatorChangeListing(id: string, body: string)
    | OperatorDelete(id: string)

  function Start(): World {
    World(map[], map[], [], {})
  }

  /** The check, against the tables as they are when it is made; "not yours" and "not there" are answered alike. */
  predicate Owns(w: World, actor: Actor, call: Call) {
    match call
    case CreateArtwork(_) => actor.accountId.Some?
    case ChangeArtwork(id) => OwnsArtwork(w, actor, id)
    case ArchiveArtwork(id) => OwnsArtwork(w, actor, id)
    case CreateListing(_, artworkId) => OwnsArtwork(w, actor, artworkId)
    case ChangeListing(id) =>
      id in w.listings && w.listings[id].artworkId in w.artworks
      && Can(actor, ListingManageOwn, Some(w.artworks[w.listings[id].artworkId].creator)).Allow?
  }

  predicate OwnsArtwork(w: World, actor: Actor, id: string) {
    id in w.artworks && Can(actor, ArtworkManageOwn, Some(w.artworks[id].creator)).Allow?
  }

  function Moved(w: World, who: nat, phase: Phase): World
    requires who < |w.parties|
  {
    w.(parties := w.parties[who := w.parties[who].(phase := phase)])
  }

  function ListingsOf(w: World, artworkId: string): set<string> {
    set id | id in w.listings && w.listings[id].artworkId == artworkId
  }

  /** Reading what is to be changed, once more, before changing it. */
  function StepLoad(w: World, who: nat): World
    requires who < |w.parties|
  {
    var call := w.parties[who].call;
    var found :=
      match call
      case CreateArtwork(_) => true
      case ChangeArtwork(id) => id in w.artworks
      case ArchiveArtwork(id) => id in w.artworks
      case CreateListing(_, artworkId) => artworkId in w.artworks
      case ChangeListing(id) => id in w.listings;
    Moved(w, who, if found then Loaded(if call.ArchiveArtwork? then ListingsOf(w, call.id) else {}) else Finished(false))
  }

  /** Updates write neither the creator nor a listing's artwork; a row that is gone fails the write. */
  function StepWrite(w: World, who: nat, body: string): World
    requires who < |w.parties| && w.parties[who].phase.Loaded?
  {
    var p := w.parties[who];
    match p.call
    case CreateArtwork(id) =>
      if id in w.used || p.actor.accountId.None? then Moved(w, who, Finished(false))
      else Moved(w, who, Finished(true))
           .(artworks := w.artworks[id := Artwork(p.actor.accountId.value, body)], used := w.used + {id})
    case ChangeArtwork(id) =>
      if id !in w.artworks then Moved(w, who, Finished(false))
      else Moved(w, who, Finished(true)).(artworks := w.artworks[id := w.artworks[id].(body := body)])
    case ArchiveArtwork(id) =>
      if id !in w.artworks || !(p.phase.ending <= w.listings.Keys) then Moved(w, who, Finished(false))
      else Moved(w, who, Finished(true))
           .(artworks := w.artworks[id := w.artworks[id].(body := body)],
             listings := map l | l in w.listings ::
               if l in p.phase.ending then w.listings[l].(body := body) else w.listings[l])
    case CreateListing(id, artworkId) =>
      if id in w.used || artworkId !in w.artworks then Moved(w, who, Finished(false))
      else Moved(w, who, Finished(true)).(listings := w.listings[id := Listing(artworkId, body)], used := w.used + {id})
    case ChangeListing(id) =>
      if id !in w.listings then Moved(w, who, Finished(false))
      else Moved(w, who, Finished(true)).(listings := w.listings[id := w.listings[id].(body := body)])
  }

  predicate Enabled(w: World, e: Event) {
    match e
    case Load(who) => who < |w.parties| && w.parties[who].phase.Checked?
    case Write(who, _) => who < |w.parties| && w.parties[who].phase.Loaded?
    case Crash(who) => who < |w.parties|
    case _ => true
  }

  function Next(w: World, e: Event): World {
    if !Enabled(w, e) then w
    else match e
      case Ask(actor, call) =>
        w.(parties := w.parties + [Party(actor, call, if Owns(w, actor, call) then Checked else Finished(false))])
      case Load(who) => StepLoad(w, who)
      case Write(who, body) => StepWrite(w, who, body)
      case Crash(who) => Moved(w, who, Finished(false))
      case OperatorCreate(id, accountId, body) =>
        if id in w.used then w else w.(artworks := w.artworks[id := Artwork(accountId, body)], used := w.used + {id})
      case OperatorChange(id, body) =>
        if id !in w.artworks then w else w.(artworks := w.artworks[id := w.artworks[id].(body := body)])
      case OperatorChangeListing(id, body) =>
        if id !in w.listings then w else w.(listings := w.listings[id := w.listings[id].(body := body)])
      case OperatorDelete(id) =>
        w.(artworks := w.artworks - {id}, listings := map l | l in w.listings && w.listings[l].artworkId != id :: w.listings[l])
  }

  function Run(w: World, es: seq<Event>): World
    decreases |es|
  {
    if es == [] then w else Run(Next(w, es[0]), es[1..])
  }

  // --- what every run keeps -------------------------------------------------------------

  predicate Excused(actor: Actor) {
    HasBypass(actor, ArtworkManageOwn) || HasBypass(actor, ListingManageOwn)
  }

  ghost predicate ArtworkIsOwn(w: World, actor: Actor, id: string) {
    id in w.used && (id in w.artworks ==> actor.accountId == Some(w.artworks[id].creator))
  }

  ghost predicate ListingIsOwn(w: World, actor: Actor, id: string) {
    id in w.used && (id in w.listings ==> ArtworkIsOwn(w, actor, w.listings[id].artworkId))
  }

  /** What was found to be one's own is so for as long as it is there. */
  ghost predicate StillOwn(w: World, p: Party) {
    (p.phase.Checked? || p.phase.Loaded?) && !Excused(p.actor) ==>
      && p.actor.accountId.Some?
      && (match p.call
          case CreateArtwork(_) => true
          case ChangeArtwork(id) => ArtworkIsOwn(w, p.actor, id)
          case ArchiveArtwork(id) =>
            ArtworkIsOwn(w, p.actor, id)
            && (p.phase.Loaded? ==> forall l :: l in p.phase.ending ==> ListingIsOwn(w, p.actor, l))
          case CreateListing(_, artworkId) => ArtworkIsOwn(w, p.actor, artworkId)
          case ChangeListing(id) => ListingIsOwn(w, p.actor, id))
  }

  ghost predicate Inv(w: World) {
    && InPlace(w)
    && (forall i :: 0 <= i < |w.parties| ==> StillOwn(w, w.parties[i]))
  }

  /** Creators and artworks' listings never change hands, and ids do not come back. */
  ghost predicate HandsStay(w: World, w': World) {
    && w.used <= w'.used
    && (forall id :: id in w'.artworks && id in w.used ==> id in w.artworks && w'.artworks[id].creator == w.artworks[id].creator)
    && (forall l :: l in w'.listings && l in w.used ==> l in w.listings && w'.listings[l].artworkId == w.listings[l].artworkId)
  }

  ghost predicate InPlace(w: World) {
    && w.artworks.Keys <= w.used && w.listings.Keys <= w.used
    && (forall l :: l in w.listings ==> w.listings[l].artworkId in w.artworks)
  }

  lemma ListingWriteKeepsHands(w: World, who: nat, body: string)
    requires InPlace(w) && who < |w.parties| && w.parties[who].phase.Loaded?
    requires w.parties[who].call.ArchiveArtwork? || w.parties[who].call.CreateListing? || w.parties[who].call.ChangeListing?
    ensures HandsStay(w, StepWrite(w, who, body)) && InPlace(StepWrite(w, who, body))
  {
  }

  lemma WriteKeepsHands(w: World, who: nat, body: string)
    requires InPlace(w) && who < |w.parties| && w.parties[who].phase.Loaded?
    ensures HandsStay(w, StepWrite(w, who, body)) && InPlace(StepWrite(w, who, body))
  {
    if !w.parties[who].call.CreateArtwork? && !w.parties[who].call.ChangeArtwork? {
      ListingWriteKeepsHands(w, who, body);
    }
  }

  lemma StepKeepsHands(w: World, e: Event)
    requires InPlace(w)
    ensures HandsStay(w, Next(w, e)) && InPlace(Next(w, e))
  {
    if e.Write? && Enabled(w, e) {
      WriteKeepsHands(w, e.who, e.body);
    }
  }

  lemma HandsKeepOwn(w: World, w': World, p: Party)
    requires Inv(w) && HandsStay(w, w') && StillOwn(w, p)
    ensures StillOwn(w', p)
  {
  }

  lemma CheckedIsOwn(w: World, actor: Actor, call: Call)
    requires Inv(w) && Owns(w, actor, call)
    ensures StillOwn(w, Party(actor, call, Checked))
  {
    if !Excused(actor) && !call.CreateArtwork? {
      var owner := match call
        case ChangeArtwork(id) => w.artworks[id].creator
        case ArchiveArtwork(id) => w.artworks[id].creator
        case CreateListing(_, artworkId) => w.artworks[artworkId].creator
        case ChangeListing(id) => w.artworks[w.listings[id].artworkId].creator;
      FullDecisionIsGuardAndOwnership(actor, if call.ChangeListing? then ListingManageOwn else ArtworkManageOwn, Some(owner));
    }
  }

  /** A party moves on only from what was its own. */
  lemma MoveIsOwn(w: World, e: Event, i: nat)
    requires Inv(w) && i < |Next(w, e).parties|
    ensures StillOwn(w, Next(w, e).parties[i])
  {
    if i < |w.parties| {
      assert StillOwn(w, w.parties[i]);
    } else if Next(w, e).parties[i].phase.Checked? {
      CheckedIsOwn(w, e.actor, e.call);
    }
  }

  lemma StepKeepsInv(w: World, e: Event)
    requires Inv(w)
    ensures Inv(Next(w, e))
  {
    var w' := Next(w, e);
    StepKeepsHands(w, e);
    forall i | 0 <= i < |w'.parties|
      ensures StillOwn(w', w'.parties[i])
    {
      MoveIsOwn(w, e, i);
      HandsKeepOwn(w, w', w'.parties[i]);
    }
  }

  lemma {:induction false} RunKeepsInv(w: World, es: seq<Event>)
    requires Inv(w)
    ensures Inv(Run(w, es))
    decreases |es|
  {
    if es != [] {
      StepKeepsInv(w, es[0]);
      RunKeepsInv(Next(w, es[0]), es[1..]);
    }
  }

  // --- nobody's hands but one's own -----------------------------------------------------

  /** Nothing of anybody else is changed, and nothing is made for anybody else. */
  ghost predicate TouchesOnly(w: World, w': World, accountId: Option<string>)
    requires InPlace(w) && InPlace(w')
  {
    && (forall id :: id in w.artworks && Some(w.artworks[id].creator) != accountId ==>
          id in w'.artworks && w'.artworks[id] == w.artworks[id])
    && (forall id :: id in w'.artworks && id !in w.artworks ==> Some(w'.artworks[id].creator) == accountId)
    && (forall l :: l in w.listings && Some(w.artworks[w.listings[l].artworkId].creator) != accountId ==>
          l in w'.listings && w'.listings[l] == w.listings[l])
    && (forall l :: l in w'.listings && l !in w.listings ==>
          Some(w'.artworks[w'.listings[l].artworkId].creator) == accountId)
  }

  /**
   At whatever moment it comes, a write by someone whose role is not excused changes only artworks
   and listings of their own account, and what it makes belongs to that account.
   */
  lemma WritesTouchOnlyOwn(w: World, who: nat, body: string)
    requires Inv(w) && Enabled(w, Write(who, body)) && !Excused(w.parties[who].actor)
    ensures InPlace(Next(w, Write(who, body)))
    ensures TouchesOnly(w, Next(w, Write(who, body)), w.parties[who].actor.accountId)
  {
    StepKeepsHands(w, Write(who, body));
    assert StillOwn(w, w.parties[who]);
  }

  predicate IsOperatorStep(e: Event) {
    e.OperatorCreate? || e.OperatorChange? || e.OperatorChangeListing? || e.OperatorDelete?
  }

  /** Somebody without an excuse who is not this account. */
  predicate Stranger(actor: Actor, accountId: string) {
    !Excused(actor) && actor.accountId != Some(accountId)
  }

  ghost predicate OnlyStrangers(w: World, es: seq<Event>, accountId: string) {
    && (forall i :: 0 <= i < |w.parties| ==> Stranger(w.parties[i].actor, accountId))
    && (forall k :: 0 <= k < |es| ==> !IsOperatorStep(es[k]) && (es[k].Ask? ==> Stranger(es[k].actor, accountId)))
  }

  function ArtworksOf(w: World, accountId: string): map<string, Artwork> {
    map id | id in w.artworks && w.artworks[id].creator == accountId :: w.artworks[id]
  }

  function ListingsFor(w: World, accountId: string): map<string, Listing>
    requires InPlace(w)
  {
    map l | l in w.listings && w.artworks[w.listings[l].artworkId].creator == accountId :: w.listings[l]
  }

  ghost predicate SameProperty(w: World, w': World, accountId: string)
    requires InPlace(w) && InPlace(w')
  {
    ArtworksOf(w', accountId) == ArtworksOf(w, accountId) && ListingsFor(w', accountId) == ListingsFor(w, accountId)
  }

  lemma TouchingElsewhereKeepsArtworks(w: World, w': World, other: Option<string>, accountId: string)
    requires InPlace(w) && InPlace(w') && TouchesOnly(w, w', other) && HandsStay(w, w') && other != Some(accountId)
    ensures ArtworksOf(w', accountId) == ArtworksOf(w, accountId)
  {
    assert ArtworksOf(w', accountId).Keys == ArtworksOf(w, accountId).Keys;
  }

  lemma TouchingElsewhereKeepsListings(w: World, w': World, other: Option<string>, accountId: string)
    requires InPlace(w) && InPlace(w') && TouchesOnly(w, w', other) && HandsStay(w, w') && other != Some(accountId)
    ensures ListingsFor(w', accountId) == ListingsFor(w, accountId)
  {
    forall l | l in w'.listings && w'.artworks[w'.listings[l].artworkId].creator == accountId
      ensures l in ListingsFor(w, accountId) && ListingsFor(w, accountId)[l] == w'.listings[l]
    {
    }
    forall l | l in w.listings && w.artworks[w.listings[l].artworkId].creator == accountId
      ensures l in ListingsFor(w', accountId)
    {
    }
  }

  lemma StrangersStepKeepsProperty(w: World, e: Event, accountId: string)
    requires Inv(w) && OnlyStrangers(w, [e], accountId)
    ensures Inv(Next(w, e)) && SameProperty(w, Next(w, e), accountId)
  {
    StepKeepsInv(w, e);
    assert [e][0] == e;
    if e.Write? && Enabled(w, e) {
      StepKeepsHands(w, e);
      WritesTouchOnlyOwn(w, e.who, e.body);
      TouchingElsewhereKeepsArtworks(w, Next(w, e), w.parties[e.who].actor.accountId, accountId);
      TouchingElsewhereKeepsListings(w, Next(w, e), w.parties[e.who].actor.accountId, accountId);
    }
  }

  /**
   Over any run of creators' calls, checks and writes interleaved as they may, what an account
   owns is exactly what it was as long as only others without an excuse are at work.
   */
  lemma {:induction false} StrangersLeavePropertyAlone(w: World, es: seq<Event>, accountId: string)
    requires Inv(w) && OnlyStrangers(w, es, accountId)
    ensures Inv(Run(w, es)) && SameProperty(w, Run(w, es), accountId)
    decreases |es|
  {
    if es != [] {
      var w' := Next(w, es[0]);
      assert OnlyStrangers(w, [es[0]], accountId);
      StrangersStepKeepsProperty(w, es[0], accountId);
      StrangersStay(w, es, accountId);
      StrangersLeavePropertyAlone(w', es[1..], accountId);
    }
  }

  lemma StrangersStay(w: World, es: seq<Event>, accountId: string)
    requires es != [] && OnlyStrangers(w, es, accountId)
    ensures OnlyStrangers(Next(w, es[0]), es[1..], accountId)
  {
    var w' := Next(w, es[0]);
    forall i | 0 <= i < |w'.parties|
      ensures Stranger(w'.parties[i].actor, accountId)
    {
      assert i < |w.parties| ==> w'.parties[i].actor == w.parties[i].actor;
    }
  }

  // --- the service ----------------------------------------------------------------------

  class CatalogTables {
    var artworks: map<string, Artwork>
    var listings: map<string, Listing>
    var used: set<string>

    constructor ()
      ensures View() == Start()
    {
      artworks, listings, used := map[], map[], {};
    }

    function View(): World
      reads this
    {
      World(artworks, listings, [], used)
    }
  }

  /** What a call that nobody interferes with leaves in the tables. */
  predicate LeftBy(before: World, actor: Actor, call: Call, body: string, after: World) {
    var w := Run(before, [Ask(actor, call), Load(0), Write(0, body)]);
    after.artworks == w.artworks && after.listings == w.listings && after.used == w.used
  }

  lemma RunOfThree(w: World, a: Event, b: Event, c: Event)
    ensures Run(w, [a, b, c]) == Next(Next(Next(w, a), b), c)
  {
    assert [a, b, c][1..] == [b, c] && [b, c][1..] == [c];
    assert Run(Next(Next(w, a), b), [c]) == Next(Next(Next(w, a), b), c);
  }

  /** A refused call takes no further step. */
  lemma RefusedLeaves(w: World, actor: Actor, call: Call, body: string)
    requires w.parties == [] && !Owns(w, actor, call)
    ensures LeftBy(w, actor, call, body, w)
  {
    RunOfThree(w, Ask(actor, call), Load(0), Write(0, body));
  }

  lemma ChangeLeaves(w: World, actor: Actor, id: string, body: string)
    requires w.parties == [] && Owns(w, actor, ChangeArtwork(id))
    ensures LeftBy(w, actor, ChangeArtwork(id), body, w.(artworks := w.artworks[id := w.artworks[id].(body := body)]))
  {
    RunOfThree(w, Ask(actor, ChangeArtwork(id)), Load(0), Write(0, body));
  }

  lemma ListingLeaves(w: World, actor: Actor, newId: string, artworkId: string, body: string)
    requires w.parties == [] && Owns(w, actor, CreateListing(newId, artworkId)) && newId !in w.used
    ensures LeftBy(w, actor, CreateListing(newId, artworkId), body,
                   w.(listings := w.listings[newId := Listing(artworkId, body)], used := w.used + {newId}))
  {
    RunOfThree(w, Ask(actor, CreateListing(newId, artworkId)), Load(0), Write(0, body));
  }

  class CreatorCatalogService {
    const tables: CatalogTables

    constructor (tables: CatalogTables)
      ensures this.tables == tables
    {
      this.tables := tables;
    }

    /** A missing artwork and somebody else's are answered alike. */
    method AssertOwnsArtwork(actor: Actor, id: string) returns (owned: Option<Artwork>)
      ensures owned == if OwnsArtwork(tables.View(), actor, id) then Some(tables.artworks[id]) else None
    {
      if id !in tables.artworks {
        return None;
      }
      var artwork := tables.artworks[id];
      if Can(actor, ArtworkManageOwn, Some(artwork.creator)) != Allow {
        return None;
      }
      return Some(artwork);
    }

    /** The change is the delegated write and nothing else, and only after the check. */
    method UpdateArtwork(actor: Actor, id: string, body: string) returns (changed: bool)
      requires Inv(tables.View())
      modifies tables
      ensures Inv(tables.View())
      ensures changed == OwnsArtwork(old(tables.View()), actor, id)
      ensures LeftBy(old(tables.View()), actor, ChangeArtwork(id), body, tables.View())
      ensures tables.View() == if changed then old(tables.View()).(
                artworks := old(tables.artworks)[id := old(tables.artworks)[id].(body := body)]) else old(tables.View())
      ensures !Excused(actor) ==> TouchesOnly(old(tables.View()), tables.View(), actor.accountId)
    {
      var owned := AssertOwnsArtwork(actor, id);
      if owned.None? {
        RefusedLeaves(tables.View(), actor, ChangeArtwork(id), body);
        return false;
      }
      ChangeLeaves(tables.View(), actor, id, body);
      CheckedIsOwn(tables.View(), actor, ChangeArtwork(id));
      tables.artworks := tables.artworks[id := tables.artworks[id].(body := body)];
      return true;
    }

    method CreateListingFor(actor: Actor, newId: string, artworkId: string, body: string) returns (created: bool)
      requires Inv(tables.View()) && newId !in tables.used
      modifies tables
      ensures Inv(tables.View())
      ensures created == OwnsArtwork(old(tables.View()), actor, artworkId)
      ensures LeftBy(old(tables.View()), actor, CreateListing(newId, artworkId), body, tables.View())
      ensures tables.listings == if created then old(tables.listings)[newId := Listing(artworkId, body)] else old(tables.listings)
      ensures tables.artworks == old(tables.artworks)
      ensures !Excused(actor) ==> TouchesOnly(old(tables.View()), tables.View(), actor.accountId)
    {
      var owned := AssertOwnsArtwork(actor, artworkId);
      if owned.None? {
        RefusedLeaves(tables.View(), actor, CreateListing(newId, artworkId), body);
        return false;
      }
      ListingLeaves(tables.View(), actor, newId, artworkId, body);
      CheckedIsOwn(tables.View(), actor, CreateListing(newId, artworkId));
      tables.listings := tables.listings[newId := Listing(artworkId, body)];
      tables.used := tables.used + {newId};
      return true;
    }
  }

  // --- what an owner's call comes to ----------------------------------------------------

  /** Whoever made an artwork passes the check for it, and so does an operator; nobody else does. */
  lemma OwnersPassExactly(w: World, actor: Actor, id: string)
    ensures Owns(w, actor, ChangeArtwork(id))
            <==> id in w.artworks && actor.accountId != None && actor.isActive
                 && (actor.role == Operator || (actor.role == Buyer && actor.accountId == Some(w.artworks[id].creator)))
    ensures Owns(w, actor, ArchiveArtwork(id)) <==> Owns(w, actor, ChangeArtwork(id))
    ensures forall newId :: Owns(w, actor, CreateListing(newId, id)) <==> Owns(w, actor, ChangeArtwork(id))
  {
    if id in w.artworks {
      DecisionSaysExactly(actor, ArtworkManageOwn, Some(w.artworks[id].creator));
    }
  }

  lemma ListingOwnersPassExactly(w: World, actor: Actor, id: string)
    requires InPlace(w)
    ensures Owns(w, actor, ChangeListing(id))
            <==> id in w.listings && actor.accountId != None && actor.isActive
                 && (actor.role == Operator
                     || (actor.role == Buyer && actor.accountId == Some(w.artworks[w.listings[id].artworkId].creator)))
  {
    if id in w.listings {
      DecisionSaysExactly(actor, ListingManageOwn, Some(w.artworks[w.listings[id].artworkId].creator));
    }
  }

  lemma CreationLeaves(w: World, actor: Actor, newId: string, body: string)
    requires w.parties == [] && actor.accountId.Some? && newId !in w.used
    ensures LeftBy(w, actor, CreateArtwork(newId), body,
                   w.(artworks := w.artworks[newId := Artwork(actor.accountId.value, body)], used := w.used + {newId}))
  {
    RunOfThree(w, Ask(actor, CreateArtwork(newId)), Load(0), Write(0, body));
  }

  lemma ListingChangeLeaves(w: World, actor: Actor, id: string, body: string)
    requires w.parties == [] && Owns(w, actor, ChangeListing(id))
    ensures LeftBy(w, actor, ChangeListing(id), body, w.(listings := w.listings[id := w.listings[id].(body := body)]))
  {
    RunOfThree(w, Ask(actor, ChangeListing(id)), Load(0), Write(0, body));
  }

  /** Archiving an artwork ends all its listings and no others. */
  lemma ArchivingLeaves(w: World, actor: Actor, id: string, body: string)
    requires w.parties == [] && Owns(w, actor, ArchiveArtwork(id))
    ensures LeftBy(w, actor, ArchiveArtwork(id), body,
                   w.(artworks := w.artworks[id := w.artworks[id].(body := body)],
                      listings := map l | l in w.listings ::
                        if w.listings[l].artworkId == id then w.listings[l].(body := body) else w.listings[l]))
  {
    RunOfThree(w, Ask(actor, ArchiveArtwork(id)), Load(0), Write(0, body));
    var w1 := Next(w, Ask(actor, ArchiveArtwork(id)));
    var w2 := Next(w1, Load(0));
    assert w2.parties == [Party(actor, ArchiveArtwork(id), Loaded(ListingsOf(w, id)))];
  }
}
