/**
 Reissuing a claim link: a token is replaced by compare-and-swap on the stored hash, in every
 interleaving of reissues, claims, revocations and expiries. Tokens are known by their hashes.
 */
module Reissue {
  import opened Wrappers

  datatype Status = Issued | Claimed | Expired | Revoked

  datatype Row = Row(accountId: string, tokenHash: string, status: Status, expiresAt: Option<int>)

  datatype ReissueError = OwnerMismatch | NotClaimable | PastDue | InProgress | Unavailable

  /** Being someone else is answered before anything about the state. */
  function EvaluateReissue(row: Row, actor: Option<string>, now: int): Option<ReissueError> {
    if actor != Some(row.accountId) then Some(OwnerMismatch)
    else if !row.status.Issued? then Some(NotClaimable)
    else if row.expiresAt.Some? && row.expiresAt.value <= now then Some(PastDue)
    else None
  }

  datatype Phase =
    | Decided(accountId: string)
    | HashRead(accountId: string, expected: string)
    | Swapped(newHash: string)
    | Returned(result: Result<string, ReissueError>)
    | Gone

  datatype Party = Party(entitlementId: string, actor: Option<string>, phase: Phase)

  /** A swap that took place. */
  datatype Win = Win(entitlementId: string, expected: string, newHash: string)

  /** `spent` are all hashes ever made; `replaced` those that a swap has taken out of use. */
  datatype World = World(rows: map<string, Row>, parties: seq<Party>, wins: seq<Win>, spent: set<string>, replaced: set<string>)

  datatype Event =
    | Issue(id: string, accountId: string, tokenHash: string, expiresAt: Option<int>)
    | SetStatus(id: string, status: Status)
    | Begin(id: string, actor: Option<string>, now: int)
    | ReadHash(who: nat)
    | Swap(who: nat, newHash: string, acknowledged: bool)
    | Return(who: nat, audited: bool)
    | Crash(who: nat)

  function Start(): World {
    World(map[], [], [], {}, {})
  }

  function Moved(w: World, who: nat, phase: Phase): World
    requires who < |w.parties|
  {
    w.(parties := w.parties[who := w.parties[who].(phase := phase)])
  }

  /** The condition of the update: the purchaser's, still issued, and the hash that was read. */
  predicate Rotates(row: Row, accountId: string, expected: string) {
    row.accountId == accountId && row.status.Issued? && row.tokenHash == expected
  }

  predicate Enabled(w: World, e: Event) {
    match e
    case Issue(id, _, hash, _) => id !in w.rows && hash !in w.spent
    case SetStatus(id, status) => id in w.rows && !status.Issued?
    case Begin(_, _, _) => true
    case ReadHash(who) => who < |w.parties| && w.parties[who].phase.Decided?
    case Swap(who, hash, _) => who < |w.parties| && w.parties[who].phase.HashRead? && hash !in w.spent
    case Return(who, _) => who < |w.parties| && w.parties[who].phase.Swapped?
    case Crash(who) => who < |w.parties|
  }

  function StepBegin(w: World, id: string, actor: Option<string>, now: int): World {
    var phase :=
      if id !in w.rows then Returned(Err(OwnerMismatch))
      else match EvaluateReissue(w.rows[id], actor, now)
        case Some(error) => Returned(Err(error))
        case None => Decided(w.rows[id].accountId);
    w.(parties := w.parties + [Party(id, actor, phase)])
  }

  /** A hash is made before the swap is tried; one that could not be stored is never handed out. */
  function StepSwap(w: World, who: nat, newHash: string, acknowledged: bool): World
    requires who < |w.parties| && w.parties[who].phase.HashRead?
  {
    var id := w.parties[who].entitlementId;
    var HashRead(accountId, expected) := w.parties[who].phase;
    var made := w.(spent := w.spent + {newHash});
    if id !in w.rows || !Rotates(w.rows[id], accountId, expected) then
      Moved(made, who, Returned(Err(if acknowledged then InProgress else Unavailable)))
    else
      Moved(made, who, if acknowledged then Swapped(newHash) else Returned(Err(Unavailable)))
      .(rows := w.rows[id := w.rows[id].(tokenHash := newHash)],
        wins := w.wins + [Win(id, expected, newHash)],
        replaced := w.replaced + {expected})
  }

  function Next(w: World, e: Event): World {
    if !Enabled(w, e) then w
    else match e
      case Issue(id, accountId, hash, expiresAt) =>
        w.(rows := w.rows[id := Row(accountId, hash, Issued, expiresAt)], spent := w.spent + {hash})
      case SetStatus(id, status) => w.(rows := w.rows[id := w.rows[id].(status := status)])
      case Begin(id, actor, now) => StepBegin(w, id, actor, now)
      case ReadHash(who) =>
        var id := w.parties[who].entitlementId;
        if id !in w.rows then Moved(w, who, Returned(Err(OwnerMismatch)))
        else Moved(w, who, HashRead(w.parties[who].phase.accountId, w.rows[id].tokenHash))
      case Swap(who, hash, acknowledged) => StepSwap(w, who, hash, acknowledged)
      case Return(who, audited) =>
        Moved(w, who, Returned(if audited then Ok(w.parties[who].phase.newHash) else Err(Unavailable)))
      case Crash(who) => Moved(w, who, Gone)
  }

  function Run(w: World, es: seq<Event>): World
    decreases |es|
  {
    if es == [] then w else Run(Next(w, es[0]), es[1..])
  }

  // --- what every run keeps -------------------------------------------------------------

  /** The stored hash is the last winner's, once there is one. */
  ghost predicate LastWinnerIsStored(w: World) {
    forall k :: 0 <= k < |w.wins| ==>
      w.wins[k].entitlementId in w.rows
      && (w.rows[w.wins[k].entitlementId].tokenHash == w.wins[k].newHash
          || exists l :: k < l < |w.wins| && w.wins[l].entitlementId == w.wins[k].entitlementId)
  }

  /** No two swaps started from the same hash, and each led to a hash of its own. */
  ghost predicate OneWinnerPerHash(w: World) {
    forall k, l :: 0 <= k < l < |w.wins| ==>
      w.wins[k].expected != w.wins[l].expected && w.wins[k].newHash != w.wins[l].newHash
  }

  ghost predicate HashesOk(w: World) {
    && (forall id :: id in w.rows ==> w.rows[id].tokenHash in w.spent && w.rows[id].tokenHash !in w.replaced)
    && (forall a, b | a in w.rows && b in w.rows :: w.rows[a].tokenHash == w.rows[b].tokenHash ==> a == b)
    && w.replaced <= w.spent
    && (forall k :: 0 <= k < |w.wins| ==> w.wins[k].expected in w.replaced && w.wins[k].newHash in w.spent)
  }

  ghost predicate WonBySomeSwap(w: World, id: string, hash: string) {
    exists k :: 0 <= k < |w.wins| && w.wins[k].entitlementId == id && w.wins[k].newHash == hash
  }

  /** A link on its way out, or out, is one that a swap has stored, for its purchaser. */
  ghost predicate PartyOk(w: World, p: Party) {
    && (p.phase.Decided? || p.phase.HashRead? ==> p.actor == Some(p.phase.accountId))
    && (p.phase.Swapped? ==> p.actor.Some? && WonBySomeSwap(w, p.entitlementId, p.phase.newHash))
    && (p.phase.Returned? && p.phase.result.Ok? ==>
          p.actor.Some? && WonBySomeSwap(w, p.entitlementId, p.phase.result.value))
  }

  ghost predicate Inv(w: World) {
    && LastWinnerIsStored(w) && OneWinnerPerHash(w) && HashesOk(w)
    && forall i :: 0 <= i < |w.parties| ==> PartyOk(w, w.parties[i])
  }

  lemma MoreWinsKeepParties(w: World, w': World, who: nat)
    requires who < |w.parties| && |w'.parties| == |w.parties|
    requires forall i :: 0 <= i < |w.parties| ==> PartyOk(w, w.parties[i])
    requires w.wins <= w'.wins && w'.parties == w.parties[who := w'.parties[who]] && PartyOk(w', w'.parties[who])
    ensures forall i :: 0 <= i < |w'.parties| ==> PartyOk(w', w'.parties[i])
  {
    forall id, hash | WonBySomeSwap(w, id, hash)
      ensures WonBySomeSwap(w', id, hash)
    {
      var k :| 0 <= k < |w.wins| && w.wins[k].entitlementId == id && w.wins[k].newHash == hash;
      assert w'.wins[k] == w.wins[k];
    }
    forall i | 0 <= i < |w'.parties|
      ensures PartyOk(w', w'.parties[i])
    {
      assert i != who ==> w'.parties[i] == w.parties[i] && PartyOk(w, w.parties[i]);
    }
  }

  lemma SwapKeepsInv(w: World, e: Event)
    requires Inv(w) && e.Swap? && Enabled(w, e)
    ensures Inv(Next(w, e))
  {
    var w' := Next(w, e);
    var p := w.parties[e.who];
    assert PartyOk(w, p);
    if |w'.wins| > |w.wins| {
      var n := w'.wins[|w.wins|];
      assert w'.wins == w.wins + [n] && n == Win(p.entitlementId, p.phase.expected, e.newHash);
      assert w.rows[p.entitlementId].tokenHash == n.expected;
      SwapExtends(w, w', n);
      assert WonBySomeSwap(w', p.entitlementId, e.newHash);
    }
    MoreWinsKeepParties(w, w', e.who);
  }

  /** One more swap: of the hash that was stored, for one never made before. */
  lemma SwapExtends(w: World, w': World, n: Win)
    requires LastWinnerIsStored(w) && OneWinnerPerHash(w) && HashesOk(w)
    requires n.entitlementId in w.rows && w.rows[n.entitlementId].tokenHash == n.expected && n.newHash !in w.spent
    requires w'.rows == w.rows[n.entitlementId := w.rows[n.entitlementId].(tokenHash := n.newHash)]
    requires w'.wins == w.wins + [n] && w'.replaced == w.replaced + {n.expected} && w'.spent == w.spent + {n.newHash}
    ensures LastWinnerIsStored(w') && OneWinnerPerHash(w') && HashesOk(w')
  {
    forall k | 0 <= k < |w'.wins|
      ensures w'.wins[k].entitlementId in w'.rows
      ensures w'.rows[w'.wins[k].entitlementId].tokenHash == w'.wins[k].newHash
              || exists l :: k < l < |w'.wins| && w'.wins[l].entitlementId == w'.wins[k].entitlementId
    {
      if k < |w.wins| {
        assert w'.wins[k] == w.wins[k];
        if w.wins[k].entitlementId == n.entitlementId {
          assert w'.wins[|w.wins|].entitlementId == w'.wins[k].entitlementId;
        } else if w.rows[w.wins[k].entitlementId].tokenHash != w.wins[k].newHash {
          var l :| k < l < |w.wins| && w.wins[l].entitlementId == w.wins[k].entitlementId;
          assert w'.wins[l] == w.wins[l];
        }
      }
    }
  }

  lemma StepKeepsInv(w: World, e: Event)
    requires Inv(w)
    ensures Inv(Next(w, e))
  {
    var w' := Next(w, e);
    if !Enabled(w, e) {
    } else if e.Swap? {
      SwapKeepsInv(w, e);
    } else if e.ReadHash? || e.Return? || e.Crash? {
      assert PartyOk(w, w.parties[e.who]);
      MoreWinsKeepParties(w, w', e.who);
    } else {
      forall i | 0 <= i < |w'.parties|
        ensures PartyOk(w', w'.parties[i])
      {
        assert i < |w.parties| ==> w'.parties[i] == w.parties[i] && PartyOk(w, w.parties[i]);
      }
    }
  }

  lemma {:induction false} RunKeepsInv(w: World, es: seq<Event>)
    requires Inv(w)
    ensures Inv(Run(w, es))
    decreases |es|
  {
    if es != [] {
      StepKeepsInv(w, es[0]);
      RunKeepsInv(Next(w, es[0]), es[1..]);
    }
  }

  /**
   However reissues interleave: of those that read the same hash at most one swaps it, what is
   stored is the last winner's, and a hash once replaced never opens anything again.
   */
  lemma OneWinnerAndTheLastOneStands(es: seq<Event>)
    ensures var w := Run(Start(), es);
            && OneWinnerPerHash(w) && LastWinnerIsStored(w)
            && (forall k, id :: 0 <= k < |w.wins| && id in w.rows ==> w.rows[id].tokenHash != w.wins[k].expected)
  {
    RunKeepsInv(Start(), es);
  }

  /** Only a step that stores a new hash for the very row, still issued, lets its link out. */
  lemma SwappedWasLive(w: World, e: Event, who: nat)
    requires Inv(w) && who < |w.parties| && !w.parties[who].phase.Swapped?
    requires Next(w, e).parties[who].phase.Swapped?
    ensures var p := Next(w, e).parties[who];
            var id := p.entitlementId;
            && e.Swap? && e.who == who && id in w.rows
            && w.rows[id].status.Issued? && p.actor == Some(w.rows[id].accountId)
            && w.rows[id].tokenHash == w.parties[who].phase.expected
            && Next(w, e).rows == w.rows[id := w.rows[id].(tokenHash := p.phase.newHash)]
  {
    assert PartyOk(w, w.parties[who]);
  }

  /** A link that was handed out was stored by its own swap, and opens exactly until the next swap of the same row. */
  lemma LinkOpensUntilTheNextSwap(es: seq<Event>, i: nat)
    requires i < |Run(Start(), es).parties|
    requires Run(Start(), es).parties[i].phase.Returned? && Run(Start(), es).parties[i].phase.result.Ok?
    ensures var w := Run(Start(), es);
            var id, hash := w.parties[i].entitlementId, w.parties[i].phase.result.value;
            exists k :: && 0 <= k < |w.wins| && w.wins[k].entitlementId == id && w.wins[k].newHash == hash
                        && id in w.rows
                        && (w.rows[id].tokenHash == hash
                            <==> forall l :: k < l < |w.wins| ==> w.wins[l].entitlementId != id)
  {
    RunKeepsInv(Start(), es);
    var w := Run(Start(), es);
    assert PartyOk(w, w.parties[i]);
    var id, hash := w.parties[i].entitlementId, w.parties[i].phase.result.value;
    var k :| 0 <= k < |w.wins| && w.wins[k].entitlementId == id && w.wins[k].newHash == hash;
    if exists l :: k < l < |w.wins| && w.wins[l].entitlementId == id {
      LaterWinTakesOver(w, k);
    }
  }

  lemma LaterWinTakesOver(w: World, k: nat)
    requires Inv(w) && k < |w.wins| && exists l :: k < l < |w.wins| && w.wins[l].entitlementId == w.wins[k].entitlementId
    ensures w.wins[k].entitlementId in w.rows && w.rows[w.wins[k].entitlementId].tokenHash != w.wins[k].newHash
    decreases |w.wins| - k
  {
    var l :| k < l < |w.wins| && w.wins[l].entitlementId == w.wins[k].entitlementId;
    if w.rows[w.wins[l].entitlementId].tokenHash == w.wins[k].newHash {
      StoredIsSomeLater(w, l);
    }
  }

  /** The stored hash is that of a win no earlier than any given one of the row. */
  lemma StoredIsSomeLater(w: World, l: nat)
    requires Inv(w) && l < |w.wins|
    ensures w.wins[l].entitlementId in w.rows
    ensures exists m :: l <= m < |w.wins| && w.rows[w.wins[l].entitlementId].tokenHash == w.wins[m].newHash
    decreases |w.wins| - l
  {
    if w.rows[w.wins[l].entitlementId].tokenHash != w.wins[l].newHash {
      var m :| l < m < |w.wins| && w.wins[m].entitlementId == w.wins[l].entitlementId;
      StoredIsSomeLater(w, m);
    }
  }

  // --- the service ----------------------------------------------------------------------

  class ClaimTokens {
    var rows: map<string, Row>

    constructor ()
      ensures rows == map[]
    {
      rows := map[];
    }

    method Rotate(id: string, accountId: string, expected: string, newHash: string) returns (rotated: bool)
      modifies this
      ensures rotated == (id in old(rows) && Rotates(old(rows)[id], accountId, expected))
      ensures rows == if rotated then old(rows)[id := old(rows)[id].(tokenHash := newHash)] else old(rows)
    {
      rotated := id in rows && Rotates(rows[id], accountId, expected);
      if rotated {
        rows := rows[id := rows[id].(tokenHash := newHash)];
      }
    }
  }

  function Alone(id: string, actor: Option<string>, now: int, newHash: string, audited: bool): seq<Event> {
    [Begin(id, actor, now), ReadHash(0), Swap(0, newHash, true), Return(0, audited)]
  }

  class ReissueService {
    const claims: ClaimTokens

    constructor (claims: ClaimTokens)
      ensures this.claims == claims
    {
      this.claims := claims;
    }

    /** A reissue with nobody in between; `newHash` belongs to a newly made token. */
    method ReissueLink(id: string, actor: Option<string>, now: int, newHash: string, audited: bool)
      returns (result: Result<string, ReissueError>)
      modifies claims
      ensures var w := Run(Start().(rows := old(claims.rows)), Alone(id, actor, now, newHash, audited));
              claims.rows == w.rows && w.parties == [Party(id, actor, Returned(result))]
      ensures result == Err(OwnerMismatch) <==> id !in old(claims.rows) || actor != Some(old(claims.rows)[id].accountId)
      ensures id in old(claims.rows) && actor == Some(old(claims.rows)[id].accountId) ==>
                var row := old(claims.rows)[id];
                var past := row.expiresAt.Some? && now >= row.expiresAt.value;
                && (result == Err(NotClaimable) <==> row.status != Status.Issued)
                && (result == Err(PastDue) <==> row.status == Status.Issued && past)
                && (row.status == Status.Issued && !past ==>
                      result == (if audited then Ok(newHash) else Err(Unavailable))
                      && claims.rows == old(claims.rows)[id := row.(tokenHash := newHash)])
                && (row.status != Status.Issued || past ==> claims.rows == old(claims.rows))
    {
      ghost var w := Start().(rows := claims.rows);
      AloneUnfolds(w, id, actor, now, newHash, audited);
      if id !in claims.rows {
        return Err(OwnerMismatch);
      }
      var entitlement := claims.rows[id];
      var decision := EvaluateReissue(entitlement, actor, now);
      if decision.Some? {
        return Err(decision.value);
      }
      var expected := claims.rows[id].tokenHash;
      var rotated := claims.Rotate(id, entitlement.accountId, expected, newHash);
      if !rotated {
        return Err(InProgress);
      }
      return if audited then Ok(newHash) else Err(Unavailable);
    }
  }

  lemma AloneUnfolds(w: World, id: string, actor: Option<string>, now: int, newHash: string, audited: bool)
    ensures Run(w, Alone(id, actor, now, newHash, audited))
            == Next(Next(Next(Next(w, Begin(id, actor, now)), ReadHash(0)), Swap(0, newHash, true)), Return(0, audited))
  {
    var es := Alone(id, actor, now, newHash, audited);
    var w1 := Next(w, es[0]);
    var w2 := Next(w1, es[1]);
    var w3 := Next(w2, es[2]);
    var end := es[1..][1..][1..];
    assert end == [es[3]];
    assert Run(w3, end) == Next(w3, es[3]);
    assert Run(w1, es[1..]) == Run(w2, es[1..][1..]) == Run(w3, end);
  }

  /** A swap goes through exactly for the purchaser's own row, still issued, with the hash that was read; else it was too late. */
  lemma SwapSaysExactly(w: World, who: nat, newHash: string)
    requires Enabled(w, Swap(who, newHash, true))
    ensures var id, phase := w.parties[who].entitlementId, w.parties[who].phase;
            var w' := Next(w, Swap(who, newHash, true));
            var goes := id in w.rows && w.rows[id].accountId == phase.accountId && w.rows[id].status == Status.Issued
                        && w.rows[id].tokenHash == phase.expected;
            && w'.parties[who].phase == (if goes then Swapped(newHash) else Returned(Err(InProgress)))
            && w'.rows == if goes then w.rows[id := w.rows[id].(tokenHash := newHash)] else w.rows
  {
  }
}
