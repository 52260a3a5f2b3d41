/**
 The agent directory: connecting agents under an owner, binding an acknowledgement to a boundary
 card, and the readiness flag that counterparties trust.

 A missing or empty text field is ""; rows are database rows, read and written back by id.
 */
module AgentDirectory {
  import opened Text
  import opened AgentBoundary

  // ----- rows -----

  /** The acknowledgement entry of a row's metadata; `NotADict` is any other JSON value. */
  datatype AckEntry =
    | NotADict
    | Ack(acknowledged: bool, boundaryHash: string, invalidated: bool, previousHash: string, attestation: string)

  /** Onboarding metadata: the keys the directory reads or writes, each present or not. */
  datatype Meta = Meta(
    boundaryHash: Option<string>,
    ownerIdentityId: Option<string>,
    identityClass: Option<string>,
    ack: Option<AckEntry>,
    exampleSpecs: Option<bool>)

  const NO_META := Meta(None, None, None, None, None)

  function Newer<T>(old_: Option<T>, incoming: Option<T>): Option<T>
  {
    if incoming.Some? then incoming else old_
  }

  /** `dict.update`. */
  function MergeMeta(old_: Meta, incoming: Meta): Meta
  {
    Meta(Newer(old_.boundaryHash, incoming.boundaryHash), Newer(old_.ownerIdentityId, incoming.ownerIdentityId),
         Newer(old_.identityClass, incoming.identityClass), Newer(old_.ack, incoming.ack),
         Newer(old_.exampleSpecs, incoming.exampleSpecs))
  }

  datatype Agent = Agent(
    agentId: string,
    name: string,
    role: string,
    endpoint: string,
    publicKey: string,
    capabilities: seq<string>,
    isActive: bool,
    identityClass: string,
    owner: string,
    meta: Meta,
    boundaryHash: string,
    p1Ready: bool)

  function TextOf(x: Option<string>): string
  {
    if x.Some? then x.value else ""
  }

  /** The stored hash as readiness reads it. */
  function StoredHash(row: Agent): string
  {
    Strip(OrText(row.boundaryHash, TextOf(row.meta.boundaryHash)))
  }

  /** The stored hash as a connect compares it. */
  function PreviousHash(row: Agent): string
  {
    OrText(Strip(row.boundaryHash), Strip(TextOf(row.meta.boundaryHash)))
  }

  function AckHash(ack: Option<AckEntry>): string
  {
    if ack.Some? && ack.value.Ack? then Strip(ack.value.boundaryHash) else ""
  }

  predicate Acknowledged(ack: Option<AckEntry>)
  {
    ack.Some? && ack.value.Ack? && ack.value.acknowledged
  }

  predicate AckNames(ack: Option<AckEntry>, hash: string)
  {
    Acknowledged(ack) && AckHash(ack) != "" && AckHash(ack) == hash
  }

  /** The acknowledgement on record is for the card whose hash is stored. */
  predicate AckBound(row: Agent)
  {
    AckNames(row.meta.ack, StoredHash(row))
  }

  // ----- connecting -----

  /** A card sent by the caller; of it only these parts are read. */
  datatype GivenBoundary = GivenBoundary(
    profileId: string,
    sceneIds: seq<string>,
    capability: Option<Capability>,
    complianceFlags: string)

  datatype Request = Request(
    agentId: string,
    freshId: string,
    name: string,
    role: string,
    endpoint: Option<string>,
    capabilities: seq<string>,
    publicKey: string,
    card: Option<Card>,
    boundary: Option<GivenBoundary>,
    ensureBoundary: bool,
    identityClass: string,
    owner: string,
    meta: Option<Meta>,
    acknowledged: bool,
    allowHijack: bool)

  /** Content hashes are never blank and carry no white space at the ends. */
  type Fingerprint = f: Content -> string | forall c :: f(c) != "" && Strip(f(c)) == f(c)
    ghost witness PlainFingerprint()

  ghost function PlainFingerprint(): (f: Content -> string)
    ensures forall c :: f(c) != "" && Strip(f(c)) == f(c)
  {
    StripStripped("0");
    (c: Content) => "0"
  }

  datatype Setting = Setting(policy: Policy, fingerprint: Fingerprint, platformKey: string)

  const ROLES := {"client", "worker", "arbitrator", "validator"}

  const SELLING := {"worker", "seller", "merchant"}

  function OfferedCapabilities(req: Request): seq<string>
  {
    if req.role in SELLING && "karma_settle" !in req.capabilities then req.capabilities + ["karma_settle"]
    else req.capabilities
  }

  function NewRow(setting: Setting, req: Request): Agent
  {
    Agent(OrText(req.agentId, req.freshId), req.name, if req.role in ROLES then req.role else "worker",
          TextOf(req.endpoint), OrText(req.publicKey, setting.platformKey), OfferedCapabilities(req), true,
          req.identityClass, req.owner, if req.meta.Some? then req.meta.value else NO_META, "", false)
  }

  /** The existing capabilities, then the new ones not among them. */
  function AddMissing(existing: seq<string>, more: seq<string>): seq<string>
  {
    if more == [] then existing
    else
      var before := AddMissing(existing, more[..|more| - 1]);
      if more[|more| - 1] in before then before else before + [more[|more| - 1]]
  }

  method ExtendCapabilities(existing: seq<string>, more: seq<string>) returns (all: seq<string>)
    ensures all == AddMissing(existing, more)
  {
    all := existing;
    for i := 0 to |more|
      invariant all == AddMissing(existing, more[..i])
    {
      assert more[..i + 1][..i] == more[..i];
      if more[i] !in all {
        all := all + [more[i]];
      }
    }
    assert more[..|more|] == more;
  }

  lemma {:induction false} AddMissingGrows(existing: seq<string>, more: seq<string>)
    ensures existing <= AddMissing(existing, more)
    ensures forall c :: c in AddMissing(existing, more) <==> c in existing || c in more
  {
    if more != [] {
      AddMissingGrows(existing, more[..|more| - 1]);
      assert more == more[..|more| - 1] + [more[|more| - 1]];
    }
  }

  function UpdatedRow(row: Agent, req: Request): Agent
  {
    Agent(row.agentId, OrText(req.name, row.name), OrText(req.role, row.role),
          if req.endpoint.Some? then req.endpoint.value else row.endpoint, OrText(req.publicKey, row.publicKey),
          AddMissing(row.capabilities, OfferedCapabilities(req)), true, OrText(req.identityClass, row.identityClass),
          OrText(req.owner, row.owner), if req.meta.Some? then MergeMeta(row.meta, req.meta.value) else row.meta,
          row.boundaryHash, row.p1Ready)
  }

  /** An owned row is refused to callers who do not name its owner. */
  predicate Hijack(row: Agent, req: Request)
  {
    !req.allowHijack && Strip(row.owner) != "" && Strip(req.owner) != Strip(row.owner)
  }

  function CardOr(card: Option<Card>, default: Card): Card
  {
    if card.Some? && card.value != EMPTY_CARD then card.value else default
  }

  function CardOfGiven(g: GivenBoundary): Card
  {
    Card(g.profileId, g.sceneIds, [], "", if g.capability.Some? then g.capability.value.specs else [],
         if g.capability.Some? then g.capability.value.doNot else "", g.complianceFlags, "")
  }

  function OwnerForBoundary(row: Agent, req: Request): string
  {
    OrText(row.owner, OrText(req.owner, row.agentId))
  }

  /** The profile a card would be made for. */
  function ProfileFor(req: Request): string
  {
    var named := OrText(req.identityClass, if req.card.Some? then req.card.value.profileId else "");
    if req.boundary.Some? && (req.card.Some? || req.boundary.value.capability.Some?)
    then OrText(req.boundary.value.profileId, named)
    else named
  }

  /** The stored card is kept when nothing about it was sent. */
  predicate KeepsStored(stored: Option<Boundary>, req: Request)
  {
    req.boundary.None? && stored.Some? && stored.value.complete && req.card.None? && req.identityClass == ""
  }

  function ChooseBoundary(policy: Policy, stored: Option<Boundary>, row: Agent, req: Request): Boundary
  {
    var owner, profile := OwnerForBoundary(row, req), ProfileFor(req);
    if KeepsStored(stored, req) then stored.value
    else if req.boundary.Some? && req.card.None? && req.boundary.value.capability.None? then
      Materialize(policy, row.agentId, row.name, row.role, profile, row.capabilities, [], EMPTY_CARD, owner, req.acknowledged)
    else if req.boundary.Some? then
      var g := req.boundary.value;
      var caps := if g.capability.Some? && g.capability.value.capabilities != [] then g.capability.value.capabilities
                  else row.capabilities;
      Materialize(policy, row.agentId, row.name, row.role, profile, caps, g.sceneIds, CardOr(req.card, CardOfGiven(g)),
                  owner, req.acknowledged)
    else
      var card := CardOr(req.card, EMPTY_CARD);
      Materialize(policy, row.agentId, row.name, row.role, profile, row.capabilities, card.industryIds, card, owner,
                  req.acknowledged)
  }

  /** Records a written card's hash; a changed hash withdraws an acknowledgement of another card. */
  function Rebound(row: Agent, req: Request, hash: string): Agent
  {
    var previous := PreviousHash(row);
    var changed := previous != "" && previous != hash;
    var renewed := AckNames(row.meta.ack, hash);
    var ack := if changed && !renewed && Acknowledged(row.meta.ack)
               then Some(row.meta.ack.value.(acknowledged := false, invalidated := true, previousHash := previous))
               else row.meta.ack;
    var meta := row.meta.(ack := ack, boundaryHash := Some(hash), ownerIdentityId := Some(OwnerForBoundary(row, req)));
    row.(boundaryHash := hash, p1Ready := row.p1Ready && !(changed && !renewed),
         meta := if req.identityClass != "" then meta.(identityClass := Some(req.identityClass)) else meta)
  }

  datatype Directory = Directory(rows: map<string, Agent>, boundaries: map<string, Boundary>, cards: map<string, Card>)

  function Find<T>(m: map<string, T>, id: string): Option<T>
  {
    if id in m then Some(m[id]) else None
  }

  function Target(d: Directory, req: Request): Option<Agent>
  {
    if req.agentId == "" then None else Find(d.rows, req.agentId)
  }

  /** The row after the request's own fields are in, before any card is written. */
  function Merged(setting: Setting, d: Directory, req: Request): Agent
  {
    var row := Target(d, req);
    if row.Some? then UpdatedRow(row.value, req) else NewRow(setting, req)
  }

  predicate WritesBoundary(req: Request)
  {
    req.boundary.Some? || req.ensureBoundary
  }

  function ChosenFor(setting: Setting, d: Directory, req: Request): Boundary
  {
    var row := Merged(setting, d, req);
    ChooseBoundary(setting.policy, Find(d.boundaries, row.agentId), row, req)
  }

  datatype Result = Connected(after: Directory) | Forbidden | RefusedCard(after: Directory)

  function WithCard(d: Directory, id: string, card: Option<Card>): Directory
  {
    if card.Some? then d.(cards := d.cards[id := card.value]) else d
  }

  /** A connect. A refused card leaves the directory's rows alone (the session rolls back), though
      the profile card is kept already. */
  function Connect(setting: Setting, d: Directory, req: Request): Result
  {
    var target := Target(d, req);
    if target.Some? && Hijack(target.value, req) then Forbidden
    else
      var row := Merged(setting, d, req);
      var carded := WithCard(d, row.agentId, req.card);
      if !WritesBoundary(req) then Connected(carded.(rows := carded.rows[row.agentId := row]))
      else
        var boundary := ChosenFor(setting, d, req);
        var saved := SavedBoundary(setting.policy, row.agentId, boundary);
        if saved.None? then RefusedCard(carded)
        else
          var final := Rebound(row, req, setting.fingerprint(ContentOf(boundary)));
          Connected(Directory(carded.rows[row.agentId := final], carded.boundaries[row.agentId := saved.value], carded.cards))
  }

  // ----- readiness -----

  /** What readiness reads from other records: identities, keys, specifications, signatures and
      reputations; `demo` and `production` are the environment's two switches. */
  datatype World = World(
    ownerActive: string -> bool,
    placeholderKey: string -> bool,
    platformKey: string -> bool,
    specsRaise: Card -> bool,
    attested: AckEntry -> bool,
    hasReputation: string -> bool,
    demo: bool,
    production: bool)

  datatype ReadinessGap =
    | DirectoryActive
    | IdentityClassSet
    | OwnerIdentityActive
    | OwnerIdentityBound
    | PublicKeyBound
    | PublicKeyNotPlatformDefault
    | ProfileCardPresent
    | ServiceSpecsValid
    | BoundaryComplete
    | BoundaryHashConsistent
    | ResponsibilityAcknowledged
    | ResponsibilityAttestationValid
    | AckBoundToLiveBoundary
    | OwnershipConsistent
    | ReputationInitialized

  predicate Trader(identityClass: string)
  {
    identityClass == "merchant" || identityClass == "enterprise"
  }

  function LiveBoundary(setting: Setting, d: Directory, row: Agent): Boundary
  {
    var stored := Find(d.boundaries, row.agentId);
    if stored.Some? then stored.value
    else
      Materialize(setting.policy, row.agentId, row.name, row.role, Strip(row.identityClass), row.capabilities, [],
                  CardOr(Find(d.cards, row.agentId), EMPTY_CARD), OrText(Strip(row.owner), row.agentId), false)
  }

  function LiveHash(setting: Setting, d: Directory, row: Agent): string
  {
    setting.fingerprint(ContentOf(LiveBoundary(setting, d, row)))
  }

  predicate SpecsOk(world: World, card: Card, meta: Meta)
  {
    card.industryIds != [] && card.specs != [] && !world.specsRaise(card)
    && !(meta.exampleSpecs == Some(true) && world.production)
  }

  /** Everything a counterparty relies on, at once. */
  ghost predicate Ready(setting: Setting, world: World, d: Directory, row: Agent)
  {
    var identityClass, owner := Strip(row.identityClass), Strip(row.owner);
    var card, live := CardOr(Find(d.cards, row.agentId), EMPTY_CARD), LiveHash(setting, d, row);
    && row.isActive
    && (identityClass == "user" || Trader(identityClass))
    && owner != "" && world.ownerActive(owner)
    && !world.placeholderKey(row.publicKey) && (world.platformKey(row.publicKey) ==> world.demo)
    && card != EMPTY_CARD
    && (Trader(identityClass) ==> SpecsOk(world, card, row.meta))
    && LiveBoundary(setting, d, row).complete
    && StoredHash(row) == live
    && AckNames(row.meta.ack, live) && world.attested(row.meta.ack.value)
    && (var named := Strip(TextOf(row.meta.ownerIdentityId)); named == "" || named == owner)
    && world.hasReputation(row.agentId)
  }

  predicate OnlySoft(gaps: seq<ReadinessGap>)
  {
    forall g :: g in gaps ==> g == PublicKeyNotPlatformDefault
  }

  predicate IdentityOk(world: World, row: Agent)
  {
    && (Strip(row.identityClass) == "user" || Trader(Strip(row.identityClass)))
    && Strip(row.owner) != "" && world.ownerActive(Strip(row.owner))
    && !world.placeholderKey(row.publicKey)
  }

  method CheckIdentity(world: World, row: Agent) returns (gaps: seq<ReadinessGap>)
    ensures OnlySoft(gaps) <==> IdentityOk(world, row)
    ensures gaps == [] <==> IdentityOk(world, row) && !world.platformKey(row.publicKey)
  {
    hide Strip, OnlySoft;
    gaps := [];
    var identityClass, owner := Strip(row.identityClass), Strip(row.owner);
    if !(identityClass == "user" || Trader(identityClass)) {
      gaps := gaps + [IdentityClassSet];
    }
    if owner == "" {
      gaps := gaps + [OwnerIdentityBound];
    } else if !world.ownerActive(owner) {
      gaps := gaps + [OwnerIdentityActive];
    }
    if world.placeholderKey(row.publicKey) {
      gaps := gaps + [PublicKeyBound];
    }
    SoftLast(gaps);
    if world.platformKey(row.publicKey) || world.placeholderKey(row.publicKey) {
      gaps := gaps + [PublicKeyNotPlatformDefault];
    }
  }

  lemma SoftLast(hard: seq<ReadinessGap>)
    requires PublicKeyNotPlatformDefault !in hard
    ensures OnlySoft(hard) <==> hard == []
    ensures OnlySoft(hard + [PublicKeyNotPlatformDefault]) <==> hard == []
  {
    if hard != [] {
      assert hard[0] in hard && hard[0] in hard + [PublicKeyNotPlatformDefault];
    }
  }

  method CheckCard(world: World, identityClass: string, card: Card, meta: Meta) returns (gaps: seq<ReadinessGap>)
    ensures gaps == [] <==> card != EMPTY_CARD && (Trader(identityClass) ==> SpecsOk(world, card, meta))
    ensures PublicKeyNotPlatformDefault !in gaps
  {
    gaps := [];
    if card == EMPTY_CARD {
      gaps := gaps + [ProfileCardPresent];
    }
    if Trader(identityClass) {
      if card.industryIds != [] && card.specs != [] {
        if world.specsRaise(card) {
          gaps := gaps + [ServiceSpecsValid];
        }
      } else {
        gaps := gaps + [ServiceSpecsValid];
      }
      if meta.exampleSpecs == Some(true) && world.production && ServiceSpecsValid !in gaps {
        gaps := gaps + [ServiceSpecsValid];
      }
    }
  }

  method CheckBoundary(world: World, row: Agent, live: Boundary, hash: string) returns (gaps: seq<ReadinessGap>)
    requires hash != ""
    ensures gaps == [] <==>
      && live.complete && StoredHash(row) == hash && AckNames(row.meta.ack, hash) && world.attested(row.meta.ack.value)
      && (Strip(row.owner) == "" || Strip(TextOf(row.meta.ownerIdentityId)) == ""
          || Strip(TextOf(row.meta.ownerIdentityId)) == Strip(row.owner))
    ensures PublicKeyNotPlatformDefault !in gaps
  {
    gaps := [];
    var stored := StoredHash(row);
    if !live.complete {
      gaps := gaps + [BoundaryComplete];
    }
    if stored == "" || stored != hash {
      gaps := gaps + [BoundaryHashConsistent];
    }
    if Acknowledged(row.meta.ack) {
      if !world.attested(row.meta.ack.value) {
        gaps := gaps + [ResponsibilityAttestationValid];
      }
      var ackHash := AckHash(row.meta.ack);
      if !(ackHash != "" && ackHash == hash && stored != "" && ackHash == stored) {
        gaps := gaps + [AckBoundToLiveBoundary];
      }
    } else {
      gaps := gaps + [ResponsibilityAcknowledged, ResponsibilityAttestationValid, AckBoundToLiveBoundary];
    }
    var owner, named := Strip(row.owner), Strip(TextOf(row.meta.ownerIdentityId));
    if owner != "" && named != "" && named != owner {
      gaps := gaps + [OwnershipConsistent];
    }
  }

  function WithoutSoft(gaps: seq<ReadinessGap>): seq<ReadinessGap>
  {
    if gaps == [] then []
    else (if gaps[0] == PublicKeyNotPlatformDefault then [] else [gaps[0]]) + WithoutSoft(gaps[1..])
  }

  lemma {:induction false} WithoutSoftEmpty(gaps: seq<ReadinessGap>)
    ensures WithoutSoft(gaps) == [] <==> OnlySoft(gaps)
  {
    if gaps != [] {
      WithoutSoftEmpty(gaps[1..]);
      assert gaps == [gaps[0]] + gaps[1..];
      assert gaps[0] in gaps;
      forall g ensures g in gaps <==> g == gaps[0] || g in gaps[1..] {}
    }
  }

  /** Collects the gaps; in a demo environment the platform's own key is tolerated. */
  method EvaluateP1Readiness(setting: Setting, world: World, d: Directory, row: Agent)
    returns (ready: bool, gaps: seq<ReadinessGap>)
    ensures ready <==> Ready(setting, world, d, row)
    ensures ready <==> gaps == []
  {
    hide Strip, StoredHash, AckNames, LiveBoundary, SpecsOk, CardOr, WithoutSoft, OnlySoft;
    if !row.isActive {
      return false, [DirectoryActive];
    }
    var identityClass := Strip(row.identityClass);
    var identityGaps := CheckIdentity(world, row);
    var cardGaps := CheckCard(world, identityClass, CardOr(Find(d.cards, row.agentId), EMPTY_CARD), row.meta);
    var boundaryGaps := CheckBoundary(world, row, LiveBoundary(setting, d, row), LiveHash(setting, d, row));
    var reputationGaps := if world.hasReputation(row.agentId) then [] else [ReputationInitialized];
    gaps := identityGaps + cardGaps + boundaryGaps + reputationGaps;
    GapsSplit(identityGaps, cardGaps, boundaryGaps, reputationGaps);
    if (identityClass == "user" || Trader(identityClass)) && world.demo {
      WithoutSoftEmpty(gaps);
      gaps := WithoutSoft(gaps);
    }
    ready := gaps == [];
  }

  lemma GapsSplit(a: seq<ReadinessGap>, b: seq<ReadinessGap>, c: seq<ReadinessGap>, e: seq<ReadinessGap>)
    requires PublicKeyNotPlatformDefault !in b && PublicKeyNotPlatformDefault !in c && PublicKeyNotPlatformDefault !in e
    ensures a + b + c + e == [] <==> a == [] && b == [] && c == [] && e == []
    ensures OnlySoft(a + b + c + e) <==> OnlySoft(a) && b == [] && c == [] && e == []
  {
    var all := a + b + c + e;
    assert |all| == |a| + |b| + |c| + |e|;
    forall g ensures g in all <==> g in a || g in b || g in c || g in e {}
    if b != [] { assert b[0] in all; }
    if c != [] { assert c[0] in all; }
    if e != [] { assert e[0] in all; }
  }

  // ----- the directory -----

  class AgentDirectory {
    var rows: map<string, Agent>
    var boundaries: map<string, Boundary>
    var cards: map<string, Card>

    constructor ()
      ensures State() == Directory(map[], map[], map[])
    {
      rows, boundaries, cards := map[], map[], map[];
    }

    ghost function State(): Directory
      reads this
    {
      Directory(rows, boundaries, cards)
    }

    /** Stores the canonical card, or refuses a looser one and stores nothing. */
    method SaveAgentBoundary(policy: Policy, agentId: string, boundary: Boundary) returns (raised: bool)
      modifies this`boundaries
      ensures raised <==> SavedBoundary(policy, agentId, boundary).None?
      ensures boundaries == if raised then old(boundaries)
                            else old(boundaries)[agentId := SavedBoundary(policy, agentId, boundary).value]
    {
      var canonical := Canonicalize(policy, boundary, true);
      if !canonical.Canonical? {
        return true;
      }
      var c := canonical.boundary;
      var role := if c.confirmation.Some? then OrText(c.confirmation.value.role, SELLER) else SELLER;
      var complete, gaps := AssessComplete(c.profileId, role, c.sceneIds, c.capability.specs, c.capability.doNot,
                                           c.capability.capabilities);
      boundaries := boundaries[agentId := c.(agentId := agentId, complete := complete, gaps := gaps)];
      raised := false;
    }

    method UpsertRow(setting: Setting, req: Request) returns (row: Agent)
      ensures row == Merged(setting, State(), req)
    {
      hide NewRow, AddMissing, OfferedCapabilities, MergeMeta;
      var target := if req.agentId == "" then None else Find(rows, req.agentId);
      if target.None? {
        return NewRow(setting, req);
      }
      row := target.value;
      row := row.(name := OrText(req.name, row.name));
      if req.role != "" {
        row := row.(role := req.role);
      }
      if req.endpoint.Some? {
        row := row.(endpoint := req.endpoint.value);
      }
      var all := ExtendCapabilities(row.capabilities, OfferedCapabilities(req));
      row := row.(capabilities := all, isActive := true);
      if req.publicKey != "" {
        row := row.(publicKey := req.publicKey);
      }
      if req.identityClass != "" {
        row := row.(identityClass := req.identityClass);
      }
      if req.owner != "" {
        row := row.(owner := req.owner);
      }
      if req.meta.Some? {
        row := row.(meta := MergeMeta(row.meta, req.meta.value));
      }
    }

    /** Records the hash of a written card on the row. */
    method RecordBoundary(row: Agent, req: Request, hash: string) returns (r: Agent)
      ensures r == Rebound(row, req, hash)
    {
      hide Strip;
      r := row;
      var previous := PreviousHash(row);
      var meta := row.meta;
      if previous != "" && previous != hash {
        var renewed := AckNames(meta.ack, hash);
        if Acknowledged(meta.ack) && !renewed {
          meta := meta.(ack := Some(meta.ack.value.(acknowledged := false, invalidated := true, previousHash := previous)));
          r := r.(p1Ready := false);
        } else if !renewed {
          r := r.(p1Ready := false);
        }
      }
      r := r.(boundaryHash := hash);
      meta := meta.(boundaryHash := Some(hash), ownerIdentityId := Some(OwnerForBoundary(row, req)));
      if req.identityClass != "" {
        meta := meta.(identityClass := Some(req.identityClass));
      }
      r := r.(meta := meta);
    }

    method ConnectAgent(setting: Setting, req: Request) returns (res: Result)
      modifies this
      ensures res == Connect(setting, old(State()), req)
      ensures State() == if res.Forbidden? then old(State()) else res.after
    {
      hide ChooseBoundary, Rebound, UpdatedRow, NewRow, SavedBoundary;
      if req.agentId != "" && req.agentId in rows && Hijack(rows[req.agentId], req) {
        return Forbidden;
      }
      var row := UpsertRow(setting, req);
      var id := row.agentId;
      var stored := Find(boundaries, id);
      if req.card.Some? {
        cards := cards[id := req.card.value];
      }
      if WritesBoundary(req) {
        var boundary := ChooseBoundary(setting.policy, stored, row, req);
        var raised := SaveAgentBoundary(setting.policy, id, boundary);
        if raised {
          return RefusedCard(Directory(rows, boundaries, cards));
        }
        row := RecordBoundary(row, req, setting.fingerprint(ContentOf(boundary)));
      }
      rows := rows[id := row];
      res := Connected(Directory(rows, boundaries, cards));
    }

    /** Re-evaluates a row and records the outcome, touching nothing else. */
    method RefreshP1Ready(setting: Setting, world: World, agentId: string)
      modifies this
      ensures State() == Refreshed(setting, world, old(State()), agentId)
    {
      if agentId in rows {
        var row := rows[agentId];
        var ready, _ := EvaluateP1Readiness(setting, world, Directory(rows, boundaries, cards), row);
        rows := rows[agentId := row.(p1Ready := ready)];
      }
    }
  }

  ghost function Refreshed(setting: Setting, world: World, d: Directory, agentId: string): Directory
  {
    if agentId in d.rows then
      d.(rows := d.rows[agentId := d.rows[agentId].(p1Ready := Ready(setting, world, d, d.rows[agentId]))])
    else d
  }

  // ----- what a connect keeps -----

  /** A ready row's acknowledgement is for the stored card. */
  ghost predicate Sound(row: Agent)
  {
    row.p1Ready ==> AckBound(row)
  }

  /** The row a connect leaves under its id. */
  ghost function RowAfter(setting: Setting, d: Directory, req: Request): Agent
    requires Connect(setting, d, req).Connected?
  {
    Connect(setting, d, req).after.rows[Merged(setting, d, req).agentId]
  }

  function SentMeta(req: Request): Meta
  {
    if req.meta.Some? then req.meta.value else NO_META
  }

  /** The hash the row goes by before a card is written: its own, else that of the newer metadata. */
  function KnownHash(row: Agent, req: Request): string
  {
    Strip(OrText(row.boundaryHash, TextOf(Newer(row.meta.boundaryHash, SentMeta(req).boundaryHash))))
  }

  /** The hash the row will go by: that of the card written, if one is. */
  function HashToStore(setting: Setting, d: Directory, row: Agent, req: Request): string
  {
    if WritesBoundary(req) then setting.fingerprint(ContentOf(ChosenFor(setting, d, req))) else KnownHash(row, req)
  }

  /** What a caller can check of a request to a ready row: a card is written under another hash than
      the known one, or the acknowledgement sent names the hash to be stored, or none is sent and that
      hash stays what it is. */
  ghost predicate StaysBacked(setting: Setting, d: Directory, row: Agent, req: Request)
  {
    var hash, known := HashToStore(setting, d, row, req), KnownHash(row, req);
    || (WritesBoundary(req) && known != "" && known != hash)
    || (if SentMeta(req).ack.Some? then AckNames(SentMeta(req).ack, hash) else StoredHash(row) == hash)
  }

  lemma ReboundSound(row: Agent, req: Request, hash: string)
    requires hash != "" && Strip(hash) == hash
    ensures Sound(Rebound(row, req, hash)) <==>
      (row.p1Ready ==> (PreviousHash(row) != "" && PreviousHash(row) != hash) || AckNames(row.meta.ack, hash))
  {
    hide Strip;
    assert StoredHash(Rebound(row, req, hash)) == hash;
  }

  lemma BlankStrip()
    ensures Strip("") == ""
  {}

  /** What a ready row with a bound acknowledgement looks like once the request is merged in. */
  lemma MergedReady(setting: Setting, d: Directory, req: Request)
    requires Target(d, req).Some? && Target(d, req).value.p1Ready && AckBound(Target(d, req).value)
    ensures var row, next := Target(d, req).value, Merged(setting, d, req);
      && next.p1Ready
      && StoredHash(next) == PreviousHash(next) == KnownHash(row, req)
      && next.meta.ack == Newer(row.meta.ack, SentMeta(req).ack)
      && (forall hash :: AckNames(row.meta.ack, hash) <==> StoredHash(row) == hash)
  {
    hide Strip, AddMissing;
    BlankStrip();
  }

  /** A connect to a row that was not ready, or to a new one, leaves nothing to back. For a ready row
      with an acknowledgement of its stored card, the row left is so backed exactly when
      `StaysBacked` holds of the request. */
  lemma ConnectSoundIff(setting: Setting, d: Directory, req: Request)
    requires Connect(setting, d, req).Connected?
    ensures Target(d, req).None? || !Target(d, req).value.p1Ready ==> Sound(RowAfter(setting, d, req))
    ensures Target(d, req).Some? && Target(d, req).value.p1Ready && AckBound(Target(d, req).value) ==>
      (Sound(RowAfter(setting, d, req)) <==> StaysBacked(setting, d, Target(d, req).value, req))
  {
    hide Strip, Rebound, SavedBoundary, ChooseBoundary, Merged, KnownHash, StoredHash, PreviousHash, AckNames;
    if WritesBoundary(req) {
      ReboundSound(Merged(setting, d, req), req, setting.fingerprint(ContentOf(ChosenFor(setting, d, req))));
    }
    if Target(d, req).Some? && Target(d, req).value.p1Ready && AckBound(Target(d, req).value) {
      MergedReady(setting, d, req);
    } else {
      MergedNotReady(setting, d, req);
    }
  }

  lemma MergedNotReady(setting: Setting, d: Directory, req: Request)
    ensures Target(d, req).None? || !Target(d, req).value.p1Ready ==> !Merged(setting, d, req).p1Ready
  {
    hide AddMissing;
  }

  /** For a row with a hash of its own: the acknowledgement stays bound exactly when none is sent, the
      one sent names the hash to be stored, or a card is written under another hash. */
  lemma OwnHashSoundIff(setting: Setting, d: Directory, req: Request)
    requires Connect(setting, d, req).Connected? && Target(d, req).Some?
    requires Target(d, req).value.p1Ready && AckBound(Target(d, req).value) && Target(d, req).value.boundaryHash != ""
    ensures var own := Strip(Target(d, req).value.boundaryHash);
      var hash := if WritesBoundary(req) then setting.fingerprint(ContentOf(ChosenFor(setting, d, req))) else own;
      Sound(RowAfter(setting, d, req)) <==>
        SentMeta(req).ack.None? || AckNames(SentMeta(req).ack, hash) || (WritesBoundary(req) && hash != own)
  {
    hide Strip, SavedBoundary, ChosenFor, Merged, RowAfter, Connect;
    ConnectSoundIff(setting, d, req);
  }

  /** The request brings a ready row no acknowledgement of another card, and no card hash in metadata
      alone where the row has none of its own. */
  ghost predicate NoUnboundAck(setting: Setting, d: Directory, row: Agent, req: Request)
  {
    if SentMeta(req).ack.Some? then AckNames(SentMeta(req).ack, HashToStore(setting, d, row, req))
    else SentMeta(req).boundaryHash.None? || row.boundaryHash != ""
  }

  lemma NoUnboundAckSuffices(setting: Setting, d: Directory, row: Agent, req: Request)
    requires AckBound(row) && NoUnboundAck(setting, d, row, req)
    ensures StaysBacked(setting, d, row, req)
  {
    hide Strip, ChosenFor;
    BlankStrip();
  }

  /** Otherwise it does fail: metadata that overwrites the acknowledgement of a ready row leaves it
      ready without one, unless a card is written under another hash. */
  lemma OverwrittenAckBreaks(setting: Setting, d: Directory, req: Request)
    requires Connect(setting, d, req).Connected? && Target(d, req).Some?
    requires Target(d, req).value.p1Ready && AckBound(Target(d, req).value) && SentMeta(req).ack == Some(NotADict)
    ensures var row := Target(d, req).value;
      Sound(RowAfter(setting, d, req)) <==>
        WritesBoundary(req) && KnownHash(row, req) != "" && KnownHash(row, req) != HashToStore(setting, d, row, req)
  {
    hide Strip, SavedBoundary, ChosenFor, Merged, RowAfter, Connect;
    ConnectSoundIff(setting, d, req);
  }

  // ----- the stored hash -----

  /** Every saved card is saved as it is again and is the one whose hash its row stores. */
  ghost predicate HashesLive(setting: Setting, d: Directory)
  {
    forall id :: id in d.boundaries ==> LiveAt(setting, d, id)
  }

  ghost predicate LiveAt(setting: Setting, d: Directory, id: string)
    requires id in d.boundaries
  {
    && id in d.rows && d.rows[id].boundaryHash == setting.fingerprint(ContentOf(d.boundaries[id]))
    && SavedBoundary(setting.policy, id, d.boundaries[id]) == Some(d.boundaries[id])
  }

  /** The profile and role of the card a connect would make are those of a misspelt user. */
  predicate Misspelt(setting: Setting, d: Directory, req: Request)
  {
    && !KeepsStored(Find(d.boundaries, Merged(setting, d, req).agentId), req)
    && MisspeltUser(Merged(setting, d, req).role, ProfileFor(req))
  }

  /** The card a connect makes, when it makes one, is a materialised card for the row. */
  lemma ChosenIsMaterialized(setting: Setting, d: Directory, req: Request)
    requires !KeepsStored(Find(d.boundaries, Merged(setting, d, req).agentId), req)
    ensures var b := ChosenFor(setting, d, req);
      var saved := Canonicalize(setting.policy, b, true);
      && b.agentId == Merged(setting, d, req).agentId
      && (saved.Canonical? && ContentOf(saved.boundary) == ContentOf(b) <==> !Misspelt(setting, d, req))
      && (!Misspelt(setting, d, req) ==> saved == Canonical(b))
  {
    hide Materialize, Canonicalize, ContentOf, MisspeltUser, Merged, ProfileFor, OwnerForBoundary, CardOr, CardOfGiven;
    var row := Merged(setting, d, req);
    var owner, profile := OwnerForBoundary(row, req), ProfileFor(req);
    var policy := setting.policy;
    if req.boundary.Some? && req.card.None? && req.boundary.value.capability.None? {
      Fixpoint(policy, row, profile, row.capabilities, [], EMPTY_CARD, owner, req.acknowledged);
    } else if req.boundary.Some? {
      var g := req.boundary.value;
      var caps := if g.capability.Some? && g.capability.value.capabilities != [] then g.capability.value.capabilities
                  else row.capabilities;
      Fixpoint(policy, row, profile, caps, g.sceneIds, CardOr(req.card, CardOfGiven(g)), owner, req.acknowledged);
    } else {
      var card := CardOr(req.card, EMPTY_CARD);
      Fixpoint(policy, row, profile, row.capabilities, card.industryIds, card, owner, req.acknowledged);
    }
  }

  lemma Fixpoint(policy: Policy, row: Agent, profile: string, caps: seq<string>, scenes: seq<string>, card: Card,
                 owner: string, acknowledged: bool)
    ensures var b := Materialize(policy, row.agentId, row.name, row.role, profile, caps, scenes, card, owner, acknowledged);
      var saved := Canonicalize(policy, b, true);
      && b.agentId == row.agentId
      && (saved.Canonical? && ContentOf(saved.boundary) == ContentOf(b) <==> !MisspeltUser(row.role, profile))
      && (!MisspeltUser(row.role, profile) ==> saved == Canonical(b))
  {
    hide Canonicalize, ContentOf, MisspeltUser, CompletenessGaps, ConfirmationBlock;
    MaterializedFixpoint(policy, row.agentId, row.name, row.role, profile, caps, scenes, card, owner, acknowledged, true);
  }

  /** Two different contents with one content hash. */
  predicate ContentClash(setting: Setting, a: Content, b: Content)
  {
    a != b && setting.fingerprint(a) == setting.fingerprint(b)
  }

  lemma SavedContentCases(policy: Policy, b: Boundary)
    requires SavedBoundary(policy, b.agentId, b).Some?
    ensures Canonicalize(policy, b, true).Canonical?
    ensures ContentOf(SavedBoundary(policy, b.agentId, b).value) == ContentOf(b)
      <==> ContentOf(Canonicalize(policy, b, true).boundary) == ContentOf(b)
  {
    hide CompletenessGaps, LooserThan, ConfirmationBlock, UserProfile, KarmaRoleToConfirmationRole;
    CanonicalizeIsStable(policy, b, true, true);
  }

  lemma SavedKept(setting: Setting, d: Directory, id: string)
    requires id in d.boundaries && LiveAt(setting, d, id)
    ensures d.boundaries[id].agentId == id
  {
    hide CompletenessGaps, LooserThan, ConfirmationBlock, UserProfile, KarmaRoleToConfirmationRole;
    SavedIsStable(setting.policy, id, d.boundaries[id]);
  }

  /** After a connect that writes a card, the row stores the hash of the saved card exactly when the
      card was not that of a misspelt user (or two contents share a hash). */
  lemma ConnectStoresLiveHash(setting: Setting, d: Directory, req: Request)
    requires HashesLive(setting, d) && WritesBoundary(req) && Connect(setting, d, req).Connected?
    ensures var id, after := Merged(setting, d, req).agentId, Connect(setting, d, req).after;
      && id in after.boundaries && id in after.rows
      && (LiveAt(setting, after, id) <==>
            !Misspelt(setting, d, req)
            || ContentClash(setting, ContentOf(ChosenFor(setting, d, req)), ContentOf(after.boundaries[id])))
  {
    hide Canonicalize, ContentOf, Merged, ChooseBoundary, SavedBoundary, ConfirmationBlock, Hijack, PreviousHash;
    var row := Merged(setting, d, req);
    var id, b := row.agentId, ChosenFor(setting, d, req);
    if KeepsStored(Find(d.boundaries, id), req) {
      assert LiveAt(setting, d, id);
      SavedKept(setting, d, id);
      KeptChoice(setting, d, req);
    } else {
      ChosenIsMaterialized(setting, d, req);
      SavedContentCases(setting.policy, b);
    }
    SavedIsStable(setting.policy, id, b);
  }

  lemma KeptChoice(setting: Setting, d: Directory, req: Request)
    requires KeepsStored(Find(d.boundaries, Merged(setting, d, req).agentId), req)
    ensures var id := Merged(setting, d, req).agentId;
      id in d.boundaries && ChosenFor(setting, d, req) == d.boundaries[id]
  {}

  // ----- runs -----

  datatype Step = ConnectStep(req: Request) | RefreshStep(agentId: string, world: World)

  ghost function Apply(setting: Setting, d: Directory, step: Step): Directory
  {
    match step
    case ConnectStep(req) =>
      var res := Connect(setting, d, req);
      if res.Forbidden? then d else res.after
    case RefreshStep(agentId, world) => Refreshed(setting, world, d, agentId)
  }

  ghost function Run(setting: Setting, d: Directory, steps: seq<Step>): Directory
  {
    if steps == [] then d else Apply(setting, Run(setting, d, steps[..|steps| - 1]), steps[|steps| - 1])
  }

  /** Every step of the run is `ok` in the directory it meets. */
  ghost predicate Throughout(setting: Setting, d: Directory, steps: seq<Step>, ok: (Directory, Step) -> bool)
  {
    steps == [] ||
    (Throughout(setting, d, steps[..|steps| - 1], ok)
     && ok(Run(setting, d, steps[..|steps| - 1]), steps[|steps| - 1]))
  }

  /** An id that is drawn is a new one. */
  predicate Fresh(d: Directory, step: Step)
  {
    step.ConnectStep? && step.req.agentId == "" ==> step.req.freshId != "" && step.req.freshId !in d.rows
  }

  /** Ids are fresh and the hijack switch is off. */
  predicate Civil(d: Directory, step: Step)
  {
    Fresh(d, step) && (step.ConnectStep? ==> !step.req.allowHijack)
  }

  /** The request to a ready row keeps it backed. */
  ghost predicate Backed(setting: Setting, d: Directory, step: Step)
  {
    step.ConnectStep? ==>
      var target := Target(d, step.req);
      target.Some? && target.value.p1Ready ==> StaysBacked(setting, d, target.value, step.req)
  }

  ghost function BackedSteps(setting: Setting): (Directory, Step) -> bool
  {
    (d: Directory, step: Step) => Backed(setting, d, step)
  }

  ghost predicate OwnIds(d: Directory)
  {
    forall id :: id in d.rows ==> d.rows[id].agentId == id
  }

  ghost predicate AllSound(d: Directory)
  {
    forall id :: id in d.rows ==> Sound(d.rows[id])
  }

  /** An owner once named stays, white space aside, and capabilities are only added. */
  ghost predicate Successor(before: Agent, after: Agent)
  {
    && (Strip(before.owner) != "" ==> Strip(after.owner) == Strip(before.owner))
    && before.capabilities <= after.capabilities
  }

  ghost predicate AllKept(before: Directory, after: Directory)
  {
    forall id :: id in before.rows ==> id in after.rows && Successor(before.rows[id], after.rows[id])
  }

  /** A connect writes one row, whose owner and capabilities are those merged in. */
  lemma ConnectTouchesOne(setting: Setting, d: Directory, req: Request)
    requires Connect(setting, d, req).Connected?
    ensures var row, after := Merged(setting, d, req), RowAfter(setting, d, req);
      && after.agentId == row.agentId && after.owner == row.owner && after.capabilities == row.capabilities
      && Connect(setting, d, req).after.rows == d.rows[row.agentId := after]
  {
    hide Strip, Merged, SavedBoundary, ChosenFor, Hijack;
  }

  lemma StepKeepsIds(setting: Setting, d: Directory, step: Step)
    requires OwnIds(d)
    ensures OwnIds(Apply(setting, d, step))
  {
    hide Connect, Merged, Ready;
    match step {
      case ConnectStep(req) =>
        if Connect(setting, d, req).Connected? {
          ConnectTouchesOne(setting, d, req);
        } else {
          RefusedKeeps(setting, d, req);
        }
      case RefreshStep(agentId, world) =>
    }
  }

  lemma RefusedKeeps(setting: Setting, d: Directory, req: Request)
    requires !Connect(setting, d, req).Connected?
    ensures Apply(setting, d, ConnectStep(req)).rows == d.rows
    ensures Apply(setting, d, ConnectStep(req)).boundaries == d.boundaries
  {
    hide Merged, SavedBoundary, ChosenFor, Hijack;
  }

  lemma {:induction false} RunKeepsIds(setting: Setting, d: Directory, steps: seq<Step>)
    requires OwnIds(d)
    ensures OwnIds(Run(setting, d, steps))
  {
    hide Apply, OwnIds;
    if steps != [] {
      RunKeepsIds(setting, d, steps[..|steps| - 1]);
      StepKeepsIds(setting, Run(setting, d, steps[..|steps| - 1]), steps[|steps| - 1]);
    }
  }

  // ----- readiness over runs -----

  lemma StepKeepsSound(setting: Setting, d: Directory, step: Step)
    requires AllSound(d) && Backed(setting, d, step)
    ensures AllSound(Apply(setting, d, step))
  {
    hide Connect, Merged, StaysBacked, AckBound;
    match step {
      case ConnectStep(req) =>
        if Connect(setting, d, req).Connected? {
          ConnectTouchesOne(setting, d, req);
          ConnectSoundIff(setting, d, req);
        } else {
          RefusedKeeps(setting, d, req);
        }
      case RefreshStep(agentId, world) =>
        RefreshKeepsSound(setting, d, agentId, world);
    }
  }

  lemma RefreshKeepsSound(setting: Setting, d: Directory, agentId: string, world: World)
    requires AllSound(d)
    ensures AllSound(Refreshed(setting, world, d, agentId))
  {
    hide Strip, LiveHash, LiveBoundary, SpecsOk;
  }

  /** Over any run of connects and refreshes whose requests keep ready rows backed, acknowledgements
      renewed or not, a ready row carries an acknowledgement of the card hash it stores. */
  lemma {:induction false} RunKeepsSound(setting: Setting, d: Directory, steps: seq<Step>)
    requires AllSound(d) && Throughout(setting, d, steps, BackedSteps(setting))
    ensures AllSound(Run(setting, d, steps))
  {
    hide AllSound, Apply, Backed;
    if steps != [] {
      RunKeepsSound(setting, d, steps[..|steps| - 1]);
      StepKeepsSound(setting, Run(setting, d, steps[..|steps| - 1]), steps[|steps| - 1]);
    }
  }

  ghost function UnforgedSteps(setting: Setting): (Directory, Step) -> bool
  {
    (d: Directory, step: Step) =>
      step.ConnectStep? && Target(d, step.req).Some? && Target(d, step.req).value.p1Ready ==>
        NoUnboundAck(setting, d, Target(d, step.req).value, step.req)
  }

  /** In particular over runs whose metadata carries no unbound acknowledgement. */
  lemma {:induction false} RunWithoutUnboundAcks(setting: Setting, d: Directory, steps: seq<Step>)
    requires AllSound(d) && Throughout(setting, d, steps, UnforgedSteps(setting))
    ensures Throughout(setting, d, steps, BackedSteps(setting)) && AllSound(Run(setting, d, steps))
  {
    hide Apply, StaysBacked, NoUnboundAck, AckBound, Run;
    if steps != [] {
      var before, last := Run(setting, d, steps[..|steps| - 1]), steps[|steps| - 1];
      RunWithoutUnboundAcks(setting, d, steps[..|steps| - 1]);
      if last.ConnectStep? && Target(before, last.req).Some? && Target(before, last.req).value.p1Ready {
        assert Sound(before.rows[last.req.agentId]);
        NoUnboundAckSuffices(setting, before, Target(before, last.req).value, last.req);
      }
    }
    RunKeepsSound(setting, d, steps);
  }

  // ----- owners and capabilities over runs -----

  lemma MergedKeeps(setting: Setting, d: Directory, req: Request)
    requires Civil(d, ConnectStep(req)) && OwnIds(d)
    requires !(Target(d, req).Some? && Hijack(Target(d, req).value, req))
    ensures var row := Merged(setting, d, req);
      row.agentId in d.rows ==> Target(d, req) == Some(d.rows[row.agentId]) && Successor(d.rows[row.agentId], row)
  {
    hide Strip;
    var target := Target(d, req);
    if target.Some? {
      AddMissingGrows(target.value.capabilities, OfferedCapabilities(req));
      BlankStrip();
    }
  }

  lemma StepKeepsOwners(setting: Setting, d: Directory, step: Step)
    requires OwnIds(d) && Civil(d, step)
    ensures AllKept(d, Apply(setting, d, step))
  {
    hide Strip, Merged, Hijack, Ready, Civil;
    KeptSelf(d);
    match step {
      case ConnectStep(req) =>
        var res := Connect(setting, d, req);
        if res.Connected? {
          ConnectedIsAllowed(setting, d, req);
          MergedKeeps(setting, d, req);
          ConnectTouchesOne(setting, d, req);
        } else {
          RefusedKeeps(setting, d, req);
        }
      case RefreshStep(agentId, world) =>
    }
  }

  lemma ConnectedIsAllowed(setting: Setting, d: Directory, req: Request)
    requires Connect(setting, d, req).Connected?
    ensures !(Target(d, req).Some? && Hijack(Target(d, req).value, req))
  {
    hide Strip, Merged, SavedBoundary, ChosenFor, Hijack;
  }

  /** Over any run without the hijack switch a named owner is never replaced and capabilities only grow. */
  lemma {:induction false} RunKeepsOwners(setting: Setting, d: Directory, steps: seq<Step>)
    requires OwnIds(d) && Throughout(setting, d, steps, Civil)
    ensures AllKept(d, Run(setting, d, steps))
  {
    hide Civil, Successor, Apply;
    if steps == [] {
      KeptSelf(d);
    } else {
      var before, last := Run(setting, d, steps[..|steps| - 1]), steps[|steps| - 1];
      RunKeepsOwners(setting, d, steps[..|steps| - 1]);
      RunKeepsIds(setting, d, steps[..|steps| - 1]);
      StepKeepsOwners(setting, before, last);
      KeptThrough(d, before, Apply(setting, before, last));
    }
  }

  lemma KeptSelf(d: Directory)
    ensures AllKept(d, d)
  {}

  lemma KeptThrough(a: Directory, b: Directory, c: Directory)
    requires AllKept(a, b) && AllKept(b, c)
    ensures AllKept(a, c)
  {
    hide Strip;
    forall id | id in a.rows ensures id in c.rows && Successor(a.rows[id], c.rows[id]) {
      assert Successor(a.rows[id], b.rows[id]) && Successor(b.rows[id], c.rows[id]);
    }
  }

  // ----- runs without misspelt users -----

  /** Ids are fresh and no card written is that of a misspelt user. */
  ghost predicate WellSpelt(setting: Setting, d: Directory, step: Step)
  {
    Fresh(d, step) && (step.ConnectStep? && WritesBoundary(step.req) ==> !Misspelt(setting, d, step.req))
  }

  ghost function WellSpeltSteps(setting: Setting): (Directory, Step) -> bool
  {
    (d: Directory, step: Step) => WellSpelt(setting, d, step)
  }

  lemma WrittenOnly(setting: Setting, d: Directory, req: Request)
    requires Connect(setting, d, req).Connected?
    ensures var after := Connect(setting, d, req).after;
      && (!WritesBoundary(req) ==> after.boundaries == d.boundaries)
      && (WritesBoundary(req) ==> after.boundaries.Keys == d.boundaries.Keys + {Merged(setting, d, req).agentId})
      && (forall id :: id in d.boundaries && id != Merged(setting, d, req).agentId ==>
            id in after.boundaries && after.boundaries[id] == d.boundaries[id])
  {
    hide Strip, Merged, SavedBoundary, ChosenFor, Rebound, Hijack;
  }

  lemma UnwrittenHash(setting: Setting, d: Directory, req: Request)
    requires Connect(setting, d, req).Connected? && !WritesBoundary(req)
    requires Merged(setting, d, req).agentId in d.rows && Fresh(d, ConnectStep(req)) && OwnIds(d)
    ensures RowAfter(setting, d, req).boundaryHash == d.rows[Merged(setting, d, req).agentId].boundaryHash
  {
    hide Strip, AddMissing;
  }

  lemma ConnectKeepsLive(setting: Setting, d: Directory, req: Request)
    requires HashesLive(setting, d) && OwnIds(d) && WellSpelt(setting, d, ConnectStep(req))
    ensures HashesLive(setting, Apply(setting, d, ConnectStep(req)))
  {
    hide Connect, Merged, Misspelt, SavedBoundary, ContentOf;
    if Connect(setting, d, req).Connected? {
      var after, own := Connect(setting, d, req).after, Merged(setting, d, req).agentId;
      WrittenOnly(setting, d, req);
      ConnectTouchesOne(setting, d, req);
      forall id | id in after.boundaries ensures LiveAt(setting, after, id) {
        if id == own && WritesBoundary(req) {
          ConnectStoresLiveHash(setting, d, req);
        } else {
          assert LiveAt(setting, d, id);
          if id == own {
            UnwrittenHash(setting, d, req);
          }
        }
      }
    } else {
      RefusedKeeps(setting, d, req);
    }
  }

  /** Over any run without misspelt users every row with a saved card stores that card's hash. */
  lemma {:induction false} RunKeepsLive(setting: Setting, d: Directory, steps: seq<Step>)
    requires HashesLive(setting, d) && OwnIds(d) && Throughout(setting, d, steps, WellSpeltSteps(setting))
    ensures HashesLive(setting, Run(setting, d, steps))
  {
    hide WellSpelt, LiveAt, Connect;
    if steps != [] {
      var before, last := Run(setting, d, steps[..|steps| - 1]), steps[|steps| - 1];
      RunKeepsIds(setting, d, steps[..|steps| - 1]);
      RunKeepsLive(setting, d, steps[..|steps| - 1]);
      match last {
        case ConnectStep(req) => ConnectKeepsLive(setting, before, req);
        case RefreshStep(agentId, world) => RefreshKeepsLive(setting, before, agentId, world);
      }
    }
  }

  lemma RefreshKeepsLive(setting: Setting, d: Directory, agentId: string, world: World)
    requires HashesLive(setting, d)
    ensures HashesLive(setting, Refreshed(setting, world, d, agentId))
  {
    hide Ready, SavedBoundary, ContentOf;
    var after := Refreshed(setting, world, d, agentId);
    forall id | id in after.boundaries ensures LiveAt(setting, after, id) {
      assert LiveAt(setting, d, id);
    }
  }

  const EMPTY_DIRECTORY := Directory(map[], map[], map[])

  /** From an empty directory, over any run that keeps ready rows backed and has no misspelt users, a
      ready agent with a saved card holds an acknowledgement of that very card. */
  lemma ReadyMeansAcknowledged(setting: Setting, steps: seq<Step>, id: string)
    requires Throughout(setting, EMPTY_DIRECTORY, steps, BackedSteps(setting))
    requires Throughout(setting, EMPTY_DIRECTORY, steps, WellSpeltSteps(setting))
    ensures var d := Run(setting, EMPTY_DIRECTORY, steps);
      id in d.rows && id in d.boundaries && d.rows[id].p1Ready ==>
        AckNames(d.rows[id].meta.ack, setting.fingerprint(ContentOf(d.boundaries[id])))
  {
    hide Strip, SavedBoundary, ContentOf, AckNames, Throughout, Run;
    RunKeepsSound(setting, EMPTY_DIRECTORY, steps);
    RunKeepsLive(setting, EMPTY_DIRECTORY, steps);
    var d := Run(setting, EMPTY_DIRECTORY, steps);
    if id in d.rows && id in d.boundaries && d.rows[id].p1Ready {
      assert LiveAt(setting, d, id) && Sound(d.rows[id]);
    }
  }
}
