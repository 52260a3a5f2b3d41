/**
 Agent boundary cards: what the owner must confirm is always re-derived from the catalog, and
 the parts of a card that the content hash covers.
 */
module AgentBoundary {
  import opened Text

  // ----- the confirmation catalog -----

  /** Lifecycle steps, the gate mode of a step in a scene for a role, and capability names' scenes
      ("" for none); the catalogs' contents are not part of this model. */
  datatype Policy = Policy(
    lifecycle: seq<string>,
    mode: (string, string, string) -> string,
    sceneOf: string -> string)

  const BUYER := "buyer"
  const SELLER := "seller"

  function Normalized(role: string): string
  {
    Strip(Lower(role))
  }

  predicate KnownRole(role: string)
  {
    Normalized(role) == BUYER || Normalized(role) == SELLER
  }

  predicate NeedsOwner(policy: Policy, scene: string, role: string, step: string)
  {
    policy.mode(scene, Normalized(role), step) != "AUTO"
  }

  function MustSteps(policy: Policy, scene: string, role: string, steps: seq<string>): seq<string>
  {
    if steps == [] then []
    else
      MustSteps(policy, scene, role, steps[..|steps| - 1])
        + if NeedsOwner(policy, scene, role, steps[|steps| - 1]) then [steps[|steps| - 1]] else []
  }

  function AutoSteps(policy: Policy, scene: string, role: string, steps: seq<string>): seq<string>
  {
    if steps == [] then []
    else
      AutoSteps(policy, scene, role, steps[..|steps| - 1])
        + if NeedsOwner(policy, scene, role, steps[|steps| - 1]) then [] else [steps[|steps| - 1]]
  }

  /** Splits the lifecycle; `raised` is the error for a role that is neither buyer nor seller. */
  method PlanConfirmations(policy: Policy, scene: string, role: string)
    returns (raised: bool, must: seq<string>, auto: seq<string>)
    ensures raised <==> !KnownRole(role) && policy.lifecycle != []
    ensures !raised ==> must == MustSteps(policy, scene, role, policy.lifecycle)
    ensures !raised ==> auto == AutoSteps(policy, scene, role, policy.lifecycle)
  {
    raised, must, auto := false, [], [];
    for i := 0 to |policy.lifecycle|
      invariant i > 0 ==> KnownRole(role)
      invariant must == MustSteps(policy, scene, role, policy.lifecycle[..i])
      invariant auto == AutoSteps(policy, scene, role, policy.lifecycle[..i])
    {
      var step := policy.lifecycle[i];
      assert policy.lifecycle[..i + 1][..i] == policy.lifecycle[..i];
      if !KnownRole(role) {
        return true, [], [];
      }
      if NeedsOwner(policy, scene, role, step) {
        must := must + [step];
      } else {
        auto := auto + [step];
      }
    }
    assert policy.lifecycle[..|policy.lifecycle|] == policy.lifecycle;
  }

  /** Every lifecycle step is either the owner's to confirm or automatic, never both. */
  lemma {:induction false} StepsSplit(policy: Policy, scene: string, role: string, steps: seq<string>, step: string)
    ensures step in MustSteps(policy, scene, role, steps) <==> step in steps && NeedsOwner(policy, scene, role, step)
    ensures step in AutoSteps(policy, scene, role, steps) <==> step in steps && !NeedsOwner(policy, scene, role, step)
  {
    if steps != [] {
      StepsSplit(policy, scene, role, steps[..|steps| - 1], step);
      assert steps == steps[..|steps| - 1] + [steps[|steps| - 1]];
    }
  }

  // ----- cards -----

  datatype Confirmation = Confirmation(
    role: string,
    primaryScene: string,
    sceneIds: seq<string>,
    must: seq<string>,
    auto: seq<string>)

  datatype ServiceSpec = ServiceSpec(scene: string, boundaries: string, details: string)

  datatype Capability = Capability(
    capabilities: seq<string>,
    summary: string,
    specs: seq<ServiceSpec>,
    doNot: string,
    details: string)

  datatype Responsibility = Responsibility(
    ownerIdentityId: string,
    acknowledged: bool,
    boundaryId: string,
    allowsDelegation: bool,
    complianceFlags: string,
    notes: string)

  datatype Gap = NoCapabilities | NoScenes | NoSpecs | NoSpecFor(scene: string) | NoBoundaries

  /** A boundary card; an absent text is "" and an absent or empty confirmation block is `None`. */
  datatype Boundary = Boundary(
    schemaVersion: string,
    agentId: string,
    name: string,
    profileId: string,
    karmaRole: string,
    sceneIds: seq<string>,
    complete: bool,
    gaps: seq<Gap>,
    capability: Capability,
    responsibility: Responsibility,
    confirmation: Option<Confirmation>)

  function PrimaryScene(scenes: seq<string>): string
  {
    if scenes == [] then "api_tool_call" else scenes[0]
  }

  /** The catalog's block for a card's scenes and role. */
  function ConfirmationBlock(policy: Policy, scenes: seq<string>, role: string): Confirmation
  {
    var primary := PrimaryScene(scenes);
    Confirmation(role, primary, if scenes == [] then [primary] else scenes,
                 MustSteps(policy, primary, role, policy.lifecycle), AutoSteps(policy, primary, role, policy.lifecycle))
  }

  predicate Plannable(policy: Policy, role: string)
  {
    KnownRole(role) || policy.lifecycle == []
  }

  function Elements(xs: seq<string>): set<string>
  {
    set x | x in xs
  }

  /** The block leaves out a step the catalog wants confirmed, or lists one as automatic. */
  predicate LooserThan(published: Confirmation, catalog: Confirmation)
  {
    var must := Elements(catalog.must);
    must - Elements(published.must) != {} || (Elements(published.auto) - Elements(catalog.auto)) * must != {}
  }

  function KarmaRoleToConfirmationRole(role: string): (conf: string)
    ensures conf == BUYER || conf == SELLER
  {
    var r := Normalized(role);
    if r == "client" || r == "buyer" || r == "user" then BUYER else SELLER
  }

  function OrText(s: string, default: string): string
  {
    if s == "" then default else s
  }

  predicate UserProfile(profileId: string)
  {
    Lower(profileId) == "user"
  }

  /** The role a card is judged by: what it publishes or its karma role, but buyer for users. */
  function ConfirmationRole(b: Boundary): string
  {
    if UserProfile(b.profileId) then BUYER
    else
      var published := if b.confirmation.Some? then b.confirmation.value.role else "";
      OrText(published, KarmaRoleToConfirmationRole(OrText(b.karmaRole, "worker")))
  }

  datatype Outcome = Canonical(boundary: Boundary) | UnknownRole | Looser

  /** Re-derives the confirmation block from the catalog, after refusing a looser one. */
  function Canonicalize(policy: Policy, b: Boundary, rejectLooser: bool): Outcome
  {
    var role := ConfirmationRole(b);
    if !Plannable(policy, role) then UnknownRole
    else
      var block := ConfirmationBlock(policy, b.sceneIds, role);
      if rejectLooser && b.confirmation.Some? && LooserThan(b.confirmation.value, block) then Looser
      else Canonical(b.(confirmation := Some(block)))
  }

  /** What a card's block must do to be accepted: ask for every step the catalog has the owner
      confirm, and make none of them automatic. */
  lemma NotLooserMeans(policy: Policy, published: Confirmation, scenes: seq<string>, role: string)
    ensures LooserThan(published, ConfirmationBlock(policy, scenes, role)) <==>
      exists step :: step in policy.lifecycle && NeedsOwner(policy, PrimaryScene(scenes), role, step)
                     && (step !in published.must || step in published.auto)
  {
    var primary, block := PrimaryScene(scenes), ConfirmationBlock(policy, scenes, role);
    var missing := Elements(block.must) - Elements(published.must);
    var illicit := (Elements(published.auto) - Elements(block.auto)) * Elements(block.must);
    forall step
      ensures step in missing <==>
        step in policy.lifecycle && NeedsOwner(policy, primary, role, step) && step !in published.must
      ensures step in illicit <==>
        step in policy.lifecycle && NeedsOwner(policy, primary, role, step) && step in published.auto
    {
      StepsSplit(policy, primary, role, policy.lifecycle, step);
    }
    if missing != {} {
      var step :| step in missing;
    } else if illicit != {} {
      var step :| step in illicit;
    }
  }

  /** A canonical card is a fixed point, is never looser than the catalog, and keeps everything but
      the confirmation block. */
  lemma CanonicalizeIsStable(policy: Policy, b: Boundary, rejectLooser: bool, again: bool)
    requires Canonicalize(policy, b, rejectLooser).Canonical?
    ensures var c := Canonicalize(policy, b, rejectLooser).boundary;
      && Canonicalize(policy, c, again) == Canonical(c)
      && c.(confirmation := b.confirmation) == b
      && c.confirmation.Some? && c.confirmation.value.role == ConfirmationRole(b) == ConfirmationRole(c)
      && !LooserThan(c.confirmation.value, ConfirmationBlock(policy, c.sceneIds, ConfirmationRole(c)))
  {
    var c := Canonicalize(policy, b, rejectLooser).boundary;
    var role := ConfirmationRole(b);
    BlockNotLooser(policy, b.sceneIds, role);
    assert ConfirmationRole(c) == role;
  }

  lemma BlockNotLooser(policy: Policy, scenes: seq<string>, role: string)
    ensures !LooserThan(ConfirmationBlock(policy, scenes, role), ConfirmationBlock(policy, scenes, role))
  {
    var block := ConfirmationBlock(policy, scenes, role);
    assert Elements(block.must) - Elements(block.must) == {};
    assert (Elements(block.auto) - Elements(block.auto)) * Elements(block.must) == {};
  }

  // ----- completeness -----

  function SpecScenes(specs: seq<ServiceSpec>): set<string>
  {
    if specs == [] then {} else {specs[0].scene} + SpecScenes(specs[1..])
  }

  function MissingSpecs(scenes: seq<string>, specs: seq<ServiceSpec>): seq<Gap>
  {
    if scenes == [] then []
    else
      MissingSpecs(scenes[..|scenes| - 1], specs)
        + if scenes[|scenes| - 1] in SpecScenes(specs) then [] else [NoSpecFor(scenes[|scenes| - 1])]
  }

  function CompletenessGaps(profileId: string, role: string, scenes: seq<string>, specs: seq<ServiceSpec>,
                            doNot: string, capabilities: seq<string>): seq<Gap>
  {
    var noCaps := if capabilities == [] then [NoCapabilities] else [];
    if role == BUYER || UserProfile(profileId) then noCaps
    else
      noCaps
        + (if scenes == [] then [NoScenes] else [])
        + (if specs == [] then [NoSpecs] else MissingSpecs(scenes, specs))
        + (if Strip(doNot) == "" then [NoBoundaries] else [])
  }

  method FindMissingSpecs(scenes: seq<string>, specs: seq<ServiceSpec>) returns (gaps: seq<Gap>)
    ensures gaps == MissingSpecs(scenes, specs)
  {
    hide SpecScenes;
    gaps := [];
    for i := 0 to |scenes|
      invariant gaps == MissingSpecs(scenes[..i], specs)
    {
      assert scenes[..i + 1][..i] == scenes[..i];
      if scenes[i] !in SpecScenes(specs) {
        gaps := gaps + [NoSpecFor(scenes[i])];
      }
    }
    assert scenes[..|scenes|] == scenes;
  }

  method AssessComplete(profileId: string, role: string, scenes: seq<string>, specs: seq<ServiceSpec>, doNot: string,
                        capabilities: seq<string>) returns (complete: bool, gaps: seq<Gap>)
    ensures gaps == CompletenessGaps(profileId, role, scenes, specs, doNot, capabilities)
    ensures complete <==> gaps == []
  {
    hide Strip, UserProfile, MissingSpecs;
    gaps := [];
    if capabilities == [] {
      gaps := gaps + [NoCapabilities];
    }
    if role == BUYER || UserProfile(profileId) {
      return gaps == [], gaps;
    }
    if scenes == [] {
      gaps := gaps + [NoScenes];
    }
    if specs == [] {
      gaps := gaps + [NoSpecs];
    } else {
      var missing := FindMissingSpecs(scenes, specs);
      gaps := gaps + missing;
    }
    if Strip(doNot) == "" {
      gaps := gaps + [NoBoundaries];
    }
    complete := gaps == [];
  }

  lemma {:induction false} NoMissingSpecs(scenes: seq<string>, specs: seq<ServiceSpec>)
    ensures MissingSpecs(scenes, specs) == [] <==> forall s :: s in scenes ==> s in SpecScenes(specs)
  {
    hide SpecScenes;
    if scenes != [] {
      var last := scenes[|scenes| - 1];
      NoMissingSpecs(scenes[..|scenes| - 1], specs);
      assert scenes == scenes[..|scenes| - 1] + [last];
      assert last in scenes;
      if forall s :: s in scenes ==> s in SpecScenes(specs) {
        assert last in SpecScenes(specs);
      }
    }
  }

  /** A seller's card is complete exactly when it names capabilities, scenes, what it does not do and
      a specification for every scene; a buyer's needs capabilities only. */
  lemma CompleteMeans(profileId: string, role: string, scenes: seq<string>, specs: seq<ServiceSpec>,
                      doNot: string, capabilities: seq<string>)
    ensures CompletenessGaps(profileId, role, scenes, specs, doNot, capabilities) == [] <==>
      && capabilities != []
      && (role == BUYER || UserProfile(profileId)
          || (scenes != [] && (forall s :: s in scenes ==> s in SpecScenes(specs)) && Strip(doNot) != ""))
  {
    NoMissingSpecs(scenes, specs);
    if specs == [] && scenes != [] {
      assert scenes[0] in scenes && scenes[0] !in SpecScenes(specs);
    }
  }

  // ----- materialising a card -----

  /** A profile card; absent texts are "", absent lists empty. */
  datatype Card = Card(
    profileId: string,
    industryIds: seq<string>,
    scenesInterest: seq<string>,
    summary: string,
    specs: seq<ServiceSpec>,
    boundaries: string,
    complianceFlags: string,
    details: string)

  const EMPTY_CARD := Card("", [], [], "", [], "", "", "")

  function SceneOf(policy: Policy, capability: string): string
  {
    var raw := Strip(capability);
    if |raw| >= 9 && raw[..9] == "industry:" then raw[9..] else policy.sceneOf(raw)
  }

  function ScenesFromCapabilities(policy: Policy, capabilities: seq<string>): seq<string>
  {
    if capabilities == [] then []
    else
      var before := ScenesFromCapabilities(policy, capabilities[..|capabilities| - 1]);
      var scene := SceneOf(policy, capabilities[|capabilities| - 1]);
      if scene != "" && scene !in before then before + [scene] else before
  }

  method CollectScenes(policy: Policy, capabilities: seq<string>) returns (scenes: seq<string>)
    ensures scenes == ScenesFromCapabilities(policy, capabilities)
    ensures forall i, j :: 0 <= i < j < |scenes| ==> scenes[i] != scenes[j]
    ensures forall s :: s in scenes <==> s != "" && exists c :: c in capabilities && SceneOf(policy, c) == s
  {
    hide SceneOf;
    scenes := [];
    for i := 0 to |capabilities|
      invariant scenes == ScenesFromCapabilities(policy, capabilities[..i])
      invariant forall j, k :: 0 <= j < k < |scenes| ==> scenes[j] != scenes[k]
      invariant forall s :: s in scenes <==> s != "" && exists c :: c in capabilities[..i] && SceneOf(policy, c) == s
    {
      assert capabilities[..i + 1][..i] == capabilities[..i];
      assert capabilities[..i + 1] == capabilities[..i] + [capabilities[i]];
      var scene := SceneOf(policy, capabilities[i]);
      if scene != "" && scene !in scenes {
        scenes := scenes + [scene];
      }
    }
    assert capabilities[..|capabilities|] == capabilities;
  }

  /** The per-industry boundary texts, joined. */
  function JoinBoundaries(specs: seq<ServiceSpec>): string
  {
    if specs == [] then ""
    else
      var rest := JoinBoundaries(specs[1..]);
      if specs[0].boundaries == "" then rest
      else if rest == "" then specs[0].boundaries else specs[0].boundaries + "\U{ff1b}" + rest
  }

  function MaterializedScenes(policy: Policy, capabilities: seq<string>, scenes: seq<string>, card: Card): seq<string>
  {
    if scenes != [] then scenes
    else if card.industryIds != [] then card.industryIds
    else if card.scenesInterest != [] then card.scenesInterest
    else ScenesFromCapabilities(policy, capabilities)
  }

  function MaterializedRole(karmaRole: string, profileId: string): (role: string)
    ensures role == BUYER || role == SELLER
  {
    if profileId == "user" then BUYER else KarmaRoleToConfirmationRole(karmaRole)
  }

  const SCHEMA := "karma-agent-boundary-v1"

  /** The public card of a connected agent; the wording of the default notice is not part of this model. */
  function Materialize(policy: Policy, agentId: string, name: string, karmaRole: string, profileId: string,
                       capabilities: seq<string>, sceneIds: seq<string>, card: Card, owner: string,
                       acknowledged: bool): Boundary
  {
    var scenes := MaterializedScenes(policy, capabilities, sceneIds, card);
    var role := MaterializedRole(karmaRole, profileId);
    var stated := Strip(card.boundaries);
    var doNot := if stated == "" && card.specs != [] then JoinBoundaries(card.specs) else stated;
    var capability := Capability(capabilities, OrText(card.summary, OrText(name, agentId)), card.specs, doNot, card.details);
    var responsibility := Responsibility(OrText(owner, agentId), acknowledged, "rb_" + agentId, false, card.complianceFlags, "");
    var gaps := CompletenessGaps(profileId, role, scenes, card.specs, doNot, capabilities);
    Boundary(SCHEMA, agentId, name, profileId, karmaRole, scenes, gaps == [], gaps, capability, responsibility,
             Some(ConfirmationBlock(policy, scenes, role)))
  }

  // ----- the content hash -----

  /** The parts of a card that its content hash covers. */
  datatype Content = Content(
    schemaVersion: string,
    agentId: string,
    profileId: string,
    sceneIds: seq<string>,
    capability: Capability,
    ownerIdentityId: string,
    boundaryId: string,
    allowsDelegation: bool,
    complianceFlags: string,
    notes: string,
    role: string,
    primaryScene: string,
    must: seq<string>,
    auto: seq<string>)

  function ContentOf(b: Boundary): Content
  {
    var c := if b.confirmation.Some? then b.confirmation.value else Confirmation("", "", [], [], []);
    var r := b.responsibility;
    Content(b.schemaVersion, b.agentId, b.profileId, b.sceneIds, b.capability, r.ownerIdentityId, r.boundaryId,
            r.allowsDelegation, r.complianceFlags, r.notes, c.role, c.primaryScene, c.must, c.auto)
  }

  /** A user profile written in some other case on an agent that sells. */
  predicate MisspeltUser(karmaRole: string, profileId: string)
  {
    UserProfile(profileId) && profileId != "user" && KarmaRoleToConfirmationRole(karmaRole) == SELLER
  }

  lemma BuyerKnown()
    ensures KnownRole(BUYER)
  {
    StripStripped(BUYER);
    assert Lower(BUYER) == BUYER;
  }

  lemma SellerKnown()
    ensures KnownRole(SELLER)
  {
    StripStripped(SELLER);
    assert Lower(SELLER) == SELLER;
  }

  /** Canonicalising a materialised card leaves the hashed content as it is, unless the card is that
      of a seller whose profile id is "user" in some other case: then the card is refused as looser
      or comes back as a buyer's. */
  lemma MaterializedFixpoint(policy: Policy, agentId: string, name: string, karmaRole: string, profileId: string,
                             capabilities: seq<string>, sceneIds: seq<string>, card: Card, owner: string,
                             acknowledged: bool, rejectLooser: bool)
    ensures var b := Materialize(policy, agentId, name, karmaRole, profileId, capabilities, sceneIds, card, owner, acknowledged);
      var saved := Canonicalize(policy, b, rejectLooser);
      && saved != UnknownRole
      && (saved.Canonical? && ContentOf(saved.boundary) == ContentOf(b) <==> !MisspeltUser(karmaRole, profileId))
      && (!MisspeltUser(karmaRole, profileId) ==> saved == Canonical(b))
  {
    hide CompletenessGaps, MaterializedScenes, LooserThan, JoinBoundaries, Strip, Lower, KarmaRoleToConfirmationRole,
         ConfirmationBlock, UserProfile, KnownRole;
    var b := Materialize(policy, agentId, name, karmaRole, profileId, capabilities, sceneIds, card, owner, acknowledged);
    var role := MaterializedRole(karmaRole, profileId);
    BuyerKnown();
    SellerKnown();
    BlockNotLooser(policy, b.sceneIds, role);
    BlockRole(policy, b.sceneIds, role);
    BlockRole(policy, b.sceneIds, BUYER);
    UserIsUser();
    if MisspeltUser(karmaRole, profileId) {
      assert ConfirmationRole(b) == BUYER && role == SELLER;
    } else {
      assert ConfirmationRole(b) == role;
    }
  }

  lemma UserIsUser()
    ensures UserProfile("user")
  {}

  lemma BlockRole(policy: Policy, scenes: seq<string>, role: string)
    ensures ConfirmationBlock(policy, scenes, role).role == role
  {}

  // ----- saving a card -----

  /** What a save stores: the canonical card under its agent, with completeness assessed afresh. */
  function SavedBoundary(policy: Policy, agentId: string, b: Boundary): Option<Boundary>
  {
    match Canonicalize(policy, b, true)
    case Canonical(c) =>
      var role := if c.confirmation.Some? then OrText(c.confirmation.value.role, SELLER) else SELLER;
      var gaps := CompletenessGaps(c.profileId, role, c.sceneIds, c.capability.specs, c.capability.doNot,
                                   c.capability.capabilities);
      Some(c.(agentId := agentId, complete := gaps == [], gaps := gaps))
    case _ => None
  }

  /** A saved card is saved as it is again, its flag says what `CompleteMeans` says whatever the
      caller claimed, and its block is the catalog's. */
  lemma SavedIsStable(policy: Policy, agentId: string, b: Boundary)
    requires SavedBoundary(policy, agentId, b).Some?
    ensures var s := SavedBoundary(policy, agentId, b).value;
      && SavedBoundary(policy, agentId, s) == Some(s)
      && s.agentId == agentId
      && s.confirmation == Some(ConfirmationBlock(policy, b.sceneIds, ConfirmationRole(b)))
      && (s.complete <==> s.gaps == [])
  {
    hide CompletenessGaps, LooserThan, ConfirmationBlock, UserProfile, KarmaRoleToConfirmationRole;
    CanonicalizeIsStable(policy, b, true, true);
    var c := Canonicalize(policy, b, true).boundary;
    var s := SavedBoundary(policy, agentId, b).value;
    assert ConfirmationRole(s) == ConfirmationRole(c);
  }
}
