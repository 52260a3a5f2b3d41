/**
 The ledger of seller accepts: idempotent recording of timeouts and rejections, a log that is cut
 back, and per-seller counts. The class below is the mutable ledger; its methods are specified by
 functions on `Ledger` values, which also carry the full history that the log forgets.
 */
module AcceptLedger {
  import opened Text
  import opened Rounding
  import opened SellerRisk

  datatype Reason = Timeout | Reject | OtherReason(text: string)

  datatype Outcome = NonConfirm(reason: Reason, delta: real, countAfter: nat) | Confirmed

  /** The empty string stands for an absent session or interaction. */
  datatype Event = Event(
    eventId: nat,
    outcome: Outcome,
    sellerId: string,
    sceneId: string,
    interactionRef: string,
    sessionId: string,
    amount: Option<real>)

  datatype SceneRow = SceneRow(sceneId: string, nonConfirm: nat, timeout: nat, reject: nat)

  datatype SellerEntry = SellerEntry(
    nonConfirm: nat,
    timeout: nat,
    reject: nat,
    confirm: nat,
    deltaTotal: real,
    byScene: seq<SceneRow>)

  const NEW_ENTRY := SellerEntry(0, 0, 0, 0, 0.0, [])

  datatype Ledger = Ledger(sellers: map<string, SellerEntry>, events: seq<Event>, history: seq<Event>)

  const EMPTY_LEDGER := Ledger(map[], [], [])

  type Catalog = string -> ScenePolicy

  const LOG_LIMIT := 5000
  const LOG_KEEP := 4000

  /** The arguments of the two recording calls. */
  datatype Request = Request(
    sellerId: string,
    sceneId: string,
    interactionRef: string,
    sessionId: string,
    amount: Option<real>)

  // ----- one event -----

  function MaxHit(pol: ScenePolicy): real
  {
    OrDefault(pol.maxReputationHit, 5.0)
  }

  function Delta(pol: ScenePolicy, reason: Reason): real
  {
    var d := if reason == Timeout then OrDefault(pol.deltaOnTimeout, -2.0) else OrDefault(pol.deltaOnReject, -3.0);
    Max(-MaxHit(pol), Min(0.0, d))
  }

  function BumpScene(rows: seq<SceneRow>, sceneId: string, reason: Reason): seq<SceneRow>
  {
    if rows == [] then [Bumped(SceneRow(sceneId, 0, 0, 0), reason)]
    else if rows[0].sceneId == sceneId then [Bumped(rows[0], reason)] + rows[1..]
    else [rows[0]] + BumpScene(rows[1..], sceneId, reason)
  }

  function Bumped(row: SceneRow, reason: Reason): SceneRow
  {
    var r := row.(nonConfirm := row.nonConfirm + 1);
    if reason == Timeout then r.(timeout := r.timeout + 1) else r.(reject := r.reject + 1)
  }

  /** A seller's entry after one more event of theirs. */
  function Applied(e: SellerEntry, ev: Event): SellerEntry
  {
    match ev.outcome
    case Confirmed => e.(confirm := e.confirm + 1)
    case NonConfirm(reason, delta, _) =>
      e.(nonConfirm := e.nonConfirm + 1,
         timeout := if reason == Timeout then e.timeout + 1 else e.timeout,
         reject := if reason == Timeout then e.reject else e.reject + 1,
         deltaTotal := e.deltaTotal + delta,
         byScene := BumpScene(e.byScene, ev.sceneId, reason))
  }

  function EntryIn(sellers: map<string, SellerEntry>, sellerId: string): SellerEntry
  {
    if sellerId in sellers then sellers[sellerId] else NEW_ENTRY
  }

  /** A log longer than the limit keeps only its last events; confirmations do not cut it. */
  function Cut(events: seq<Event>): seq<Event>
  {
    if |events| > LOG_LIMIT then events[|events| - LOG_KEEP..] else events
  }

  function Append(l: Ledger, ev: Event): Ledger
  {
    var log := l.events + [ev];
    Ledger(l.sellers[ev.sellerId := Applied(EntryIn(l.sellers, ev.sellerId), ev)],
           if ev.outcome.NonConfirm? then Cut(log) else log,
           l.history + [ev])
  }

  // ----- idempotency -----

  predicate SameNonConfirm(ev: Event, sessionId: string, reason: Reason)
  {
    ev.sessionId == sessionId && ev.outcome.NonConfirm? && ev.outcome.reason == reason
  }

  predicate SameConfirm(ev: Event, sessionId: string)
  {
    ev.sessionId == sessionId && ev.outcome.Confirmed?
  }

  /** The first event of the retained log that an operation would repeat. */
  function FirstNonConfirm(events: seq<Event>, sessionId: string, reason: Reason): Option<Event>
  {
    if events == [] then None
    else if SameNonConfirm(events[0], sessionId, reason) then Some(events[0])
    else FirstNonConfirm(events[1..], sessionId, reason)
  }

  function FirstConfirm(events: seq<Event>, sessionId: string): Option<Event>
  {
    if events == [] then None
    else if SameConfirm(events[0], sessionId) then Some(events[0])
    else FirstConfirm(events[1..], sessionId)
  }

  function PriorNonConfirm(l: Ledger, sessionId: string, reason: Reason): Option<Event>
  {
    if sessionId == "" then None else FirstNonConfirm(l.events, sessionId, reason)
  }

  function PriorConfirm(l: Ledger, sessionId: string): Option<Event>
  {
    if sessionId == "" then None else FirstConfirm(l.events, sessionId)
  }

  lemma {:induction false} FirstNonConfirmFinds(events: seq<Event>, sessionId: string, reason: Reason)
    ensures var r := FirstNonConfirm(events, sessionId, reason);
      && (r.Some? ==> r.value in events && SameNonConfirm(r.value, sessionId, reason))
      && (r.None? ==> forall ev :: ev in events ==> !SameNonConfirm(ev, sessionId, reason))
  {
    if events != [] {
      assert events == [events[0]] + events[1..];
      FirstNonConfirmFinds(events[1..], sessionId, reason);
    }
  }

  // ----- the two recording operations -----

  function NewNonConfirm(cat: Catalog, l: Ledger, req: Request, reason: Reason): Event
  {
    Event(|l.events| + 1,
          NonConfirm(reason, Delta(cat(req.sceneId), reason), EntryIn(l.sellers, req.sellerId).nonConfirm + 1),
          req.sellerId, req.sceneId, req.interactionRef, req.sessionId, req.amount)
  }

  function NewConfirm(l: Ledger, req: Request): Event
  {
    Event(|l.events| + 1, Confirmed, req.sellerId, req.sceneId, req.interactionRef, req.sessionId, req.amount)
  }

  /** Reading a risk profile creates the seller's entry, under the stripped id; a blank id raises. */
  function Touch(l: Ledger, sellerId: string): Ledger
  {
    var id := Strip(sellerId);
    if id == "" || id in l.sellers then l else l.(sellers := l.sellers[id := NEW_ENTRY])
  }

  function NonConfirmed(cat: Catalog, l: Ledger, req: Request, reason: Reason): Ledger
  {
    if reason.OtherReason? then l
    else if PriorNonConfirm(l, req.sessionId, reason).Some? then Touch(l, req.sellerId)
    else Touch(Append(l, NewNonConfirm(cat, l, req, reason)), req.sellerId)
  }

  function ConfirmedOrder(l: Ledger, req: Request): Ledger
  {
    if PriorConfirm(l, req.sessionId).Some? then Touch(l, req.sellerId)
    else Touch(Append(l, NewConfirm(l, req)), req.sellerId)
  }

  datatype RiskProfile = RiskProfile(
    nonConfirm: nat,
    timeout: nat,
    reject: nat,
    confirm: nat,
    active: Active,
    deltaTotal: real)

  function ProfileOf(cat: Catalog, l: Ledger, sellerId: string, sceneId: string): Option<RiskProfile>
  {
    if Strip(sellerId) == "" then None
    else
      var e := EntryIn(l.sellers, Strip(sellerId));
      Some(RiskProfile(e.nonConfirm, e.timeout, e.reject, e.confirm,
                       ActiveFor(cat(sceneId), Reached(cat(sceneId), e.nonConfirm)), e.deltaTotal))
  }

  datatype NonConfirmResult =
    | BadReason
    | SellerIdRequired
    | Recorded(idempotent: bool, event: Event, profile: RiskProfile, delta: real)

  datatype ConfirmResult =
    | ConfirmSellerIdRequired
    | ConfirmRecorded(idempotent: bool, event: Event, profile: RiskProfile, liability: Liability)

  // ----- the mutable ledger -----

  class SellerAcceptLedger {
    var sellers: map<string, SellerEntry>
    var events: seq<Event>
    ghost var history: seq<Event>

    ghost function Model(): Ledger
      reads this
    {
      Ledger(sellers, events, history)
    }

    ghost predicate Valid(cat: Catalog)
      reads this
    {
      Consistent(cat, Model())
    }

    constructor (cat: Catalog)
      ensures Model() == EMPTY_LEDGER && Valid(cat)
    {
      sellers, events, history := map[], [], [];
    }

    /** `seller_risk_profile`: `None` is the error for a blank id. */
    method SellerRiskProfile(cat: Catalog, sellerId: string, sceneId: string) returns (p: Option<RiskProfile>)
      modifies this
      ensures Model() == Touch(old(Model()), sellerId)
      ensures p == ProfileOf(cat, Model(), sellerId, sceneId)
    {
      var id := Strip(sellerId);
      if id == "" {
        return None;
      }
      if id !in sellers {
        sellers := sellers[id := NEW_ENTRY];
      }
      var e := sellers[id];
      var active := ThresholdForCount(cat(sceneId), e.nonConfirm);
      p := Some(RiskProfile(e.nonConfirm, e.timeout, e.reject, e.confirm, active, e.deltaTotal));
    }

    /** The scan for an earlier record of the same session and reason. */
    method FindNonConfirm(sessionId: string, reason: Reason) returns (prior: Option<Event>)
      ensures prior == PriorNonConfirm(Model(), sessionId, reason)
    {
      if sessionId == "" {
        return None;
      }
      for i := 0 to |events|
        invariant FirstNonConfirm(events, sessionId, reason) == FirstNonConfirm(events[i..], sessionId, reason)
      {
        if SameNonConfirm(events[i], sessionId, reason) {
          return Some(events[i]);
        }
      }
      prior := None;
    }

    method FindConfirm(sessionId: string) returns (prior: Option<Event>)
      ensures prior == PriorConfirm(Model(), sessionId)
    {
      if sessionId == "" {
        return None;
      }
      for i := 0 to |events|
        invariant FirstConfirm(events, sessionId) == FirstConfirm(events[i..], sessionId)
      {
        if SameConfirm(events[i], sessionId) {
          return Some(events[i]);
        }
      }
      prior := None;
    }

    /** Updates the seller's entry field by field and logs the event. */
    method LogNonConfirm(cat: Catalog, req: Request, reason: Reason) returns (event: Event)
      requires !reason.OtherReason?
      modifies this
      ensures event == NewNonConfirm(cat, old(Model()), req, reason)
      ensures Model() == Append(old(Model()), event)
    {
      var delta := Delta(cat(req.sceneId), reason);
      var entry := if req.sellerId in sellers then sellers[req.sellerId] else NEW_ENTRY;
      entry := entry.(nonConfirm := entry.nonConfirm + 1);
      if reason == Timeout {
        entry := entry.(timeout := entry.timeout + 1);
      } else {
        entry := entry.(reject := entry.reject + 1);
      }
      entry := entry.(deltaTotal := entry.deltaTotal + delta);
      entry := entry.(byScene := BumpScene(entry.byScene, req.sceneId, reason));
      sellers := sellers[req.sellerId := entry];
      event := Event(|events| + 1, NonConfirm(reason, delta, entry.nonConfirm), req.sellerId, req.sceneId,
                     req.interactionRef, req.sessionId, req.amount);
      events := events + [event];
      history := history + [event];
      if |events| > LOG_LIMIT {
        events := events[|events| - LOG_KEEP..];
      }
    }

    method LogConfirm(req: Request) returns (event: Event)
      modifies this
      ensures event == NewConfirm(old(Model()), req)
      ensures Model() == Append(old(Model()), event)
    {
      var entry := if req.sellerId in sellers then sellers[req.sellerId] else NEW_ENTRY;
      entry := entry.(confirm := entry.confirm + 1);
      sellers := sellers[req.sellerId := entry];
      event := Event(|events| + 1, Confirmed, req.sellerId, req.sceneId, req.interactionRef, req.sessionId, req.amount);
      events := events + [event];
      history := history + [event];
    }

    /** Records a timeout or a rejection, once per session and reason while the first record is
        retained. A blank seller id raises only after the event has been recorded. */
    method RecordSellerNonConfirm(cat: Catalog, req: Request, reason: Reason) returns (res: NonConfirmResult)
      requires Valid(cat)
      modifies this
      ensures Valid(cat)
      ensures Model() == NonConfirmed(cat, old(Model()), req, reason)
      ensures res == NonConfirmAnswer(cat, old(Model()), req, reason)
    {
      NonConfirmedKeeps(cat, Model(), req, reason);
      if reason.OtherReason? {
        return BadReason;
      }
      var delta := Delta(cat(req.sceneId), reason);
      var prior := FindNonConfirm(req.sessionId, reason);
      var event: Event;
      if prior.Some? {
        event := prior.value;
      } else {
        event := LogNonConfirm(cat, req, reason);
      }
      var profile := SellerRiskProfile(cat, req.sellerId, req.sceneId);
      if profile.None? {
        return SellerIdRequired;
      }
      res := Recorded(prior.Some?, event, profile.value, if prior.Some? then DeltaOf(event, delta) else delta);
    }

    /** Records an accepted order, once per session while the first record is retained, and arms
        the liability. The log is never cut here. */
    method RecordSellerConfirm(cat: Catalog, req: Request) returns (res: ConfirmResult)
      requires Valid(cat)
      modifies this
      ensures Valid(cat)
      ensures Model() == ConfirmedOrder(old(Model()), req)
      ensures res == ConfirmAnswer(cat, old(Model()), req)
      ensures old(events) <= events
    {
      ConfirmedOrderKeeps(cat, Model(), req);
      var prior := FindConfirm(req.sessionId);
      var event: Event;
      if prior.Some? {
        event := prior.value;
      } else {
        event := LogConfirm(req);
      }
      var profile := SellerRiskProfile(cat, req.sellerId, req.sceneId);
      if profile.None? {
        return ConfirmSellerIdRequired;
      }
      res := ConfirmRecorded(prior.Some?, event, profile.value,
                             ArmPostConfirmLiability(cat(req.sceneId), profile.value.nonConfirm, AmountOf(req)));
    }
  }

  function AmountOf(req: Request): real
  {
    if req.amount.Some? then req.amount.value else 0.0
  }

  function ConfirmAnswer(cat: Catalog, l: Ledger, req: Request): ConfirmResult
  {
    var prior := PriorConfirm(l, req.sessionId);
    var profile := ProfileOf(cat, ConfirmedOrder(l, req), req.sellerId, req.sceneId);
    if profile.None? then ConfirmSellerIdRequired
    else
      ConfirmRecorded(prior.Some?, if prior.Some? then prior.value else NewConfirm(l, req), profile.value,
                      ArmPostConfirmLiability(cat(req.sceneId), profile.value.nonConfirm, AmountOf(req)))
  }

  function DeltaOf(ev: Event, default: real): real
  {
    if ev.outcome.NonConfirm? then OrDefault(ev.outcome.delta, default) else default
  }

  /** What recording a non-confirm answers. */
  function NonConfirmAnswer(cat: Catalog, l: Ledger, req: Request, reason: Reason): NonConfirmResult
  {
    if reason.OtherReason? then BadReason
    else
      var prior := PriorNonConfirm(l, req.sessionId, reason);
      var profile := ProfileOf(cat, NonConfirmed(cat, l, req, reason), req.sellerId, req.sceneId);
      var delta := Delta(cat(req.sceneId), reason);
      if profile.None? then SellerIdRequired
      else if prior.Some? then Recorded(true, prior.value, profile.value, DeltaOf(prior.value, delta))
      else Recorded(false, NewNonConfirm(cat, l, req, reason), profile.value, delta)
  }

  // ----- what every operation keeps -----

  /** The entry a history gives a seller. */
  function EntryOf(h: seq<Event>, sellerId: string): SellerEntry
  {
    if h == [] then NEW_ENTRY
    else
      var e, ev := EntryOf(h[..|h| - 1], sellerId), h[|h| - 1];
      if ev.sellerId == sellerId then Applied(e, ev) else e
  }

  /** The retained log is the end of the history, never less than the last `LOG_KEEP` events. */
  ghost predicate RetainsEnd(l: Ledger)
  {
    && |l.events| <= |l.history|
    && l.events == l.history[|l.history| - |l.events|..]
    && (|l.events| == |l.history| || LOG_KEEP <= |l.events|)
  }

  ghost predicate Repeats(ev: Event, other: Event)
  {
    && ev.sessionId != "" && ev.outcome.NonConfirm?
    && SameNonConfirm(other, ev.sessionId, ev.outcome.reason)
  }

  /** No two retained non-confirm events share session and reason. */
  ghost predicate NoRetainedRepeat(events: seq<Event>)
  {
    forall i, j :: 0 <= i < j < |events| ==> !Repeats(events[i], events[j])
  }

  /** In the full history two such events are more than `LOG_KEEP` events apart. */
  ghost predicate RepeatsFarApart(h: seq<Event>)
  {
    forall i, j :: 0 <= i < j < |h| && Repeats(h[i], h[j]) ==> j - i > LOG_KEEP
  }

  ghost predicate DeltasFromCatalog(cat: Catalog, h: seq<Event>)
  {
    forall i :: 0 <= i < |h| && h[i].outcome.NonConfirm? ==>
      h[i].outcome.delta == Delta(cat(h[i].sceneId), h[i].outcome.reason)
  }

  ghost predicate EntriesMatch(l: Ledger)
  {
    && (forall s :: s in l.sellers ==> l.sellers[s] == EntryOf(l.history, s))
    && (forall i :: 0 <= i < |l.history| ==> l.history[i].sellerId in l.sellers)
  }

  ghost predicate Consistent(cat: Catalog, l: Ledger)
  {
    && RetainsEnd(l) && EntriesMatch(l)
    && NoRetainedRepeat(l.events) && RepeatsFarApart(l.history) && DeltasFromCatalog(cat, l.history)
  }

  lemma {:induction false} EntryOfStranger(h: seq<Event>, s: string)
    requires forall i :: 0 <= i < |h| ==> h[i].sellerId != s
    ensures EntryOf(h, s) == NEW_ENTRY
  {
    if h != [] {
      EntryOfStranger(h[..|h| - 1], s);
    }
  }

  lemma EntryInMatches(l: Ledger, s: string)
    requires EntriesMatch(l)
    ensures EntryIn(l.sellers, s) == EntryOf(l.history, s)
  {
    if s !in l.sellers {
      EntryOfStranger(l.history, s);
    }
  }

  lemma AppendMatches(l: Ledger, ev: Event)
    requires EntriesMatch(l)
    ensures EntriesMatch(Append(l, ev))
  {
    var h, m := l.history + [ev], Append(l, ev);
    assert h[..|h| - 1] == l.history;
    EntryInMatches(l, ev.sellerId);
    forall s | s in m.sellers ensures m.sellers[s] == EntryOf(h, s) {
      EntryInMatches(l, s);
    }
  }

  lemma AppendRetains(l: Ledger, ev: Event)
    requires RetainsEnd(l)
    ensures RetainsEnd(Append(l, ev))
  {
    var m := Append(l, ev);
    var n, k := |m.history|, |m.events|;
    forall i | 0 <= i < k ensures m.events[i] == m.history[n - k + i] {
      var j := i + (|l.events| + 1 - k);
      assert m.events[i] == (l.events + [ev])[j];
    }
  }

  lemma AppendNoRepeat(l: Ledger, ev: Event)
    requires RetainsEnd(l) && NoRetainedRepeat(l.events) && RepeatsFarApart(l.history)
    requires forall e :: e in l.events ==> !Repeats(e, ev)
    ensures NoRetainedRepeat(Append(l, ev).events) && RepeatsFarApart(Append(l, ev).history)
  {
    var log := l.events + [ev];
    assert NoRetainedRepeat(log);
    var m := Append(l, ev);
    assert m.events == log[|log| - |m.events|..];
    var cut := |l.history| - |l.events|;
    assert forall i :: cut <= i < |l.history| ==> l.history[i] == l.events[i - cut];
    assert forall i :: cut <= i < |l.history| ==> !Repeats(l.history[i], ev);
  }

  lemma AppendKeeps(cat: Catalog, l: Ledger, ev: Event)
    requires Consistent(cat, l)
    requires forall e :: e in l.events ==> !Repeats(e, ev)
    requires ev.outcome.NonConfirm? ==> ev.outcome.delta == Delta(cat(ev.sceneId), ev.outcome.reason)
    ensures Consistent(cat, Append(l, ev))
  {
    AppendMatches(l, ev);
    AppendRetains(l, ev);
    AppendNoRepeat(l, ev);
  }

  lemma TouchKeeps(cat: Catalog, l: Ledger, sellerId: string)
    requires Consistent(cat, l)
    ensures Consistent(cat, Touch(l, sellerId))
  {
    EntryInMatches(l, Strip(sellerId));
  }

  lemma NonConfirmedKeeps(cat: Catalog, l: Ledger, req: Request, reason: Reason)
    requires Consistent(cat, l)
    ensures Consistent(cat, NonConfirmed(cat, l, req, reason))
  {
    if !reason.OtherReason? {
      FirstNonConfirmFinds(l.events, req.sessionId, reason);
      if PriorNonConfirm(l, req.sessionId, reason).Some? {
        TouchKeeps(cat, l, req.sellerId);
      } else {
        var ev := NewNonConfirm(cat, l, req, reason);
        AppendKeeps(cat, l, ev);
        TouchKeeps(cat, Append(l, ev), req.sellerId);
      }
    }
  }

  lemma ConfirmedOrderKeeps(cat: Catalog, l: Ledger, req: Request)
    requires Consistent(cat, l)
    ensures Consistent(cat, ConfirmedOrder(l, req))
  {
    if PriorConfirm(l, req.sessionId).Some? {
      TouchKeeps(cat, l, req.sellerId);
    } else {
      AppendKeeps(cat, l, NewConfirm(l, req));
      TouchKeeps(cat, Append(l, NewConfirm(l, req)), req.sellerId);
    }
  }

  // ----- runs -----

  datatype Op = RecordNonConfirm(req: Request, reason: Reason) | RecordConfirm(req: Request)

  function Step(cat: Catalog, l: Ledger, op: Op): Ledger
  {
    match op
    case RecordNonConfirm(req, reason) => NonConfirmed(cat, l, req, reason)
    case RecordConfirm(req) => ConfirmedOrder(l, req)
  }

  function Run(cat: Catalog, l: Ledger, ops: seq<Op>): Ledger
    decreases ops
  {
    if ops == [] then l else Run(cat, Step(cat, l, ops[0]), ops[1..])
  }

  lemma EmptyLedgerConsistent(cat: Catalog)
    ensures Consistent(cat, EMPTY_LEDGER)
  {
    assert RetainsEnd(EMPTY_LEDGER) && EntriesMatch(EMPTY_LEDGER);
  }

  lemma StepKeeps(cat: Catalog, l: Ledger, op: Op)
    requires Consistent(cat, l)
    ensures Consistent(cat, Step(cat, l, op))
    ensures l.history <= Step(cat, l, op).history
  {
    match op {
      case RecordNonConfirm(req, reason) => NonConfirmedKeeps(cat, l, req, reason);
      case RecordConfirm(req) => ConfirmedOrderKeeps(cat, l, req);
    }
  }

  lemma {:induction false} RunKeeps(cat: Catalog, l: Ledger, ops: seq<Op>)
    requires Consistent(cat, l)
    ensures Consistent(cat, Run(cat, l, ops))
    ensures l.history <= Run(cat, l, ops).history
    decreases ops
  {
    if ops != [] {
      StepKeeps(cat, l, ops[0]);
      RunKeeps(cat, Step(cat, l, ops[0]), ops[1..]);
    }
  }

  // ----- what the counts count -----

  function Indices(h: seq<Event>, p: Event -> bool): set<int>
  {
    set i | 0 <= i < |h| && p(h[i])
  }

  lemma IndicesStep(h: seq<Event>, p: Event -> bool)
    requires h != []
    ensures |Indices(h, p)| == |Indices(h[..|h| - 1], p)| + if p(h[|h| - 1]) then 1 else 0
  {
    var n := |h| - 1;
    assert Indices(h, p) == Indices(h[..n], p) + if p(h[n]) then {n} else {};
  }

  function NonConfirmOf(s: string): Event -> bool
  {
    (ev: Event) => ev.sellerId == s && ev.outcome.NonConfirm?
  }

  function TimeoutOf(s: string): Event -> bool
  {
    (ev: Event) => ev.sellerId == s && ev.outcome.NonConfirm? && ev.outcome.reason == Timeout
  }

  function ConfirmOf(s: string): Event -> bool
  {
    (ev: Event) => ev.sellerId == s && ev.outcome.Confirmed?
  }

  function NonConfirmInScene(s: string, sceneId: string): Event -> bool
  {
    (ev: Event) => ev.sellerId == s && ev.outcome.NonConfirm? && ev.sceneId == sceneId
  }

  function SumNonConfirm(rows: seq<SceneRow>): nat
  {
    if rows == [] then 0 else rows[0].nonConfirm + SumNonConfirm(rows[1..])
  }

  function RowCount(rows: seq<SceneRow>, sceneId: string): nat
  {
    if rows == [] then 0
    else if rows[0].sceneId == sceneId then rows[0].nonConfirm
    else RowCount(rows[1..], sceneId)
  }

  function SumDelta(h: seq<Event>, s: string): real
  {
    if h == [] then 0.0
    else
      var ev := h[|h| - 1];
      SumDelta(h[..|h| - 1], s) + if NonConfirmOf(s)(ev) then ev.outcome.delta else 0.0
  }

  lemma {:induction false} BumpCounts(rows: seq<SceneRow>, sceneId: string, reason: Reason, other: string)
    ensures SumNonConfirm(BumpScene(rows, sceneId, reason)) == SumNonConfirm(rows) + 1
    ensures RowCount(BumpScene(rows, sceneId, reason), other)
         == RowCount(rows, other) + if other == sceneId then 1 else 0
  {
    var bumped := BumpScene(rows, sceneId, reason);
    if rows != [] {
      if rows[0].sceneId == sceneId {
        assert bumped[1..] == rows[1..];
      } else {
        BumpCounts(rows[1..], sceneId, reason, other);
        assert bumped[1..] == BumpScene(rows[1..], sceneId, reason);
      }
    }
  }

  /** A seller's entry counts the events of the full history, cut log or not: timeouts and
      rejections add up to the non-confirms, so do the scenes, each scene counts its own events,
      and the reputation total is the sum of the deltas. */
  lemma {:induction false} EntryCounts(h: seq<Event>, s: string, sceneId: string)
    ensures var e := EntryOf(h, s);
      && e.nonConfirm == e.timeout + e.reject == SumNonConfirm(e.byScene) == |Indices(h, NonConfirmOf(s))|
      && e.timeout == |Indices(h, TimeoutOf(s))|
      && e.confirm == |Indices(h, ConfirmOf(s))|
      && RowCount(e.byScene, sceneId) == |Indices(h, NonConfirmInScene(s, sceneId))|
      && e.deltaTotal == SumDelta(h, s)
  {
    if h != [] {
      EntryCounts(h[..|h| - 1], s, sceneId);
      IndicesStep(h, NonConfirmOf(s));
      IndicesStep(h, TimeoutOf(s));
      IndicesStep(h, ConfirmOf(s));
      IndicesStep(h, NonConfirmInScene(s, sceneId));
      var ev := h[|h| - 1];
      if NonConfirmOf(s)(ev) {
        BumpCounts(EntryOf(h[..|h| - 1], s).byScene, ev.sceneId, ev.outcome.reason, sceneId);
      }
    }
  }

  /** Every hit lies between minus the catalog's maximum and zero. */
  lemma DeltaBounded(pol: ScenePolicy, reason: Reason)
    requires MaxHit(pol) >= 0.0
    ensures -MaxHit(pol) <= Delta(pol, reason) <= 0.0
  {}

  /** Any run from the empty ledger: the log is the end of the history, no retained repeat, repeats
      more than `LOG_KEEP` events apart, and every seller's entry counts the full history. */
  lemma LedgerOfAnyRun(cat: Catalog, ops: seq<Op>, s: string, sceneId: string)
    ensures var l := Run(cat, EMPTY_LEDGER, ops);
      && Consistent(cat, l)
      && var e := EntryIn(l.sellers, s);
      && e.nonConfirm == e.timeout + e.reject == SumNonConfirm(e.byScene) == |Indices(l.history, NonConfirmOf(s))|
      && e.timeout == |Indices(l.history, TimeoutOf(s))|
      && RowCount(e.byScene, sceneId) == |Indices(l.history, NonConfirmInScene(s, sceneId))|
      && e.deltaTotal == SumDelta(l.history, s)
  {
    EmptyLedgerConsistent(cat);
    RunKeeps(cat, EMPTY_LEDGER, ops);
    var l := Run(cat, EMPTY_LEDGER, ops);
    EntryInMatches(l, s);
    EntryCounts(l.history, s, sceneId);
  }

  /** No run lowers a seller's non-confirm count, hence (`LiabilityRatchet`) nor what they owe. */
  lemma {:induction false} HistoryGrowsCounts(h: seq<Event>, more: seq<Event>, s: string)
    requires h <= more
    ensures EntryOf(h, s).nonConfirm <= EntryOf(more, s).nonConfirm
    decreases |more|
  {
    if |h| < |more| {
      HistoryGrowsCounts(h, more[..|more| - 1], s);
    } else {
      assert h == more;
    }
  }

  lemma RunRatchet(cat: Catalog, l: Ledger, ops: seq<Op>, s: string, sceneId: string, amount: real)
    requires Consistent(cat, l) && Escalating(cat(sceneId))
    requires 0 <= BaseBondBps(cat(sceneId)) && 0 <= BaseCompensationBps(cat(sceneId))
    ensures var m, n := EntryIn(l.sellers, s).nonConfirm, EntryIn(Run(cat, l, ops).sellers, s).nonConfirm;
      var a, b := ArmPostConfirmLiability(cat(sceneId), m, amount), ArmPostConfirmLiability(cat(sceneId), n, amount);
      && a.bondMultiplier <= b.bondMultiplier
      && a.bondMicros <= b.bondMicros && a.compensationMicros <= b.compensationMicros
  {
    RunKeeps(cat, l, ops);
    EntryInMatches(l, s);
    EntryInMatches(Run(cat, l, ops), s);
    HistoryGrowsCounts(l.history, Run(cat, l, ops).history, s);
    LiabilityRatchet(cat(sceneId), EntryIn(l.sellers, s).nonConfirm, EntryIn(Run(cat, l, ops).sellers, s).nonConfirm, amount);
  }

  // ----- event ids -----

  /** The greatest id given so far. */
  function MaxId(h: seq<Event>): nat
  {
    if h == [] then 0
    else
      var before, last := MaxId(h[..|h| - 1]), h[|h| - 1].eventId;
      if before < last then last else before
  }

  ghost predicate IdGiven(h: seq<Event>, n: nat)
  {
    exists i :: 0 <= i < |h| && h[i].eventId == n
  }

  lemma {:induction false} IdsBelowMax(h: seq<Event>, n: nat)
    ensures IdGiven(h, n) ==> n <= MaxId(h)
  {
    if h != [] {
      IdsBelowMax(h[..|h| - 1], n);
      if i :| 0 <= i < |h| && h[i].eventId == n {
        assert i < |h| - 1 ==> h[..|h| - 1][i] == h[i];
      }
    }
  }

  /** The ids given fill the numbers from one up, and the log is no longer than the greatest. */
  ghost predicate IdsFill(l: Ledger)
  {
    |l.events| <= MaxId(l.history) && forall n: nat :: 1 <= n <= MaxId(l.history) ==> IdGiven(l.history, n)
  }

  lemma AppendFills(l: Ledger, ev: Event)
    requires IdsFill(l) && ev.eventId == |l.events| + 1
    ensures IdsFill(Append(l, ev))
    ensures |Append(l, ev).events| <= |l.events| + 1
  {
    var h := l.history + [ev];
    assert h[..|l.history|] == l.history;
    forall n: nat | 1 <= n <= MaxId(h) ensures IdGiven(h, n) {
      if n <= MaxId(l.history) {
        assert IdGiven(l.history, n);
        var i :| 0 <= i < |l.history| && l.history[i].eventId == n;
        assert h[i].eventId == n;
      } else {
        assert h[|h| - 1].eventId == n;
      }
    }
  }

  lemma StepFills(cat: Catalog, l: Ledger, op: Op)
    requires IdsFill(l)
    ensures IdsFill(Step(cat, l, op))
  {
    hide IdsFill, Append, FirstNonConfirm, FirstConfirm, Strip;
    match op {
      case RecordNonConfirm(req, reason) =>
        AppendFills(l, NewNonConfirm(cat, l, req, reason));
        TouchFills(Append(l, NewNonConfirm(cat, l, req, reason)), req.sellerId);
        TouchFills(l, req.sellerId);
      case RecordConfirm(req) =>
        AppendFills(l, NewConfirm(l, req));
        TouchFills(Append(l, NewConfirm(l, req)), req.sellerId);
        TouchFills(l, req.sellerId);
    }
  }

  lemma TouchFills(l: Ledger, sellerId: string)
    ensures IdsFill(Touch(l, sellerId)) <==> IdsFill(l)
  {}

  lemma {:induction false} RunFills(cat: Catalog, l: Ledger, ops: seq<Op>)
    requires IdsFill(l)
    ensures IdsFill(Run(cat, l, ops))
    decreases ops
  {
    hide IdsFill, Step;
    if ops != [] {
      StepFills(cat, l, ops[0]);
      RunFills(cat, Step(cat, l, ops[0]), ops[1..]);
    }
  }

  /** Event ids come from the length of the log. After any run, the id the next event would get has
      been given before exactly when the log is shorter than the greatest id ever given; a record
      that cuts the log always leaves it so. */
  lemma EventIdsRepeat(cat: Catalog, ops: seq<Op>, req: Request, reason: Reason)
    ensures var l := Run(cat, EMPTY_LEDGER, ops);
      && (IdGiven(l.history, NewNonConfirm(cat, l, req, reason).eventId) <==> |l.events| < MaxId(l.history))
      && (IdGiven(l.history, NewConfirm(l, req).eventId) <==> |l.events| < MaxId(l.history))
    ensures var m := Append(Run(cat, EMPTY_LEDGER, ops), NewNonConfirm(cat, Run(cat, EMPTY_LEDGER, ops), req, reason));
      |Run(cat, EMPTY_LEDGER, ops).events| >= LOG_LIMIT ==> |m.events| < MaxId(m.history)
  {
    hide Run;
    assert IdsFill(EMPTY_LEDGER);
    RunFills(cat, EMPTY_LEDGER, ops);
    var l := Run(cat, EMPTY_LEDGER, ops);
    var ev := NewNonConfirm(cat, l, req, reason);
    IdsBelowMax(l.history, |l.events| + 1);
    assert (l.history + [ev])[..|l.history|] == l.history;
  }
}
