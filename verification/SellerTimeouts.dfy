/**
 Expiry of seller accept sessions: single-session processing, sweeps and interaction checks, in any
 interleaving with rejections and confirmations. Each call reads the clock once (`now`).
 */
module SellerTimeouts {
  import opened Text
  import opened SellerRisk
  import opened AcceptLedger

  datatype Role = Buyer | Seller

  datatype Stage = AcceptOrder | OtherStage(name: string)

  datatype Status = Pending | Confirmed | Rejected | Used | Expired | Cancelled

  datatype Session = Session(
    id: string,
    role: Role,
    stage: Stage,
    owner: string,
    sceneId: string,
    interactionRef: string,
    maxAmount: Option<real>,
    status: Status,
    createdAt: Option<int>,
    expiresAt: Option<int>,
    cancelReason: string)

  const SELLER_TIMEOUT := "seller_accept_timeout"
  const DEFAULT_SCENE := "api_tool_call"
  const SESSION_TTL_SECONDS := 1800

  // ----- one session -----

  function Deadline(s: Session): Option<int>
  {
    if s.expiresAt.Some? then s.expiresAt
    else if s.createdAt.Some? then Some(s.createdAt.value + SESSION_TTL_SECONDS)
    else None
  }

  predicate PastDue(s: Session, now: int)
  {
    Deadline(s).Some? && now > Deadline(s).value
  }

  /** A pending or confirmed session past its deadline becomes expired. */
  function Expire(s: Session, now: int): Session
  {
    if (s.status.Pending? || s.status.Confirmed?) && PastDue(s, now) then s.(status := Expired) else s
  }

  predicate SellerAccept(s: Session)
  {
    s.role == Seller && s.stage == AcceptOrder
  }

  predicate TimedOut(s: Session)
  {
    s.status.Cancelled? && s.cancelReason == SELLER_TIMEOUT
  }

  function Scene(s: Session): string
  {
    if s.sceneId == "" then DEFAULT_SCENE else s.sceneId
  }

  function TimeoutRequest(s: Session): Request
  {
    Request(s.owner, Scene(s), s.interactionRef, s.id, s.maxAmount)
  }

  // ----- the session table, in insertion order -----

  ghost predicate DistinctSessions(rows: seq<Session>)
  {
    && (forall i, j :: 0 <= i < j < |rows| ==> rows[i].id != rows[j].id)
    && (forall i :: 0 <= i < |rows| ==> rows[i].id != "")
  }

  function Find(rows: seq<Session>, id: string): Option<nat>
  {
    FindFrom(rows, id, 0)
  }

  function FindFrom(rows: seq<Session>, id: string, k: nat): (r: Option<nat>)
    requires k <= |rows|
    ensures r.Some? ==> k <= r.value < |rows| && rows[r.value].id == id
    ensures r.None? ==> forall i :: k <= i < |rows| ==> rows[i].id != id
    decreases |rows| - k
  {
    if k == |rows| then None else if rows[k].id == id then Some(k) else FindFrom(rows, id, k + 1)
  }

  datatype Desk = Desk(ledger: Ledger, sessions: seq<Session>)

  /** What a timed-out accept answers: the seller it is charged to and the event behind it. */
  datatype Answer =
    | Nothing
    | Raised
    | CancelledTimeout(sellerId: string, sceneId: string, event: Event)

  // ----- processing one session -----

  function Charge(cat: Catalog, desk: Desk, k: nat): Ledger
    requires k < |desk.sessions|
  {
    NonConfirmed(cat, desk.ledger, TimeoutRequest(desk.sessions[k]), Timeout)
  }

  function ChargeAnswer(cat: Catalog, desk: Desk, k: nat): Answer
    requires k < |desk.sessions|
  {
    var s := desk.sessions[k];
    match NonConfirmAnswer(cat, desk.ledger, TimeoutRequest(s), Timeout)
    case Recorded(_, event, _, _) => CancelledTimeout(s.owner, Scene(s), event)
    case _ => Raised
  }

  function CancelSession(s: Session): Session
  {
    s.(status := Cancelled, cancelReason := SELLER_TIMEOUT)
  }

  /** The session of row `k`, expired if it is due. */
  function Seen(desk: Desk, k: nat, now: int): Desk
    requires k < |desk.sessions|
  {
    desk.(sessions := desk.sessions[k := Expire(desk.sessions[k], now)])
  }

  predicate Chargeable(s: Session)
  {
    SellerAccept(s) && (TimedOut(s) || s.status.Expired?)
  }

  /** An expired accept is charged, then cancelled (unless the caller asked not to, or the charge
      raised); one cancelled for timeout earlier is charged again, which is idempotent. */
  function Settled(cat: Catalog, desk: Desk, k: nat, applyCancel: bool): Desk
    requires k < |desk.sessions|
  {
    var s := desk.sessions[k];
    if !Chargeable(s) then desk
    else if TimedOut(s) || ChargeAnswer(cat, desk, k).Raised? || !applyCancel then desk.(ledger := Charge(cat, desk, k))
    else Desk(Charge(cat, desk, k), desk.sessions[k := CancelSession(s)])
  }

  function SettledAnswer(cat: Catalog, desk: Desk, k: nat): Answer
    requires k < |desk.sessions|
  {
    if Chargeable(desk.sessions[k]) then ChargeAnswer(cat, desk, k) else Nothing
  }

  /** `process_expired_seller_session`: an unknown session is ignored. */
  function Processed(cat: Catalog, desk: Desk, id: string, now: int, applyCancel: bool): Desk
  {
    var found := Find(desk.sessions, id);
    if found.None? then desk else Settled(cat, Seen(desk, found.value, now), found.value, applyCancel)
  }

  function ProcessAnswer(cat: Catalog, desk: Desk, id: string, now: int): Answer
  {
    var found := Find(desk.sessions, id);
    if found.None? then Nothing else SettledAnswer(cat, Seen(desk, found.value, now), found.value)
  }

  // ----- the sweep -----

  predicate Eligible(s: Session)
  {
    SellerAccept(s) && (s.status.Pending? || s.status.Expired?)
  }

  /** Visits the table from row `k`, adding pending or expired seller accepts to `ids` and expiring
      those that are due, until `ids` has reached the limit (so a limit below one still lists one). */
  function ListPending(rows: seq<Session>, now: int, limit: int, k: nat, ids: seq<string>): (seq<Session>, seq<string>)
    requires k <= |rows|
    decreases |rows| - k
  {
    if k == |rows| then (rows, ids)
    else if !Eligible(rows[k]) then ListPending(rows, now, limit, k + 1, ids)
    else
      var next, listed := rows[k := Expire(rows[k], now)], ids + [rows[k].id];
      if |listed| >= limit then (next, listed) else ListPending(next, now, limit, k + 1, listed)
  }

  /** The sweep's step for one listed session: the next desk, and what it answers. */
  function SweepOne(cat: Catalog, desk: Desk, k: nat, now: int): (Desk, Answer)
    requires k < |desk.sessions|
  {
    var seen := Seen(desk, k, now);
    var s := seen.sessions[k];
    if !s.status.Expired? then (seen, Nothing)
    else (Processed(cat, seen, s.id, now, true), ProcessAnswer(cat, seen, s.id, now))
  }

  /** Handles the listed sessions in turn, adding to `answers` and stopping when one raises. */
  function SweepAll(cat: Catalog, desk: Desk, ids: seq<string>, now: int, answers: seq<Answer>): (Desk, seq<Answer>)
    decreases ids
  {
    if ids == [] then (desk, answers)
    else
      var found := Find(desk.sessions, ids[0]);
      if found.None? then SweepAll(cat, desk, ids[1..], now, answers)
      else
        var (next, answer) := SweepOne(cat, desk, found.value, now);
        if answer.Raised? then (next, answers + [Raised])
        else SweepAll(cat, next, ids[1..], now, if answer.Nothing? then answers else answers + [answer])
  }

  function Swept(cat: Catalog, desk: Desk, now: int, limit: int): (Desk, seq<Answer>)
  {
    var (rows, ids) := ListPending(desk.sessions, now, limit, 0, []);
    SweepAll(cat, desk.(sessions := rows), ids, now, [])
  }

  // ----- the interaction check -----

  predicate TimeoutFor(ev: Event, sellerId: string, ref: string)
  {
    ev.sellerId == sellerId && ev.interactionRef == ref && ev.outcome.NonConfirm? && ev.outcome.reason == Timeout
  }

  function LastTimeout(events: seq<Event>, sellerId: string, ref: string): (r: Option<Event>)
    ensures r.Some? ==> r.value in events && TimeoutFor(r.value, sellerId, ref)
    ensures r.None? ==> forall ev :: ev in events ==> !TimeoutFor(ev, sellerId, ref)
  {
    if events == [] then None
    else if TimeoutFor(events[|events| - 1], sellerId, ref) then Some(events[|events| - 1])
    else
      assert events == events[..|events| - 1] + [events[|events| - 1]];
      LastTimeout(events[..|events| - 1], sellerId, ref)
  }

  /** Of the listed sessions, the first of this seller and interaction that is expired. */
  function CheckListed(cat: Catalog, desk: Desk, ids: seq<string>, sellerId: string, ref: string, now: int)
    : (Desk, Answer)
    decreases ids
  {
    if ids == [] then (desk, Nothing)
    else
      var found := Find(desk.sessions, ids[0]);
      if found.None? then CheckListed(cat, desk, ids[1..], sellerId, ref, now)
      else
        var row := desk.sessions[found.value];
        if row.owner != sellerId || row.interactionRef != ref then CheckListed(cat, desk, ids[1..], sellerId, ref, now)
        else
          var seen := Seen(desk, found.value, now);
          if seen.sessions[found.value].status.Expired?
          then (Processed(cat, seen, ids[0], now, true), ProcessAnswer(cat, seen, ids[0], now))
          else CheckListed(cat, seen, ids[1..], sellerId, ref, now)
  }

  const CHECK_LIMIT := 200

  function Checked(cat: Catalog, desk: Desk, sellerId: string, ref: string, sceneId: string, sessionId: string,
                   now: int): (Desk, Answer)
  {
    var answer := if sessionId == "" then Nothing else ProcessAnswer(cat, desk, sessionId, now);
    var first := if sessionId == "" then desk else Processed(cat, desk, sessionId, now, true);
    if !answer.Nothing? || ref == "" then (first, answer)
    else
      var prior := LastTimeout(first.ledger.events, sellerId, ref);
      if prior.Some? then
        (first.(ledger := Touch(first.ledger, sellerId)),
         if Strip(sellerId) == "" then Raised else CancelledTimeout(sellerId, sceneId, prior.value))
      else
        var (rows, ids) := ListPending(first.sessions, now, CHECK_LIMIT, 0, []);
        CheckListed(cat, first.(sessions := rows), ids, sellerId, ref, now)
  }

  // ----- what every operation keeps -----

  /** Retained timeout events of a session are charged to the session's owner. */
  ghost predicate ChargedToOwner(desk: Desk)
  {
    forall ev, k :: ev in desk.ledger.events && 0 <= k < |desk.sessions| ==>
      SameNonConfirm(ev, desk.sessions[k].id, Timeout) ==> ev.sellerId == desk.sessions[k].owner
  }

  ghost predicate DeskValid(cat: Catalog, desk: Desk)
  {
    && Consistent(cat, desk.ledger)
    && DistinctSessions(desk.sessions)
    && ChargedToOwner(desk)
  }

  ghost predicate SameSession(s: Session, t: Session)
  {
    s.id == t.id && s.owner == t.owner && s.interactionRef == t.interactionRef
  }

  /** The rows may change status, never who they belong to. */
  ghost predicate SameOwners(rows: seq<Session>, next: seq<Session>)
  {
    |next| == |rows| && forall i :: 0 <= i < |rows| ==> SameSession(rows[i], next[i])
  }

  /** A timeout of the session is in the retained log. */
  ghost predicate Retained(l: Ledger, id: string)
  {
    exists ev :: ev in l.events && SameNonConfirm(ev, id, Timeout)
  }

  ghost predicate TimeoutOfSeller(ev: Event, sellerId: string)
  {
    ev.outcome.NonConfirm? && ev.outcome.reason == Timeout && ev.sellerId == sellerId
  }

  /** A cancel answer rests on a recorded timeout event of the seller it names. */
  ghost predicate Backed(l: Ledger, answer: Answer)
  {
    answer.CancelledTimeout? ==> answer.event in l.history && TimeoutOfSeller(answer.event, answer.sellerId)
  }

  lemma RetainedInHistory(cat: Catalog, l: Ledger)
    requires Consistent(cat, l)
    ensures forall ev :: ev in l.events ==> ev in l.history
  {}

  lemma AppendedEvents(l: Ledger, ev: Event)
    ensures ev in Append(l, ev).events
    ensures forall e :: e in Append(l, ev).events ==> e in l.events || e == ev
  {
    var log, m := l.events + [ev], Append(l, ev);
    assert log[|log| - 1] == ev && m.events[|m.events| - 1] == ev;
    forall e | e in m.events ensures e in l.events || e == ev {
      assert e in log;
    }
  }

  /** What charging row `k` for a timeout does to the ledger: one new event if the session has none
      retained, otherwise none; either way one is retained afterwards, and it names the owner. */
  lemma ChargeLedger(cat: Catalog, desk: Desk, k: nat)
    requires DeskValid(cat, desk) && k < |desk.sessions|
    ensures var s, m := desk.sessions[k], Charge(cat, desk, k);
      && Consistent(cat, m) && Retained(m, s.id)
      && (Retained(desk.ledger, s.id) ==> m.events == desk.ledger.events && m.history == desk.ledger.history)
      && (!Retained(desk.ledger, s.id) ==>
            var ev := NewNonConfirm(cat, desk.ledger, TimeoutRequest(s), Timeout);
            m.events == Append(desk.ledger, ev).events && m.history == desk.ledger.history + [ev])
  {
    var l, s := desk.ledger, desk.sessions[k];
    NonConfirmedKeeps(cat, l, TimeoutRequest(s), Timeout);
    FirstNonConfirmFinds(l.events, s.id, Timeout);
    if PriorNonConfirm(l, s.id, Timeout).None? {
      var ev := NewNonConfirm(cat, l, TimeoutRequest(s), Timeout);
      AppendedEvents(l, ev);
      assert SameNonConfirm(ev, s.id, Timeout);
    }
  }

  lemma ChargeKeeps(cat: Catalog, desk: Desk, k: nat)
    requires DeskValid(cat, desk) && k < |desk.sessions|
    ensures DeskValid(cat, desk.(ledger := Charge(cat, desk, k)))
  {
    ChargeLedger(cat, desk, k);
    var l, s := desk.ledger, desk.sessions[k];
    var ev := NewNonConfirm(cat, l, TimeoutRequest(s), Timeout);
    AppendedEvents(l, ev);
    forall e, i | e in Charge(cat, desk, k).events && 0 <= i < |desk.sessions|
      ensures SameNonConfirm(e, desk.sessions[i].id, Timeout) ==> e.sellerId == desk.sessions[i].owner
    {
      if !Retained(l, s.id) && e == ev && i != k {
        assert desk.sessions[i].id != s.id;
      }
    }
  }

  lemma ChargeAnswerBacked(cat: Catalog, desk: Desk, k: nat)
    requires DeskValid(cat, desk) && k < |desk.sessions|
    ensures var answer := ChargeAnswer(cat, desk, k);
      && !answer.Nothing? && (answer.Raised? <==> Strip(desk.sessions[k].owner) == "")
      && (answer.CancelledTimeout? ==>
            && answer.sellerId == desk.sessions[k].owner
            && answer.event in Charge(cat, desk, k).events
            && TimeoutOfSeller(answer.event, answer.sellerId))
  {
    var l, s := desk.ledger, desk.sessions[k];
    FirstNonConfirmFinds(l.events, s.id, Timeout);
    if PriorNonConfirm(l, s.id, Timeout).None? {
      AppendedEvents(l, NewNonConfirm(cat, l, TimeoutRequest(s), Timeout));
    }
  }

  /** Replacing a row by the same session in another status keeps the desk valid. */
  lemma RestatusKeeps(cat: Catalog, desk: Desk, k: nat, s: Session)
    requires DeskValid(cat, desk) && k < |desk.sessions| && SameSession(desk.sessions[k], s)
    ensures DeskValid(cat, desk.(sessions := desk.sessions[k := s]))
    ensures SameOwners(desk.sessions, desk.sessions[k := s])
  {}

  predicate Overdue(s: Session, now: int)
  {
    SellerAccept(s) && Expire(s, now).status.Expired?
  }

  /** The ledger grows by one event if none of the session is retained, and not at all otherwise. */
  ghost predicate GrowsOnce(l: Ledger, m: Ledger, id: string)
  {
    && l.history <= m.history
    && |m.history| == |l.history| + if Retained(l, id) then 0 else 1
  }

  lemma ChargeRow(cat: Catalog, desk: Desk, k: nat, s: Session)
    requires DeskValid(cat, desk) && k < |desk.sessions| && SameSession(desk.sessions[k], s)
    ensures var m, answer := Charge(cat, desk, k), ChargeAnswer(cat, desk, k);
      && DeskValid(cat, Desk(m, desk.sessions)) && DeskValid(cat, Desk(m, desk.sessions[k := s]))
      && GrowsOnce(desk.ledger, m, desk.sessions[k].id) && Retained(m, desk.sessions[k].id)
      && Backed(m, answer) && !answer.Nothing? && (answer.CancelledTimeout? ==> answer.event in m.events)
      && SameOwners(desk.sessions, desk.sessions[k := s])
  {
    ChargeLedger(cat, desk, k);
    ChargeKeeps(cat, desk, k);
    ChargeAnswerBacked(cat, desk, k);
    var charged := desk.(ledger := Charge(cat, desk, k));
    RetainedInHistory(cat, charged.ledger);
    RestatusKeeps(cat, charged, k, s);
  }

  lemma SettledKeeps(cat: Catalog, desk: Desk, k: nat, applyCancel: bool)
    requires DeskValid(cat, desk) && k < |desk.sessions|
    ensures var next, answer, id := Settled(cat, desk, k, applyCancel), SettledAnswer(cat, desk, k), desk.sessions[k].id;
      && DeskValid(cat, next) && SameOwners(desk.sessions, next.sessions)
      && Backed(next.ledger, answer)
      && (answer.CancelledTimeout? ==> answer.event in next.ledger.events)
      && (answer.Nothing? ==> next.ledger == desk.ledger)
      && (!answer.Nothing? ==> GrowsOnce(desk.ledger, next.ledger, id) && Retained(next.ledger, id))
  {
    if Chargeable(desk.sessions[k]) {
      var s := CancelSession(desk.sessions[k]);
      ChargeRow(cat, desk, k, s);
      var next, m := Settled(cat, desk, k, applyCancel), Charge(cat, desk, k);
      assert next == Desk(m, desk.sessions) || next == Desk(m, desk.sessions[k := s]);
    }
  }

  lemma SeenKeeps(cat: Catalog, desk: Desk, k: nat, now: int)
    requires DeskValid(cat, desk) && k < |desk.sessions|
    ensures DeskValid(cat, Seen(desk, k, now)) && SameOwners(desk.sessions, Seen(desk, k, now).sessions)
  {
    RestatusKeeps(cat, desk, k, Expire(desk.sessions[k], now));
  }

  /** Processing one session. A cancel answer names a seller and rests on a retained timeout event
      of theirs; the history grows by that event if none of the session was retained and not at
      all otherwise. */
  lemma ProcessKeeps(cat: Catalog, desk: Desk, id: string, now: int, applyCancel: bool)
    requires DeskValid(cat, desk)
    ensures var next, answer := Processed(cat, desk, id, now, applyCancel), ProcessAnswer(cat, desk, id, now);
      && DeskValid(cat, next) && SameOwners(desk.sessions, next.sessions)
      && Backed(next.ledger, answer)
      && (answer.CancelledTimeout? ==> answer.event in next.ledger.events)
      && (answer.Nothing? ==> next.ledger == desk.ledger)
      && (!answer.Nothing? ==> GrowsOnce(desk.ledger, next.ledger, id) && Retained(next.ledger, id))
  {
    var found := Find(desk.sessions, id);
    if found.Some? {
      var seen := Seen(desk, found.value, now);
      SeenKeeps(cat, desk, found.value, now);
      SettledKeeps(cat, seen, found.value, applyCancel);
      SameOwnersTransitive(desk.sessions, seen.sessions, Processed(cat, desk, id, now, applyCancel).sessions);
    }
  }

  /** Which row processing touches, and what becomes of it. */
  lemma ProcessRows(cat: Catalog, desk: Desk, k: nat, now: int)
    requires DeskValid(cat, desk) && k < |desk.sessions|
    ensures var id := desk.sessions[k].id;
      var next, answer := Processed(cat, desk, id, now, true), ProcessAnswer(cat, desk, id, now);
      && (forall i :: 0 <= i < |desk.sessions| && i != k ==> next.sessions[i] == desk.sessions[i])
      && (Overdue(desk.sessions[k], now) ==>
            && (answer.Raised? <==> Strip(desk.sessions[k].owner) == "")
            && (!answer.Raised? ==> TimedOut(next.sessions[k]) && answer.CancelledTimeout?))
  {
    SeenKeeps(cat, desk, k, now);
    assert Find(desk.sessions, desk.sessions[k].id) == Some(k);
    ChargeAnswerBacked(cat, Seen(desk, k, now), k);
  }

  // ----- sweeps -----

  lemma {:induction false} ListKeeps(cat: Catalog, desk: Desk, now: int, limit: int, k: nat, ids: seq<string>)
    requires DeskValid(cat, desk) && k <= |desk.sessions|
    ensures var rows := ListPending(desk.sessions, now, limit, k, ids).0;
      DeskValid(cat, desk.(sessions := rows)) && SameOwners(desk.sessions, rows)
    decreases |desk.sessions| - k
  {
    hide DeskValid;
    if k < |desk.sessions| {
      if Eligible(desk.sessions[k]) {
        var s := Expire(desk.sessions[k], now);
        RestatusKeeps(cat, desk, k, s);
        ListKeeps(cat, desk.(sessions := desk.sessions[k := s]), now, limit, k + 1, ids + [s.id]);
      } else {
        ListKeeps(cat, desk, now, limit, k + 1, ids);
      }
    }
  }

  /** A pending or expired seller accept past its deadline. */
  predicate Lapsed(s: Session, now: int)
  {
    Eligible(s) && Expire(s, now).status.Expired?
  }

  /** Rows before `k` are left alone, and what was listed stays listed. */
  lemma {:induction false} ListExtends(rows: seq<Session>, now: int, limit: int, k: nat, ids: seq<string>)
    requires k <= |rows|
    ensures var (out, listed) := ListPending(rows, now, limit, k, ids);
      |out| == |rows| && ids <= listed && forall i :: 0 <= i < k ==> out[i] == rows[i]
    decreases |rows| - k
  {
    if k < |rows| {
      if Eligible(rows[k]) {
        ListExtends(rows[k := Expire(rows[k], now)], now, limit, k + 1, ids + [rows[k].id]);
      } else {
        ListExtends(rows, now, limit, k + 1, ids);
      }
    }
  }

  /** With a limit no smaller than the table, every lapsed accept is listed. */
  lemma {:induction false} ListComplete(rows: seq<Session>, now: int, limit: int, k: nat, ids: seq<string>)
    requires k <= |rows| && limit >= |ids| + |rows| - k
    ensures var (out, listed) := ListPending(rows, now, limit, k, ids);
      |out| == |rows| && forall i :: k <= i < |rows| && Lapsed(out[i], now) ==> rows[i].id in listed
    decreases |rows| - k
  {
    ListExtends(rows, now, limit, k, ids);
    if k < |rows| {
      var next := if Eligible(rows[k]) then rows[k := Expire(rows[k], now)] else rows;
      var listed := if Eligible(rows[k]) then ids + [rows[k].id] else ids;
      ListExtends(next, now, limit, k + 1, listed);
      if k + 1 < |rows| || !Eligible(rows[k]) {
        assert ListPending(rows, now, limit, k, ids) == ListPending(next, now, limit, k + 1, listed);
        ListComplete(next, now, limit, k + 1, listed);
      }
      if Eligible(rows[k]) {
        assert listed[|ids|] == rows[k].id && listed <= ListPending(rows, now, limit, k, ids).1;
      }
    }
  }

  lemma SameOwnersTransitive(a: seq<Session>, b: seq<Session>, c: seq<Session>)
    requires SameOwners(a, b) && SameOwners(b, c)
    ensures SameOwners(a, c)
  {}

  ghost predicate AllBacked(l: Ledger, answers: seq<Answer>)
  {
    forall i :: 0 <= i < |answers| ==> Backed(l, answers[i])
  }

  lemma SweepOneKeeps(cat: Catalog, desk: Desk, k: nat, now: int)
    requires DeskValid(cat, desk) && k < |desk.sessions|
    ensures var (next, answer) := SweepOne(cat, desk, k, now);
      && DeskValid(cat, next) && SameOwners(desk.sessions, next.sessions)
      && desk.ledger.history <= next.ledger.history && Backed(next.ledger, answer)
  {
    hide DeskValid, Processed, ProcessAnswer;
    var seen := Seen(desk, k, now);
    SeenKeeps(cat, desk, k, now);
    ProcessKeeps(cat, seen, seen.sessions[k].id, now, true);
    SameOwnersTransitive(desk.sessions, seen.sessions, SweepOne(cat, desk, k, now).0.sessions);
  }

  /** An overdue accept whose owner is blank: charging it raises. */
  predicate Stuck(s: Session, now: int)
  {
    Overdue(s, now) && Strip(s.owner) == ""
  }

  /** A session the sweep has handled is not lapsed any more, and no other row changes; the step
      raises exactly for an overdue accept whose owner is blank, which then stays overdue for good. */
  lemma SweepOneSettles(cat: Catalog, desk: Desk, k: nat, now: int)
    requires DeskValid(cat, desk) && k < |desk.sessions|
    ensures var (next, answer) := SweepOne(cat, desk, k, now);
      && |next.sessions| == |desk.sessions| && next.sessions[k].id == desk.sessions[k].id
      && (forall i :: 0 <= i < |desk.sessions| && i != k ==>
            next.sessions[i] == desk.sessions[i] && desk.sessions[i].id != desk.sessions[k].id)
      && (answer.Raised? <==> Stuck(desk.sessions[k], now))
      && (!answer.Raised? ==> !Lapsed(next.sessions[k], now) && !Stuck(next.sessions[k], now))
      && (answer.Raised? ==> forall later :: Stuck(next.sessions[k], later))
  {
    hide DeskValid, Strip;
    var seen := Seen(desk, k, now);
    SeenKeeps(cat, desk, k, now);
    OwnRow(cat, desk, k);
    if seen.sessions[k].status.Expired? {
      if SellerAccept(seen.sessions[k]) {
        ProcessRows(cat, seen, k, now);
      } else {
        OwnRow(cat, seen, k);
      }
    }
  }

  lemma OwnRow(cat: Catalog, desk: Desk, k: nat)
    requires DeskValid(cat, desk) && k < |desk.sessions|
    ensures Find(desk.sessions, desk.sessions[k].id) == Some(k)
    ensures forall i :: 0 <= i < |desk.sessions| && i != k ==> desk.sessions[i].id != desk.sessions[k].id
  {}

  lemma BackedStays(l: Ledger, m: Ledger, answers: seq<Answer>)
    requires AllBacked(l, answers) && l.history <= m.history
    ensures AllBacked(m, answers)
  {}

  lemma {:induction false} SweepKeeps(cat: Catalog, desk: Desk, ids: seq<string>, now: int, answers: seq<Answer>)
    requires DeskValid(cat, desk) && AllBacked(desk.ledger, answers)
    ensures var (out, all) := SweepAll(cat, desk, ids, now, answers);
      && DeskValid(cat, out) && SameOwners(desk.sessions, out.sessions)
      && desk.ledger.history <= out.ledger.history && AllBacked(out.ledger, all)
    decreases ids
  {
    hide DeskValid, SweepOne;
    if ids != [] {
      var found := Find(desk.sessions, ids[0]);
      if found.None? {
        SweepKeeps(cat, desk, ids[1..], now, answers);
      } else {
        SweepOneKeeps(cat, desk, found.value, now);
        var (next, answer) := SweepOne(cat, desk, found.value, now);
        BackedStays(desk.ledger, next.ledger, answers);
        var all := if answer.Nothing? then answers else answers + [answer];
        if !answer.Raised? {
          SweepKeeps(cat, next, ids[1..], now, all);
          SameOwnersTransitive(desk.sessions, next.sessions, SweepAll(cat, next, ids[1..], now, all).0.sessions);
        }
      }
    }
  }

  /** One of the listed sessions is stuck. */
  ghost predicate StuckIn(rows: seq<Session>, ids: seq<string>, now: int)
  {
    exists i :: 0 <= i < |rows| && Stuck(rows[i], now) && rows[i].id in ids
  }

  lemma StuckStep(rows: seq<Session>, next: seq<Session>, k: nat, ids: seq<string>, now: int)
    requires ids != [] && k < |rows| == |next| && rows[k].id == ids[0] == next[k].id
    requires forall i :: 0 <= i < |rows| && i != k ==> next[i] == rows[i] && rows[i].id != ids[0]
    requires !Stuck(rows[k], now) && !Stuck(next[k], now)
    ensures StuckIn(next, ids[1..], now) <==> StuckIn(rows, ids, now)
  {
    hide Stuck;
    assert ids == [ids[0]] + ids[1..];
    if StuckIn(rows, ids, now) {
      var i :| 0 <= i < |rows| && Stuck(rows[i], now) && rows[i].id in ids;
      assert Stuck(next[i], now) && next[i].id in ids[1..];
    }
    if StuckIn(next, ids[1..], now) {
      var i :| 0 <= i < |next| && Stuck(next[i], now) && next[i].id in ids[1..];
      assert Stuck(rows[i], now) && rows[i].id in ids;
    }
  }

  /** A sweep over a list stops at a raise exactly when a listed session is stuck; a stuck session is
      left so that every later sweep that lists it stops too. Otherwise none of the listed sessions
      is left lapsed, and none is made to lapse. */
  lemma {:induction false} SweepSettles(cat: Catalog, desk: Desk, ids: seq<string>, now: int, answers: seq<Answer>)
    requires DeskValid(cat, desk) && Raised !in answers
    ensures var (out, all) := SweepAll(cat, desk, ids, now, answers);
      && |out.sessions| == |desk.sessions|
      && (Raised in all <==> StuckIn(desk.sessions, ids, now))
      && (Raised in all ==> forall later :: StuckIn(out.sessions, ids, later))
      && (Raised !in all ==>
            forall i :: 0 <= i < |desk.sessions| && Lapsed(out.sessions[i], now) ==>
              Lapsed(desk.sessions[i], now) && desk.sessions[i].id !in ids)
    decreases ids
  {
    hide DeskValid, SweepOne, Stuck, Lapsed, Find;
    if ids != [] {
      assert ids == [ids[0]] + ids[1..];
      FindIs(desk.sessions, ids[0]);
      var found := Find(desk.sessions, ids[0]);
      if found.None? {
        SweepSettles(cat, desk, ids[1..], now, answers);
        StuckMore(SweepAll(cat, desk, ids[1..], now, answers).0.sessions, ids);
      } else {
        var k := found.value;
        SweepOneKeeps(cat, desk, k, now);
        SweepOneSettles(cat, desk, k, now);
        var (next, answer) := SweepOne(cat, desk, k, now);
        if !answer.Raised? {
          StuckStep(desk.sessions, next.sessions, k, ids, now);
          var all := if answer.Nothing? then answers else answers + [answer];
          SweepSettles(cat, next, ids[1..], now, all);
          StuckMore(SweepAll(cat, next, ids[1..], now, all).0.sessions, ids);
        } else {
          forall later ensures StuckIn(next.sessions, ids, later) {
            assert Stuck(next.sessions[k], later) && next.sessions[k].id in ids;
          }
        }
      }
    }
  }

  lemma StuckMore(rows: seq<Session>, ids: seq<string>)
    requires ids != []
    ensures forall later :: StuckIn(rows, ids[1..], later) ==> StuckIn(rows, ids, later)
  {
    hide Stuck;
    assert ids == [ids[0]] + ids[1..];
  }

  lemma FindIs(rows: seq<Session>, id: string)
    ensures Find(rows, id).Some? ==> Find(rows, id).value < |rows| && rows[Find(rows, id).value].id == id
    ensures Find(rows, id).None? ==> forall i :: 0 <= i < |rows| ==> rows[i].id != id
  {}

  /** With a limit no smaller than the table, exactly the eligible rows are listed, each expired if due. */
  lemma {:induction false} ListExact(rows: seq<Session>, now: int, limit: int, k: nat, ids: seq<string>)
    requires k <= |rows| && limit >= |ids| + |rows| - k
    ensures var (out, listed) := ListPending(rows, now, limit, k, ids);
      && |out| == |rows|
      && (forall i :: k <= i < |rows| ==> out[i] == if Eligible(rows[i]) then Expire(rows[i], now) else rows[i])
      && (forall id :: id in listed <==> id in ids || ListedFrom(rows, k, id))
    decreases |rows| - k
  {
    hide Eligible, Expire;
    ListExtends(rows, now, limit, k, ids);
    if k < |rows| {
      if !Eligible(rows[k]) {
        ListExact(rows, now, limit, k + 1, ids);
        ListExtends(rows, now, limit, k + 1, ids);
      } else {
        var next, listed := rows[k := Expire(rows[k], now)], ids + [rows[k].id];
        if |listed| < limit {
          ListExact(next, now, limit, k + 1, listed);
          ListExtends(next, now, limit, k + 1, listed);
          ListedTail(rows, next, k + 1);
        } else {
          assert k == |rows| - 1;
        }
      }
    }
  }

  ghost predicate ListedFrom(rows: seq<Session>, k: nat, id: string)
  {
    exists i :: k <= i < |rows| && Eligible(rows[i]) && rows[i].id == id
  }

  lemma ListedTail(rows: seq<Session>, next: seq<Session>, k: nat)
    requires |rows| == |next| && forall i :: k <= i < |rows| ==> next[i] == rows[i]
    ensures forall id :: ListedFrom(next, k, id) <==> ListedFrom(rows, k, id)
  {
    hide Eligible;
    forall id: string
      ensures ListedFrom(next, k, id) <==> ListedFrom(rows, k, id)
    {
      if i :| k <= i < |next| && Eligible(next[i]) && next[i].id == id {
        assert Eligible(rows[i]);
      }
      if i :| k <= i < |rows| && Eligible(rows[i]) && rows[i].id == id {
        assert Eligible(next[i]);
      }
    }
  }

  /** What listing the whole table leaves: every eligible row listed, and expired if due. */
  ghost predicate ListedAll(rows: seq<Session>, out: seq<Session>, listed: seq<string>, now: int)
  {
    && |out| == |rows| && DistinctSessions(rows)
    && (forall i :: 0 <= i < |rows| ==> out[i] == if Eligible(rows[i]) then Expire(rows[i], now) else rows[i])
    && (forall id :: id in listed <==> ListedFrom(rows, 0, id))
  }

  lemma StuckWasLapsed(rows: seq<Session>, out: seq<Session>, listed: seq<string>, now: int, i: nat)
    requires ListedAll(rows, out, listed, now)
    requires i < |out| && Stuck(out[i], now) && out[i].id in listed
    ensures Lapsed(rows[i], now) && Strip(rows[i].owner) == ""
  {
    hide Strip;
    assert ListedFrom(rows, 0, out[i].id);
    var j :| 0 <= j < |rows| && Eligible(rows[j]) && rows[j].id == out[i].id;
    assert rows[i].id == rows[j].id;
    assert i == j;
  }

  lemma LapsedIsStuck(rows: seq<Session>, out: seq<Session>, listed: seq<string>, now: int, i: nat)
    requires ListedAll(rows, out, listed, now)
    requires i < |rows| && Lapsed(rows[i], now) && Strip(rows[i].owner) == ""
    ensures Stuck(out[i], now) && out[i].id in listed
  {
    hide Strip;
    assert Eligible(rows[i]) && ListedFrom(rows, 0, rows[i].id);
  }

  lemma ListedStuck(rows: seq<Session>, out: seq<Session>, listed: seq<string>, now: int)
    requires ListedAll(rows, out, listed, now)
    ensures StuckIn(out, listed, now) <==> exists i :: 0 <= i < |rows| && Lapsed(rows[i], now) && Strip(rows[i].owner) == ""
  {
    assert |out| == |rows|;
    hide Strip, Stuck, Lapsed, ListedAll;
    if i: nat :| i < |out| && Stuck(out[i], now) && out[i].id in listed {
      StuckWasLapsed(rows, out, listed, now, i);
    }
    if i: nat :| i < |rows| && Lapsed(rows[i], now) && Strip(rows[i].owner) == "" {
      LapsedIsStuck(rows, out, listed, now, i);
    }
  }

  /** A sweep that may list the whole table leaves no seller accept past its deadline, unless one
      that is past it has a blank owner: then, and only then, it raises. */
  lemma SweepClears(cat: Catalog, desk: Desk, now: int, limit: int)
    requires DeskValid(cat, desk) && limit >= |desk.sessions|
    ensures var (out, answers) := Swept(cat, desk, now, limit);
      && (Raised in answers <==>
            exists i :: 0 <= i < |desk.sessions| && Lapsed(desk.sessions[i], now) && Strip(desk.sessions[i].owner) == "")
      && (Raised !in answers ==> forall i :: 0 <= i < |out.sessions| ==> !Lapsed(out.sessions[i], now))
  {
    hide Lapsed, Stuck, Strip, Eligible, Expire, SweepAll, ListPending;
    var (rows, ids) := ListPending(desk.sessions, now, limit, 0, []);
    ListKeeps(cat, desk, now, limit, 0, []);
    ListComplete(desk.sessions, now, limit, 0, []);
    ListExact(desk.sessions, now, limit, 0, []);
    ListedStuck(desk.sessions, rows, ids, now);
    SweepSettles(cat, desk.(sessions := rows), ids, now, []);
  }

  // ----- interaction checks -----

  lemma {:induction false} CheckListedKeeps(cat: Catalog, desk: Desk, ids: seq<string>, sellerId: string, ref: string,
                                            now: int)
    requires DeskValid(cat, desk)
    ensures var (next, answer) := CheckListed(cat, desk, ids, sellerId, ref, now);
      && DeskValid(cat, next) && desk.ledger.history <= next.ledger.history && Backed(next.ledger, answer)
    decreases ids
  {
    hide DeskValid;
    if ids != [] {
      var found := Find(desk.sessions, ids[0]);
      if found.None? {
        CheckListedKeeps(cat, desk, ids[1..], sellerId, ref, now);
      } else {
        var seen := Seen(desk, found.value, now);
        SeenKeeps(cat, desk, found.value, now);
        ProcessKeeps(cat, seen, ids[0], now, true);
        CheckListedKeeps(cat, seen, ids[1..], sellerId, ref, now);
        CheckListedKeeps(cat, desk, ids[1..], sellerId, ref, now);
      }
    }
  }

  lemma TouchKeepsDesk(cat: Catalog, desk: Desk, sellerId: string)
    requires DeskValid(cat, desk)
    ensures DeskValid(cat, desk.(ledger := Touch(desk.ledger, sellerId)))
  {
    TouchKeeps(cat, desk.ledger, sellerId);
  }

  lemma DeskEventsInHistory(cat: Catalog, desk: Desk)
    requires DeskValid(cat, desk)
    ensures forall ev :: ev in desk.ledger.events ==> ev in desk.ledger.history
  {
    RetainedInHistory(cat, desk.ledger);
  }

  /** An interaction check keeps the desk valid, and its cancel answer rests on a timeout event of
      the seller it names, whether just recorded or found in the log. */
  lemma CheckKeeps(cat: Catalog, desk: Desk, sellerId: string, ref: string, sceneId: string, sessionId: string, now: int)
    requires DeskValid(cat, desk)
    ensures var (next, answer) := Checked(cat, desk, sellerId, ref, sceneId, sessionId, now);
      && DeskValid(cat, next) && desk.ledger.history <= next.ledger.history && Backed(next.ledger, answer)
  {
    hide DeskValid, ProcessAnswer, Processed, CheckListed, ListPending, SameOwners;
    ProcessKeeps(cat, desk, sessionId, now, true);
    var first := if sessionId == "" then desk else Processed(cat, desk, sessionId, now, true);
    DeskEventsInHistory(cat, first);
    TouchKeepsDesk(cat, first, sellerId);
    var (rows, ids) := ListPending(first.sessions, now, CHECK_LIMIT, 0, []);
    ListKeeps(cat, first, now, CHECK_LIMIT, 0, []);
    CheckListedKeeps(cat, first.(sessions := rows), ids, sellerId, ref, now);
  }

  // ----- what a cancel answer is about -----

  /** Processing a session answers with a timeout of that very session. */
  lemma ProcessNames(cat: Catalog, desk: Desk, id: string, now: int)
    ensures var answer := ProcessAnswer(cat, desk, id, now);
      answer.CancelledTimeout? ==> answer.event.sessionId == id
  {
    hide Strip;
    var found := Find(desk.sessions, id);
    if found.Some? {
      ChargeNames(cat, Seen(desk, found.value, now), found.value);
    }
  }

  lemma ChargeNames(cat: Catalog, desk: Desk, k: nat)
    requires k < |desk.sessions|
    ensures var answer := ChargeAnswer(cat, desk, k);
      answer.CancelledTimeout? ==> answer.event.sessionId == desk.sessions[k].id
  {
    hide Strip;
    FirstNonConfirmFinds(desk.ledger.events, desk.sessions[k].id, Timeout);
  }

  /** A session of this seller and interaction has the id. */
  ghost predicate SessionOf(rows: seq<Session>, id: string, sellerId: string, ref: string)
  {
    exists k :: 0 <= k < |rows| && rows[k].id == id && rows[k].owner == sellerId && rows[k].interactionRef == ref
  }

  lemma {:induction false} CheckListedNames(cat: Catalog, desk: Desk, ids: seq<string>, sellerId: string, ref: string,
                                            now: int, rows: seq<Session>)
    requires SameOwners(rows, desk.sessions)
    ensures var answer := CheckListed(cat, desk, ids, sellerId, ref, now).1;
      answer.CancelledTimeout? ==> SessionOf(rows, answer.event.sessionId, sellerId, ref)
    decreases ids
  {
    hide ProcessAnswer, Processed;
    if ids != [] {
      var found := Find(desk.sessions, ids[0]);
      if found.None? {
        CheckListedNames(cat, desk, ids[1..], sellerId, ref, now, rows);
      } else {
        var k, row := found.value, desk.sessions[found.value];
        var seen := Seen(desk, k, now);
        assert SameSession(rows[k], row) && SameOwners(rows, seen.sessions);
        ProcessNames(cat, seen, ids[0], now);
        CheckListedNames(cat, seen, ids[1..], sellerId, ref, now, rows);
        CheckListedNames(cat, desk, ids[1..], sellerId, ref, now, rows);
      }
    }
  }

  /** What an interaction check answers is about the deal asked for: a timeout of the session named,
      one recorded for the interaction, or one of a session of this seller and interaction. */
  lemma CheckNames(cat: Catalog, desk: Desk, sellerId: string, ref: string, sceneId: string, sessionId: string, now: int)
    requires DeskValid(cat, desk)
    ensures var answer := Checked(cat, desk, sellerId, ref, sceneId, sessionId, now).1;
      answer.CancelledTimeout? ==>
        || answer.event.sessionId == sessionId
        || (answer.event.sellerId == sellerId && answer.event.interactionRef == ref)
        || SessionOf(desk.sessions, answer.event.sessionId, sellerId, ref)
  {
    hide DeskValid, ProcessAnswer, Processed, CheckListed, ListPending, SessionOf, SameOwners;
    ProcessNames(cat, desk, sessionId, now);
    ProcessKeeps(cat, desk, sessionId, now, true);
    SelfOwners(desk.sessions);
    var first := if sessionId == "" then desk else Processed(cat, desk, sessionId, now, true);
    var (rows, ids) := ListPending(first.sessions, now, CHECK_LIMIT, 0, []);
    ListKeeps(cat, first, now, CHECK_LIMIT, 0, []);
    SameOwnersTransitive(desk.sessions, first.sessions, rows);
    CheckListedNames(cat, first.(sessions := rows), ids, sellerId, ref, now, desk.sessions);
  }

  lemma SelfOwners(rows: seq<Session>)
    ensures SameOwners(rows, rows)
  {}

  // ----- any interleaving -----

  datatype DeskOp =
    | Process(id: string, now: int, applyCancel: bool)
    | Sweep(now: int, limit: int)
    | Check(sellerId: string, ref: string, sceneId: string, sessionId: string, now: int)
    | RejectOrder(req: Request)
    | AcceptOrderOp(req: Request)
    | Open(session: Session)
    | Decide(id: string, status: Status)

  /** Session ids are drawn at random when a session opens; no earlier event carries one. */
  predicate FreshSession(desk: Desk, s: Session)
  {
    && s.id != "" && Find(desk.sessions, s.id).None?
    && forall i :: 0 <= i < |desk.ledger.history| ==> desk.ledger.history[i].sessionId != s.id
  }

  function DeskStep(cat: Catalog, desk: Desk, op: DeskOp): (Desk, seq<Answer>)
  {
    match op
    case Process(id, now, applyCancel) =>
      (Processed(cat, desk, id, now, applyCancel), [ProcessAnswer(cat, desk, id, now)])
    case Sweep(now, limit) => Swept(cat, desk, now, limit)
    case Check(sellerId, ref, sceneId, sessionId, now) =>
      var (next, answer) := Checked(cat, desk, sellerId, ref, sceneId, sessionId, now);
      (next, [answer])
    case RejectOrder(req) => (desk.(ledger := NonConfirmed(cat, desk.ledger, req, Reject)), [])
    case AcceptOrderOp(req) => (desk.(ledger := ConfirmedOrder(desk.ledger, req)), [])
    case Open(s) => (if FreshSession(desk, s) then desk.(sessions := desk.sessions + [s]) else desk, [])
    case Decide(id, status) =>
      var found := Find(desk.sessions, id);
      (if found.None? then desk
       else desk.(sessions := desk.sessions[found.value := desk.sessions[found.value].(status := status)]), [])
  }

  function DeskRun(cat: Catalog, desk: Desk, ops: seq<DeskOp>): (Desk, seq<Answer>)
    decreases ops
  {
    if ops == [] then (desk, [])
    else
      var (next, answers) := DeskStep(cat, desk, ops[0]);
      var (last, more) := DeskRun(cat, next, ops[1..]);
      (last, answers + more)
  }

  lemma OtherEventKeeps(cat: Catalog, desk: Desk, m: Ledger, ev: Event)
    requires DeskValid(cat, desk) && Consistent(cat, m)
    requires !(ev.outcome.NonConfirm? && ev.outcome.reason == Timeout)
    requires forall e :: e in m.events ==> e in desk.ledger.events || e == ev
    ensures DeskValid(cat, desk.(ledger := m))
  {
    hide Consistent;
  }

  lemma RejectKeeps(cat: Catalog, desk: Desk, req: Request)
    requires DeskValid(cat, desk)
    ensures DeskValid(cat, desk.(ledger := NonConfirmed(cat, desk.ledger, req, Reject)))
    ensures desk.ledger.history <= NonConfirmed(cat, desk.ledger, req, Reject).history
  {
    hide Consistent, Cut;
    NonConfirmedKeeps(cat, desk.ledger, req, Reject);
    var ev := NewNonConfirm(cat, desk.ledger, req, Reject);
    AppendedEvents(desk.ledger, ev);
    OtherEventKeeps(cat, desk, NonConfirmed(cat, desk.ledger, req, Reject), ev);
  }

  lemma AcceptKeeps(cat: Catalog, desk: Desk, req: Request)
    requires DeskValid(cat, desk)
    ensures DeskValid(cat, desk.(ledger := ConfirmedOrder(desk.ledger, req)))
    ensures desk.ledger.history <= ConfirmedOrder(desk.ledger, req).history
  {
    hide Consistent, Cut;
    ConfirmedOrderKeeps(cat, desk.ledger, req);
    var ev := NewConfirm(desk.ledger, req);
    AppendedEvents(desk.ledger, ev);
    OtherEventKeeps(cat, desk, ConfirmedOrder(desk.ledger, req), ev);
  }

  lemma OpenKeeps(cat: Catalog, desk: Desk, s: Session)
    requires DeskValid(cat, desk) && FreshSession(desk, s)
    ensures DeskValid(cat, desk.(sessions := desk.sessions + [s]))
  {
    RetainedInHistory(cat, desk.ledger);
  }

  lemma DeskStepKeeps(cat: Catalog, desk: Desk, op: DeskOp)
    requires DeskValid(cat, desk)
    ensures var (next, answers) := DeskStep(cat, desk, op);
      && DeskValid(cat, next) && desk.ledger.history <= next.ledger.history && AllBacked(next.ledger, answers)
  {
    hide DeskValid;
    match op {
      case Process(id, now, applyCancel) =>
        ProcessKeeps(cat, desk, id, now, applyCancel);
      case Sweep(now, limit) =>
        var (rows, ids) := ListPending(desk.sessions, now, limit, 0, []);
        ListKeeps(cat, desk, now, limit, 0, []);
        SweepKeeps(cat, desk.(sessions := rows), ids, now, []);
      case Check(sellerId, ref, sceneId, sessionId, now) =>
        CheckKeeps(cat, desk, sellerId, ref, sceneId, sessionId, now);
      case RejectOrder(req) =>
        RejectKeeps(cat, desk, req);
      case AcceptOrderOp(req) =>
        AcceptKeeps(cat, desk, req);
      case Open(s) =>
        if FreshSession(desk, s) {
          OpenKeeps(cat, desk, s);
        }
      case Decide(id, status) =>
        var found := Find(desk.sessions, id);
        if found.Some? {
          RestatusKeeps(cat, desk, found.value, desk.sessions[found.value].(status := status));
        }
    }
  }

  /** Over every interleaving: the desk stays valid and every cancel answer given on the way rests
      on a recorded timeout event of the seller it names. */
  lemma {:induction false} DeskRunKeeps(cat: Catalog, desk: Desk, ops: seq<DeskOp>)
    requires DeskValid(cat, desk)
    ensures var (last, answers) := DeskRun(cat, desk, ops);
      && DeskValid(cat, last) && desk.ledger.history <= last.ledger.history && AllBacked(last.ledger, answers)
    decreases ops
  {
    hide DeskValid, DeskStep;
    if ops != [] {
      DeskStepKeeps(cat, desk, ops[0]);
      var (next, answers) := DeskStep(cat, desk, ops[0]);
      DeskRunKeeps(cat, next, ops[1..]);
      BackedStays(next.ledger, DeskRun(cat, next, ops[1..]).0.ledger, answers);
    }
  }

  lemma RepeatsOf(cat: Catalog, l: Ledger, id: string, i: int, j: int)
    requires Consistent(cat, l) && id != ""
    ensures 0 <= i < j < |l.history| && SameNonConfirm(l.history[i], id, Timeout) ==>
              SameNonConfirm(l.history[j], id, Timeout) ==> j - i > LOG_KEEP
    ensures 0 <= i < j < |l.events| && SameNonConfirm(l.events[i], id, Timeout) ==>
              !SameNonConfirm(l.events[j], id, Timeout)
  {
    if 0 <= i < j < |l.history| && SameNonConfirm(l.history[i], id, Timeout)
       && SameNonConfirm(l.history[j], id, Timeout) {
      assert Repeats(l.history[i], l.history[j]);
    }
    if 0 <= i < j < |l.events| && SameNonConfirm(l.events[i], id, Timeout) {
      assert !Repeats(l.events[i], l.events[j]);
    }
  }

  /** Timeout exactly once: in the history of any interleaving, a session is charged a second
      timeout only after the first has left the retained log, more than `LOG_KEEP` events later;
      at every moment at most one timeout of a session is retained. */
  lemma TimeoutOnce(cat: Catalog, ops: seq<DeskOp>, id: string, i: int, j: int)
    requires id != ""
    ensures var l := DeskRun(cat, Desk(EMPTY_LEDGER, []), ops).0.ledger;
      && (0 <= i < j < |l.history| && SameNonConfirm(l.history[i], id, Timeout) ==>
            SameNonConfirm(l.history[j], id, Timeout) ==> j - i > LOG_KEEP)
      && (0 <= i < j < |l.events| && SameNonConfirm(l.events[i], id, Timeout) ==>
            !SameNonConfirm(l.events[j], id, Timeout))
  {
    hide DeskRun, Consistent, ChargedToOwner;
    EmptyDeskValid(cat);
    DeskRunKeeps(cat, Desk(EMPTY_LEDGER, []), ops);
    RepeatsOf(cat, DeskRun(cat, Desk(EMPTY_LEDGER, []), ops).0.ledger, id, i, j);
  }

  lemma EmptyDeskValid(cat: Catalog)
    ensures DeskValid(cat, Desk(EMPTY_LEDGER, []))
  {
    hide Consistent;
    EmptyLedgerConsistent(cat);
  }

  // ----- the mutable session table and the operations on both stores -----

  class ConfirmationSessions {
    var rows: seq<Session>

    ghost predicate Valid()
      reads this
    {
      DistinctSessions(rows)
    }

    constructor ()
      ensures Valid() && rows == []
    {
      rows := [];
    }

    /** Reading a session expires it if it is due; an unknown id raises (`None`). */
    method GetConfirmationSession(id: string, now: int) returns (s: Option<Session>)
      requires Valid()
      modifies this
      ensures Valid()
      ensures Find(old(rows), id).None? ==> s.None? && rows == old(rows)
      ensures Find(old(rows), id).Some? ==>
        && s == Some(Expire(old(rows)[Find(old(rows), id).value], now))
        && rows == old(rows)[Find(old(rows), id).value := s.value]
    {
      var found := Find(rows, id);
      if found.None? {
        return None;
      }
      var k := found.value;
      rows := rows[k := Expire(rows[k], now)];
      s := Some(rows[k]);
    }

    method ListPendingSellerAccepts(now: int, limit: int) returns (ids: seq<string>)
      requires Valid()
      modifies this
      ensures Valid()
      ensures (rows, ids) == ListPending(old(rows), now, limit, 0, [])
    {
      ids := [];
      var k := 0;
      while k < |rows|
        invariant k <= |rows| && Valid()
        invariant ListPending(old(rows), now, limit, 0, []) == ListPending(rows, now, limit, k, ids)
        decreases |rows| - k
      {
        if !Eligible(rows[k]) {
          k := k + 1;
          continue;
        }
        var listed := rows[k := Expire(rows[k], now)];
        ids := ids + [rows[k].id];
        rows := listed;
        if |ids| >= limit {
          return;
        }
        k := k + 1;
      }
    }

    /** Marks row of `id`, already expired, as cancelled for seller timeout. */
    method MarkExpiredCancelled(id: string)
      requires Valid() && Find(rows, id).Some? && rows[Find(rows, id).value].status.Expired?
      modifies this
      ensures Valid()
      ensures rows == old(rows)[Find(old(rows), id).value := CancelSession(old(rows)[Find(old(rows), id).value])]
    {
      var k := Find(rows, id).value;
      rows := rows[k := CancelSession(rows[k])];
    }
  }

  ghost function DeskOf(ledger: SellerAcceptLedger, table: ConfirmationSessions): Desk
    reads ledger, table
  {
    Desk(ledger.Model(), table.rows)
  }

  function AnswerTo(s: Session, res: NonConfirmResult): Answer
  {
    if res.Recorded? then CancelledTimeout(s.owner, Scene(s), res.event) else Raised
  }

  method ProcessExpiredSellerSession(cat: Catalog, ledger: SellerAcceptLedger, table: ConfirmationSessions,
                                     id: string, now: int, applyCancel: bool) returns (answer: Answer)
    requires ledger.Valid(cat) && table.Valid()
    modifies ledger, table
    ensures ledger.Valid(cat) && table.Valid()
    ensures DeskOf(ledger, table) == Processed(cat, old(DeskOf(ledger, table)), id, now, applyCancel)
    ensures answer == ProcessAnswer(cat, old(DeskOf(ledger, table)), id, now)
  {
    var pub := table.GetConfirmationSession(id, now);
    if pub.None? {
      return Nothing;
    }
    var s := pub.value;
    assert DeskOf(ledger, table) == Seen(old(DeskOf(ledger, table)), Find(old(table.rows), id).value, now);
    if !SellerAccept(s) {
      return Nothing;
    }
    if TimedOut(s) {
      var again := ledger.RecordSellerNonConfirm(cat, TimeoutRequest(s), Timeout);
      return AnswerTo(s, again);
    }
    if !s.status.Expired? {
      return Nothing;
    }
    var recorded := ledger.RecordSellerNonConfirm(cat, TimeoutRequest(s), Timeout);
    answer := AnswerTo(s, recorded);
    if answer.Raised? || !applyCancel {
      return;
    }
    assert Find(table.rows, id) == Find(old(table.rows), id) by {
      FindKept(old(table.rows), table.rows, id);
    }
    table.MarkExpiredCancelled(id);
  }

  lemma FindKept(rows: seq<Session>, next: seq<Session>, id: string)
    requires |rows| == |next| && forall i :: 0 <= i < |rows| ==> rows[i].id == next[i].id
    requires DistinctSessions(rows)
    ensures Find(next, id) == Find(rows, id)
  {}

  method ExpirePendingSellerAccepts(cat: Catalog, ledger: SellerAcceptLedger, table: ConfirmationSessions,
                                    now: int, limit: int) returns (answers: seq<Answer>)
    requires ledger.Valid(cat) && table.Valid()
    modifies ledger, table
    ensures ledger.Valid(cat) && table.Valid()
    ensures (DeskOf(ledger, table), answers) == Swept(cat, old(DeskOf(ledger, table)), now, limit)
  {
    var ids := table.ListPendingSellerAccepts(now, limit);
    ghost var listed := DeskOf(ledger, table);
    answers := [];
    for i := 0 to |ids|
      invariant ledger.Valid(cat) && table.Valid()
      invariant SweepAll(cat, listed, ids, now, []) == SweepAll(cat, DeskOf(ledger, table), ids[i..], now, answers)
    {
      ghost var before := DeskOf(ledger, table);
      var pub := table.GetConfirmationSession(ids[i], now);
      if pub.None? {
        continue;
      }
      ghost var k := Find(before.sessions, ids[i]).value;
      assert DeskOf(ledger, table) == Seen(before, k, now);
      if pub.value.status.Expired? {
        var out := ProcessExpiredSellerSession(cat, ledger, table, ids[i], now, true);
        assert (DeskOf(ledger, table), out) == SweepOne(cat, before, k, now);
        if out.Raised? {
          answers := answers + [Raised];
          return;
        }
        if !out.Nothing? {
          answers := answers + [out];
        }
      }
    }
  }

  /** Scans the retained log backwards for a timeout of this seller and interaction. */
  method FindLastTimeout(ledger: SellerAcceptLedger, sellerId: string, ref: string) returns (prior: Option<Event>)
    ensures prior == LastTimeout(ledger.events, sellerId, ref)
  {
    var n := |ledger.events|;
    assert ledger.events[..n] == ledger.events;
    while n > 0
      invariant n <= |ledger.events|
      invariant LastTimeout(ledger.events, sellerId, ref) == LastTimeout(ledger.events[..n], sellerId, ref)
    {
      if TimeoutFor(ledger.events[n - 1], sellerId, ref) {
        return Some(ledger.events[n - 1]);
      }
      assert ledger.events[..n][..n - 1] == ledger.events[..n - 1];
      n := n - 1;
    }
    prior := None;
  }

  method ExpireListed(cat: Catalog, ledger: SellerAcceptLedger, table: ConfirmationSessions, ids: seq<string>,
                      sellerId: string, ref: string, now: int) returns (answer: Answer)
    requires ledger.Valid(cat) && table.Valid()
    modifies ledger, table
    ensures ledger.Valid(cat) && table.Valid()
    ensures (DeskOf(ledger, table), answer) == CheckListed(cat, old(DeskOf(ledger, table)), ids, sellerId, ref, now)
  {
    for i := 0 to |ids|
      invariant ledger.Valid(cat) && table.Valid()
      invariant CheckListed(cat, old(DeskOf(ledger, table)), ids, sellerId, ref, now)
             == CheckListed(cat, DeskOf(ledger, table), ids[i..], sellerId, ref, now)
    {
      ghost var before := DeskOf(ledger, table);
      var found := Find(table.rows, ids[i]);
      if found.None? {
        continue;
      }
      var row := table.rows[found.value];
      if row.owner != sellerId || row.interactionRef != ref {
        continue;
      }
      var pub := table.GetConfirmationSession(ids[i], now);
      assert DeskOf(ledger, table) == Seen(before, found.value, now);
      if pub.value.status.Expired? {
        answer := ProcessExpiredSellerSession(cat, ledger, table, ids[i], now, true);
        return;
      }
    }
    answer := Nothing;
  }

  /** `check_interaction_seller_timeout`: the given session first, then the log, then any listed
      session of this seller and interaction. */
  method CheckInteractionSellerTimeout(cat: Catalog, ledger: SellerAcceptLedger, table: ConfirmationSessions,
                                       sellerId: string, ref: string, sceneId: string, sessionId: string, now: int)
    returns (answer: Answer)
    requires ledger.Valid(cat) && table.Valid()
    modifies ledger, table
    ensures ledger.Valid(cat) && table.Valid()
    ensures (DeskOf(ledger, table), answer)
         == Checked(cat, old(DeskOf(ledger, table)), sellerId, ref, sceneId, sessionId, now)
  {
    if sessionId != "" {
      answer := ProcessExpiredSellerSession(cat, ledger, table, sessionId, now, true);
      if !answer.Nothing? {
        return;
      }
    }
    if ref == "" {
      return Nothing;
    }
    var prior := FindLastTimeout(ledger, sellerId, ref);
    if prior.Some? {
      TouchKeeps(cat, ledger.Model(), sellerId);
      var profile := ledger.SellerRiskProfile(cat, sellerId, sceneId);
      return if profile.None? then Raised else CancelledTimeout(sellerId, sceneId, prior.value);
    }
    var ids := table.ListPendingSellerAccepts(now, CHECK_LIMIT);
    answer := ExpireListed(cat, ledger, table, ids, sellerId, ref, now);
  }
}
