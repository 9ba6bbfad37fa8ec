/** The client-side state cache (store/useStore.ts, lines 66-147): nine
    slots and eighteen synchronous actions, each of which replaces exactly
    one slot with a value computed from the old one.

    `State` is the store's content as a value and `Step` the effect of one
    action on it; the class `Store` holds the slots as fields and its
    methods are the actions, each proved to have exactly the effect `Step`
    gives. */
module UseStore {
  import opened Options
  import opened Entities
  import opened Collection

  /** A snapshot of the nine slots. */
  datatype State = State(
    pillars: seq<Pillar>,
    weeklies: seq<Weekly>,
    currentWeekly: Option<Weekly>,
    events: seq<CalendarEvent>,
    proposals: seq<Proposal>,
    creditBalance: real,
    restrictedApps: seq<RestrictedApp>,
    activeSessions: seq<AppSession>,
    phrases: seq<MotivationalPhrase>)

  /** The state the store starts in. */
  const Initial := State([], [], None, [], [], 0.0, [], [], [])

  /** The store's actions with their arguments. */
  datatype Action =
    | SetPillars(pillars: seq<Pillar>)
    | AddPillar(pillar: Pillar)
    | UpdatePillar(id: string, pillarPatch: PillarPatch)
    | DeletePillar(id: string)
    | SetWeeklies(weeklies: seq<Weekly>)
    | SetCurrentWeekly(weekly: Option<Weekly>)
    | SetEvents(events: seq<CalendarEvent>)
    | AddEvent(event: CalendarEvent)
    | UpdateEvent(id: string, eventPatch: EventPatch)
    | DeleteEvent(id: string)
    | SetProposals(proposals: seq<Proposal>)
    | AddProposal(proposal: Proposal)
    | UpdateProposal(id: string, proposalPatch: ProposalPatch)
    | DeleteProposal(id: string)
    | SetCreditBalance(balance: real)
    | SetRestrictedApps(apps: seq<RestrictedApp>)
    | SetActiveSessions(sessions: seq<AppSession>)
    | SetPhrases(phrases: seq<MotivationalPhrase>)
  {
    // Which collection slot the action writes: at most one of these holds;
    // the other slots are written only by their own setter.
    predicate WritesPillars() { SetPillars? || AddPillar? || UpdatePillar? || DeletePillar? }
    predicate WritesEvents() { SetEvents? || AddEvent? || UpdateEvent? || DeleteEvent? }
    predicate WritesProposals() { SetProposals? || AddProposal? || UpdateProposal? || DeleteProposal? }

    predicate IsAdd()
    {
      AddPillar? || AddEvent? || AddProposal?
    }
  }

  /** The effect of one action: its slot gets a new value, built from the
      old one by `Append`, `UpdateById` or `RemoveById` or given outright,
      and every other slot keeps its value. */
  function Step(s: State, a: Action): (t: State)
    ensures !a.WritesPillars() ==> t.pillars == s.pillars
    ensures !a.SetWeeklies? ==> t.weeklies == s.weeklies
    ensures !a.SetCurrentWeekly? ==> t.currentWeekly == s.currentWeekly
    ensures !a.WritesEvents() ==> t.events == s.events
    ensures !a.WritesProposals() ==> t.proposals == s.proposals
    ensures !a.SetCreditBalance? ==> t.creditBalance == s.creditBalance
    ensures !a.SetRestrictedApps? ==> t.restrictedApps == s.restrictedApps
    ensures !a.SetActiveSessions? ==> t.activeSessions == s.activeSessions
    ensures !a.SetPhrases? ==> t.phrases == s.phrases
  {
    match a
    case SetPillars(ps) => s.(pillars := ps)
    case AddPillar(p) => s.(pillars := Append(s.pillars, p))
    case UpdatePillar(id, q) => s.(pillars := UpdateById(s.pillars, id, q, PillarId, MergePillar))
    case DeletePillar(id) => s.(pillars := RemoveById(s.pillars, id, PillarId))
    case SetWeeklies(ws) => s.(weeklies := ws)
    case SetCurrentWeekly(w) => s.(currentWeekly := w)
    case SetEvents(es) => s.(events := es)
    case AddEvent(e) => s.(events := Append(s.events, e))
    case UpdateEvent(id, q) => s.(events := UpdateById(s.events, id, q, EventId, MergeEvent))
    case DeleteEvent(id) => s.(events := RemoveById(s.events, id, EventId))
    case SetProposals(ps) => s.(proposals := ps)
    case AddProposal(p) => s.(proposals := Append(s.proposals, p))
    case UpdateProposal(id, q) => s.(proposals := UpdateById(s.proposals, id, q, ProposalId, MergeProposal))
    case DeleteProposal(id) => s.(proposals := RemoveById(s.proposals, id, ProposalId))
    case SetCreditBalance(b) => s.(creditBalance := b)
    case SetRestrictedApps(apps) => s.(restrictedApps := apps)
    case SetActiveSessions(ss) => s.(activeSessions := ss)
    case SetPhrases(ms) => s.(phrases := ms)
  }

  /** The backend's invariant: no two records of one collection share an id. */
  predicate UniqueKeys(s: State)
  {
    && UniqueIds(s.pillars, PillarId)
    && UniqueIds(s.weeklies, WeeklyId)
    && UniqueIds(s.events, EventId)
    && UniqueIds(s.proposals, ProposalId)
    && UniqueIds(s.restrictedApps, AppId)
    && UniqueIds(s.activeSessions, SessionId)
    && UniqueIds(s.phrases, PhraseId)
  }

  /** What a caller must see to for `a` to keep ids unique: a replacing list
      without duplicates, an added record with a fresh id. */
  predicate KeepsKeysUnique(s: State, a: Action)
  {
    match a
    case SetPillars(ps) => UniqueIds(ps, PillarId)
    case AddPillar(p) => !HasId(s.pillars, p.id, PillarId)
    case SetWeeklies(ws) => UniqueIds(ws, WeeklyId)
    case SetEvents(es) => UniqueIds(es, EventId)
    case AddEvent(e) => !HasId(s.events, e.id, EventId)
    case SetProposals(ps) => UniqueIds(ps, ProposalId)
    case AddProposal(p) => !HasId(s.proposals, p.id, ProposalId)
    case SetRestrictedApps(apps) => UniqueIds(apps, AppId)
    case SetActiveSessions(ss) => UniqueIds(ss, SessionId)
    case SetPhrases(ms) => UniqueIds(ms, PhraseId)
    case _ => true
  }

  /** From a state with unique ids, an action leads to a state with unique
      ids exactly when it is one the caller has checked as above; updates,
      deletes and the scalar setters always do. */
  lemma StepUniqueKeys(s: State, a: Action)
    requires UniqueKeys(s)
    ensures UniqueKeys(Step(s, a)) <==> KeepsKeysUnique(s, a)
  {
    if a.WritesPillars() {
      PillarsStayUnique(s, a);
    } else if a.WritesEvents() {
      EventsStayUnique(s, a);
    } else if a.WritesProposals() {
      ProposalsStayUnique(s, a);
    }
  }

  /** The pillar-writing case of StepUniqueKeys. */
  lemma PillarsStayUnique(s: State, a: Action)
    requires a.WritesPillars() && UniqueIds(s.pillars, PillarId)
    ensures UniqueIds(Step(s, a).pillars, PillarId) <==> KeepsKeysUnique(s, a)
  {
    match a
    case AddPillar(p) => AppendUnique(s.pillars, p, PillarId);
    case UpdatePillar(id, q) => UpdateKeepsIds(s.pillars, id, q, PillarId, MergePillar);
    case DeletePillar(id) => RemoveKeepsUnique(s.pillars, id, PillarId);
    case SetPillars(_) =>
  }

  /** The event-writing case of StepUniqueKeys. */
  lemma EventsStayUnique(s: State, a: Action)
    requires a.WritesEvents() && UniqueIds(s.events, EventId)
    ensures UniqueIds(Step(s, a).events, EventId) <==> KeepsKeysUnique(s, a)
  {
    match a
    case AddEvent(e) => AppendUnique(s.events, e, EventId);
    case UpdateEvent(id, q) => UpdateKeepsIds(s.events, id, q, EventId, MergeEvent);
    case DeleteEvent(id) => RemoveKeepsUnique(s.events, id, EventId);
    case SetEvents(_) =>
  }

  /** The proposal-writing case of StepUniqueKeys. */
  lemma ProposalsStayUnique(s: State, a: Action)
    requires a.WritesProposals() && UniqueIds(s.proposals, ProposalId)
    ensures UniqueIds(Step(s, a).proposals, ProposalId) <==> KeepsKeysUnique(s, a)
  {
    match a
    case AddProposal(p) => AppendUnique(s.proposals, p, ProposalId);
    case UpdateProposal(id, q) => UpdateKeepsIds(s.proposals, id, q, ProposalId, MergeProposal);
    case DeleteProposal(id) => RemoveKeepsUnique(s.proposals, id, ProposalId);
    case SetProposals(_) =>
  }

  /** Every action except an add is idempotent: doing it twice in a row is
      doing it once. In particular deleting an id twice is deleting it once. */
  lemma StepIdempotent(s: State, a: Action)
    requires !a.IsAdd()
    ensures Step(Step(s, a), a) == Step(s, a)
  {
    match a
    case UpdatePillar(id, q) =>
      forall p | true ensures MergePillar(MergePillar(p, q), q) == MergePillar(p, q) {
        MergePillarLaws(p, q, q, q);
      }
      UpdateTwice(s.pillars, id, q, q, q, PillarId, MergePillar);
    case DeletePillar(id) => RemoveIdempotent(s.pillars, id, PillarId);
    case UpdateEvent(id, q) =>
      forall e | true ensures MergeEvent(MergeEvent(e, q), q) == MergeEvent(e, q) {
        MergeEventLaws(e, q, q, q);
      }
      UpdateTwice(s.events, id, q, q, q, EventId, MergeEvent);
    case DeleteEvent(id) => RemoveIdempotent(s.events, id, EventId);
    case UpdateProposal(id, q) =>
      forall p | true ensures MergeProposal(MergeProposal(p, q), q) == MergeProposal(p, q) {
        MergeProposalLaws(p, q, q, q);
      }
      UpdateTwice(s.proposals, id, q, q, q, ProposalId, MergeProposal);
    case DeleteProposal(id) => RemoveIdempotent(s.proposals, id, ProposalId);
    case _ =>
  }

  /** `a` updates or deletes an id that no record of its collection has. */
  predicate MissesId(s: State, a: Action)
  {
    match a
    case UpdatePillar(id, _) => !HasId(s.pillars, id, PillarId)
    case DeletePillar(id) => !HasId(s.pillars, id, PillarId)
    case UpdateEvent(id, _) => !HasId(s.events, id, EventId)
    case DeleteEvent(id) => !HasId(s.events, id, EventId)
    case UpdateProposal(id, _) => !HasId(s.proposals, id, ProposalId)
    case DeleteProposal(id) => !HasId(s.proposals, id, ProposalId)
    case _ => false
  }

  /** Updating or deleting a missing id is a silent no-op on the whole store. */
  lemma StepMissingId(s: State, a: Action)
    requires MissesId(s, a)
    ensures Step(s, a) == s
  {
    match a
    case UpdatePillar(id, q) => UpdateAbsent(s.pillars, id, q, PillarId, MergePillar);
    case DeletePillar(id) => RemoveAbsent(s.pillars, id, PillarId);
    case UpdateEvent(id, q) => UpdateAbsent(s.events, id, q, EventId, MergeEvent);
    case DeleteEvent(id) => RemoveAbsent(s.events, id, EventId);
    case UpdateProposal(id, q) => UpdateAbsent(s.proposals, id, q, ProposalId, MergeProposal);
    case DeleteProposal(id) => RemoveAbsent(s.proposals, id, ProposalId);
  }

  /** Adding a pillar whose id is new and then deleting that id gives back
      the store as it was. */
  lemma PillarAddThenDelete(s: State, p: Pillar)
    requires !HasId(s.pillars, p.id, PillarId)
    ensures Step(Step(s, AddPillar(p)), DeletePillar(p.id)) == s
  {
    RemoveAfterAppend(s.pillars, p, PillarId);
  }

  /** Adding an event whose id is new and then deleting that id gives back
      the store as it was. */
  lemma EventAddThenDelete(s: State, e: CalendarEvent)
    requires !HasId(s.events, e.id, EventId)
    ensures Step(Step(s, AddEvent(e)), DeleteEvent(e.id)) == s
  {
    RemoveAfterAppend(s.events, e, EventId);
  }

  /** Adding a proposal whose id is new and then deleting that id gives
      back the store as it was. */
  lemma ProposalAddThenDelete(s: State, p: Proposal)
    requires !HasId(s.proposals, p.id, ProposalId)
    ensures Step(Step(s, AddProposal(p)), DeleteProposal(p.id)) == s
  {
    RemoveAfterAppend(s.proposals, p, ProposalId);
  }

  /** Two pillar updates of one id are one update with the combined patch. */
  lemma PillarUpdatesCompose(s: State, id: string, a: PillarPatch, b: PillarPatch)
    ensures Step(Step(s, UpdatePillar(id, a)), UpdatePillar(id, b))
            == Step(s, UpdatePillar(id, ThenPillar(a, b)))
  {
    forall p | true ensures MergePillar(MergePillar(p, a), b) == MergePillar(p, ThenPillar(a, b)) {
      MergePillarLaws(p, a, b, b);
    }
    UpdateTwice(s.pillars, id, a, b, ThenPillar(a, b), PillarId, MergePillar);
  }

  /** Two event updates of one id are one update with the combined patch. */
  lemma EventUpdatesCompose(s: State, id: string, a: EventPatch, b: EventPatch)
    ensures Step(Step(s, UpdateEvent(id, a)), UpdateEvent(id, b))
            == Step(s, UpdateEvent(id, ThenEvent(a, b)))
  {
    forall e | true ensures MergeEvent(MergeEvent(e, a), b) == MergeEvent(e, ThenEvent(a, b)) {
      MergeEventLaws(e, a, b, b);
    }
    UpdateTwice(s.events, id, a, b, ThenEvent(a, b), EventId, MergeEvent);
  }

  /** Two proposal updates of one id are one update with the combined patch. */
  lemma ProposalUpdatesCompose(s: State, id: string, a: ProposalPatch, b: ProposalPatch)
    ensures Step(Step(s, UpdateProposal(id, a)), UpdateProposal(id, b))
            == Step(s, UpdateProposal(id, ThenProposal(a, b)))
  {
    forall p | true ensures MergeProposal(MergeProposal(p, a), b) == MergeProposal(p, ThenProposal(a, b)) {
      MergeProposalLaws(p, a, b, b);
    }
    UpdateTwice(s.proposals, id, a, b, ThenProposal(a, b), ProposalId, MergeProposal);
  }

  /** The store itself: nine fields that the actions overwrite one at a time. */
  class Store {
    var pillars: seq<Pillar>
    var weeklies: seq<Weekly>
    var currentWeekly: Option<Weekly>
    var events: seq<CalendarEvent>
    var proposals: seq<Proposal>
    var creditBalance: real
    var restrictedApps: seq<RestrictedApp>
    var activeSessions: seq<AppSession>
    var phrases: seq<MotivationalPhrase>

    /** The fields as one value. */
    function Snapshot(): State
      reads this
    {
      State(pillars, weeklies, currentWeekly, events, proposals, creditBalance,
            restrictedApps, activeSessions, phrases)
    }

    /** Every collection empty, no current weekly, a balance of 0. */
    constructor ()
      ensures pillars == [] && weeklies == [] && events == [] && proposals == []
      ensures restrictedApps == [] && activeSessions == [] && phrases == []
      ensures currentWeekly == None && creditBalance == 0.0
      ensures Snapshot() == Initial
    {
      pillars, weeklies, currentWeekly := [], [], None;
      events, proposals, creditBalance := [], [], 0.0;
      restrictedApps, activeSessions, phrases := [], [], [];
    }

    method SetPillars(list: seq<Pillar>)
      modifies this
      ensures pillars == list
      ensures Snapshot() == Step(old(Snapshot()), Action.SetPillars(list))
    {
      pillars := list;
    }

    method AddPillar(pillar: Pillar)
      modifies this
      ensures pillars == Append(old(pillars), pillar)
      ensures Snapshot() == Step(old(Snapshot()), Action.AddPillar(pillar))
    {
      pillars := Append(pillars, pillar);
    }

    method UpdatePillar(id: string, patch: PillarPatch)
      modifies this
      ensures pillars == UpdateById(old(pillars), id, patch, PillarId, MergePillar)
      ensures Snapshot() == Step(old(Snapshot()), Action.UpdatePillar(id, patch))
    {
      pillars := UpdateById(pillars, id, patch, PillarId, MergePillar);
    }

    method DeletePillar(id: string)
      modifies this
      ensures pillars == RemoveById(old(pillars), id, PillarId)
      ensures Snapshot() == Step(old(Snapshot()), Action.DeletePillar(id))
    {
      pillars := RemoveById(pillars, id, PillarId);
    }

    method SetWeeklies(list: seq<Weekly>)
      modifies this
      ensures weeklies == list
      ensures Snapshot() == Step(old(Snapshot()), Action.SetWeeklies(list))
    {
      weeklies := list;
    }

    method SetCurrentWeekly(weekly: Option<Weekly>)
      modifies this
      ensures currentWeekly == weekly
      ensures Snapshot() == Step(old(Snapshot()), Action.SetCurrentWeekly(weekly))
    {
      currentWeekly := weekly;
    }

    method SetEvents(list: seq<CalendarEvent>)
      modifies this
      ensures events == list
      ensures Snapshot() == Step(old(Snapshot()), Action.SetEvents(list))
    {
      events := list;
    }

    method AddEvent(event: CalendarEvent)
      modifies this
      ensures events == Append(old(events), event)
      ensures Snapshot() == Step(old(Snapshot()), Action.AddEvent(event))
    {
      events := Append(events, event);
    }

    method UpdateEvent(id: string, patch: EventPatch)
      modifies this
      ensures events == UpdateById(old(events), id, patch, EventId, MergeEvent)
      ensures Snapshot() == Step(old(Snapshot()), Action.UpdateEvent(id, patch))
    {
      events := UpdateById(events, id, patch, EventId, MergeEvent);
    }

    method DeleteEvent(id: string)
      modifies this
      ensures events == RemoveById(old(events), id, EventId)
      ensures Snapshot() == Step(old(Snapshot()), Action.DeleteEvent(id))
    {
      events := RemoveById(events, id, EventId);
    }

    method SetProposals(list: seq<Proposal>)
      modifies this
      ensures proposals == list
      ensures Snapshot() == Step(old(Snapshot()), Action.SetProposals(list))
    {
      proposals := list;
    }

    method AddProposal(proposal: Proposal)
      modifies this
      ensures proposals == Append(old(proposals), proposal)
      ensures Snapshot() == Step(old(Snapshot()), Action.AddProposal(proposal))
    {
      proposals := Append(proposals, proposal);
    }

    method UpdateProposal(id: string, patch: ProposalPatch)
      modifies this
      ensures proposals == UpdateById(old(proposals), id, patch, ProposalId, MergeProposal)
      ensures Snapshot() == Step(old(Snapshot()), Action.UpdateProposal(id, patch))
    {
      proposals := UpdateById(proposals, id, patch, ProposalId, MergeProposal);
    }

    method DeleteProposal(id: string)
      modifies this
      ensures proposals == RemoveById(old(proposals), id, ProposalId)
      ensures Snapshot() == Step(old(Snapshot()), Action.DeleteProposal(id))
    {
      proposals := RemoveById(proposals, id, ProposalId);
    }

    method SetCreditBalance(balance: real)
      modifies this
      ensures creditBalance == balance
      ensures Snapshot() == Step(old(Snapshot()), Action.SetCreditBalance(balance))
    {
      creditBalance := balance;
    }

    method SetRestrictedApps(apps: seq<RestrictedApp>)
      modifies this
      ensures restrictedApps == apps
      ensures Snapshot() == Step(old(Snapshot()), Action.SetRestrictedApps(apps))
    {
      restrictedApps := apps;
    }

    method SetActiveSessions(sessions: seq<AppSession>)
      modifies this
      ensures activeSessions == sessions
      ensures Snapshot() == Step(old(Snapshot()), Action.SetActiveSessions(sessions))
    {
      activeSessions := sessions;
    }

    method SetPhrases(list: seq<MotivationalPhrase>)
      modifies this
      ensures phrases == list
      ensures Snapshot() == Step(old(Snapshot()), Action.SetPhrases(list))
    {
      phrases := list;
    }
  }

  /** A screen loads one pillar into a fresh store and then deletes it: the
      pillar list is one long with that id, then empty, and no other slot
      ever leaves its initial value. */
  method LoadThenDeletePillar(p: Pillar) returns (store: Store)
    requires p.id == "p1"
    ensures fresh(store)
    ensures store.Snapshot() == Initial
  {
    store := new Store();
    store.SetPillars([p]);
    assert |store.pillars| == 1 && store.pillars[0].id == "p1";
    store.DeletePillar("p1");
    assert CountId([p], "p1", PillarId) == 1;
  }
}
