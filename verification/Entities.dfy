/** The records the store caches (store/useStore.ts, lines 3-64) and the
    partial records that `update` actions merge into them.

    Every record is keyed by a server-issued `id: string`. Numbers (prices,
    durations, limits) are only stored, never computed with, so `real`
    stands for them. Elements of the untyped `any[]` lists (`fields`,
    `pillar_reviews`) are never inspected and are left uninterpreted. */
module Entities {
  import opened Options

  /** An element of an untyped `any[]` list: carried, never looked into. */
  type Any(==)

  datatype Pillar = Pillar(
    id: string,
    name: string,
    color: string,
    icon: string,
    fields: seq<Any>,
    created_at: string,
    updated_at: string)

  datatype Weekly = Weekly(
    id: string,
    week_start: string,
    week_end: string,
    pillar_reviews: seq<Any>,
    completed: bool,
    created_at: string,
    updated_at: string)

  datatype CalendarEvent = CalendarEvent(
    id: string,
    task_id: Option<string>,
    title: string,
    start: string,
    end: string,
    pillar_id: Option<string>,
    completed: bool,
    created_at: string)

  datatype Proposal = Proposal(
    id: string,
    text: string,
    pillar_id: Option<string>,
    archived: bool,
    created_at: string)

  datatype RestrictedApp = RestrictedApp(
    id: string,
    name: string,
    icon: string,
    price: real,
    duration: real,
    daily_limit: Option<real>,
    cooldown: Option<real>)

  datatype AppSession = AppSession(
    id: string,
    app_id: string,
    start_time: string,
    end_time: string,
    active: bool)

  datatype MotivationalPhrase = MotivationalPhrase(
    id: string,
    text: string,
    created_at: string)

  // The `id` of each record kind, as a function value for the generic
  // collection operations.
  function PillarId(p: Pillar): string { p.id }
  function WeeklyId(w: Weekly): string { w.id }
  function EventId(e: CalendarEvent): string { e.id }
  function ProposalId(p: Proposal): string { p.id }
  function AppId(a: RestrictedApp): string { a.id }
  function SessionId(s: AppSession): string { s.id }
  function PhraseId(m: MotivationalPhrase): string { m.id }

  /* ---------------- Partial<Pillar> ---------------- */

  /** `Partial<Pillar>` without its `id`: `Some` overwrites that field. */
  datatype PillarPatch = PillarPatch(
    name: Option<string>,
    color: Option<string>,
    icon: Option<string>,
    fields: Option<seq<Any>>,
    created_at: Option<string>,
    updated_at: Option<string>)

  const NoPillarChange := PillarPatch(None, None, None, None, None, None)

  /** `{ ...p, ...patch }`: every field the patch carries replaces the
      record's, every other field (and the id) is kept. */
  function MergePillar(p: Pillar, q: PillarPatch): (r: Pillar)
    ensures r.id == p.id
    ensures r.name == (if q.name.Some? then q.name.value else p.name)
    ensures r.color == (if q.color.Some? then q.color.value else p.color)
    ensures r.icon == (if q.icon.Some? then q.icon.value else p.icon)
    ensures r.fields == (if q.fields.Some? then q.fields.value else p.fields)
    ensures r.created_at == (if q.created_at.Some? then q.created_at.value else p.created_at)
    ensures r.updated_at == (if q.updated_at.Some? then q.updated_at.value else p.updated_at)
  {
    p.(name := q.name.GetOr(p.name),
       color := q.color.GetOr(p.color),
       icon := q.icon.GetOr(p.icon),
       fields := q.fields.GetOr(p.fields),
       created_at := q.created_at.GetOr(p.created_at),
       updated_at := q.updated_at.GetOr(p.updated_at))
  }

  /** `{ ...a, ...b }`: the patch that has the effect of `a` followed by `b`. */
  function ThenPillar(a: PillarPatch, b: PillarPatch): PillarPatch
  {
    PillarPatch(a.name.Or(b.name), a.color.Or(b.color), a.icon.Or(b.icon),
                a.fields.Or(b.fields), a.created_at.Or(b.created_at),
                a.updated_at.Or(b.updated_at))
  }

  /** The empty patch changes nothing, a patch applied twice acts once,
      two patches in a row act as their union, and that union is
      associative with the empty patch as its identity, so any run of
      updates to one record acts as one combined patch. */
  lemma MergePillarLaws(p: Pillar, a: PillarPatch, b: PillarPatch, c: PillarPatch)
    ensures ThenPillar(NoPillarChange, a) == a && ThenPillar(a, NoPillarChange) == a
    ensures ThenPillar(ThenPillar(a, b), c) == ThenPillar(a, ThenPillar(b, c))
    ensures MergePillar(p, NoPillarChange) == p
    ensures MergePillar(MergePillar(p, a), a) == MergePillar(p, a)
    ensures MergePillar(MergePillar(p, a), b) == MergePillar(p, ThenPillar(a, b))
  {
  }

  /* ---------------- Partial<CalendarEvent> ---------------- */

  /** `Partial<CalendarEvent>` without its `id`. A `Some` for an optional
      property sets it to the given string. */
  datatype EventPatch = EventPatch(
    task_id: Option<string>,
    title: Option<string>,
    start: Option<string>,
    end: Option<string>,
    pillar_id: Option<string>,
    completed: Option<bool>,
    created_at: Option<string>)

  const NoEventChange := EventPatch(None, None, None, None, None, None, None)

  /** `{ ...e, ...patch }` for a calendar event. */
  function MergeEvent(e: CalendarEvent, q: EventPatch): (r: CalendarEvent)
    ensures r.id == e.id
    ensures r.task_id == (if q.task_id.Some? then q.task_id else e.task_id)
    ensures r.title == (if q.title.Some? then q.title.value else e.title)
    ensures r.start == (if q.start.Some? then q.start.value else e.start)
    ensures r.end == (if q.end.Some? then q.end.value else e.end)
    ensures r.pillar_id == (if q.pillar_id.Some? then q.pillar_id else e.pillar_id)
    ensures r.completed == (if q.completed.Some? then q.completed.value else e.completed)
    ensures r.created_at == (if q.created_at.Some? then q.created_at.value else e.created_at)
  {
    e.(task_id := e.task_id.Or(q.task_id),
       title := q.title.GetOr(e.title),
       start := q.start.GetOr(e.start),
       end := q.end.GetOr(e.end),
       pillar_id := e.pillar_id.Or(q.pillar_id),
       completed := q.completed.GetOr(e.completed),
       created_at := q.created_at.GetOr(e.created_at))
  }

  /** `{ ...a, ...b }` for event patches. */
  function ThenEvent(a: EventPatch, b: EventPatch): EventPatch
  {
    EventPatch(a.task_id.Or(b.task_id), a.title.Or(b.title), a.start.Or(b.start),
               a.end.Or(b.end), a.pillar_id.Or(b.pillar_id),
               a.completed.Or(b.completed), a.created_at.Or(b.created_at))
  }

  /** The empty patch changes nothing, a patch applied twice acts once,
      two patches in a row act as their union, and that union is
      associative with the empty patch as its identity, so any run of
      updates to one record acts as one combined patch. */
  lemma MergeEventLaws(e: CalendarEvent, a: EventPatch, b: EventPatch, c: EventPatch)
    ensures ThenEvent(NoEventChange, a) == a && ThenEvent(a, NoEventChange) == a
    ensures ThenEvent(ThenEvent(a, b), c) == ThenEvent(a, ThenEvent(b, c))
    ensures MergeEvent(e, NoEventChange) == e
    ensures MergeEvent(MergeEvent(e, a), a) == MergeEvent(e, a)
    ensures MergeEvent(MergeEvent(e, a), b) == MergeEvent(e, ThenEvent(a, b))
  {
  }

  /* ---------------- Partial<Proposal> ---------------- */

  /** `Partial<Proposal>` without its `id`. */
  datatype ProposalPatch = ProposalPatch(
    text: Option<string>,
    pillar_id: Option<string>,
    archived: Option<bool>,
    created_at: Option<string>)

  const NoProposalChange := ProposalPatch(None, None, None, None)

  /** `{ ...p, ...patch }` for a proposal. */
  function MergeProposal(p: Proposal, q: ProposalPatch): (r: Proposal)
    ensures r.id == p.id
    ensures r.text == (if q.text.Some? then q.text.value else p.text)
    ensures r.pillar_id == (if q.pillar_id.Some? then q.pillar_id else p.pillar_id)
    ensures r.archived == (if q.archived.Some? then q.archived.value else p.archived)
    ensures r.created_at == (if q.created_at.Some? then q.created_at.value else p.created_at)
  {
    p.(text := q.text.GetOr(p.text),
       pillar_id := p.pillar_id.Or(q.pillar_id),
       archived := q.archived.GetOr(p.archived),
       created_at := q.created_at.GetOr(p.created_at))
  }

  /** `{ ...a, ...b }` for proposal patches. */
  function ThenProposal(a: ProposalPatch, b: ProposalPatch): ProposalPatch
  {
    ProposalPatch(a.text.Or(b.text), a.pillar_id.Or(b.pillar_id),
                  a.archived.Or(b.archived), a.created_at.Or(b.created_at))
  }

  /** The empty patch changes nothing, a patch applied twice acts once,
      two patches in a row act as their union, and that union is
      associative with the empty patch as its identity, so any run of
      updates to one record acts as one combined patch. */
  lemma MergeProposalLaws(p: Proposal, a: ProposalPatch, b: ProposalPatch, c: ProposalPatch)
    ensures ThenProposal(NoProposalChange, a) == a && ThenProposal(a, NoProposalChange) == a
    ensures ThenProposal(ThenProposal(a, b), c) == ThenProposal(a, ThenProposal(b, c))
    ensures MergeProposal(p, NoProposalChange) == p
    ensures MergeProposal(MergeProposal(p, a), a) == MergeProposal(p, a)
    ensures MergeProposal(MergeProposal(p, a), b) == MergeProposal(p, ThenProposal(a, b))
  {
  }
}
