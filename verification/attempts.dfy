/** The application with the missing attempt guard added: the world remembers
    which request it is waiting for, and a completion of any other request
    only retires that request, leaving the application state alone. */
module Attempts {
  import opened Options
  import opened Types
  import opened AppMachine
  import Provider

  /** A world plus the request the loading view waits for, if any. */
  datatype Guarded = Guarded(world: World, awaiting: Option<nat>)

  const GuardedStart := Guarded(Start, None)

  /** The source invariant, plus: the setup and loading views always have a
      topic; the loading view is due exactly while a request is awaited; every
      request in flight was issued before `nextId`; and the awaited request is
      the one issued last and is still in flight. */
  ghost predicate StrongInv(g: Guarded) {
    && SourceInv(g.world)
    && (g.world.app.status == Setup || g.world.app.status == Loading ==> g.world.app.selectedTopic.Some?)
    && (g.world.app.status == Loading <==> g.awaiting.Some?)
    && (forall r :: r in g.world.inFlight ==> r.id < g.world.nextId)
    && (g.awaiting.Some? ==>
          && g.awaiting.value + 1 == g.world.nextId
          && exists r :: r in g.world.inFlight && r.id == g.awaiting.value)
  }

  /** One event with the guard: starting a session records the request it
      issues, going home forgets it, and only its completion is applied. */
  function GuardedStep(g: Guarded, e: Event): (r: Guarded)
    requires Offered(g.world, e)
    ensures StrongInv(g) ==> StrongInv(r)
    ensures g.world.nextId <= r.world.nextId
    ensures r.awaiting == g.awaiting || r.awaiting == None || r.awaiting == Some(g.world.nextId)
    ensures e.Settle? && g.awaiting != Some(e.req.id) ==> r.world.app == g.world.app
    ensures e.Settle? && g.awaiting == Some(e.req.id) ==> r.world == Step(g.world, e)
    ensures !e.Settle? ==> r.world == Step(g.world, e)
  {
    match e
    case Settle(req, _) =>
      if g.awaiting == Some(req.id) then Guarded(Step(g.world, e), None)
      else Guarded(g.world.(inFlight := g.world.inFlight - {req}), g.awaiting)
    case Begin(_) =>
      assert Request(g.world.nextId, FetchCall(g.world.app.selectedTopic.value, e.count)) in Step(g.world, e).inFlight;
      Guarded(Step(g.world, e), Some(g.world.nextId))
    case GoHome => Guarded(Step(g.world, e), None)
    case _ => Guarded(Step(g.world, e), g.awaiting)
  }

  predicate GuardedAdmissible(g: Guarded, events: seq<Event>)
    decreases |events|
  {
    events == [] || (Offered(g.world, events[0]) && GuardedAdmissible(GuardedStep(g, events[0]), events[1..]))
  }

  function GuardedRun(g: Guarded, events: seq<Event>): Guarded
    requires GuardedAdmissible(g, events)
    decreases |events|
  {
    if events == [] then g else GuardedRun(GuardedStep(g, events[0]), events[1..])
  }

  /** With the guard, the strengthened invariant holds after any admissible trace. */
  lemma {:induction false} GuardedRunKeepsStrongInv(g: Guarded, events: seq<Event>)
    requires StrongInv(g) && GuardedAdmissible(g, events)
    ensures StrongInv(GuardedRun(g, events))
    decreases |events|
  {
    if events != [] {
      GuardedRunKeepsStrongInv(GuardedStep(g, events[0]), events[1..]);
    }
  }

  /** From start-up, the setup and loading views never lack a topic, and an
      active or results view never lacks a session. */
  lemma GuardedViewsAlwaysHaveTheirData(events: seq<Event>)
    requires GuardedAdmissible(GuardedStart, events)
    ensures var app := GuardedRun(GuardedStart, events).world.app;
            && (app.status == Setup || app.status == Loading ==> app.selectedTopic.Some?)
            && (app.status == Active || app.status == Finished ==> app.session.Some?)
  {
    GuardedRunKeepsStrongInv(GuardedStart, events);
  }

  /** A request that was issued but is not awaited is never awaited again:
      every later Begin awaits a newer id. So from then on its completion
      leaves the application state as it is. */
  lemma {:induction false} UnawaitedStaysIgnored(g: Guarded, id: nat, events: seq<Event>)
    requires id < g.world.nextId && g.awaiting != Some(id)
    requires GuardedAdmissible(g, events)
    ensures var h := GuardedRun(g, events);
            && id < h.world.nextId
            && h.awaiting != Some(id)
            && forall req: Request, result: Provider.FetchResult :: req.id == id && Offered(h.world, Settle(req, result)) ==>
                 GuardedStep(h, Settle(req, result)).world.app == h.world.app
    decreases |events|
  {
    if events != [] {
      UnawaitedStaysIgnored(GuardedStep(g, events[0]), id, events[1..]);
    }
  }

  /** Every fetch in flight when the user goes home is abandoned for good:
      whatever happens afterwards, new sessions started included, its
      completion leaves the application state as it is. */
  lemma AbandonedFetchIsIgnored(g: Guarded, req: Request, events: seq<Event>, result: Provider.FetchResult)
    requires StrongInv(g) && Offered(g.world, GoHome) && req in g.world.inFlight
    requires GuardedAdmissible(GuardedStep(g, GoHome), events)
    ensures var h := GuardedRun(GuardedStep(g, GoHome), events);
            Offered(h.world, Settle(req, result)) ==>
              GuardedStep(h, Settle(req, result)).world.app == h.world.app
  {
    UnawaitedStaysIgnored(GuardedStep(g, GoHome), req.id, events);
  }
}
