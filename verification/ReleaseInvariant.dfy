/**
 The invariant of the release tables, one predicate per table, and how each kind of change to
 one table (a vault moves, an event closes, an event is appended, work comes or goes) keeps
 the predicates that mention it.
 */
module ReleaseInvariant {
  import opened Domain
  import opened ReleaseModel
  import opened Deliveries

  /** Where a vault may be while it has this event. */
  ghost predicate Placed(s: VaultState, row: EventRow) {
    && (row.OpenTimed() ==> s == CoolingOff || s == Releasing || s == Released || s == Archived)
    && (row.Open() && row.deadline.None? ==> s == Released || s == Archived)
  }

  ghost predicate EventsInv(vs: seq<VaultRow>, es: seq<EventRow>) {
    && (forall e :: 0 <= e < |es| ==> es[e].vault < |vs| && Placed(vs[es[e].vault].state, es[e]))
    && OneOpen(es)
  }

  /** At most one open event with a deadline per vault. */
  ghost predicate OneOpen(es: seq<EventRow>) {
    forall e, f :: 0 <= e < f < |es| && es[e].OpenTimed() && es[f].OpenTimed() ==> es[e].vault != es[f].vault
  }

  /** The ticket carries a copy of its event, and never wakes before the event's deadline. */
  ghost predicate Fits(es: seq<EventRow>, t: Ticket) {
    t.event < |es| && es[t.event].vault == t.vault && es[t.event].drill == t.drill
    && es[t.event].deadline.Some? && es[t.event].deadline.value <= t.wakeAt
  }

  /** Tickets of a cooling vault all belong to its open event. */
  ghost predicate TicketsInv(vs: seq<VaultRow>, es: seq<EventRow>, ts: multiset<Ticket>) {
    forall t :: t in ts ==> Fits(es, t) && (StateIs(vs, t.vault, CoolingOff) ==> es[t.event].Open())
  }

  ghost predicate PerformingInv(clock: int, vs: seq<VaultRow>, es: seq<EventRow>, ps: multiset<Ticket>) {
    && (forall t :: t in ps ==>
          Fits(es, t) && t.wakeAt <= clock && StateIs(vs, t.vault, Releasing)
          && es[t.event].Open() && ps[t] == 1)
    && (forall t, u :: t in ps && u in ps && t.vault == u.vault ==> t == u)
  }

  /** Someone may still deliver for this event. */
  ghost predicate Live(vs: seq<VaultRow>, es: seq<EventRow>, ps: multiset<Ticket>, e: nat) {
    || (e < |es| && es[e].OpenTimed() && StateIs(vs, es[e].vault, CoolingOff))
    || (exists t :: t in ps && t.event == e)
  }

  /** The claim was issued at or after its event's deadline. */
  ghost predicate Timely(clock: int, es: seq<EventRow>, c: ClaimRow) {
    c.event < |es| && c.issuedAt <= clock
    && (es[c.event].deadline.Some? ==> es[c.event].deadline.value <= c.issuedAt)
  }

  ghost predicate ClaimsInv(clock: int, vs: seq<VaultRow>, es: seq<EventRow>, ps: multiset<Ticket>,
                            cs: seq<ClaimRow>) {
    && (forall c :: c in cs ==> Timely(clock, es, c) && !Live(vs, es, ps, c.event))
    && NoRepeats(cs)
  }

  ghost predicate Inv(w: World) {
    && EventsInv(w.vaults, w.events)
    && TicketsInv(w.vaults, w.events, w.tickets)
    && PerformingInv(w.clock, w.vaults, w.events, w.performing)
    && ClaimsInv(w.clock, w.vaults, w.events, w.performing, w.claims)
  }

  // ---- One vault moves ----

  ghost predicate Moves(vs: seq<VaultRow>, vs': seq<VaultRow>, v: nat) {
    |vs| == |vs'| && forall u :: 0 <= u < |vs| && u != v ==> vs'[u].state == vs[u].state
  }

  lemma EventsMove(vs: seq<VaultRow>, vs': seq<VaultRow>, es: seq<EventRow>, v: nat)
    requires EventsInv(vs, es) && Moves(vs, vs', v)
    requires forall e :: 0 <= e < |es| && es[e].vault == v ==> Placed(vs'[v].state, es[e])
    ensures EventsInv(vs', es)
  {}

  lemma TicketsMove(vs: seq<VaultRow>, vs': seq<VaultRow>, es: seq<EventRow>, ts: multiset<Ticket>, v: nat)
    requires TicketsInv(vs, es, ts) && Moves(vs, vs', v)
    requires StateIs(vs', v, CoolingOff) ==> forall t :: t in ts ==> t.vault != v
    ensures TicketsInv(vs', es, ts)
  {}

  lemma PerformingMove(clock: int, vs: seq<VaultRow>, vs': seq<VaultRow>, es: seq<EventRow>,
                       ps: multiset<Ticket>, v: nat)
    requires PerformingInv(clock, vs, es, ps) && Moves(vs, vs', v)
    requires forall t :: t in ps ==> t.vault != v
    ensures PerformingInv(clock, vs', es, ps)
  {}

  lemma ClaimsMove(clock: int, vs: seq<VaultRow>, vs': seq<VaultRow>, es: seq<EventRow>,
                   ps: multiset<Ticket>, cs: seq<ClaimRow>, v: nat)
    requires ClaimsInv(clock, vs, es, ps, cs) && Moves(vs, vs', v)
    requires StateIs(vs', v, CoolingOff) ==> forall e :: 0 <= e < |es| && es[e].vault == v ==> !es[e].OpenTimed()
    ensures ClaimsInv(clock, vs', es, ps, cs)
  {}

  // ---- Time passes, or states stay as they are ----

  lemma StillInv(w: World, w': World)
    requires Inv(w) && w'.clock >= w.clock && |w'.vaults| == |w.vaults|
    requires forall v :: 0 <= v < |w.vaults| ==> w'.vaults[v].state == w.vaults[v].state
    requires w'.events == w.events && w'.claims == w.claims
    requires w'.tickets == w.tickets && w'.performing == w.performing
    ensures Inv(w')
  {
    assert forall v: nat, s :: StateIs(w'.vaults, v, s) == StateIs(w.vaults, v, s);
    ClaimsLater(w.clock, w'.clock, w.vaults, w'.vaults, w.events, w.performing, w.claims);
  }

  lemma ClaimsLater(clock: int, clock': int, vs: seq<VaultRow>, vs': seq<VaultRow>, es: seq<EventRow>,
                    ps: multiset<Ticket>, cs: seq<ClaimRow>)
    requires ClaimsInv(clock, vs, es, ps, cs) && clock <= clock'
    requires forall v: nat, s :: StateIs(vs', v, s) == StateIs(vs, v, s)
    ensures ClaimsInv(clock', vs', es, ps, cs)
  {}

  // ---- One event closes ----

  ghost predicate Closes(es: seq<EventRow>, es': seq<EventRow>, e: nat) {
    && e < |es| == |es'|
    && (forall f :: 0 <= f < |es| && f != e ==> es'[f] == es[f])
    && es'[e].vault == es[e].vault && es'[e].drill == es[e].drill && es'[e].deadline == es[e].deadline
    && !es'[e].Open()
  }

  lemma EventsClose(vs: seq<VaultRow>, es: seq<EventRow>, es': seq<EventRow>, e: nat)
    requires EventsInv(vs, es) && Closes(es, es', e)
    ensures EventsInv(vs, es')
  {}

  lemma TicketsClose(vs: seq<VaultRow>, es: seq<EventRow>, es': seq<EventRow>, ts: multiset<Ticket>, e: nat)
    requires TicketsInv(vs, es, ts) && Closes(es, es', e)
    requires !StateIs(vs, es[e].vault, CoolingOff)
    ensures TicketsInv(vs, es', ts)
  {}

  lemma PerformingClose(clock: int, vs: seq<VaultRow>, es: seq<EventRow>, es': seq<EventRow>,
                        ps: multiset<Ticket>, e: nat)
    requires PerformingInv(clock, vs, es, ps) && Closes(es, es', e)
    requires forall t :: t in ps ==> t.event != e
    ensures PerformingInv(clock, vs, es', ps)
  {}

  lemma ClaimsClose(clock: int, vs: seq<VaultRow>, es: seq<EventRow>, es': seq<EventRow>,
                    ps: multiset<Ticket>, cs: seq<ClaimRow>, e: nat)
    requires ClaimsInv(clock, vs, es, ps, cs) && Closes(es, es', e)
    ensures ClaimsInv(clock, vs, es', ps, cs)
  {}

  // ---- One event is appended ----

  lemma EventsAppend(vs: seq<VaultRow>, es: seq<EventRow>, row: EventRow)
    requires EventsInv(vs, es) && row.vault < |vs| && Placed(vs[row.vault].state, row)
    requires row.OpenTimed() ==> forall e :: 0 <= e < |es| && es[e].OpenTimed() ==> es[e].vault != row.vault
    ensures EventsInv(vs, es + [row])
  {}

  lemma TicketsAppend(vs: seq<VaultRow>, es: seq<EventRow>, ts: multiset<Ticket>, row: EventRow)
    requires TicketsInv(vs, es, ts)
    ensures TicketsInv(vs, es + [row], ts)
  {}

  lemma PerformingAppend(clock: int, vs: seq<VaultRow>, es: seq<EventRow>, ps: multiset<Ticket>, row: EventRow)
    requires PerformingInv(clock, vs, es, ps)
    ensures PerformingInv(clock, vs, es + [row], ps)
  {}

  lemma ClaimsAppend(clock: int, vs: seq<VaultRow>, es: seq<EventRow>, ps: multiset<Ticket>,
                     cs: seq<ClaimRow>, row: EventRow)
    requires ClaimsInv(clock, vs, es, ps, cs)
    ensures ClaimsInv(clock, vs, es + [row], ps, cs)
  {
    forall c | c in cs
      ensures !Live(vs, es + [row], ps, c.event)
    {
      assert c.event < |es|;
      assert (es + [row])[c.event] == es[c.event];
    }
  }

  // ---- Work comes and goes ----

  lemma TicketsAdd(vs: seq<VaultRow>, es: seq<EventRow>, ts: multiset<Ticket>, t: Ticket)
    requires TicketsInv(vs, es, ts) && Fits(es, t)
    requires StateIs(vs, t.vault, CoolingOff) ==> es[t.event].Open()
    ensures TicketsInv(vs, es, ts + multiset{t})
  {}

  lemma TicketsAddAll(vs: seq<VaultRow>, es: seq<EventRow>, ts: multiset<Ticket>, more: multiset<Ticket>)
    requires TicketsInv(vs, es, ts)
    requires forall t :: t in more ==> Fits(es, t) && es[t.event].Open()
    ensures TicketsInv(vs, es, ts + more)
  {}

  lemma TicketsDrop(vs: seq<VaultRow>, es: seq<EventRow>, ts: multiset<Ticket>, lost: multiset<Ticket>)
    requires TicketsInv(vs, es, ts)
    ensures TicketsInv(vs, es, ts - lost)
  {
    assert forall t :: t in ts - lost ==> t in ts;
  }

  lemma PerformingDrop(clock: int, vs: seq<VaultRow>, es: seq<EventRow>, ps: multiset<Ticket>, lost: multiset<Ticket>)
    requires PerformingInv(clock, vs, es, ps)
    ensures PerformingInv(clock, vs, es, ps - lost)
  {
    assert forall t :: t in ps - lost ==> t in ps && (ps - lost)[t] <= ps[t];
  }

  lemma PerformingAdd(clock: int, vs: seq<VaultRow>, es: seq<EventRow>, ps: multiset<Ticket>, t: Ticket)
    requires PerformingInv(clock, vs, es, ps)
    requires Fits(es, t) && t.wakeAt <= clock && StateIs(vs, t.vault, Releasing) && es[t.event].Open()
    requires forall u :: u in ps ==> u.vault != t.vault
    ensures PerformingInv(clock, vs, es, ps + multiset{t})
  {
    assert t !in ps;
    assert forall u :: u in ps + multiset{t} <==> u in ps || u == t;
  }

  lemma ClaimsDrop(clock: int, vs: seq<VaultRow>, es: seq<EventRow>, ps: multiset<Ticket>,
                   cs: seq<ClaimRow>, lost: multiset<Ticket>)
    requires ClaimsInv(clock, vs, es, ps, cs)
    ensures ClaimsInv(clock, vs, es, ps - lost, cs)
  {
    assert forall t :: t in ps - lost ==> t in ps;
  }

  /** A ticket of a live event starts delivering. */
  lemma ClaimsStart(clock: int, vs: seq<VaultRow>, vs': seq<VaultRow>, es: seq<EventRow>, ps: multiset<Ticket>,
                    cs: seq<ClaimRow>, t: Ticket)
    requires ClaimsInv(clock, vs, es, ps, cs) && Live(vs, es, ps, t.event)
    requires Moves(vs, vs', t.vault) && !StateIs(vs', t.vault, CoolingOff)
    ensures ClaimsInv(clock, vs', es, ps + multiset{t}, cs)
  {
    forall c | c in cs
      ensures !Live(vs', es, ps + multiset{t}, c.event)
    {
      assert c.event != t.event;
      assert forall u :: u in ps + multiset{t} ==> u in ps || u == t;
    }
  }

  /** Rows issued for an event nobody has issued rows for, and nobody will again. */
  lemma ClaimsIssue(clock: int, vs: seq<VaultRow>, es: seq<EventRow>, ps: multiset<Ticket>,
                    cs: seq<ClaimRow>, rows: seq<ClaimRow>, e: nat)
    requires ClaimsInv(clock, vs, es, ps, cs)
    requires forall c :: c in cs ==> c.event != e
    requires forall c :: c in rows ==> c.event == e && c.issuedAt == clock
    requires e < |es| && (es[e].deadline.Some? ==> es[e].deadline.value <= clock)
    requires !Live(vs, es, ps, e) && NoRepeats(rows)
    ensures ClaimsInv(clock, vs, es, ps, cs + rows)
  {
    ConcatNoRepeats(cs, rows);
  }
}
