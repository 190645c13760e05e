/**
 The server as it runs: database tables and work in flight, updated in place by SQL statements,
 HTTP handlers and background workers. Every method is tied to a step, or a run of steps, of
 ReleaseModel, where the protocol's properties are proved. Where a statement's failure changes what
 a handler leaves behind, the failure is an arbitrary choice (`*`).
 */
module BeaconServer {
  import opened Domain
  import opened Scoring
  import opened ReleaseModel
  import opened Deliveries
  import opened ReleaseSafety
  import opened ReleaseDurability
  import opened Escalation
  import opened ReleaseEffects
  import opened ReleaseStatements

  lemma {:induction false} DeliveryGrows(w: World, e: nat, v: nat, n: nat, m: nat)
    requires n <= m <= |w.letters|
    ensures Delivery(w, e, v, n) <= Delivery(w, e, v, m)
  {
    if n < m {
      DeliveryGrows(w, e, v, n, m - 1);
    }
  }

  /** A delivery cut short inside letter `l`. */
  lemma DeliveryCut(w: World, e: nat, v: nat, l: nat, k: nat)
    requires FiresIn(w, v, l) && k <= |LetterClaims(w, e, l)|
    ensures |Delivery(w, e, v, l)| + k <= |Delivery(w, e, v, |w.letters|)|
    ensures Delivery(w, e, v, |w.letters|)[..|Delivery(w, e, v, l)| + k]
            == Delivery(w, e, v, l) + LetterClaims(w, e, l)[..k]
  {
    DeliveryGrows(w, e, v, l + 1, |w.letters|);
    assert Delivery(w, e, v, l + 1) == Delivery(w, e, v, l) + LetterClaims(w, e, l);
  }

  lemma {:induction false} AttachmentClaimsGrow(w: World, e: nat, l: nat, n: nat, m: nat)
    requires l < |w.letters| && n <= m <= |w.attachments|
    ensures AttachmentClaims(w, e, l, n) <= AttachmentClaims(w, e, l, m)
  {
    if n < m {
      AttachmentClaimsGrow(w, e, l, n, m - 1);
    }
  }

  lemma {:induction false} DueTicketsGrow(w: World, n: nat, m: nat)
    requires n <= m <= |w.events|
    ensures DueTickets(w, n) <= DueTickets(w, m)
  {
    if n < m {
      DueTicketsGrow(w, n, m - 1);
    }
  }

  class Beacon {
    /** While this holds, no statement fails and no process dies. */
    const healthy: bool
    var clock: int
    var vaults: seq<VaultRow>
    var events: seq<EventRow>
    var letters: seq<LetterRow>
    var attachments: seq<AttachmentRow>
    var claims: seq<ClaimRow>
    var duress: map<nat, DuressRow>
    var tickets: multiset<Ticket>
    var performing: multiset<Ticket>

    ghost function W(): World
      reads this
    {
      World(clock, vaults, events, letters, attachments, claims, duress, tickets, performing)
    }

    // ---- Statements ----

    /** Whether the next statement succeeds. */
    method Attempt() returns (up: bool)
      ensures healthy ==> up
    {
      up := *;
      up := up || healthy;
    }

    method SetVaultState(v: nat, s: VaultState, releasedAt: Option<int>)
      modifies this`vaults
      ensures W() == SetState(old(W()), v, s, releasedAt)
    {
      if v < |vaults| {
        var at := if releasedAt.Some? then releasedAt else vaults[v].releasedAt;
        vaults := vaults[v := vaults[v].(state := s, releasedAt := at)];
      }
    }

    /** The conditional update COOLING_OFF -> RELEASING: true for exactly the caller that moved it. */
    method ClaimVaultForRelease(v: nat) returns (won: bool)
      modifies this`vaults
      ensures won == InState(old(W()), v, CoolingOff)
      ensures W() == if won then SetState(old(W()), v, Releasing, None) else old(W())
    {
      won := v < |vaults| && vaults[v].state == CoolingOff;
      if won {
        vaults := vaults[v := vaults[v].(state := Releasing)];
      }
    }

    /** The conditional update into COOLING_OFF from a known prior state. */
    method ClaimVaultCoolingOff(v: nat, from: VaultState) returns (won: bool)
      modifies this`vaults
      ensures won == InState(old(W()), v, from)
      ensures W() == if won then EnterCoolingOff(old(W()), v) else old(W())
    {
      won := v < |vaults| && vaults[v].state == from;
      if won {
        vaults := vaults[v := vaults[v].(state := CoolingOff, coolingOffStartedAt := Some(clock))];
      }
    }

    method CreateReleaseEvent(v: nat, drill: bool, deadline: Option<int>) returns (e: nat)
      modifies this`events
      ensures e == |old(events)|
      ensures W() == CreateEvent(old(W()), v, drill, deadline)
    {
      e := |events|;
      events := events + [EventRow(v, drill, deadline, clock, None, None)];
    }

    method MarkReleaseReleased(e: nat)
      modifies this`events
      ensures W() == MarkReleased(old(W()), e)
    {
      if e < |events| {
        events := events[e := events[e].(releasedAt := Some(clock))];
      }
    }

    method MarkReleaseCancelled(e: nat)
      modifies this`events
      ensures W() == MarkCancelled(old(W()), e)
    {
      if e < |events| && events[e].Open() {
        events := events[e := events[e].(cancelledAt := Some(clock))];
      }
    }

    method FetchOpenRelease(v: nat) returns (found: Option<nat>)
      ensures found == NewestOpen(W(), v, |events|)
    {
      var n := |events|;
      while n > 0
        invariant 0 <= n <= |events|
        invariant NewestOpen(W(), v, |events|) == NewestOpen(W(), v, n)
      {
        if events[n - 1].Open() && events[n - 1].vault == v {
          return Some(n - 1);
        }
        n := n - 1;
      }
      return None;
    }

    method ListDueReleases() returns (due: seq<Ticket>)
      ensures due == DueTickets(W(), |events|)
    {
      due := [];
      for n := 0 to |events|
        invariant due == DueTickets(W(), n)
      {
        var row := events[n];
        if row.OpenTimed() && row.deadline.value <= clock
           && row.vault < |vaults| && vaults[row.vault].state == CoolingOff {
          due := due + [Ticket(row.vault, n, row.drill, clock)];
        }
      }
    }

    // ---- Handlers ----

    /** `completes` is false when the vault was claimed but its event could not be inserted: the
        caller gets an error, and there is no timer. */
    method BeginRelease(v: nat, drill: bool, coolSeconds: int) returns (begun: Option<nat>, completes: bool)
      modifies this
      ensures W() == Apply(old(W()), Begin(v, drill, coolSeconds, completes))
      ensures if v < |old(vaults)| && old(vaults)[v].state == Active
              then begun.Some? == completes && Began(old(W()), W(), v, drill, coolSeconds, completes)
              else begun.None? && W() == old(W())
      ensures begun.Some? ==> begun.value == |old(events)|
      ensures healthy ==> completes
    {
      completes := true;
      var endsAt := clock + Max(coolSeconds, 1);
      var won := ClaimVaultCoolingOff(v, Active);
      if !won {
        return None, completes;
      }
      completes := Attempt();
      if !completes {
        return None, completes;
      }
      var e := CreateReleaseEvent(v, drill, Some(endsAt));
      tickets := tickets + multiset{Ticket(v, e, drill, endsAt)};
      return Some(e), completes;
    }

    /** A cancel that read the vault in state `observed`, perhaps some time ago. `closed` reports
        whether the open event, if there was one, was found and closed. */
    method CancelObserved(v: nat, observed: VaultState) returns (closed: bool)
      requires v < |vaults|
      modifies this
      ensures W() == Apply(old(W()), Cancel(v, observed, closed))
      ensures if observed == CoolingOff then Cancelled(old(W()), W(), v, closed) else W() == old(W())
      ensures healthy ==> closed
    {
      closed := true;
      if observed == CoolingOff {
        SetVaultState(v, Active, None);
        closed := Attempt();
        if closed {
          var found := FetchOpenRelease(v);
          NewestCloses(W(), v);
          if found.Some? {
            MarkReleaseCancelled(found.value);
          }
        }
      }
    }

    /** The whole handler, left alone. */
    method CancelRelease(v: nat) returns (ok: bool, closed: bool)
      modifies this
      ensures W() == Apply(old(W()), Cancel(v, if ok then CoolingOff else Active, closed))
      ensures ok <==> v < |old(vaults)| && old(vaults)[v].state == CoolingOff
      ensures if ok then Cancelled(old(W()), W(), v, closed) else W() == old(W())
      ensures healthy ==> closed
    {
      closed := true;
      ok := v < |vaults| && vaults[v].state == CoolingOff;
      if ok {
        closed := CancelObserved(v, CoolingOff);
      }
    }

    /** One vault's turn in an aggregator tick, after `frozen` was read of its principal's duress,
        perhaps some time ago. A failing statement ends it: before any write, or between the claim
        and the event. */
    method AggregatorWrites(v: nat, observed: VaultState, frozen: bool, x: Evidence)
      returns (ok: bool, ghost steps: seq<Step>)
      requires v < |vaults| && Watchable(observed)
      modifies this
      ensures W() == if steps == [] then old(W()) else Apply(old(W()), steps[0])
      ensures steps == [] || steps == [Aggregate(v, observed, frozen, x, true)]
              || steps == [Aggregate(v, observed, frozen, x, false)]
      ensures ok ==> steps == [Aggregate(v, observed, frozen, x, true)]
      ensures healthy ==> ok
    {
      ok, steps := true, [Aggregate(v, observed, frozen, x, true)];
      var next := Evaluate(observed, x.score, x.threshold, x.minClasses);
      if next != observed {
        var up := Attempt();
        if !up {
          return false, [];
        }
        if next == CoolingOff {
          if !frozen {
            var endsAt := clock + vaults[v].coolingOffSeconds;
            var won := ClaimVaultCoolingOff(v, observed);
            if won {
              up := Attempt();
              if !up {
                return false, [Aggregate(v, observed, frozen, x, false)];
              }
              var e := CreateReleaseEvent(v, false, Some(endsAt));
            }
          }
        } else {
          SetVaultState(v, next, None);
        }
      }
    }

    /** The turn left alone. */
    method AggregatorTurn(v: nat, observed: VaultState, x: Evidence) returns (ok: bool, ghost steps: seq<Step>)
      requires v < |vaults| && Watchable(observed)
      modifies this
      ensures W() == if steps == [] then old(W()) else Apply(old(W()), steps[0])
      ensures var frozen := Frozen(old(W()), v);
        && (steps == [] || steps == [Aggregate(v, observed, frozen, x, true)]
            || steps == [Aggregate(v, observed, frozen, x, false)])
        && (ok ==> steps == [Aggregate(v, observed, frozen, x, true)])
      ensures healthy ==> ok
    {
      var principal := vaults[v].principal;
      var frozen := principal in duress && duress[principal].triggered;
      ok, steps := AggregatorWrites(v, observed, frozen, x);
    }

    /** One tick of the aggregator, left alone: it gathers and scores the evidence about every
        listed vault that has subscriptions, and moves the vault as that says; duress holds it in
        ALERT. A tick cut short by an error has left vaults as they were, or one cooling off without a
        deadline. */
    method AggregatorTick(readings: seq<Reading>, threshold: real, minClasses: nat)
      returns (ok: bool, ghost run: seq<Step>)
      requires |readings| == |vaults| && forall v :: 0 <= v < |readings| ==> readings[v].maxGap > 0
      modifies this
      ensures |vaults| == |old(vaults)|
      ensures forall v: nat :: v < |vaults| ==>
        var row, frozen := old(vaults)[v], Frozen(old(W()), v);
        if row.state in {Active, Suspicious, Alert} && readings[v].subscriptions != [] then
          || (!ok && vaults[v] == row)
          || (vaults[v] == Moved(row, vaults[v].state, clock)
              && Lands(row.state, frozen, Evidence(ScoreOf(readings[v]), threshold, minClasses), vaults[v].state))
        else vaults[v] == row
      ensures Opened(old(vaults), vaults, old(events), events, clock, |vaults|, ok)
      ensures W() == At(old(W()), run, |run|) && FreshRun(old(W()), run)
      ensures W() == old(W()).(vaults := vaults, events := events)
      ensures forall j :: 0 <= j < |run| ==> run[j].Aggregate?
      ensures healthy ==> ok
    {
      hide Apply, At, ScoreOf, Lands, Opened, Moved, Deadline, Frozen, FreshRun;
      ghost var w := W();
      var listed := vaults;
      run := [];
      NoSteps(w);
      NothingFresh(w);
      NothingOpened(vaults, events, clock);
      for v := 0 to |listed|
        invariant W() == w.(vaults := vaults, events := events) && |vaults| == |listed|
        invariant forall u :: v <= u < |listed| ==> vaults[u] == listed[u]
        invariant forall u :: 0 <= u < v ==>
          if listed[u].state in {Active, Suspicious, Alert} && readings[u].subscriptions != [] then
            && vaults[u] == Moved(listed[u], vaults[u].state, clock)
            && Lands(listed[u].state, Frozen(w, u), Evidence(ScoreOf(readings[u]), threshold, minClasses),
                vaults[u].state)
          else vaults[u] == listed[u]
        invariant Opened(listed, vaults, w.events, events, clock, v, true)
        invariant W() == At(w, run, |run|) && FreshRun(w, run)
        invariant forall j :: 0 <= j < |run| ==> run[j].Aggregate?
      {
        if Watchable(listed[v].state) && readings[v].subscriptions != [] {
          ghost var before := W();
          var score := ObserveVault(readings[v]);
          var x := Evidence(score, threshold, minClasses);
          var up;
          ghost var steps;
          up, steps := AggregatorTurn(v, listed[v].state, x);
          if steps != [] {
            SameFrozen(w, before, v);
            FreshTurnEffect(before, v, x, steps[0].completes);
            MovedState(listed[v], vaults[v].state, clock);
            OpenedOne(listed, before.vaults, vaults, w.events, before.events, events, clock, v, true,
                      steps[0].completes);
            AtAppend(w, run, steps[0]);
            FreshAppend(w, run, steps[0]);
            run := run + steps;
          }
          if !up {
            OpenedSoFar(listed, vaults, w.events, events, clock, v, steps == []);
            return false, run;
          }
        } else {
          OpenedNone(listed, vaults, w.events, events, clock, v, true);
        }
      }
      ok := true;
    }

    /** The webhook's turn on one vault; the failure of either statement is swallowed. */
    method DuressTurn(v: nat, observed: VaultState) returns (ok: bool, ghost steps: seq<Step>)
      requires v < |vaults| && Watchable(observed)
      modifies this
      ensures steps == [] || steps == [DuressEnter(v, observed, ok)]
      ensures W() == if steps == [] then old(W()) else EnterDurably(old(W()), v, observed, ok)
      ensures ok ==> steps != []
      ensures healthy ==> ok
    {
      ok, steps := true, [DuressEnter(v, observed, true)];
      var up := Attempt();
      if !up {
        return false, [];
      }
      var endsAt := clock + vaults[v].coolingOffSeconds;
      var won := ClaimVaultCoolingOff(v, observed);
      if won {
        up := Attempt();
        if !up {
          return false, [DuressEnter(v, observed, false)];
        }
        var e := CreateReleaseEvent(v, false, Some(endsAt));
      }
    }

    /** The covert webhook, left alone: the aggregator is frozen, and in release mode every watched
        vault of the principal ends up cooling off with its deadline recorded. It goes on after a
        failure (`ok` is false then): each vault is done, untouched, or claimed with no deadline. */
    method DuressWebhook(principal: nat) returns (ok: bool, ghost run: seq<Step>)
      modifies this
      ensures W() == At(old(W()), run, |run|)
      ensures forall j :: 0 <= j < |run| ==> run[j] == Trigger(principal) || run[j].DuressEnter?
      ensures W() == old(W()).(vaults := vaults, events := events, duress := duress)
      ensures duress == if principal in old(duress)
                        then old(duress)[principal := DuressRow(old(duress)[principal].releases, true)] else old(duress)
      ensures |vaults| == |old(vaults)| && Opened(old(vaults), vaults, old(events), events, clock, |vaults|, ok)
      ensures forall v: nat :: v < |vaults| ==>
                if principal in old(duress) && old(duress)[principal].releases
                   && old(vaults)[v].principal == principal && old(vaults)[v].state in {Active, Suspicious, Alert}
                then vaults[v] == Moved(old(vaults)[v], CoolingOff, clock) || (!ok && vaults[v] == old(vaults)[v])
                else vaults[v] == old(vaults)[v]
      ensures healthy ==> ok
    {
      hide Apply, At, Opened;
      ghost var w := W();
      ok, run := true, [];
      NoSteps(w);
      OpenedUnmoved(vaults, events, clock, |vaults|);
      if principal !in duress {
        return;
      }
      duress := duress[principal := duress[principal].(triggered := true)];
      StepIsTrigger(w, principal);
      AtAppend(w, run, Trigger(principal));
      run := run + [Trigger(principal)];
      if !duress[principal].releases {
        return;
      }
      ok, run := DuressRelease(principal, w, run);
    }

    /** The webhook's loop over the principal's watched vaults, after the trigger. */
    method DuressRelease(principal: nat, ghost w: World, ghost first: seq<Step>)
      returns (ok: bool, ghost run: seq<Step>)
      requires W() == At(w, first, |first|)
      requires forall j :: 0 <= j < |first| ==> first[j] == Trigger(principal) || first[j].DuressEnter?
      modifies this
      ensures W() == At(w, run, |run|) && W() == old(W()).(vaults := vaults, events := events)
      ensures forall j :: 0 <= j < |run| ==> run[j] == Trigger(principal) || run[j].DuressEnter?
      ensures |vaults| == |old(vaults)| && Opened(old(vaults), vaults, old(events), events, clock, |vaults|, ok)
      ensures forall v: nat :: v < |vaults| ==>
                if old(vaults)[v].principal == principal && old(vaults)[v].state in {Active, Suspicious, Alert}
                then vaults[v] == Moved(old(vaults)[v], CoolingOff, clock) || (!ok && vaults[v] == old(vaults)[v])
                else vaults[v] == old(vaults)[v]
      ensures healthy ==> ok
    {
      hide Apply, At, Opened, Moved;
      ok, run := true, first;
      ghost var start := W();
      NothingOpened(vaults, events, clock);
      var listed := vaults;
      for v := 0 to |listed|
        invariant W() == start.(vaults := vaults, events := events) && |vaults| == |listed|
        invariant W() == At(w, run, |run|)
        invariant forall j :: 0 <= j < |run| ==> run[j] == Trigger(principal) || run[j].DuressEnter?
        invariant Opened(listed, vaults, start.events, events, clock, v, ok)
        invariant forall u: nat :: v <= u < |listed| ==> vaults[u] == listed[u]
        invariant forall u: nat :: u < v ==>
                    if listed[u].principal == principal && listed[u].state in {Active, Suspicious, Alert}
                    then vaults[u] == Moved(listed[u], CoolingOff, clock) || (!ok && vaults[u] == listed[u])
                    else vaults[u] == listed[u]
        invariant healthy ==> ok
      {
        ghost var before := W();
        if listed[v].principal == principal && Watchable(listed[v].state) {
          var done;
          ghost var steps;
          done, steps := DuressTurn(v, listed[v].state);
          if steps != [] {
            StepIsDuressEnter(before, v, listed[v].state, done);
            EntersDurably(before, v, listed[v].state, done);
            AtAppend(w, run, steps[0]);
            run := run + steps;
          }
          MovedState(listed[v], CoolingOff, clock);
          OpenedOne(listed, before.vaults, vaults, start.events, before.events, events, clock, v, ok, done);
          ok := ok && done;
        } else {
          OpenedNone(listed, vaults, start.events, events, clock, v, ok);
        }
      }
    }

    // ---- Deliveries ----

    /** Issues the letter's claims in order, and stops at the first error: `issued` of them are out. */
    method DeliverLetter(e: nat, l: nat) returns (ok: bool, issued: nat)
      requires l < |letters|
      modifies this`claims
      ensures issued <= |LetterClaims(old(W()), e, l)|
      ensures ok ==> issued == |LetterClaims(old(W()), e, l)|
      ensures claims == old(claims) + LetterClaims(old(W()), e, l)[..issued]
      ensures healthy ==> ok
    {
      ghost var w := W();
      var up := Attempt();
      if !up {
        return false, 0;
      }
      claims := claims + [ClaimRow(e, LetterOf(l), letters[l].recipient, clock)];
      issued := 1;
      for n := 0 to |attachments|
        invariant issued == 1 + |AttachmentClaims(w, e, l, n)|
        invariant claims == old(claims) + [ClaimRow(e, LetterOf(l), letters[l].recipient, clock)]
                            + AttachmentClaims(w, e, l, n)
      {
        AttachmentClaimsGrow(w, e, l, n, |attachments|);
        AttachmentClaimsGrow(w, e, l, n + 1, |attachments|);
        if attachments[n].letter == l {
          up := Attempt();
          if !up {
            return false, issued;
          }
          claims := claims + [ClaimRow(e, AttachmentOf(n), letters[l].recipient, clock)];
          issued := issued + 1;
        }
      }
      ok := true;
    }

    /** The delivery loop over the vault's letters. */
    method DeliverAll(e: nat, v: nat) returns (ok: bool, issued: nat)
      modifies this`claims
      ensures issued <= |Delivery(old(W()), e, v, |letters|)|
      ensures ok ==> issued == |Delivery(old(W()), e, v, |letters|)|
      ensures claims == old(claims) + Delivery(old(W()), e, v, |letters|)[..issued]
      ensures healthy ==> ok
    {
      ghost var w := W();
      issued := 0;
      for l := 0 to |letters|
        invariant issued == |Delivery(w, e, v, l)|
        invariant claims == old(claims) + Delivery(w, e, v, l)
      {
        if letters[l].vault == v && FiresOnSignal(letters[l].mode) {
          ghost var u := W();
          var done, k := DeliverLetter(e, l);
          AttachmentClaimsReadTables(w, u, e, l, |attachments|);
          if !done {
            DeliveryCut(w, e, v, l, k);
            return false, issued + k;
          }
          assert LetterClaims(u, e, l)[..k] == LetterClaims(w, e, l);
          issued := issued + k;
        }
      }
      assert Delivery(w, e, v, |letters|)[..issued] == Delivery(w, e, v, |letters|);
      ok := true;
    }

    method CloseRelease(t: Ticket) returns (stop: Stop)
      modifies this`vaults, this`events
      ensures !stop.DeliveryFails?
      ensures W() == CloseStep(old(W()), t, stop)
      ensures W() == old(W()).(vaults := vaults, events := events) && Closed(old(W()), W(), t, stop)
      ensures healthy ==> stop == Done
    {
      SetVaultState(t.vault, Released, Some(clock));
      var up := Attempt();
      if !up {
        return AfterReleased;
      }
      MarkReleaseReleased(t.event);
      up := Attempt();
      if !up {
        return AfterMarked;
      }
      if t.drill {
        SetVaultState(t.vault, Active, None);
      }
      return Done;
    }

    /** For a vault this ticket has claimed. `stop` reports how far it got. */
    method PerformRelease(t: Ticket) returns (stop: Stop)
      requires t in performing
      modifies this
      ensures W() == PerformStep(old(W()), t, stop)
      ensures W() == old(W()).(vaults := vaults, events := events, claims := claims,
                               performing := old(performing) - multiset{t})
      ensures Closed(old(W()), W(), t, stop) && Delivered(old(W()), W(), t, stop)
      ensures healthy ==> stop == Done
    {
      hide PerformStep, CloseStep, Delivery, IssuesByMode, Closed;
      ghost var w := W();
      var ok, issued := DeliverAll(t.event, t.vault);
      DeliveryByMode(w, t.event, t.vault);
      performing := performing - multiset{t};
      if !ok {
        PerformFails(w, t, issued);
        DeliveryStopped(w, W(), t, issued);
        return DeliveryFails(issued);
      }
      assert Delivery(w, t.event, t.vault, |letters|)[..issued] == Delivery(w, t.event, t.vault, |letters|);
      ghost var mid := W();
      stop := CloseRelease(t);
      PerformCloses(w, t, stop);
      ClosedReads(mid, w, W(), t, stop);
    }

    /** The conditional mark, then the event and its deliveries. `upTo` reports how far it got. */
    method FireEventLetter(l: nat) returns (ok: bool, upTo: EventStop)
      requires EventLetterOpen(W(), l)
      modifies this
      ensures ok == EventLetterReady(old(W()), l)
      ensures W() == ReleaseEventLetterStep(old(W()), l, upTo)
      ensures ok <==> old(letters)[l].eventReleasedAt.None?
      ensures if ok then Fired(old(W()), W(), l, old(letters)[l].recipient, upTo) else W() == old(W())
      ensures healthy ==> upTo == Complete
    {
      hide IssuesLetter, LetterClaims, Fired, ReleaseEventLetterStep;
      upTo := Complete;
      ok := letters[l].eventReleasedAt.None?;
      if !ok {
        NotReady(W(), l, upTo);
        return;
      }
      ghost var start := W();
      letters := letters[l := letters[l].(eventReleasedAt := Some(clock))];
      var up := Attempt();
      if !up {
        FiredBefore(start, l);
        return true, BeforeEvent;
      }
      var e := CreateReleaseEvent(letters[l].vault, false, None);
      ghost var w := W();
      var done, issued := DeliverLetter(e, l);
      FiredSoFar(start, w, l, issued);
      if !done {
        return true, Partial(issued);
      }
      MarkReleaseReleased(e);
    }

    /** trigger_event_release with the checks before it: authorised on a RELEASED vault, for an
        event letter, it first applies the letter's pending recipient change if that is due
        (`due` is its address), then fires the letter once. */
    method TriggerEventRelease(l: nat, due: Option<string>) returns (ok: bool, failed: bool, upTo: EventStop)
      modifies this
      ensures ok == (EventLetterReady(old(W()), l) && !failed)
      ensures var w1 := if due.Some? && EventLetterOpen(old(W()), l) && !failed
                        then Apply(old(W()), EditLetter(l, EventOnDemand, due.value)) else old(W());
        W() == if ok then ReleaseEventLetterStep(w1, l, upTo) else w1
      ensures var held := l < |old(letters)| && old(letters)[l].vault < |old(vaults)|
                          && old(vaults)[old(letters)[l].vault].state == Released
                          && old(letters)[l].mode == EventOnDemand;
        if held && !failed then
          var to := if due.Some? then due.value else old(letters)[l].recipient;
          && (ok <==> old(letters)[l].eventReleasedAt.None?)
          && (if ok then Fired(old(W()), W(), l, to, upTo)
              else W() == old(W()).(letters := old(letters)[l := old(letters)[l].(recipient := to)]))
        else !ok && W() == old(W())
      ensures healthy ==> !failed && upTo == Complete
    {
      hide ReleaseEventLetterStep, Fired;
      ok, upTo, failed := false, Complete, false;
      if !(l < |letters| && letters[l].vault < |vaults| && vaults[letters[l].vault].state == Released
           && letters[l].mode == EventOnDemand) {
        return;
      }
      var up := Attempt();
      if !up {
        failed := true;
        return;
      }
      ghost var start := W();
      if due.Some? {
        letters := letters[l := letters[l].(mode := EventOnDemand, recipient := due.value)];
      }
      ghost var w1 := W();
      assert start.letters[l := start.letters[l]] == start.letters;
      ok, upTo := FireEventLetter(l);
      if !ok {
        NotReady(w1, l, upTo);
      } else {
        FiredReads(w1, start, W(), l, w1.letters[l].recipient, upTo);
      }
    }

    // ---- Workers ----

    /** A ticket awake: claim its vault, and deliver if that won. */
    method Elapse(t: Ticket) returns (performed: bool, stop: Stop)
      requires t in tickets && t.wakeAt <= clock
      modifies this
      ensures W() == if performed then PerformStep(ClaimStep(old(W()), t), t, stop) else ClaimStep(old(W()), t)
      ensures performed <==> t.vault < |old(vaults)| && old(vaults)[t.vault].state == CoolingOff
      ensures if performed then Elapsed(old(W()), W(), t, stop)
              else W() == old(W()).(tickets := old(tickets) - multiset{t})
      ensures healthy ==> stop == Done
    {
      hide PerformStep, Closed, Delivered;
      tickets := tickets - multiset{t};
      performed := ClaimVaultForRelease(t.vault);
      stop := Done;
      if performed {
        performing := performing + multiset{t};
        assert performing - multiset{t} == old(performing);
        ghost var mid := W();
        stop := PerformRelease(t);
        PerformingUnread(mid, W(), t, stop, old(performing));
      }
    }

    /** One listed row, with the run so far. `ok` is false if it was claimed and not done with. */
    method ElapseRow(t: Ticket, ghost w: World, ghost run: seq<Step>) returns (ok: bool, ghost longer: seq<Step>)
      requires t in tickets && t.wakeAt <= clock && W() == At(w, run, |run|) && PollRun(run)
      modifies this
      ensures W() == At(w, longer, |longer|) && PollRun(longer)
      ensures RowDone(old(W()), W(), t, ok)
      ensures healthy ==> ok
    {
      hide Apply, At, PerformStep, ClaimStep, Elapsed;
      ghost var before := W();
      var performed, stop := Elapse(t);
      AtAppend(w, run, Claim(t));
      longer := run + [Claim(t)];
      StepIsClaim(before, t);
      if performed {
        AtAppend(w, longer, Perform(t, stop));
        StepIsPerform(ClaimStep(before, t), t, stop);
        longer := longer + [Perform(t, stop)];
      }
      ok := !performed || stop == Done;
      assert performed ==> Elapsed(before, W(), t, stop);
    }

    /** One tick of the release poll loop, left alone. Whatever deliveries fail on the way, no vault
        that had a due event when the tick began is left cooling off; if none fails, each is released
        under one of its due events; other vaults are as they were. */
    method ReleaseElapseTick() returns (ok: bool, ghost run: seq<Step>)
      modifies this
      ensures W() == At(old(W()), run, |run|)
      ensures PollRun(run)
      ensures |vaults| == |old(vaults)|
      ensures forall e: nat :: FallenDue(old(W()), e) ==>
        var v := old(events)[e].vault; vaults[v].state != CoolingOff && (ok ==> Handled(old(W()), W(), v))
      ensures forall v: nat ::
        v < |vaults| && (forall e: nat :: FallenDue(old(W()), e) ==> old(events)[e].vault != v) ==>
        vaults[v] == old(vaults)[v]
      ensures healthy ==> ok
    {
      hide Apply, At, DueTickets, PollRun, Swept, RowDone;
      ghost var w := W();
      var due := ListDueReleases();
      RowsAreDue(w);
      tickets := tickets + multiset(due);
      run := [Poll];
      PollRunStarts();
      PollFirst(w);
      SweptNothing(w, W(), due);
      assert due[0..] == due;
      ok := true;
      for i := 0 to |due|
        invariant W() == At(w, run, |run|) && clock == w.clock
        invariant PollRun(run)
        invariant multiset(due[i..]) <= tickets
        invariant Swept(w, W(), due, i, ok)
        invariant healthy ==> ok
      {
        ghost var before := W();
        RowsLeft(due, i, tickets);
        var rowOk;
        rowOk, run := ElapseRow(due[i], w, run);
        RowFrame(before, W(), due[i], rowOk);
        SweptRow(w, before, W(), due, i, ok, rowOk);
        ok := ok && rowOk;
      }
      SweptAll(w, W(), due, ok);
    }
  }

  /** An event letter of a released vault, fired or not. */
  predicate EventLetterOpen(w: World, l: nat) {
    l < |w.letters| && InState(w, w.letters[l].vault, Released) && w.letters[l].mode == EventOnDemand
  }

  lemma FiredBefore(w: World, l: nat)
    requires EventLetterReady(w, l)
    ensures var w' := w.(letters := w.letters[l := w.letters[l].(eventReleasedAt := Some(w.clock))]);
      w' == ReleaseEventLetterStep(w, l, BeforeEvent) && Fired(w, w', l, w.letters[l].recipient, BeforeEvent)
  {}

  /** With `k` of the letter's claims issued, and with all of them and the event released. */
  lemma FiredSoFar(w: World, w2: World, l: nat, k: nat)
    requires EventLetterReady(w, l)
    requires w2 == w.(letters := w.letters[l := w.letters[l].(eventReleasedAt := Some(w.clock))],
                      events := w.events + [EventRow(w.letters[l].vault, false, None, w.clock, None, None)])
    requires k <= |LetterClaims(w2, |w.events|, l)|
    ensures var rows := LetterClaims(w2, |w.events|, l);
      var w' := w2.(claims := w.claims + rows[..k]);
      && w' == ReleaseEventLetterStep(w, l, Partial(k)) && Fired(w, w', l, w.letters[l].recipient, Partial(k))
      && (k == |rows| ==> MarkReleased(w', |w.events|) == ReleaseEventLetterStep(w, l, Complete)
                          && Fired(w, MarkReleased(w', |w.events|), l, w.letters[l].recipient, Complete))
  {
    var rows := LetterClaims(w2, |w.events|, l);
    var w' := w2.(claims := w.claims + rows[..k]);
    EventLetterStops(w, w2, l, k);
    LetterIssues(w2, |w.events|, l);
    LetterIssuesReads(w2, w, |w.events|, l, w.letters[l].recipient, rows);
    hide LetterClaims, ReleaseEventLetterStep, EventLetterReady;
    FiredPart(w, w', l, rows, k);
    if k == |rows| {
      FiredWhole(w, w', l, rows);
    }
  }

  lemma EventLetterStops(w: World, w2: World, l: nat, k: nat)
    requires EventLetterReady(w, l)
    requires w2 == w.(letters := w.letters[l := w.letters[l].(eventReleasedAt := Some(w.clock))],
                      events := w.events + [EventRow(w.letters[l].vault, false, None, w.clock, None, None)])
    requires k <= |LetterClaims(w2, |w.events|, l)|
    ensures var rows := LetterClaims(w2, |w.events|, l);
      var w' := w2.(claims := w.claims + rows[..k]);
      && w' == ReleaseEventLetterStep(w, l, Partial(k))
      && (k == |rows| ==> MarkReleased(w', |w.events|) == ReleaseEventLetterStep(w, l, Complete))
  {
    hide MarkReleased;
    var rows := LetterClaims(w2, |w.events|, l);
    assert k == |rows| ==> rows[..k] == rows;
    hide LetterClaims;
  }

  lemma FiredPart(w: World, w': World, l: nat, rows: seq<ClaimRow>, k: nat)
    requires l < |w.letters| && k <= |rows| && IssuesLetter(w, |w.events|, l, w.letters[l].recipient, rows)
    requires w' == w.(letters := w.letters[l := w.letters[l].(eventReleasedAt := Some(w.clock))],
                      events := w.events + [EventRow(w.letters[l].vault, false, None, w.clock, None, None)],
                      claims := w.claims + rows[..k])
    ensures Fired(w, w', l, w.letters[l].recipient, Partial(k))
  {
    hide IssuesLetter;
    assert w'.claims[|w.claims|..] == rows[..k];
  }

  lemma FiredWhole(w: World, w': World, l: nat, rows: seq<ClaimRow>)
    requires l < |w.letters| && IssuesLetter(w, |w.events|, l, w.letters[l].recipient, rows)
    requires w' == w.(letters := w.letters[l := w.letters[l].(eventReleasedAt := Some(w.clock))],
                      events := w.events + [EventRow(w.letters[l].vault, false, None, w.clock, None, None)],
                      claims := w.claims + rows[..|rows|])
    ensures Fired(w, MarkReleased(w', |w.events|), l, w.letters[l].recipient, Complete)
  {
    hide IssuesLetter;
    assert w'.claims[|w.claims|..] == rows;
  }

  lemma NotReady(w: World, l: nat, upTo: EventStop)
    requires !EventLetterReady(w, l)
    ensures ReleaseEventLetterStep(w, l, upTo) == w
  {}

  lemma StepIsTrigger(w: World, principal: nat)
    requires principal in w.duress
    ensures Apply(w, Trigger(principal)) == w.(duress := w.duress[principal := w.duress[principal].(triggered := true)])
  {}

  lemma StepIsDuressEnter(w: World, v: nat, observed: VaultState, completes: bool)
    requires Watchable(observed)
    ensures Apply(w, DuressEnter(v, observed, completes)) == EnterDurably(w, v, observed, completes)
  {
    hide EnterDurably;
  }

  /** A vault found in the state it was listed in is entered, and recorded unless that fails. */
  lemma EntersDurably(w: World, v: nat, from: VaultState, completes: bool)
    requires InState(w, v, from) && from != CoolingOff
    ensures EnterDurably(w, v, from, completes)
            == w.(vaults := w.vaults[v := Moved(w.vaults[v], CoolingOff, w.clock)],
                  events := if completes then w.events + [Deadline(v, w.vaults[v], w.clock)] else w.events)
  {}

  lemma NothingFresh(w: World)
    ensures FreshRun(w, [])
  {}

  lemma SameFrozen(w: World, w1: World, v: nat)
    requires w1.duress == w.duress && v < |w.vaults| == |w1.vaults| && w1.vaults[v] == w.vaults[v]
    ensures Frozen(w1, v) == Frozen(w, v)
  {}

  lemma NoSteps(w: World)
    ensures At(w, [], 0) == w
  {}

  lemma FreshAppend(w: World, run: seq<Step>, s: Step)
    requires FreshRun(w, run) && s.Aggregate? && InState(At(w, run, |run|), s.v, s.observed)
    requires s.frozen == Frozen(At(w, run, |run|), s.v)
    ensures FreshRun(w, run + [s])
  {
    hide Apply;
    forall j: nat | j <= |run|
      ensures At(w, run + [s], j) == At(w, run, j)
    {
      AtPrefix(w, run, [s], j);
    }
  }

  lemma PerformFails(w: World, t: Ticket, k: nat)
    requires t in w.performing && k <= |Delivery(w, t.event, t.vault, |w.letters|)|
    ensures PerformStep(w, t, DeliveryFails(k))
            == w.(performing := w.performing - multiset{t},
                  claims := w.claims + Delivery(w, t.event, t.vault, |w.letters|)[..k])
  {}

  lemma PerformCloses(w: World, t: Ticket, stop: Stop)
    requires t in w.performing && !stop.DeliveryFails?
    ensures PerformStep(w, t, stop)
            == CloseStep(w.(performing := w.performing - multiset{t},
                            claims := w.claims + Delivery(w, t.event, t.vault, |w.letters|)), t, stop)
  {
    hide CloseStep;
  }

  lemma StepIsClaim(w: World, t: Ticket)
    ensures Apply(w, Claim(t)) == ClaimStep(w, t)
  {
    hide ClaimStep;
  }

  lemma StepIsPerform(w: World, t: Ticket, stop: Stop)
    ensures Apply(w, Perform(t, stop)) == PerformStep(w, t, stop)
  {
    hide PerformStep;
  }

  lemma PollRunStarts()
    ensures PollRun([Poll])
  {}

  lemma PollFirst(w: World)
    ensures At(w, [Poll], 1) == w.(tickets := w.tickets + multiset(DueTickets(w, |w.events|)))
  {}

  /** The poll's list: rows of due events, awake now, and one for each of them. */
  lemma RowsAreDue(w: World)
    ensures forall k :: 0 <= k < |DueTickets(w, |w.events|)| ==> RowOfDue(w, DueTickets(w, |w.events|)[k])
    ensures forall e: nat :: FallenDue(w, e) ==>
      exists k :: 0 <= k < |DueTickets(w, |w.events|)| && DueTickets(w, |w.events|)[k].vault == w.events[e].vault
  {
    DueTicketsShape(w, |w.events|);
    var due := DueTickets(w, |w.events|);
    hide DueTickets;
    forall k | 0 <= k < |due|
      ensures RowOfDue(w, due[k])
    {
      assert due[k] in due;
    }
    forall e: nat | FallenDue(w, e)
      ensures exists k :: 0 <= k < |due| && due[k].vault == w.events[e].vault
    {
      var k := RowOf(due, Ticket(w.events[e].vault, e, w.events[e].drill, w.clock));
    }
  }

  lemma RowOf(due: seq<Ticket>, t: Ticket) returns (k: nat)
    requires t in due
    ensures k < |due| && due[k] == t
  {
    k :| 0 <= k < |due| && due[k] == t;
  }

  /** One poll, then claims and deliveries. */
  ghost predicate PollRun(run: seq<Step>) {
    run != [] && run[0] == Poll && forall j :: 1 <= j < |run| ==> run[j].Claim? || run[j].Perform?
  }

  lemma RowsLeft(due: seq<Ticket>, i: nat, ts: multiset<Ticket>)
    requires i < |due| && multiset(due[i..]) <= ts
    ensures due[i] in ts && multiset(due[i + 1..]) <= ts - multiset{due[i]}
  {
    assert due[i..] == [due[i]] + due[i + 1..];
    assert multiset(due[i..]) == multiset{due[i]} + multiset(due[i + 1..]);
  }
}
