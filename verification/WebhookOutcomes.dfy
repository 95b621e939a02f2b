/**
 What each step of a webhook delivery comes to, read off the stored record: which
 deliveries are checked, what lets one through to its claim, when it is posted, and
 what an outcome makes of it.
*/
module WebhookOutcomes {
  import opened Common
  import opened FeltDb
  import opened Webhooks
  import opened WebhookTheorems

  /** The step wrote nothing and the call goes on here, or ends. */
  predicate GoesOn(s: State, s': State, call: nat, phase: Phase)
    requires call in s.calls
  {
    s'.deliveries == s.deliveries && call in s'.calls && s'.calls[call] == s.calls[call].(phase := phase)
  }

  predicate Returns(s: State, s': State, call: nat) {
    s'.deliveries == s.deliveries && call !in s'.calls
  }

  /** A delivery of the tenant is read; one that says delivered or delivering is only replayed. */
  lemma ReadDecides(maxAttempts: nat, s: State, call: nat, input: Input)
    requires call in s.calls && s.calls[call].phase.Entered?
    ensures var t, s' := s.calls[call].task, Step(maxAttempts, s, Go(call, input));
            if t.id in s.deliveries && s.deliveries[t.id].value.tenant == t.tenant
               && (t.Replay? || s.deliveries[t.id].value.status.Pending? || s.deliveries[t.id].value.status.Retrying? || s.deliveries[t.id].value.status.Failed?)
            then GoesOn(s, s', call, Checking(s.deliveries[t.id])) else Returns(s, s', call)
  {}

  /** An enabled endpoint of the tenant and this application, with a signing reference and an attested principal of the tenant. */
  predicate MayBeDelivered(f: Facts) {
    f.endpoint && f.ofTenant && f.ofApplication && !f.disabled && f.principal && f.signingRef && f.refusal.None?
  }

  /** An enabled endpoint of this application, and the caller is authorized. */
  predicate MayBeReplayed(f: Facts) {
    f.endpoint && f.ofApplication && !f.disabled && f.refusal.None?
  }

  /** Not this application's to touch: answered, and nothing is written. */
  predicate IsForeign(f: Facts) {
    !f.endpoint || !f.ofTenant || !f.ofApplication
  }

  /** A delivery is claimed exactly if it may be delivered, and failed for good exactly if it is ours and may not; a replay starts over or returns. */
  lemma CheckDecides(maxAttempts: nat, s: State, call: nat, input: Input)
    requires call in s.calls && s.calls[call].phase.Checking?
    ensures var c, s', f := s.calls[call], Step(maxAttempts, s, Go(call, input)), input.facts; var row := c.phase.row;
            if c.task.Replay? then (if MayBeReplayed(f) then GoesOn(s, s', call, ToReset(row)) else Returns(s, s', call))
            else if MayBeDelivered(f) then GoesOn(s, s', call, ToClaim(row))
            else if IsForeign(f) then Returns(s, s', call)
            else GoesOn(s, s', call, Rejecting(row))
  {}

  /** The one record is rewritten over the version read. */
  predicate Rewrites(s: State, s': State, id: string, row: Row<Delivery>) {
    && id in s.deliveries && s.deliveries[id] == row && id in s'.deliveries
    && s'.deliveries == s.deliveries[id := s'.deliveries[id]] && s'.deliveries[id].version == row.version + 1
  }

  predicate StillAsRead(s: State, id: string, row: Row<Delivery>) {
    id in s.deliveries && s.deliveries[id].version == row.version
  }

  /** Only the status moves. */
  predicate BecomesOnly(d: Delivery, status: Status, d': Delivery) {
    d' == d.(status := status)
  }

  /** A claim or a rejection moves the status of the record read and nothing else, or nothing at all. */
  lemma ClaimDecides(maxAttempts: nat, s: State, call: nat, input: Input)
    requires Inv(s) && call in s.calls && (s.calls[call].phase.ToClaim? || s.calls[call].phase.Rejecting?)
    ensures var c, s' := s.calls[call], Step(maxAttempts, s, Go(call, input)); var id, row := c.task.id, c.phase.row;
            if !StillAsRead(s, id, row) then Returns(s, s', call)
            else
              && Rewrites(s, s', id, row) && BecomesOnly(row.value, if c.phase.ToClaim? then Delivering else Failed, s'.deliveries[id].value)
              && if c.phase.ToClaim? then call in s'.calls && s'.calls[call].phase == Claimed(s'.deliveries[id]) && s'.calls[call].task == c.task
                 else call !in s'.calls
  {
    hide HoldersDistinct, Settled;
    assert CallOk(s.deliveries, Epoch(s, s.calls[call].task.id), s.calls[call]);
  }

  /** A claimed delivery reaches the network, or ends with a failure; once posted, with its success or the provider's error. */
  lemma PostDecides(maxAttempts: nat, s: State, call: nat, input: Input)
    requires call in s.calls && (s.calls[call].phase.Claimed? || s.calls[call].phase.Posted?)
    ensures var p, s' := s.calls[call].phase, Step(maxAttempts, s, Go(call, input));
            if p.Claimed? && input.posts then GoesOn(s, s', call, Posted(p.row))
            else
              && call in s'.calls && s'.calls[call].phase.Settling? && GoesOn(s, s', call, Settling(p.row, s'.calls[call].phase.outcome))
              && var outcome := s'.calls[call].phase.outcome;
                 && (outcome.Success? <==> p.Posted? && input.outcome.Success?)
                 && (p.Posted? ==> outcome.Success? || outcome.Provider?)
                 && (!input.outcome.Success? && (p.Claimed? || input.outcome.Provider?) ==> outcome == input.outcome)
  {}

  /** The answers after which another attempt is no use. */
  predicate IsFinal(code: nat) {
    (300 <= code <= 399) || (400 <= code <= 407) || (409 <= code <= 428) || (430 <= code <= 499)
  }

  /** What an outcome makes of the claimed record. */
  ghost predicate SettlesAs(maxAttempts: nat, d: Delivery, outcome: Outcome, now: nat, d': Delivery) {
    && d' == d.(status := d'.status, attemptCount := d'.attemptCount, nextAttemptAt := d'.nextAttemptAt)
    && (d'.status.Delivered? <==> outcome.Success?)
    // Only what the network answered counts.
    && d'.attemptCount == d.attemptCount + (if outcome.Success? || outcome.Provider? then 1 else 0)
    && (d'.status.Failed? <==>
          || outcome.Denied? || outcome.Unfit?
          || (outcome.Provider? && (d'.attemptCount >= maxAttempts || (outcome.code.Some? && IsFinal(outcome.code.value)))))
    && (d'.status.Retrying? <==> !d'.status.Delivered? && !d'.status.Failed?)
    // The wait doubles with each counted attempt.
    && d'.nextAttemptAt == (if !d'.status.Retrying? then d.nextAttemptAt else Some(now + (if outcome.Provider? then 5000 * Pow2(d.attemptCount) else 5000)))
  }

  lemma SettledSettles(maxAttempts: nat, d: Delivery, outcome: Outcome, now: nat)
    ensures SettlesAs(maxAttempts, d, outcome, now, Settled(maxAttempts, d, outcome, now))
  {
    hide Pow2;
  }

  /** An outcome settles the record the call still holds, and a newer one is left alone. */
  lemma SettleDecides(maxAttempts: nat, s: State, call: nat, input: Input)
    requires Inv(s) && call in s.calls && s.calls[call].phase.Settling?
    ensures var c, s' := s.calls[call], Step(maxAttempts, s, Go(call, input)); var id, row := c.task.id, c.phase.row;
            && call !in s'.calls
            && if StillAsRead(s, id, row) then Rewrites(s, s', id, row) && SettlesAs(maxAttempts, row.value, c.phase.outcome, s.clock, s'.deliveries[id].value)
               else s'.deliveries == s.deliveries
  {
    hide HoldersDistinct, Settled, SettlesAs;
    var c := s.calls[call];
    assert CallOk(s.deliveries, Epoch(s, c.task.id), c);
    SettledSettles(maxAttempts, c.phase.row.value, c.phase.outcome, s.clock);
  }

  /** A replayed delivery is pending with all its attempts before it, and due at once. */
  predicate StartsOver(d: Delivery, d': Delivery) {
    d'.tenant == d.tenant && d'.status.Pending? && d'.attemptCount == 0 && d'.nextAttemptAt.None?
  }

  lemma ResetDecides(maxAttempts: nat, s: State, call: nat, input: Input)
    requires Inv(s) && call in s.calls && s.calls[call].phase.ToReset?
    ensures var c, s' := s.calls[call], Step(maxAttempts, s, Go(call, input)); var id, row := c.task.id, c.phase.row;
            && call !in s'.calls
            && if StillAsRead(s, id, row) then Rewrites(s, s', id, row) && StartsOver(row.value, s'.deliveries[id].value) else s'.deliveries == s.deliveries
  {
    hide HoldersDistinct, Settled;
    assert CallOk(s.deliveries, Epoch(s, s.calls[call].task.id), s.calls[call]);
  }

  /** The auxiliary notes say what happened: a claim, a post and a replay are noted exactly when they are one. */
  lemma NotesAreTrue(maxAttempts: nat, s: State, call: nat, input: Input)
    requires Inv(s) && call in s.calls
    ensures var note, p, s' := EffectOf(maxAttempts, s, call, input).note, s.calls[call].phase, Step(maxAttempts, s, Go(call, input));
            && (note.NoteClaim? <==> call in s'.calls && s'.calls[call].phase.Claimed?)
            && (note.NotePost? <==> call in s'.calls && s'.calls[call].phase.Posted?)
            && (note.NoteReplay? <==> p.ToReset? && s'.deliveries != s.deliveries)
  {
    hide HoldersDistinct, Settled;
    assert CallOk(s.deliveries, Epoch(s, s.calls[call].task.id), s.calls[call]);
  }

  // ---------------------------------------------------------------------------
  // Nothing is posted unchecked
  // ---------------------------------------------------------------------------

  /** At instant `i` the call read a delivery of its tenant that was neither delivered nor being delivered. */
  ghost predicate ReadAt(tr: seq<State>, acts: seq<Action>, i: nat, call: nat, id: string, row: Row<Delivery>) {
    && i < |acts| < |tr| && acts[i].Go? && acts[i].call == call && call in tr[i].calls && tr[i].calls[call].task == Deliver(row.value.tenant, id)
    && id in tr[i].deliveries && tr[i].deliveries[id] == row && !row.value.status.Delivered? && !row.value.status.Delivering?
  }

  /** At instant `i` the delivery it had read might be delivered. */
  ghost predicate CheckedAt(tr: seq<State>, acts: seq<Action>, i: nat, call: nat) {
    i < |acts| < |tr| && acts[i].Go? && acts[i].call == call && MayBeDelivered(acts[i].input.facts)
  }

  ghost predicate WasRead(tr: seq<State>, acts: seq<Action>, i: nat, call: nat, id: string, row: Row<Delivery>) {
    exists j: nat :: j < i && ReadAt(tr, acts, j, call, id, row)
  }

  ghost predicate WasChecked(tr: seq<State>, acts: seq<Action>, i: nat, call: nat, id: string, row: Row<Delivery>) {
    exists j: nat :: j < i && CheckedAt(tr, acts, j, call) && WasRead(tr, acts, j, call, id, row)
  }

  /** The record the call claimed is the one it read and checked, one version on. */
  ghost predicate ClaimHasPast(tr: seq<State>, acts: seq<Action>, i: nat, call: nat, id: string, claimed: Row<Delivery>) {
    exists row: Row<Delivery> :: WasChecked(tr, acts, i, call, id, row) && claimed == Row(row.value.(status := Delivering), row.version + 1)
  }

  ghost predicate HasPast(tr: seq<State>, acts: seq<Action>, i: nat, call: nat)
    requires i < |tr| && call in tr[i].calls
  {
    var c := tr[i].calls[call];
    match c.phase
    case Checking(row) => c.task.Deliver? ==> WasRead(tr, acts, i, call, c.task.id, row)
    case ToClaim(row) => WasChecked(tr, acts, i, call, c.task.id, row)
    case Claimed(row) => ClaimHasPast(tr, acts, i, call, c.task.id, row)
    case Posted(row) => ClaimHasPast(tr, acts, i, call, c.task.id, row)
    case _ => true
  }

  lemma ClaimGrows(tr: seq<State>, acts: seq<Action>, i: nat, call: nat, id: string, claimed: Row<Delivery>)
    requires ClaimHasPast(tr, acts, i, call, id, claimed)
    ensures ClaimHasPast(tr, acts, i + 1, call, id, claimed)
  {
    hide ReadAt, CheckedAt, WasRead;
    var row: Row<Delivery> :| WasChecked(tr, acts, i, call, id, row) && claimed == Row(row.value.(status := Delivering), row.version + 1);
    assert WasChecked(tr, acts, i + 1, call, id, row);
  }

  lemma PastGrows(tr: seq<State>, acts: seq<Action>, i: nat, call: nat)
    requires i + 1 < |tr| && call in tr[i].calls && call in tr[i + 1].calls && tr[i + 1].calls[call] == tr[i].calls[call]
    requires HasPast(tr, acts, i, call)
    ensures HasPast(tr, acts, i + 1, call)
  {
    hide ReadAt, CheckedAt;
    var c := tr[i].calls[call];
    if c.phase.Claimed? || c.phase.Posted? {
      ClaimGrows(tr, acts, i, call, c.task.id, c.phase.row);
    }
  }

  lemma ReadHere(tr: seq<State>, acts: seq<Action>, i: nat, call: nat, id: string, row: Row<Delivery>)
    requires ReadAt(tr, acts, i, call, id, row)
    ensures WasRead(tr, acts, i + 1, call, id, row)
  {}

  lemma CheckedHere(tr: seq<State>, acts: seq<Action>, i: nat, call: nat, id: string, row: Row<Delivery>)
    requires CheckedAt(tr, acts, i, call) && WasRead(tr, acts, i, call, id, row)
    ensures WasChecked(tr, acts, i + 1, call, id, row)
  {}

  lemma ClaimedHere(tr: seq<State>, acts: seq<Action>, i: nat, call: nat, id: string, row: Row<Delivery>)
    requires WasChecked(tr, acts, i, call, id, row)
    ensures ClaimHasPast(tr, acts, i + 1, call, id, Row(row.value.(status := Delivering), row.version + 1))
  {
    hide WasRead, CheckedAt;
    assert WasChecked(tr, acts, i + 1, call, id, row);
  }

  lemma NextPast(maxAttempts: nat, tr: seq<State>, acts: seq<Action>, i: nat, call: nat, input: Input)
    requires i < |acts| && |tr| == |acts| + 1 && Inv(tr[i]) && call in tr[i].calls && HasPast(tr, acts, i, call)
    requires acts[i] == Go(call, input) && tr[i + 1] == Step(maxAttempts, tr[i], acts[i]) && call in tr[i + 1].calls
    ensures HasPast(tr, acts, i + 1, call)
  {
    hide Step, Inv, WasRead, WasChecked, ClaimHasPast, SettlesAs;
    var s, c := tr[i], tr[i].calls[call];
    var id := c.task.id;
    match c.phase
    case Entered =>
      ReadDecides(maxAttempts, s, call, input);
      if c.task.Deliver? {
        ReadHere(tr, acts, i, call, id, s.deliveries[id]);
      }
    case Checking(row) =>
      CheckDecides(maxAttempts, s, call, input);
      if c.task.Deliver? && MayBeDelivered(input.facts) {
        CheckedHere(tr, acts, i, call, id, row);
      }
    case ToClaim(row) =>
      ClaimDecides(maxAttempts, s, call, input);
      ClaimedHere(tr, acts, i, call, id, row);
    case Rejecting(_) => ClaimDecides(maxAttempts, s, call, input);
    case Claimed(row) =>
      PostDecides(maxAttempts, s, call, input);
      ClaimGrows(tr, acts, i, call, id, row);
    case Posted(_) => PostDecides(maxAttempts, s, call, input);
    case Settling(_, _) => SettleDecides(maxAttempts, s, call, input);
    case ToReset(_) => ResetDecides(maxAttempts, s, call, input);
  }

  lemma {:induction false} CallsHavePasts(maxAttempts: nat, tr: seq<State>, acts: seq<Action>, i: nat, call: nat)
    requires IsRun(maxAttempts, tr, acts) && tr[0] == EMPTY && i < |tr| && call in tr[i].calls
    ensures HasPast(tr, acts, i, call)
  {
    hide Inv, EffectOf, WasRead, WasChecked, ClaimHasPast;
    if i > 0 {
      EmptyIsFine(maxAttempts);
      RunKeepsInv(maxAttempts, tr, acts, i - 1);
      var s, a := tr[i - 1], acts[i - 1];
      if a.Go? && a.call == call {
        CallsHavePasts(maxAttempts, tr, acts, i - 1, call);
        NextPast(maxAttempts, tr, acts, i - 1, call, a.input);
      } else if call in s.calls && tr[i].calls[call] == s.calls[call] {
        CallsHavePasts(maxAttempts, tr, acts, i - 1, call);
        PastGrows(tr, acts, i - 1, call);
      }
    }
  }

  /**
   Over every run nothing is posted that this very call did not read as deliverable,
   then found attested at an enabled endpoint of ours, and then claimed as read.
  */
  lemma NoPostUnchecked(maxAttempts: nat, tr: seq<State>, acts: seq<Action>, i: nat, call: nat) returns (read: nat, checked: nat, row: Row<Delivery>)
    requires IsRun(maxAttempts, tr, acts) && tr[0] == EMPTY && i < |tr| && call in tr[i].calls && tr[i].calls[call].phase.Posted?
    ensures read < checked < i && ReadAt(tr, acts, read, call, tr[i].calls[call].task.id, row) && CheckedAt(tr, acts, checked, call)
    ensures tr[i].calls[call].phase.row == Row(row.value.(status := Delivering), row.version + 1)
  {
    hide ReadAt, CheckedAt, IsRun;
    CallsHavePasts(maxAttempts, tr, acts, i, call);
    var id, claimed := tr[i].calls[call].task.id, tr[i].calls[call].phase.row;
    var r: Row<Delivery> :| WasChecked(tr, acts, i, call, id, r) && claimed == Row(r.value.(status := Delivering), r.version + 1);
    row := r;
    checked :| checked < i && CheckedAt(tr, acts, checked, call) && WasRead(tr, acts, checked, call, id, row);
    read :| read < checked && ReadAt(tr, acts, read, call, id, row);
  }
}
