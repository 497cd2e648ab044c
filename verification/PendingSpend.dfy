/** In-flight spend reservations (pkg/proxy/pending_spend.go) and the protocol the
    proxy runs around them: read the balance, reserve, forward, deduct, release.
    USD amounts are real numbers. */
module PendingSpend {

  // ----- the tracker -----------------------------------------------------------------

  type Ledger = map<string, real>

  function Get(pending: Ledger, id: string): real {
    if id in pending then pending[id] else 0.0
  }

  /** The ledger after a reservation attempt: grown by the amount, or refused. */
  function TryReserve(pending: Ledger, id: string, remaining: real, amount: real, floor: real): (bool, Ledger) {
    if amount <= 0.0 || id == "" || remaining - Get(pending, id) - amount < floor then (false, pending)
    else (true, pending[id := Get(pending, id) + amount])
  }

  /** The ledger after a release: clamped at zero, and zero is not stored. */
  function Released(pending: Ledger, id: string, amount: real): Ledger {
    if amount <= 0.0 || id == "" then pending
    else if Get(pending, id) - amount <= 0.0 then pending - {id}
    else pending[id := Get(pending, id) - amount]
  }

  class PendingSpendTracker {
    var pending: Ledger

    constructor ()
      ensures pending == map[]
    {
      pending := map[];
    }

    method Reserve(userID: string, amountUSD: real) returns (total: real)
      modifies this
      ensures amountUSD <= 0.0 || userID == "" ==> pending == old(pending) && total == 0.0
      ensures amountUSD > 0.0 && userID != "" ==>
                pending == old(pending)[userID := total] && total == Get(old(pending), userID) + amountUSD
    {
      if amountUSD <= 0.0 || userID == "" {
        return 0.0;
      }
      pending := pending[userID := Get(pending, userID) + amountUSD];
      return pending[userID];
    }

    method Release(userID: string, amountUSD: real)
      modifies this
      ensures pending == Released(old(pending), userID, amountUSD)
    {
      if amountUSD <= 0.0 || userID == "" {
        return;
      }
      pending := pending[userID := Get(pending, userID) - amountUSD];
      if pending[userID] <= 0.0 {
        pending := pending - {userID};
        assert pending == old(pending) - {userID};
      }
    }

    method ReserveIfUnder(id: string, remaining: real, reserveAmount: real, floor: real) returns (ok: bool)
      modifies this
      ensures (ok, pending) == TryReserve(old(pending), id, remaining, reserveAmount, floor)
    {
      if reserveAmount <= 0.0 || id == "" {
        return false;
      }
      var effective := remaining - Get(pending, id) - reserveAmount;
      if effective < floor {
        return false;
      }
      pending := pending[id := Get(pending, id) + reserveAmount];
      return true;
    }
  }

  // ----- the protocol -----------------------------------------------------------------

  /** Deductions are numbered; `at` is the number of deductions before this point,
      `credited` the credits the user had received by then. */
  datatype Phase =
    | Idle
    | Reading(remaining: real, at: nat, credited: real)
    | Refused
    | Reserved
    | Deducted(cost: real, at: nat)
    | Done(cost: real, at: nat)
    | Abandoned

  datatype Request = Request(user: string, amount: real, phase: Phase)

  datatype World = World(balance: Ledger, pending: Ledger, deductions: nat, credited: Ledger, reqs: seq<Request>)

  datatype Step =
    | ReadBalance(i: nat)
    | Reserve(i: nat)
    | Deduct(i: nat, usd: real)
    | Release(i: nat)
    | TopUp(user: string, usd: real)

  /** A deduction costs at most what was reserved, a request releases only after
      deducting or when giving up, and top-ups are not negative. */
  ghost predicate Enabled(w: World, s: Step) {
    match s
    case ReadBalance(i) => i < |w.reqs| && (w.reqs[i].phase.Idle? || w.reqs[i].phase.Reading?)
    case Reserve(i) => i < |w.reqs| && w.reqs[i].phase.Reading?
    case Deduct(i, usd) => i < |w.reqs| && w.reqs[i].phase.Reserved? && 0.0 <= usd <= w.reqs[i].amount
    case Release(i) => i < |w.reqs| && (w.reqs[i].phase.Reserved? || w.reqs[i].phase.Deducted?)
    case TopUp(_, usd) => usd >= 0.0
  }

  ghost function Next(w: World, s: Step, floor: real): World
    requires Enabled(w, s)
  {
    match s
    case ReadBalance(i) =>
      Move(w, i, Looked(w, w.reqs[i].user))
    case Reserve(i) =>
      var (ok, pending) := TryReserve(w.pending, w.reqs[i].user, w.reqs[i].phase.remaining, w.reqs[i].amount, floor);
      Move(w, i, if ok then Reserved else Refused).(pending := pending)
    case Deduct(i, usd) =>
      var u := w.reqs[i].user;
      Move(w, i, Deducted(usd, w.deductions)).(deductions := w.deductions + 1, balance := w.balance[u := Get(w.balance, u) - usd])
    case Release(i) =>
      var r := w.reqs[i];
      Move(w, i, if r.phase.Deducted? then Done(r.phase.cost, r.phase.at) else Abandoned)
        .(pending := Released(w.pending, r.user, r.amount))
    case TopUp(u, usd) =>
      w.(balance := w.balance[u := Get(w.balance, u) + usd], credited := w.credited[u := Get(w.credited, u) + usd])
  }

  /** What a balance read leaves a request with. */
  ghost function Looked(w: World, user: string): Phase {
    Reading(Get(w.balance, user), w.deductions, Get(w.credited, user))
  }

  ghost function Move(w: World, i: nat, p: Phase): World
    requires i < |w.reqs|
  {
    w.(reqs := w.reqs[i := w.reqs[i].(phase := p)])
  }

  /** The proviso: nobody who deducted after this request's balance read has been
      released by the time the request reserves. */
  ghost predicate Prudent(w: World, s: Step) {
    s.Reserve? && s.i < |w.reqs| && w.reqs[s.i].phase.Reading? ==>
      forall j :: 0 <= j < |w.reqs| && w.reqs[j].phase.Done? && w.reqs[j].user == w.reqs[s.i].user
                  ==> w.reqs[j].phase.at < w.reqs[s.i].phase.at
  }

  // ----- sums over requests ---------------------------------------------------------------

  datatype Quantity =
    | Outstanding            // reserved and not yet released
    | Undeducted             // reserved and not yet deducted
    | SpentSince(at: nat)    // deducted from the given point on
    | ReleasedSince(at: nat) // of that, by requests released by now
    | Headroom(at: nat)      // reserved by requests that deducted, less what they did since the point

  ghost function Weight(q: Quantity, user: string, r: Request): real {
    if r.user != user then 0.0
    else match q
      case Outstanding => if r.phase.Reserved? || r.phase.Deducted? then r.amount else 0.0
      case Undeducted => if r.phase.Reserved? then r.amount else 0.0
      case SpentSince(at) => if (r.phase.Deducted? || r.phase.Done?) && at <= r.phase.at then r.phase.cost else 0.0
      case ReleasedSince(at) => if r.phase.Done? && at <= r.phase.at then r.phase.cost else 0.0
      case Headroom(at) =>
        if !r.phase.Deducted? then 0.0 else if at <= r.phase.at then r.amount - r.phase.cost else r.amount
  }

  ghost function Sum(q: Quantity, user: string, reqs: seq<Request>): real {
    if reqs == [] then 0.0
    else Sum(q, user, reqs[..|reqs| - 1]) + Weight(q, user, reqs[|reqs| - 1])
  }

  lemma {:induction false} SumUpdate(q: Quantity, user: string, reqs: seq<Request>, i: nat, r: Request)
    requires i < |reqs|
    ensures Sum(q, user, reqs[i := r]) == Sum(q, user, reqs) - Weight(q, user, reqs[i]) + Weight(q, user, r)
  {
    var init := reqs[..|reqs| - 1];
    if i == |reqs| - 1 {
      assert reqs[i := r][..|reqs| - 1] == init;
    } else {
      assert reqs[i := r][..|reqs| - 1] == init[i := r];
      SumUpdate(q, user, init, i, r);
    }
  }

  ghost predicate AmountsOk(reqs: seq<Request>) {
    forall i :: 0 <= i < |reqs| ==>
      var r := reqs[i];
      && (r.phase.Reserved? || r.phase.Deducted? ==> r.amount > 0.0 && r.user != "")
      && (r.phase.Deducted? ==> 0.0 <= r.phase.cost <= r.amount)
      && (r.phase.Done? ==> 0.0 <= r.phase.cost)
  }

  /** Outstanding reservations are positive, and the sum is zero only when there are none. */
  lemma {:induction false} OutstandingAtLeast(user: string, reqs: seq<Request>, i: nat)
    requires AmountsOk(reqs) && i < |reqs|
    ensures Sum(Outstanding, user, reqs) >= Weight(Outstanding, user, reqs[i]) >= 0.0
  {
    var init := reqs[..|reqs| - 1];
    OutstandingNonneg(user, init);
    if i < |init| { OutstandingAtLeast(user, init, i); }
  }

  lemma {:induction false} OutstandingNonneg(user: string, reqs: seq<Request>)
    requires AmountsOk(reqs)
    ensures Sum(Outstanding, user, reqs) >= 0.0
  {
    if reqs != [] { OutstandingNonneg(user, reqs[..|reqs| - 1]); }
  }

  /** What was deducted since a point is partly released and partly still covered. */
  lemma {:induction false} SpendingSplits(user: string, reqs: seq<Request>, at: nat)
    ensures Sum(SpentSince(at), user, reqs) + Sum(Undeducted, user, reqs) - Sum(Outstanding, user, reqs)
         == Sum(ReleasedSince(at), user, reqs) - Sum(Headroom(at), user, reqs)
  {
    if reqs != [] { SpendingSplits(user, reqs[..|reqs| - 1], at); }
  }

  /** When nobody who deducted since a point has been released, nothing is uncovered. */
  lemma {:induction false} NothingReleased(user: string, reqs: seq<Request>, at: nat)
    requires AmountsOk(reqs)
    requires forall j :: 0 <= j < |reqs| && reqs[j].user == user && reqs[j].phase.Done? ==> reqs[j].phase.at < at
    ensures Sum(ReleasedSince(at), user, reqs) == 0.0 && Sum(Headroom(at), user, reqs) >= 0.0
  {
    if reqs != [] { NothingReleased(user, reqs[..|reqs| - 1], at); }
  }

  // ----- safety ---------------------------------------------------------------------------

  /** The tracker shows, for every user, exactly the outstanding reservations. */
  ghost predicate LedgerExact(w: World) {
    forall u :: Get(w.pending, u) == Sum(Outstanding, u, w.reqs) && (u in w.pending <==> Sum(Outstanding, u, w.reqs) > 0.0)
  }

  /** Credits the user of a reading request received since the read. */
  ghost function CreditsSince(w: World, i: nat): real
    requires i < |w.reqs| && w.reqs[i].phase.Reading?
  {
    Get(w.credited, w.reqs[i].user) - w.reqs[i].phase.credited
  }

  /** A balance read is off by exactly what was deducted and credited since. */
  ghost predicate StaleExact(w: World) {
    forall i :: 0 <= i < |w.reqs| && w.reqs[i].phase.Reading? ==>
      var r := w.reqs[i];
      && CreditsSince(w, i) >= 0.0
      && r.phase.remaining - Get(w.balance, r.user) == Sum(SpentSince(r.phase.at), r.user, w.reqs) - CreditsSince(w, i)
  }

  /** Deductions are numbered below the counter. */
  ghost predicate Numbered(w: World) {
    forall i :: 0 <= i < |w.reqs| ==>
      var p := w.reqs[i].phase;
      && (p.Reading? ==> p.at <= w.deductions)
      && (p.Deducted? || p.Done? ==> p.at < w.deductions)
  }

  /** Even if every open reservation is deducted in full, the floor holds. */
  ghost predicate Solvent(w: World, floor: real) {
    forall i {:trigger w.reqs[i]} :: 0 <= i < |w.reqs| ==>
      Get(w.balance, w.reqs[i].user) - Sum(Undeducted, w.reqs[i].user, w.reqs) >= floor
  }

  ghost predicate Consistent(w: World) {
    AmountsOk(w.reqs) && Numbered(w) && LedgerExact(w) && StaleExact(w)
  }

  ghost predicate Initial(w: World, floor: real) {
    && w.pending == map[]
    && forall i :: 0 <= i < |w.reqs| ==> w.reqs[i].phase.Idle? && Get(w.balance, w.reqs[i].user) >= floor
  }

  lemma {:induction false} IdleSum(q: Quantity, user: string, reqs: seq<Request>)
    requires forall i :: 0 <= i < |reqs| ==> reqs[i].phase.Idle?
    ensures Sum(q, user, reqs) == 0.0
  {
    if reqs != [] { IdleSum(q, user, reqs[..|reqs| - 1]); }
  }

  lemma InitialSafe(w: World, floor: real)
    requires Initial(w, floor)
    ensures Consistent(w) && Solvent(w, floor)
  {
    forall q, u ensures Sum(q, u, w.reqs) == 0.0 { IdleSum(q, u, w.reqs); }
  }

  lemma Moved(w: World, i: nat, p: Phase)
    requires i < |w.reqs|
    ensures forall q, u :: Sum(q, u, Move(w, i, p).reqs) == Sum(q, u, w.reqs) - Weight(q, u, w.reqs[i]) + Weight(q, u, w.reqs[i].(phase := p))
  {
    forall q, u ensures Sum(q, u, Move(w, i, p).reqs)
         == Sum(q, u, w.reqs) - Weight(q, u, w.reqs[i]) + Weight(q, u, w.reqs[i].(phase := p))
    {
      SumUpdate(q, u, w.reqs, i, w.reqs[i].(phase := p));
    }
  }

  lemma {:induction false} NothingSpentSinceNow(user: string, reqs: seq<Request>, now: nat)
    requires forall i :: 0 <= i < |reqs| ==> (reqs[i].phase.Deducted? || reqs[i].phase.Done? ==> reqs[i].phase.at < now)
    ensures Sum(SpentSince(now), user, reqs) == 0.0
  {
    if reqs != [] { NothingSpentSinceNow(user, reqs[..|reqs| - 1], now); }
  }

  lemma ConsistentRead(w: World, i: nat, floor: real)
    requires Consistent(w) && Enabled(w, ReadBalance(i))
    ensures Consistent(Next(w, ReadBalance(i), floor))
  {
    hide Sum;
    Moved(w, i, Looked(w, w.reqs[i].user));
    NothingSpentSinceNow(w.reqs[i].user, w.reqs, w.deductions);
  }

  lemma ConsistentReserve(w: World, i: nat, floor: real)
    requires Consistent(w) && Enabled(w, Reserve(i))
    ensures Consistent(Next(w, Reserve(i), floor))
  {
    hide Sum;
    Moved(w, i, Reserved);
    Moved(w, i, Refused);
    OutstandingNonneg(w.reqs[i].user, w.reqs);
  }

  lemma ConsistentDeduct(w: World, i: nat, usd: real, floor: real)
    requires Consistent(w) && Enabled(w, Deduct(i, usd))
    ensures Consistent(Next(w, Deduct(i, usd), floor))
  {
    hide Sum;
    Moved(w, i, Deducted(usd, w.deductions));
  }

  lemma ConsistentRelease(w: World, i: nat, floor: real)
    requires Consistent(w) && Enabled(w, Release(i))
    ensures Consistent(Next(w, Release(i), floor))
  {
    hide Sum;
    var r := w.reqs[i];
    var p := if r.phase.Deducted? then Done(r.phase.cost, r.phase.at) else Abandoned;
    Moved(w, i, p);
    OutstandingAtLeast(r.user, w.reqs, i);
  }

  /** Every step keeps the tracker exact and stale reads accounted for, prudent or not. */
  lemma ConsistentStep(w: World, s: Step, floor: real)
    requires Consistent(w) && Enabled(w, s)
    ensures Consistent(Next(w, s, floor))
  {
    match s
    case ReadBalance(i) => ConsistentRead(w, i, floor);
    case Reserve(i) => ConsistentReserve(w, i, floor);
    case Deduct(i, usd) => ConsistentDeduct(w, i, usd, floor);
    case Release(i) => ConsistentRelease(w, i, floor);
    case TopUp(_, _) =>
  }

  /** How far the tracker's view (balance as read, less pending) exceeds what is really
      free (balance now, less reservations still to be deducted): by what was released
      since the read, less what deducted requests still hold and what was credited. */
  lemma ViewGap(w: World, i: nat)
    requires Consistent(w) && i < |w.reqs| && w.reqs[i].phase.Reading?
    ensures var r := w.reqs[i];
      (r.phase.remaining - Get(w.pending, r.user)) - (Get(w.balance, r.user) - Sum(Undeducted, r.user, w.reqs))
      == Sum(ReleasedSince(r.phase.at), r.user, w.reqs) - Sum(Headroom(r.phase.at), r.user, w.reqs) - CreditsSince(w, i)
  {
    hide Sum;
    SpendingSplits(w.reqs[i].user, w.reqs, w.reqs[i].phase.at);
  }

  ghost predicate Accepts(w: World, s: Step, floor: real) {
    s.Reserve? && Enabled(w, s)
    && TryReserve(w.pending, w.reqs[s.i].user, w.reqs[s.i].phase.remaining, w.reqs[s.i].amount, floor).0
  }

  /** What released requests spent since the read is covered: by what deducted requests
      still hold, by credits, or by what the reservation leaves above the floor. */
  ghost predicate Covered(w: World, s: Step, floor: real) {
    Accepts(w, s, floor) ==>
      var r := w.reqs[s.i];
      Sum(ReleasedSince(r.phase.at), r.user, w.reqs)
      <= Sum(Headroom(r.phase.at), r.user, w.reqs) + CreditsSince(w, s.i)
         + (r.phase.remaining - Get(w.pending, r.user) - r.amount - floor)
  }

  /** A step keeps the floor safe exactly when it is covered. */
  lemma SolventStepIff(w: World, s: Step, floor: real)
    requires Consistent(w) && Enabled(w, s) && Solvent(w, floor)
    ensures Solvent(Next(w, s, floor), floor) <==> Covered(w, s, floor)
  {
    hide Sum;
    match s
    case ReadBalance(i) => Moved(w, i, Looked(w, w.reqs[i].user));
    case Reserve(i) =>
      Moved(w, i, Reserved);
      Moved(w, i, Refused);
      ViewGap(w, i);
      ReserveSolventIff(w, i, floor);
    case Deduct(i, usd) => Moved(w, i, Deducted(usd, w.deductions));
    case Release(i) =>
      var r := w.reqs[i];
      Moved(w, i, if r.phase.Deducted? then Done(r.phase.cost, r.phase.at) else Abandoned);
    case TopUp(_, _) =>
  }

  lemma ReserveSolventIff(w: World, i: nat, floor: real)
    requires Consistent(w) && Enabled(w, Reserve(i)) && Solvent(w, floor)
    ensures var r := w.reqs[i];
      Solvent(Next(w, Reserve(i), floor), floor) <==>
      (Accepts(w, Reserve(i), floor) ==> Get(w.balance, r.user) - Sum(Undeducted, r.user, w.reqs) - r.amount >= floor)
  {
    hide Sum; hide Consistent;
    Moved(w, i, Reserved);
    Moved(w, i, Refused);
    var w' := Next(w, Reserve(i), floor);
    var r, r' := w.reqs[i], w'.reqs[i];
    assert r'.user == r.user;
    if Accepts(w, Reserve(i), floor) {
      assert Sum(Undeducted, r.user, w'.reqs) == Sum(Undeducted, r.user, w.reqs) + r.amount;
    }
    forall j | 0 <= j < |w.reqs| && w.reqs[j].user != r.user
      ensures w'.reqs[j] == w.reqs[j] && Sum(Undeducted, w.reqs[j].user, w'.reqs) == Sum(Undeducted, w.reqs[j].user, w.reqs)
    {
    }
    assert forall j :: 0 <= j < |w.reqs| ==> w'.reqs[j].user == w.reqs[j].user;
  }

  /** The proviso is one way of being covered. */
  lemma PrudentIsCovered(w: World, s: Step, floor: real)
    requires Consistent(w) && Enabled(w, s) && Prudent(w, s)
    ensures Covered(w, s, floor)
  {
    hide Sum;
    if s.Reserve? { NothingReleased(w.reqs[s.i].user, w.reqs, w.reqs[s.i].phase.at); }
  }

  // ----- whole runs -------------------------------------------------------------------------

  ghost predicate IsRun(w: World, steps: seq<Step>, floor: real)
    decreases |steps|
  {
    steps == [] || (Enabled(w, steps[0]) && IsRun(Next(w, steps[0], floor), steps[1..], floor))
  }

  ghost function Final(w: World, steps: seq<Step>, floor: real): World
    requires IsRun(w, steps, floor)
    decreases |steps|
  {
    if steps == [] then w else Final(Next(w, steps[0], floor), steps[1..], floor)
  }

  ghost predicate PrudentRun(w: World, steps: seq<Step>, floor: real)
    requires IsRun(w, steps, floor)
    decreases |steps|
  {
    steps == [] || (Prudent(w, steps[0]) && PrudentRun(Next(w, steps[0], floor), steps[1..], floor))
  }

  ghost predicate CoveredRun(w: World, steps: seq<Step>, floor: real)
    requires IsRun(w, steps, floor)
    decreases |steps|
  {
    steps == [] || (Covered(w, steps[0], floor) && CoveredRun(Next(w, steps[0], floor), steps[1..], floor))
  }

  ghost predicate SolventThroughout(w: World, steps: seq<Step>, floor: real)
    requires IsRun(w, steps, floor)
    decreases |steps|
  {
    Solvent(w, floor) && (steps == [] || SolventThroughout(Next(w, steps[0], floor), steps[1..], floor))
  }

  lemma {:induction false} ConsistentRun(w: World, steps: seq<Step>, floor: real)
    requires Consistent(w) && IsRun(w, steps, floor)
    ensures Consistent(Final(w, steps, floor))
    decreases |steps|
  {
    if steps != [] {
      ConsistentStep(w, steps[0], floor);
      ConsistentRun(Next(w, steps[0], floor), steps[1..], floor);
    }
  }

  lemma {:induction false} SolventRunIff(w: World, steps: seq<Step>, floor: real)
    requires Consistent(w) && Solvent(w, floor) && IsRun(w, steps, floor)
    ensures SolventThroughout(w, steps, floor) <==> CoveredRun(w, steps, floor)
    ensures CoveredRun(w, steps, floor) ==> Solvent(Final(w, steps, floor), floor)
    decreases |steps|
  {
    hide Consistent; hide Solvent; hide Covered; hide Next; hide Enabled;
    if steps != [] {
      var w' := Next(w, steps[0], floor);
      ConsistentStep(w, steps[0], floor);
      SolventStepIff(w, steps[0], floor);
      if Solvent(w', floor) {
        SolventRunIff(w', steps[1..], floor);
      } else {
        NotSolventAtStart(w', steps[1..], floor);
      }
    }
  }

  lemma NotSolventAtStart(w: World, steps: seq<Step>, floor: real)
    requires IsRun(w, steps, floor) && !Solvent(w, floor)
    ensures !SolventThroughout(w, steps, floor)
  {
  }

  lemma {:induction false} PrudentRunIsCovered(w: World, steps: seq<Step>, floor: real)
    requires Consistent(w) && IsRun(w, steps, floor) && PrudentRun(w, steps, floor)
    ensures CoveredRun(w, steps, floor)
    decreases |steps|
  {
    hide Consistent; hide Covered; hide Prudent; hide Next; hide Enabled;
    if steps != [] {
      ConsistentStep(w, steps[0], floor);
      PrudentIsCovered(w, steps[0], floor);
      PrudentRunIsCovered(Next(w, steps[0], floor), steps[1..], floor);
    }
  }

  lemma {:induction false} UndeductedNonneg(user: string, reqs: seq<Request>)
    requires AmountsOk(reqs)
    ensures Sum(Undeducted, user, reqs) >= 0.0
  {
    if reqs != [] { UndeductedNonneg(user, reqs[..|reqs| - 1]); }
  }

  ghost predicate AboveFloor(w: World, floor: real) {
    forall i :: 0 <= i < |w.reqs| ==> Get(w.balance, w.reqs[i].user) >= floor
  }

  lemma SolventAboveFloor(w: World, floor: real)
    requires Consistent(w) && Solvent(w, floor)
    ensures AboveFloor(w, floor)
  {
    forall i | 0 <= i < |w.reqs| ensures Get(w.balance, w.reqs[i].user) >= floor {
      UndeductedNonneg(w.reqs[i].user, w.reqs);
    }
  }

  /** Concurrent reservation safety: in every interleaving the tracker equals the
      outstanding reservations, and in every prudent one no balance is below the floor. */
  lemma ReservationSafety(w: World, steps: seq<Step>, floor: real)
    requires Initial(w, floor) && IsRun(w, steps, floor)
    ensures LedgerExact(Final(w, steps, floor))
    ensures PrudentRun(w, steps, floor) ==> AboveFloor(Final(w, steps, floor), floor)
  {
    hide Solvent; hide CoveredRun; hide PrudentRun; hide AboveFloor; hide IsRun; hide Final;
    InitialSafe(w, floor);
    ConsistentRun(w, steps, floor);
    if PrudentRun(w, steps, floor) {
      PrudentRunIsCovered(w, steps, floor);
      SolventRunIff(w, steps, floor);
      SolventAboveFloor(Final(w, steps, floor), floor);
    }
  }

  // ----- exactly when the floor is safe ----------------------------------------------------------

  ghost predicate OnlyDeducts(steps: seq<Step>) {
    forall i :: 0 <= i < |steps| ==> steps[i].Deduct?
  }

  /** However the reservations accepted so far are deducted, no balance drops below the floor. */
  ghost predicate FloorSafe(w: World, floor: real) {
    forall steps :: OnlyDeducts(steps) && IsRun(w, steps, floor) ==> AboveFloor(Final(w, steps, floor), floor)
  }

  lemma {:induction false} DeductsAreCovered(w: World, steps: seq<Step>, floor: real)
    requires OnlyDeducts(steps) && IsRun(w, steps, floor)
    ensures CoveredRun(w, steps, floor)
    decreases |steps|
  {
    if steps != [] { DeductsAreCovered(Next(w, steps[0], floor), steps[1..], floor); }
  }

  /** Deducting the first `n` open reservations of a user in full. */
  lemma {:induction false} DeductFirst(w: World, user: string, n: nat, floor: real) returns (steps: seq<Step>)
    requires n <= |w.reqs| && AmountsOk(w.reqs)
    ensures OnlyDeducts(steps) && IsRun(w, steps, floor)
    ensures var end := Final(w, steps, floor);
      && |end.reqs| == |w.reqs| && end.reqs[n..] == w.reqs[n..]
      && (forall j :: 0 <= j < |w.reqs| ==> end.reqs[j].user == w.reqs[j].user)
      && Get(end.balance, user) == Get(w.balance, user) - Sum(Undeducted, user, w.reqs[..n])
  {
    if n == 0 {
      steps := [];
      assert w.reqs[..0] == [];
    } else {
      var before := DeductFirst(w, user, n - 1, floor);
      var mid, r := Final(w, before, floor), w.reqs[n - 1];
      assert mid.reqs[n - 1] == mid.reqs[n - 1..][0] == w.reqs[n - 1..][0] == r;
      assert w.reqs[..n][..n - 1] == w.reqs[..n - 1];
      assert mid.reqs[n..] == mid.reqs[n - 1..][1..] == w.reqs[n - 1..][1..] == w.reqs[n..];
      if r.user == user && r.phase.Reserved? {
        steps := DeductOne(w, before, n - 1, floor);
      } else {
        steps := before;
      }
    }
  }

  lemma DeductOne(w: World, before: seq<Step>, i: nat, floor: real) returns (steps: seq<Step>)
    requires OnlyDeducts(before) && IsRun(w, before, floor)
    requires var mid := Final(w, before, floor); i < |mid.reqs| && mid.reqs[i].phase.Reserved? && mid.reqs[i].amount >= 0.0
    ensures OnlyDeducts(steps) && IsRun(w, steps, floor)
    ensures var mid := Final(w, before, floor);
      Final(w, steps, floor) == Next(mid, Deduct(i, mid.reqs[i].amount), floor)
  {
    hide Next;
    var mid := Final(w, before, floor);
    var last := Deduct(i, mid.reqs[i].amount);
    FinalOf(mid, [last], floor, Next(mid, last, floor));
    RunAppend(w, before, [last], floor);
    steps := before + [last];
  }

  /** Solvency is what it takes, and no more. */
  lemma FloorSafeIff(w: World, floor: real)
    requires Consistent(w)
    ensures FloorSafe(w, floor) <==> Solvent(w, floor)
  {
    hide Sum; hide IsRun; hide Final; hide Next;
    if Solvent(w, floor) {
      forall steps | OnlyDeducts(steps) && IsRun(w, steps, floor) ensures AboveFloor(Final(w, steps, floor), floor) {
        hide Solvent; hide Consistent; hide AboveFloor;
        DeductsAreCovered(w, steps, floor);
        SolventRunIff(w, steps, floor);
        ConsistentRun(w, steps, floor);
        SolventAboveFloor(Final(w, steps, floor), floor);
      }
    }
    if FloorSafe(w, floor) {
      forall i {:trigger w.reqs[i]} | 0 <= i < |w.reqs|
        ensures Get(w.balance, w.reqs[i].user) - Sum(Undeducted, w.reqs[i].user, w.reqs) >= floor
      {
        var steps := DeductFirst(w, w.reqs[i].user, |w.reqs|, floor);
        var end := Final(w, steps, floor);
        assert w.reqs[..|w.reqs|] == w.reqs;
        assert end.reqs[i].user == w.reqs[i].user;
      }
    }
  }

  ghost predicate FloorSafeThroughout(w: World, steps: seq<Step>, floor: real)
    requires IsRun(w, steps, floor)
    decreases |steps|
  {
    FloorSafe(w, floor) && (steps == [] || FloorSafeThroughout(Next(w, steps[0], floor), steps[1..], floor))
  }

  lemma {:induction false} ThroughoutIff(w: World, steps: seq<Step>, floor: real)
    requires Consistent(w) && IsRun(w, steps, floor)
    ensures FloorSafeThroughout(w, steps, floor) <==> SolventThroughout(w, steps, floor)
    decreases |steps|
  {
    hide Consistent; hide Solvent; hide FloorSafe; hide Next; hide Enabled;
    FloorSafeIff(w, floor);
    if steps != [] {
      ConsistentStep(w, steps[0], floor);
      ThroughoutIff(Next(w, steps[0], floor), steps[1..], floor);
    }
  }

  /** The exact condition over whole runs: the floor is safe at every moment, whatever
      the accepted reservations turn out to cost, iff at every accepted reservation the
      spending released since its balance read was covered. */
  lemma FloorSafeRunIff(w: World, steps: seq<Step>, floor: real)
    requires Initial(w, floor) && IsRun(w, steps, floor)
    ensures FloorSafeThroughout(w, steps, floor) <==> CoveredRun(w, steps, floor)
  {
    hide Solvent; hide CoveredRun; hide SolventThroughout; hide FloorSafeThroughout; hide IsRun;
    InitialSafe(w, floor);
    ThroughoutIff(w, steps, floor);
    SolventRunIff(w, steps, floor);
  }

  ghost predicate AcceptsOnlySafe(w: World, i: nat, floor: real)
    requires i < |w.reqs| && w.reqs[i].phase.Reading?
  {
    forall amount: real ::
      var u := w.reqs[i].user;
      TryReserve(w.pending, u, w.reqs[i].phase.remaining, amount, floor).0
      ==> Get(w.balance, u) - Sum(Undeducted, u, w.reqs) - amount >= floor
  }

  /** For one reading request, whatever amount it asks for: only safe reservations are
      accepted iff what was released since its read is covered by what deducted requests
      still hold and by credits, or there is no room above the floor at all. */
  lemma AcceptsOnlySafeIff(w: World, i: nat, floor: real)
    requires Consistent(w) && i < |w.reqs| && w.reqs[i].phase.Reading? && w.reqs[i].user != ""
    ensures var r := w.reqs[i];
      AcceptsOnlySafe(w, i, floor) <==>
        || Sum(ReleasedSince(r.phase.at), r.user, w.reqs) <= Sum(Headroom(r.phase.at), r.user, w.reqs) + CreditsSince(w, i)
        || r.phase.remaining - Get(w.pending, r.user) <= floor
  {
    hide Sum;
    ViewGap(w, i);
    var r := w.reqs[i];
    var room := r.phase.remaining - Get(w.pending, r.user) - floor;
    if room > 0.0 {
      assert TryReserve(w.pending, r.user, r.phase.remaining, room, floor).0;
    }
  }

  lemma {:induction false} RunAppend(w: World, a: seq<Step>, b: seq<Step>, floor: real)
    requires IsRun(w, a, floor) && IsRun(Final(w, a, floor), b, floor)
    ensures IsRun(w, a + b, floor) && Final(w, a + b, floor) == Final(Final(w, a, floor), b, floor)
    decreases |a|
  {
    if a == [] {
      assert a + b == b;
    } else {
      RunAppend(Next(w, a[0], floor), a[1..], b, floor);
      assert (a + b)[1..] == a[1..] + b;
    }
  }

  const TEN: World := World(map["u" := 10.0], map[], 0, map[], [Request("u", 10.0, Idle), Request("u", 10.0, Idle)])
  const READ: World := TEN.(reqs := [Request("u", 10.0, Reading(10.0, 0, 0.0)), Request("u", 10.0, Reading(10.0, 0, 0.0))])
  const SPENT: World :=
    World(map["u" := 0.0], map[], 1, map[], [Request("u", 10.0, Done(10.0, 0)), Request("u", 10.0, Reading(10.0, 0, 0.0))])

  lemma BothRead()
    ensures IsRun(TEN, [ReadBalance(0), ReadBalance(1)], 0.0) && Final(TEN, [ReadBalance(0), ReadBalance(1)], 0.0) == READ
  {
    var w1 := Next(TEN, ReadBalance(0), 0.0);
    FinalOf(w1, [ReadBalance(1)], 0.0, READ);
    assert [ReadBalance(0), ReadBalance(1)][1..] == [ReadBalance(1)];
    FinalOf(TEN, [ReadBalance(0), ReadBalance(1)], 0.0, READ);
  }

  lemma FirstSpends()
    ensures var steps := [Reserve(0), Deduct(0, 10.0), Release(0)];
      IsRun(READ, steps, 0.0) && Final(READ, steps, 0.0) == SPENT
  {
    var steps := [Reserve(0), Deduct(0, 10.0), Release(0)];
    var w1 := Next(READ, steps[0], 0.0);
    var w2 := Next(w1, steps[1], 0.0);
    assert Next(w2, steps[2], 0.0) == SPENT;
    FinalOf(w2, steps[2..], 0.0, SPENT);
    FinalOf(w1, steps[1..], 0.0, SPENT);
    FinalOf(READ, steps, 0.0, SPENT);
  }

  lemma SecondOverspends()
    ensures var steps := [Reserve(1), Deduct(1, 10.0)];
      IsRun(SPENT, steps, 0.0) && Get(Final(SPENT, steps, 0.0).balance, "u") == -10.0
  {
    var steps := [Reserve(1), Deduct(1, 10.0)];
    var w1 := Next(SPENT, steps[0], 0.0);
    assert w1.reqs[1].phase == Reserved;
    var w2 := Next(w1, steps[1], 0.0);
    FinalOf(w1, steps[1..], 0.0, w2);
    FinalOf(SPENT, steps, 0.0, w2);
  }

  /** Uncovered, the floor breaks: both requests read the balance, the first reserves,
      deducts and releases, and the second still reserves against its old read. */
  lemma StaleReadOverspends()
    ensures var steps := [ReadBalance(0), ReadBalance(1)] + [Reserve(0), Deduct(0, 10.0), Release(0)] + [Reserve(1), Deduct(1, 10.0)];
      Initial(TEN, 0.0) && IsRun(TEN, steps, 0.0) && Get(Final(TEN, steps, 0.0).balance, "u") == -10.0
  {
    hide Next; hide IsRun; hide Final;
    BothRead();
    FirstSpends();
    SecondOverspends();
    RunAppend(TEN, [ReadBalance(0), ReadBalance(1)], [Reserve(0), Deduct(0, 10.0), Release(0)], 0.0);
    RunAppend(TEN, [ReadBalance(0), ReadBalance(1)] + [Reserve(0), Deduct(0, 10.0), Release(0)], [Reserve(1), Deduct(1, 10.0)], 0.0);
  }

  lemma FinalOf(w: World, steps: seq<Step>, floor: real, end: World)
    requires steps != [] && Enabled(w, steps[0])
    requires if |steps| == 1 then Next(w, steps[0], floor) == end
             else IsRun(Next(w, steps[0], floor), steps[1..], floor) && Final(Next(w, steps[0], floor), steps[1..], floor) == end
    ensures IsRun(w, steps, floor) && Final(w, steps, floor) == end
  {
  }
}
