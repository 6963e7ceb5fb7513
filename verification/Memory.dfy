/** Query-scoped memory accounting (src/runtime/memory.rs). Two atomic words are shared by every
    reservation of a query; each atomic access is one step, and steps of different reservations
    interleave freely. */
module Memory {
  import opened Basics

  /** What a reservation is doing between two of its atomic accesses. A reservation is borrowed
      exclusively by the call in progress, so it is in the middle of at most one. */
  datatype Doing =
    | Idle
    | Trying(current: U64, extra: U64)       // loaded `reserved`, about to compare and exchange
    | Raising(next: U64, extra: U64)         // exchanged, about to raise the peak
    | Growing(extra: U64)                    // reserved, about to add to its own size
    | Returning(released: U64)               // its own size reduced, about to subtract

  datatype Claim = Claim(bytes: U64, doing: Doing)

  datatype Accounts = Accounts(limit: U64, reserved: U64, peak: U64, claims: seq<Claim>)

  datatype Step =
    | Open                                   // a reservation that holds nothing yet
    | Load(i: nat, extra: U64)
    | Exchange(i: nat, spurious: bool)
    | Raise(i: nat)
    | Grow(i: nat)
    | Shrink(i: nat, bytes: U64)
    | Subtract(i: nat)

  function New(limit: U64): Accounts {
    Accounts(Max(limit, 1), 0, 0, [])
  }

  /** The step belongs to a reservation that is at that point of its code. */
  predicate Enabled(a: Accounts, step: Step) {
    match step
    case Open => true
    case Load(i, _) => i < |a.claims| && a.claims[i].doing.Idle?
    case Exchange(i, _) => i < |a.claims| && a.claims[i].doing.Trying?
    case Raise(i) => i < |a.claims| && a.claims[i].doing.Raising?
    case Grow(i) => i < |a.claims| && a.claims[i].doing.Growing?
    case Shrink(i, _) => i < |a.claims| && a.claims[i].doing.Idle?
    case Subtract(i) => i < |a.claims| && a.claims[i].doing.Returning?
  }

  /** The checks before a compare-exchange: both refusals leave the shared words alone. */
  function Attempt(limit: U64, current: U64, extra: U64): Doing {
    if current + extra > U64_MAX || current + extra > limit then Idle else Trying(current, extra)
  }

  /** `fetch_sub` on a 64-bit word wraps around. */
  function WrappingSub(x: U64, y: U64): (r: U64)
    ensures x >= y ==> r == x - y
  {
    if x >= y then x - y else x - y + U64_MAX + 1
  }

  function Next(a: Accounts, step: Step): Accounts
    requires Enabled(a, step)
  {
    match step
    case Open => a.(claims := a.claims + [Claim(0, Idle)])
    case Load(i, extra) =>
      var c := a.claims[i];
      if c.bytes + extra > U64_MAX then a
      else a.(claims := a.claims[i := c.(doing := Attempt(a.limit, a.reserved, extra))])
    case Exchange(i, spurious) =>
      var c := a.claims[i];
      var next := c.doing.current + c.doing.extra;
      if a.reserved == c.doing.current && !spurious && next <= U64_MAX then
        a.(reserved := next, claims := a.claims[i := c.(doing := Raising(next, c.doing.extra))])
      else
        a.(claims := a.claims[i := c.(doing := Attempt(a.limit, a.reserved, c.doing.extra))])
    case Raise(i) =>
      var c := a.claims[i];
      a.(peak := Max(a.peak, c.doing.next), claims := a.claims[i := c.(doing := Growing(c.doing.extra))])
    case Grow(i) =>
      var c := a.claims[i];
      var size := c.bytes + c.doing.extra;
      a.(claims := a.claims[i := Claim(if size <= U64_MAX then size else c.bytes, Idle)])
    case Shrink(i, bytes) =>
      var c := a.claims[i];
      var released := Min(bytes, c.bytes);
      a.(claims := a.claims[i := Claim(c.bytes - released, if released == 0 then Idle else Returning(released))])
    case Subtract(i) =>
      var c := a.claims[i];
      a.(reserved := WrappingSub(a.reserved, c.doing.released), claims := a.claims[i := c.(doing := Idle)])
  }

  // ----- what the shared words mean ---------------------------------------------------------

  /** Bytes a reservation accounts for: those it owns and those its call in progress has already
      taken from, or not yet returned to, the budget. */
  function Held(c: Claim): nat {
    c.bytes + match c.doing
              case Idle => 0
              case Trying(_, _) => 0
              case Raising(_, extra) => extra
              case Growing(extra) => extra
              case Returning(released) => released
  }

  function Total(claims: seq<Claim>): nat {
    if claims == [] then 0 else Total(claims[..|claims| - 1]) + Held(claims[|claims| - 1])
  }

  lemma {:induction false} TotalUpdate(claims: seq<Claim>, i: nat, c: Claim)
    requires i < |claims|
    ensures Total(claims[i := c]) == Total(claims) - Held(claims[i]) + Held(c)
    ensures Held(claims[i]) <= Total(claims)
  {
    var n := |claims| - 1;
    var updated := claims[i := c];
    if i == n {
      assert updated[..n] == claims[..n];
    } else {
      assert updated[..n] == claims[..n][i := c];
      TotalUpdate(claims[..n], i, c);
    }
  }

  predicate ClaimOk(limit: U64, c: Claim) {
    match c.doing
    case Idle => true
    case Trying(current, extra) => c.bytes + extra <= U64_MAX && current + extra <= limit
    case Raising(next, extra) => c.bytes + extra <= U64_MAX && next <= limit
    case Growing(extra) => c.bytes + extra <= U64_MAX
    case Returning(released) => true
  }

  ghost predicate Inv(a: Accounts) {
    && 0 < a.limit
    && a.reserved == Total(a.claims)
    && a.reserved <= a.limit
    && a.peak <= a.limit
    && forall i | 0 <= i < |a.claims| :: ClaimOk(a.limit, a.claims[i])
  }

  lemma NextInv(a: Accounts, step: Step)
    requires Inv(a) && Enabled(a, step)
    ensures Inv(Next(a, step))
  {
    var a' := Next(a, step);
    if step.Open? {
      assert a'.claims[..|a.claims|] == a.claims;
    } else if a' != a {
      TotalUpdate(a.claims, step.i, a'.claims[step.i]);
      assert a'.claims == a.claims[step.i := a'.claims[step.i]];
      assert ClaimOk(a.limit, a.claims[step.i]);
    }
  }

  /** The subtraction of a returning reservation never wraps around. */
  lemma NeverUnderflows(a: Accounts, i: nat)
    requires Inv(a) && Enabled(a, Subtract(i))
    ensures a.claims[i].doing.released <= a.reserved
    ensures Next(a, Subtract(i)).reserved == a.reserved - a.claims[i].doing.released
  {
    TotalUpdate(a.claims, i, a.claims[i]);
  }

  // ----- whole runs -------------------------------------------------------------------------

  datatype Run = Run(steps: seq<Step>, states: seq<Accounts>)

  ghost predicate Follows(run: Run, n: nat)
    requires n < |run.steps| < |run.states|
  {
    Enabled(run.states[n], run.steps[n]) && run.states[n + 1] == Next(run.states[n], run.steps[n])
  }

  ghost predicate IsRun(run: Run, limit: U64) {
    && |run.states| == |run.steps| + 1
    && run.states[0] == New(limit)
    && forall n: nat | n < |run.steps| :: Follows(run, n)
  }

  lemma {:induction false} RunInv(run: Run, limit: U64, n: nat)
    requires IsRun(run, limit) && n < |run.states|
    ensures Inv(run.states[n]) && run.states[n].limit == Max(limit, 1)
  {
    if n > 0 {
      RunInv(run, limit, n - 1);
      assert Follows(run, n - 1);
      NextInv(run.states[n - 1], run.steps[n - 1]);
    }
  }

  /** The largest value `reserved` has held up to and including state `n`. */
  ghost function Highest(run: Run, n: nat): U64
    requires n < |run.states|
  {
    if n == 0 then run.states[0].reserved else Max(Highest(run, n - 1), run.states[n].reserved)
  }

  lemma {:induction false} HighestIsMaximum(run: Run, n: nat)
    requires n < |run.states|
    ensures forall m: nat | m <= n :: run.states[m].reserved <= Highest(run, n)
    ensures exists m: nat :: m <= n && run.states[m].reserved == Highest(run, n)
  {
    if n == 0 {
      assert run.states[n].reserved == Highest(run, n);
    } else {
      HighestIsMaximum(run, n - 1);
      if Highest(run, n) != run.states[n].reserved {
        var m: nat :| m <= n - 1 && run.states[m].reserved == Highest(run, n - 1);
        assert m <= n;
      }
    }
  }

  predicate RaisesTo(a: Accounts, i: nat, value: U64) {
    i < |a.claims| && a.claims[i].doing.Raising? && a.claims[i].doing.next == value
  }

  /** The peak lags behind only by the raises still to be made. */
  ghost predicate PeakInv(a: Accounts, highest: U64) {
    && a.peak <= highest
    && (forall i | 0 <= i < |a.claims| && a.claims[i].doing.Raising? :: a.claims[i].doing.next <= highest)
    && (a.peak == highest || exists i: nat :: RaisesTo(a, i, highest))
  }

  lemma PeakKept(a: Accounts, step: Step, highest: U64)
    requires Inv(a) && Enabled(a, step) && a.reserved <= highest && PeakInv(a, highest)
    ensures PeakInv(Next(a, step), Max(highest, Next(a, step).reserved))
  {
    var a' := Next(a, step);
    var h' := Max(highest, a'.reserved);
    if step.Exchange? && a'.reserved > highest {
      assert RaisesTo(a', step.i, h');
    } else {
      if step.Subtract? { NeverUnderflows(a, step.i); }
      assert h' == highest;
      if a'.peak != highest {
        var i: nat :| RaisesTo(a, i, highest);
        assert RaisesTo(a', i, highest);
      }
    }
  }

  lemma {:induction false} RunPeak(run: Run, limit: U64, n: nat)
    requires IsRun(run, limit) && n < |run.states|
    ensures PeakInv(run.states[n], Highest(run, n)) && run.states[n].reserved <= Highest(run, n)
  {
    if n > 0 {
      RunPeak(run, limit, n - 1);
      RunInv(run, limit, n - 1);
      assert Follows(run, n - 1);
      PeakKept(run.states[n - 1], run.steps[n - 1], Highest(run, n - 1));
    }
  }

  /** Accounting is exact in every interleaving: the shared counter is the sum of what the
      reservations hold and never passes the limit; once no reserve is between its exchange and
      its raise, the peak is the largest value the counter ever held. */
  lemma AccountingIsExact(run: Run, limit: U64, n: nat)
    requires IsRun(run, limit) && n < |run.states|
    ensures var a := run.states[n];
      && a.reserved == Total(a.claims)
      && a.reserved <= Max(limit, 1)
      && ((forall i | 0 <= i < |a.claims| :: !a.claims[i].doing.Raising?) ==> a.peak == Highest(run, n))
  {
    RunInv(run, limit, n);
    RunPeak(run, limit, n);
  }

  /** Once every reservation has been dropped, the whole budget is back. */
  lemma {:induction false} NothingLeaks(claims: seq<Claim>)
    requires forall i | 0 <= i < |claims| :: claims[i] == Claim(0, Idle)
    ensures Total(claims) == 0
  {
    if claims != [] {
      NothingLeaks(claims[..|claims| - 1]);
    }
  }

  lemma DroppedRunIsEmpty(run: Run, limit: U64, n: nat)
    requires IsRun(run, limit) && n < |run.states|
    requires forall i | 0 <= i < |run.states[n].claims| :: run.states[n].claims[i] == Claim(0, Idle)
    ensures run.states[n].reserved == 0
  {
    RunInv(run, limit, n);
    NothingLeaks(run.states[n].claims);
  }

  /** A value that a reserve compares against was really held by the counter. */
  lemma {:induction false} ComparedTotalsWereHeld(run: Run, limit: U64, n: nat, i: nat)
    requires IsRun(run, limit) && n < |run.states|
    requires i < |run.states[n].claims| && run.states[n].claims[i].doing.Trying?
    ensures exists m: nat :: m <= n && run.states[m].reserved == run.states[n].claims[i].doing.current
  {
    assert Follows(run, n - 1);
    var a, a' := run.states[n - 1], run.states[n];
    if i < |a.claims| && a'.claims[i] == a.claims[i] {
      ComparedTotalsWereHeld(run, limit, n - 1, i);
      var m: nat :| m <= n - 1 && run.states[m].reserved == a.claims[i].doing.current;
      assert m <= n;
    } else {
      assert run.states[n - 1].reserved == a'.claims[i].doing.current;
    }
  }

  /** The bytes that a step of a reserve asks for. */
  function Asked(a: Accounts, step: Step): U64
    requires Enabled(a, step) && (step.Load? || step.Exchange?)
  {
    if step.Load? then step.extra else a.claims[step.i].doing.extra
  }

  /** The step ends its reserve with an error. */
  predicate Refuses(a: Accounts, step: Step)
    requires Enabled(a, step) && (step.Load? || step.Exchange?)
  {
    Next(a, step).claims[step.i].doing.Idle?
  }

  /** A reserve is refused exactly when, at that very step of whatever interleaving, what all the
      reservations hold together and what it asks for exceed the limit, or when its own size would
      overflow. A refusal changes nothing that anybody holds. */
  lemma RefusalsAreReal(run: Run, limit: U64, n: nat)
    requires IsRun(run, limit) && n < |run.steps| && (run.steps[n].Load? || run.steps[n].Exchange?)
    ensures Enabled(run.states[n], run.steps[n])
    ensures var a, a', step := run.states[n], run.states[n + 1], run.steps[n];
      && (Refuses(a, step) <==>
          || Total(a.claims) + Asked(a, step) > Max(limit, 1)
          || (step.Load? && a.claims[step.i].bytes + step.extra > U64_MAX))
      && (Refuses(a, step) ==>
          && a'.reserved == a.reserved && a'.peak == a.peak && Total(a'.claims) == Total(a.claims)
          && a'.claims == a.claims[step.i := Claim(a.claims[step.i].bytes, Idle)])
  {
    RunInv(run, limit, n);
    assert Follows(run, n);
    var a, a', step := run.states[n], run.states[n + 1], run.steps[n];
    assert ClaimOk(a.limit, a.claims[step.i]);
    if Refuses(a, step) {
      var idle := Claim(a.claims[step.i].bytes, Idle);
      assert a'.claims == a.claims[step.i := idle];
      TotalUpdate(a.claims, step.i, idle);
    }
  }

  // ----- one call without interference ------------------------------------------------------

  /** The steps of one `try_grow`, run without interruption. */
  function GrowAlone(a: Accounts, i: nat, extra: U64): Accounts
    requires i < |a.claims| && a.claims[i].doing.Idle?
  {
    var loaded := Next(a, Load(i, extra));
    if !loaded.claims[i].doing.Trying? then loaded
    else
      var exchanged := Next(loaded, Exchange(i, false));
      if !exchanged.claims[i].doing.Raising? then exchanged
      else Next(Next(exchanged, Raise(i)), Grow(i))
  }

  /** Undisturbed, a reservation grows exactly when its own size and the query budget allow it,
      and shrinking by the same amount gives the budget back. */
  lemma GrowMeetsItsSpecification(a: Accounts, i: nat, extra: U64)
    requires Inv(a) && i < |a.claims| && a.claims[i].doing.Idle?
    ensures var bytes := a.claims[i].bytes;
      GrowAlone(a, i, extra) ==
        if bytes + extra <= U64_MAX && a.reserved + extra <= a.limit then
          a.(reserved := a.reserved + extra,
             peak := Max(a.peak, a.reserved + extra),
             claims := a.claims[i := Claim(bytes + extra, Idle)])
        else a
  {
    assert a.claims[i] == Claim(a.claims[i].bytes, Idle);
    assert a.claims[i := a.claims[i]] == a.claims;
    var loaded := Next(a, Load(i, extra));
    if loaded.claims[i].doing.Trying? {
      var exchanged := Next(loaded, Exchange(i, false));
      var raised := Next(exchanged, Raise(i));
      assert Next(raised, Grow(i)).claims == a.claims[i := Claim(a.claims[i].bytes + extra, Idle)];
    }
  }

  lemma ShrinkUndoesGrow(a: Accounts, i: nat, extra: U64)
    requires Inv(a) && i < |a.claims| && a.claims[i].doing.Idle? && 0 < extra
    requires a.claims[i].bytes + extra <= U64_MAX && a.reserved + extra <= a.limit
    ensures var grown := GrowAlone(a, i, extra);
      Enabled(grown, Shrink(i, extra)) && Enabled(Next(grown, Shrink(i, extra)), Subtract(i)) &&
      Next(Next(grown, Shrink(i, extra)), Subtract(i)) == a.(peak := Max(a.peak, a.reserved + extra))
  {
    GrowMeetsItsSpecification(a, i, extra);
    var grown := GrowAlone(a, i, extra);
    var shrunk := Next(grown, Shrink(i, extra));
    assert Next(shrunk, Subtract(i)).claims == a.claims;
  }
}
