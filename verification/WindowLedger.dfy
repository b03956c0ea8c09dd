/**
  Tumbling quota windows in the abstract: charges are posted to the current
  window, and a window is closed by the first operation that arrives at least
  one width after it was opened.  The bound proved here is shared by the daily
  run counter and the monthly token counter of the entitlement service.
 */
module WindowLedger {

  datatype Charge = Charge(at: nat, amount: nat)

  /** What the charges dated in [from, to) add up to. */
  function SumIn(cs: seq<Charge>, from: int, to: int): nat {
    if cs == [] then 0
    else
      var c := cs[|cs| - 1];
      SumIn(cs[..|cs| - 1], from, to) + (if from <= c.at < to then c.amount else 0)
  }

  /** A meter (`start`, `used`) together with its history: the charges of
      closed windows, those of the open one, and the amount that the latest
      accepted check has cleared and that has not been charged since. */
  datatype Ledger = Ledger(start: nat, used: nat, closed: seq<Charge>, open: seq<Charge>, cleared: nat)

  function Roll(l: Ledger, now: nat, width: nat): Ledger {
    if now - l.start >= width then Ledger(now, 0, l.closed + l.open, [], l.cleared) else l
  }

  function Clear(l: Ledger, amount: nat): Ledger {
    l.(cleared := amount)
  }

  function Post(l: Ledger, now: nat, amount: nat): Ledger {
    l.(used := l.used + amount, open := l.open + [Charge(now, amount)], cleared := 0)
  }

  /** The two window facts: no interval of one width that reaches into the
      open window sees more than one limit's worth of closed charges, and no
      interval of one width sees more than two limits' worth at all. */
  ghost predicate Valid(l: Ledger, now: nat, width: nat, limit: nat) {
    && l.start <= now
    && l.used + l.cleared <= limit
    && (forall a, b :: SumIn(l.open, a, b) <= l.used)
    && (forall c :: c in l.open ==> l.start <= c.at)
    && (forall c :: c in l.closed ==> c.at <= l.start)
    && (forall c :: c in l.open ==> c.at <= now)
    && (forall a, b :: l.start < b <= a + width ==> SumIn(l.closed, a, b) <= limit)
    && (forall a, b :: b <= a + width ==> SumIn(l.closed, a, b) <= 2 * limit)
  }

  lemma {:induction false} SumInConcat(x: seq<Charge>, y: seq<Charge>, a: int, b: int)
    ensures SumIn(x + y, a, b) == SumIn(x, a, b) + SumIn(y, a, b)
  {
    if y == [] {
      assert x + y == x;
    } else {
      var z := y[..|y| - 1];
      assert (x + y)[..|x + y| - 1] == x + z;
      SumInConcat(x, z, a, b);
    }
  }

  lemma {:induction false} SumInOutside(cs: seq<Charge>, a: int, b: int)
    requires forall c :: c in cs ==> c.at < a || b <= c.at
    ensures SumIn(cs, a, b) == 0
  {
    if cs != [] {
      SumInOutside(cs[..|cs| - 1], a, b);
    }
  }

  /** Any interval one width long holds at most twice the limit. */
  lemma TwiceTheLimit(l: Ledger, now: nat, width: nat, limit: nat, a: int, b: int)
    requires Valid(l, now, width, limit) && b <= a + width
    ensures SumIn(l.closed + l.open, a, b) <= 2 * limit
  {
    SumInConcat(l.closed, l.open, a, b);
    if b <= l.start {
      SumInOutside(l.open, a, b);
    }
  }

  lemma RollKeepsValid(l: Ledger, now: nat, later: nat, width: nat, limit: nat)
    requires Valid(l, now, width, limit) && now <= later
    ensures Valid(Roll(l, later, width), later, width, limit)
  {
    var r := Roll(l, later, width);
    if later - l.start >= width {
      forall a, b | b <= a + width ensures SumIn(r.closed, a, b) <= 2 * limit {
        TwiceTheLimit(l, now, width, limit, a, b);
      }
      forall a, b | r.start < b <= a + width ensures SumIn(r.closed, a, b) <= limit {
        SumInConcat(l.closed, l.open, a, b);
        SumInOutside(l.closed, a, b);
      }
    }
  }

  /** Validity does not depend on the clock once the window is open, and the
      cleared amount may be any that still fits. */
  lemma ClearKeepsValid(l: Ledger, now: nat, later: nat, width: nat, limit: nat, amount: nat)
    requires Valid(l, now, width, limit) && now <= later && l.used + amount <= limit
    ensures Valid(Clear(l, amount), later, width, limit)
  {
  }

  lemma PostKeepsValid(l: Ledger, now: nat, width: nat, limit: nat, amount: nat)
    requires Valid(l, now, width, limit) && amount <= l.cleared
    ensures Valid(Post(l, now, amount), now, width, limit)
  {
    var p := Post(l, now, amount);
    forall a, b ensures SumIn(p.open, a, b) <= p.used {
      SumInConcat(l.open, [Charge(now, amount)], a, b);
      assert SumIn([], a, b) == 0;
    }
  }

  /** What a call does to a meter: nothing, a check that clears an amount or
      clears nothing new, or a charge. */
  datatype MeterOp = Idle | Check(cleared: int) | Spend(amount: nat)

  function Touch(l: Ledger, now: nat, width: nat, op: MeterOp): Ledger {
    match op
    case Idle => l
    case Check(m) => if m < 0 then Roll(l, now, width) else Clear(Roll(l, now, width), m)
    case Spend(n) => Post(Roll(l, now, width), now, n)
  }

  lemma TouchKeepsValid(l: Ledger, now: nat, later: nat, width: nat, limit: nat, op: MeterOp)
    requires Valid(l, now, width, limit) && now <= later
    requires op.Check? ==> Roll(l, later, width).used + op.cleared <= limit
    requires op.Spend? ==> op.amount <= l.cleared
    ensures Valid(Touch(l, later, width, op), later, width, limit)
    ensures Touch(l, later, width, op).closed + Touch(l, later, width, op).open ==
      l.closed + l.open + (if op.Spend? then [Charge(later, op.amount)] else [])
  {
    var r := Roll(l, later, width);
    match op {
      case Idle => ClearKeepsValid(l, now, later, width, limit, l.cleared);
      case Check(m) =>
        RollKeepsValid(l, now, later, width, limit);
        if m >= 0 {
          ClearKeepsValid(r, later, later, width, limit, m);
        }
      case Spend(n) =>
        RollKeepsValid(l, now, later, width, limit);
        PostKeepsValid(r, later, width, limit, n);
    }
  }
}
