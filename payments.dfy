/** The values of api/main.go: the payment record and the two-sided summary,
    with the accumulation step shared by every summary loop. */
module Payments {

  /** Go's `Payment` struct as a value (what `Save` copies into the store).
      `amount` is in integer cents; `requestedAt` is the formatted timestamp text.
      `isDefault`, `err` and `attempts` are not part of the JSON form. */
  datatype Payment = Payment(
    id: string,
    amount: int,
    requestedAt: string,
    isDefault: bool,
    err: string,
    attempts: int)

  /** The value of `Err` that marks "delivered, only the save is pending". */
  const SaveStage: string := "SAVE"

  /** The payment `json.Unmarshal` produces from a submission: the fields tagged
      `json:"-"` keep their zero values. */
  function Decoded(id: string, amount: int, requestedAt: string): Payment
  {
    Payment(id, amount, requestedAt, false, "", 0)
  }

  datatype Summary = Summary(totalRequests: int, totalAmount: int)

  /** `default` aggregates the payments the principal processor took. */
  datatype PaymentSummary = PaymentSummary(default: Summary, fallback: Summary)

  const Zero: Summary := Summary(0, 0)
  const Empty: PaymentSummary := PaymentSummary(Zero, Zero)

  function Plus(a: Summary, b: Summary): Summary
  {
    Summary(a.totalRequests + b.totalRequests, a.totalAmount + b.totalAmount)
  }

  /** Field-wise sum, as the federation merge adds a peer's summary. */
  function Add(a: PaymentSummary, b: PaymentSummary): PaymentSummary
  {
    PaymentSummary(Plus(a.default, b.default), Plus(a.fallback, b.fallback))
  }

  /** `Empty` is the identity of `Add`: accumulating nothing changes nothing. */
  lemma AddEmpty(s: PaymentSummary)
    ensures Add(Empty, s) == s && Add(s, Empty) == s
  {
  }

  function Total(s: PaymentSummary): int
  {
    s.default.totalRequests + s.fallback.totalRequests
  }

  /** One iteration of the inner `for _, payment := range payments` loop. */
  function Record(acc: PaymentSummary, p: Payment): PaymentSummary
  {
    if p.isDefault then
      acc.(default := Summary(acc.default.totalRequests + 1, acc.default.totalAmount + p.amount))
    else
      acc.(fallback := Summary(acc.fallback.totalRequests + 1, acc.fallback.totalAmount + p.amount))
  }

  /** The summary of one bucket, accumulated front to back. */
  function BucketSummary(ps: seq<Payment>): PaymentSummary
    decreases |ps|
  {
    if ps == [] then Empty else Record(BucketSummary(ps[..|ps| - 1]), ps[|ps| - 1])
  }

  // ---------------------------------------------------------------------------
  // Reference definitions: the payments of one processor and their amounts.

  /** The payments of `ps` with the given `isDefault`, in order. */
  function Side(ps: seq<Payment>, isDefault: bool): (r: seq<Payment>)
    ensures |r| <= |ps|
    ensures forall p :: p in r <==> p in ps && p.isDefault == isDefault
    decreases |ps|
  {
    if ps == [] then []
    else
      var init, last := ps[..|ps| - 1], ps[|ps| - 1];
      assert ps == init + [last];
      Side(init, isDefault) + (if last.isDefault == isDefault then [last] else [])
  }

  function AmountOf(ps: seq<Payment>): int
    decreases |ps|
  {
    if ps == [] then 0 else AmountOf(ps[..|ps| - 1]) + ps[|ps| - 1].amount
  }

  function Tally(ps: seq<Payment>): Summary
  {
    Summary(|ps|, AmountOf(ps))
  }

  lemma {:induction false} AmountOfAppend(a: seq<Payment>, b: seq<Payment>)
    ensures AmountOf(a + b) == AmountOf(a) + AmountOf(b)
    decreases |b|
  {
    if b == [] {
      assert a + b == a;
    } else {
      var init, last := b[..|b| - 1], b[|b| - 1];
      assert (a + b)[..|a + b| - 1] == a + init;
      AmountOfAppend(a, init);
    }
  }

  /** How both sides change when the last payment of `ps` is taken into account. */
  lemma SideStep(ps: seq<Payment>)
    requires ps != []
    ensures var init, last := ps[..|ps| - 1], ps[|ps| - 1];
      && Tally(Side(ps, last.isDefault)) == Plus(Tally(Side(init, last.isDefault)), Summary(1, last.amount))
      && Side(ps, !last.isDefault) == Side(init, !last.isDefault)
  {
    var init, last := ps[..|ps| - 1], ps[|ps| - 1];
    AmountOfAppend(Side(init, last.isDefault), [last]);
    assert AmountOf([last]) == last.amount by {
      assert [last][..0] == [];
    }
  }

  /** A payment counts towards `default` iff `isDefault`, and each side's
      `totalAmount` is the sum of that side's amounts. */
  lemma {:induction false} BucketSummaryBySide(ps: seq<Payment>)
    ensures BucketSummary(ps) == PaymentSummary(Tally(Side(ps, true)), Tally(Side(ps, false)))
    decreases |ps|
  {
    if ps != [] {
      var init, last := ps[..|ps| - 1], ps[|ps| - 1];
      BucketSummaryBySide(init);
      SideStep(ps);
    }
  }

  /** The two sides partition the payments: their counts and amounts add up
      to the whole. */
  lemma {:induction false} SidesPartition(ps: seq<Payment>)
    ensures |Side(ps, true)| + |Side(ps, false)| == |ps|
    ensures AmountOf(Side(ps, true)) + AmountOf(Side(ps, false)) == AmountOf(ps)
    decreases |ps|
  {
    if ps != [] {
      SidesPartition(ps[..|ps| - 1]);
      SideStep(ps);
    }
  }

  /** Every payment of a bucket is counted exactly once, and the two amounts
      together are the bucket's total amount. */
  lemma BucketTotals(ps: seq<Payment>)
    ensures Total(BucketSummary(ps)) == |ps|
    ensures BucketSummary(ps).default.totalAmount + BucketSummary(ps).fallback.totalAmount == AmountOf(ps)
  {
    BucketSummaryBySide(ps);
    SidesPartition(ps);
  }

  lemma RecordAdd(u: PaymentSummary, v: PaymentSummary, p: Payment)
    ensures Record(Add(u, v), p) == Add(u, Record(v, p))
  {
  }

  /** Accumulating a concatenation is adding the two accumulations. */
  lemma {:induction false} BucketSummaryAppend(a: seq<Payment>, b: seq<Payment>)
    ensures BucketSummary(a + b) == Add(BucketSummary(a), BucketSummary(b))
    decreases |b|
  {
    if b == [] {
      assert a + b == a;
    } else {
      var init, last := b[..|b| - 1], b[|b| - 1];
      assert (a + b)[..|a + b| - 1] == a + init;
      assert (a + b)[|a + b| - 1] == last;
      BucketSummaryAppend(a, init);
      RecordAdd(BucketSummary(a), BucketSummary(init), last);
    }
  }
}
