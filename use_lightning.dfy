/**
 * The mocked Lightning wallet hook: a balance that starts at 25000 sats, a connection
 * flag set by a simulated timer, a mock payment that deducts 100 sats, a mock invoice
 * and an escrow lock that deducts the amount with no check that it is covered. The
 * browser wallet (WebLN) branches and the timers' delays are not modelled; the clock is
 * the parameter `now`.
 */
module UseLightning {
  import opened Js

  const InitialBalance: int := 25000

  /** What the simulated payment deducts from the balance. */
  const MockPaymentDeduction: int := 100

  /** What the simulated payment reports as its fee. */
  const MockReportedFee: int := 1

  datatype PaymentResponse = PaymentResponse(preimage: string, fee: int, success: bool)

  datatype Invoice = Invoice(paymentRequest: string, rHash: string)

  datatype LockResult = LockResult(success: bool, escrowId: string, amount: int)

  /** `escrow_${bountyId}_${Date.now()}`. */
  function EscrowId(bountyId: string, now: nat): (r: string)
    ensures |r| > |"escrow_"| + |bountyId| + 1
    ensures r[..7] == "escrow_"
  {
    "escrow_" + bountyId + "_" + NatToString(now)
  }

  /** What the mock invoice's payment request carries after its `lnbc` prefix. */
  function InvoiceTail(amount: int, now: nat): string {
    IntToString(amount) + "u1...mock_invoice_" + NatToString(now)
  }

  /** The mock invoice: `lnbc${amount}u1...mock_invoice_${now}` and `mock_hash_${now}`. */
  function MockInvoice(amount: int, now: nat): (inv: Invoice)
    ensures |inv.paymentRequest| > 4 && inv.paymentRequest[..4] == "lnbc"
    ensures inv.paymentRequest[4..] == InvoiceTail(amount, now)
    ensures inv.rHash == "mock_hash_" + NatToString(now)
  {
    var tail := InvoiceTail(amount, now);
    PrefixAndRest("lnbc", tail);
    Invoice("lnbc" + tail, "mock_hash_" + NatToString(now))
  }

  /** A concatenation splits back into its two parts. */
  lemma PrefixAndRest(p: string, t: string)
    ensures (p + t)[..|p|] == p && (p + t)[|p|..] == t
  {
  }

  /** `parseInt` of the invoice text after "lnbc" gives back the requested amount. */
  lemma InvoiceAmountRecoverable(amount: int, now: nat)
    ensures ParseInt(MockInvoice(amount, now).paymentRequest[4..]) == Int(amount)
  {
    var rest := "u1...mock_invoice_" + NatToString(now);
    assert InvoiceTail(amount, now) == IntToString(amount) + rest;
    ParseIntOfIntToString(amount, rest);
  }

  /** The mock payment's response. */
  function MockPayment(now: nat): (r: PaymentResponse)
    ensures r.success && r.fee == MockReportedFee
    ensures |r.preimage| > 14 && r.preimage[..14] == "mock_preimage_" && r.preimage[14..] == NatToString(now)
  {
    PrefixAndRest("mock_preimage_", NatToString(now));
    PaymentResponse("mock_preimage_" + NatToString(now), MockReportedFee, true)
  }

  // Recovering the two parts of an escrow id

  /** The text after the last `sep` (all of `s` when there is none). */
  function AfterLast(s: string, sep: char): string
    decreases |s|
  {
    if s == [] then []
    else if s[|s| - 1] == sep then []
    else AfterLast(s[..|s| - 1], sep) + [s[|s| - 1]]
  }

  /** The text before the last `sep` (empty when there is none). */
  function BeforeLast(s: string, sep: char): string
    decreases |s|
  {
    if s == [] then []
    else if s[|s| - 1] == sep then s[..|s| - 1]
    else BeforeLast(s[..|s| - 1], sep)
  }

  /** Joining `x` and a separator-free `d` with `sep` can be undone at the last separator. */
  lemma {:induction false} SplitAtLast(x: string, sep: char, d: string)
    requires forall i | 0 <= i < |d| :: d[i] != sep
    ensures AfterLast(x + [sep] + d, sep) == d
    ensures BeforeLast(x + [sep] + d, sep) == x
    decreases |d|
  {
    var s := x + [sep] + d;
    if d == [] {
      assert s[..|s| - 1] == x;
    } else {
      var d' := d[..|d| - 1];
      SplitAtLast(x, sep, d');
      assert s[..|s| - 1] == x + [sep] + d';
      assert d == d' + [d[|d| - 1]];
    }
  }

  /** Escrow ids determine both the bounty id and the clock reading they were made from. */
  lemma EscrowIdInjective(a: string, b: string, t1: nat, t2: nat)
    requires EscrowId(a, t1) == EscrowId(b, t2)
    ensures a == b && t1 == t2
  {
    var d1, d2 := NatToString(t1), NatToString(t2);
    assert forall i | 0 <= i < |d1| :: d1[i] != '_' by {
      forall i | 0 <= i < |d1| ensures d1[i] != '_' {
        assert IsDecimalDigit(d1[i]);
      }
    }
    assert forall i | 0 <= i < |d2| :: d2[i] != '_' by {
      forall i | 0 <= i < |d2| ensures d2[i] != '_' {
        assert IsDecimalDigit(d2[i]);
      }
    }
    SplitAtLast("escrow_" + a, '_', d1);
    SplitAtLast("escrow_" + b, '_', d2);
    assert "escrow_" + a + "_" + d1 == ("escrow_" + a) + ['_'] + d1;
    assert "escrow_" + b + "_" + d2 == ("escrow_" + b) + ['_'] + d2;
    assert ("escrow_" + a)[7..] == a && ("escrow_" + b)[7..] == b;
    DigitsValueOfNatToString(t1);
    DigitsValueOfNatToString(t2);
  }

  /**
   * The hook's state. `payments` and `locked` count what the mocks have taken, so that
   * the balance is always 25000 less 100 per payment less the locked amounts.
   */
  class Wallet {
    var balance: int
    var isConnected: bool
    ghost var payments: nat
    ghost var locked: int

    ghost predicate Valid()
      reads this
    {
      balance == InitialBalance - MockPaymentDeduction * payments - locked
    }

    constructor()
      ensures Valid() && balance == InitialBalance && !isConnected
      ensures payments == 0 && locked == 0
    {
      balance := InitialBalance;
      isConnected := false;
      payments := 0;
      locked := 0;
    }

    /** The simulated connection timer (no browser wallet present). */
    method ConnectTimerFired()
      requires Valid()
      modifies this
      ensures Valid() && isConnected && balance == old(balance)
      ensures payments == old(payments) && locked == old(locked)
    {
      isConnected := true;
    }

    /** The simulated `sendPayment`: 100 sats come off the balance whatever the invoice. */
    method SendPayment(invoice: string, now: nat) returns (r: PaymentResponse)
      requires Valid()
      modifies this
      ensures Valid() && r == MockPayment(now)
      ensures balance == old(balance) - MockPaymentDeduction
      ensures payments == old(payments) + 1 && locked == old(locked)
      ensures isConnected == old(isConnected)
    {
      balance := balance - MockPaymentDeduction;
      payments := payments + 1;
      r := MockPayment(now);
    }

    /** The simulated `requestInvoice`: the balance is not touched. */
    method RequestInvoice(amount: int, memo: string, now: nat) returns (inv: Invoice)
      ensures inv == MockInvoice(amount, now)
      ensures ParseInt(inv.paymentRequest[4..]) == Int(amount)
    {
      InvoiceAmountRecoverable(amount, now);
      inv := MockInvoice(amount, now);
    }

    /**
     * `lockFunds`: the amount comes off the balance with no check that it is covered,
     * and the lock always reports success.
     */
    method LockFunds(amount: int, bountyId: string, now: nat) returns (r: LockResult)
      requires Valid()
      modifies this
      ensures Valid() && balance == old(balance) - amount
      ensures r == LockResult(true, EscrowId(bountyId, now), amount)
      ensures locked == old(locked) + amount && payments == old(payments)
      ensures isConnected == old(isConnected)
    {
      balance := balance - amount;
      locked := locked + amount;
      r := LockResult(true, EscrowId(bountyId, now), amount);
    }
  }
}
