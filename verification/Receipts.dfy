/** Receipt numbers: f"{slug.upper()}-{year}-{counter:06d}". */
module Receipts {
  import opened Schema
  import opened FeeProtocol
  import opened FeeInvariants
  import opened FeeRuns

  const DIGITS := "0123456789"

  /** The decimal digits of `n`, zero-padded to at least `width`. */
  function Padded(n: nat, width: nat): (text: string)
    ensures |text| >= width
    ensures forall c :: c in text ==> c != '-'
    decreases n, width
  {
    if n == 0 && width == 0 then ""
    else Padded(n / 10, if width == 0 then 0 else width - 1) + [DIGITS[n % 10]]
  }

  function Number(slug: string, year: nat, counter: nat): string {
    slug + "-" + Padded(year, 4) + "-" + Padded(counter, 6)
  }

  /** What the digits of a text read as. */
  function ReadAs(text: string): nat {
    if text == "" then 0 else
      var c := text[|text| - 1];
      10 * ReadAs(text[..|text| - 1]) + if '0' <= c <= '9' then (c - '0') as nat else 0
  }

  /** The text is all digits, at least `width` of them, and reads as the number. */
  lemma {:induction false} PaddedReads(n: nat, width: nat)
    ensures |Padded(n, width)| >= width && ReadAs(Padded(n, width)) == n
    ensures forall i :: 0 <= i < |Padded(n, width)| ==> '0' <= Padded(n, width)[i] <= '9'
    decreases n, width
  {
    if n == 0 && width == 0 {
    } else {
      var front, c := Padded(n / 10, if width == 0 then 0 else width - 1), DIGITS[n % 10];
      PaddedReads(n / 10, if width == 0 then 0 else width - 1);
      assert (front + [c])[..|front|] == front;
      DigitReads(n % 10);
    }
  }

  lemma DigitReads(d: nat)
    requires d < 10
    ensures '0' <= DIGITS[d] <= '9' && (DIGITS[d] - '0') as nat == d
  {
  }

  /** A number below 10^width takes exactly `width` digits. */
  lemma {:induction false} PaddedWidth(n: nat, width: nat, bound: nat)
    requires n < bound && bound == Power10(width)
    ensures |Padded(n, width)| == width
  {
    if width == 0 {
    } else {
      PaddedWidth(n / 10, width - 1, Power10(width - 1));
    }
  }

  function Power10(n: nat): nat { if n == 0 then 1 else 10 * Power10(n - 1) }

  lemma {:induction false} PaddedInjective(m: nat, n: nat, width: nat)
    requires Padded(m, width) == Padded(n, width)
    ensures m == n
    decreases m, width
  {
    var a, b := Padded(m, width), Padded(n, width);
    if a == [] {
    } else {
      var w := if width == 0 then 0 else width - 1;
      assert a[..|a| - 1] == Padded(m / 10, w) && b[..|b| - 1] == Padded(n / 10, w);
      assert a[|a| - 1] == DIGITS[m % 10] && b[|b| - 1] == DIGITS[n % 10];
      PaddedInjective(m / 10, n / 10, w);
    }
  }

  /** The printed number: slug, year and counter with dashes between, the counter in six digits
      as long as it fits. */
  lemma PrintedForm(slug: string, year: nat, counter: nat) returns (y: string, c: string)
    ensures Number(slug, year, counter) == slug + "-" + y + "-" + c
    ensures ReadAs(y) == year && |y| >= 4 && ReadAs(c) == counter && |c| >= 6
    ensures counter < 1000000 ==> |c| == 6
  {
    y, c := Padded(year, 4), Padded(counter, 6);
    PaddedReads(year, 4);
    PaddedReads(counter, 6);
    if counter < 1000000 { PaddedWidth(counter, 6, 1000000); }
  }

  /** What follows the last '-' can be read off the whole string. */
  lemma SuffixDetermined(p: string, a: string, q: string, b: string)
    requires p + "-" + a == q + "-" + b
    requires (forall c :: c in a ==> c != '-') && (forall c :: c in b ==> c != '-')
    ensures a == b
  {
    var s := p + "-" + a;
    NoDashAfter(p, a);
    NoDashAfter(q, b);
    assert s[|p|] == '-' && s[|q|] == '-';
    assert |p| == |q|;
    assert a == s[|p| + 1..] && b == s[|q| + 1..];
  }

  lemma NoDashAfter(p: string, a: string)
    requires forall c :: c in a ==> c != '-'
    ensures forall i :: |p| < i < |p + "-" + a| ==> (p + "-" + a)[i] != '-'
  {
    forall i | |p| < i < |p + "-" + a| ensures (p + "-" + a)[i] != '-' {
      assert (p + "-" + a)[i] == a[i - |p| - 1] && a[i - |p| - 1] in a;
    }
  }

  /** Whatever slug and year are printed, two receipt strings with different counters differ. */
  lemma NumbersDiffer(slug: string, year: nat, counter: nat, slug': string, year': nat, counter': nat)
    requires counter != counter'
    ensures Number(slug, year, counter) != Number(slug', year', counter')
  {
    if Number(slug, year, counter) == Number(slug', year', counter') {
      SuffixDetermined(slug + "-" + Padded(year, 4), Padded(counter, 6), slug' + "-" + Padded(year', 4),
                       Padded(counter', 6));
      PaddedInjective(counter, counter', 6);
    }
  }

  lemma OnceEach(payments: seq<Payment>, counters: map<TenantId, nat>, tenant: TenantId, n: nat)
    requires ReceiptsOf(payments, counters)
    ensures InUse(payments, tenant, n) <==> 1 <= n <= LastNumber(counters, tenant)
    ensures forall p: PaymentId, q: PaymentId ::
              Issued(payments, p, tenant, n) && Issued(payments, q, tenant, n) ==> p == q
  {
  }

  /** In every reachable state the receipt numbers of a tenant's paid payments are exactly
      1..last_number, no two of its payments carry the same number, and only paid payments
      carry one. */
  lemma GapFree(steps: seq<Step>, tenant: TenantId, n: nat)
    ensures var s := Run(EMPTY, true, steps);
            && (InUse(s.payments, tenant, n) <==> 1 <= n <= LastNumber(s.counters, tenant))
            && (forall p: PaymentId, q: PaymentId ::
                  Issued(s.payments, p, tenant, n) && Issued(s.payments, q, tenant, n) ==> p == q)
            && (forall p :: 0 <= p < |s.payments| ==> (s.payments[p].receipt.Some? <==> s.payments[p].status.Paid?))
  {
    RunKeepsInv(EMPTY, steps);
    var s := Run(EMPTY, true, steps);
    OnceEach(s.payments, s.counters, tenant, n);
  }

  /** Hence the printed receipt numbers of a tenant are pairwise distinct, even if its slug
      or the year changed in between. */
  lemma PrintedDistinct(steps: seq<Step>, p: PaymentId, q: PaymentId, slug: string, year: nat, slug': string,
                        year': nat)
    requires var s := Run(EMPTY, true, steps);
             p < |s.payments| && q < |s.payments| && p != q && s.payments[p].tenant == s.payments[q].tenant
             && s.payments[p].status.Paid? && s.payments[q].status.Paid?
    ensures var s := Run(EMPTY, true, steps);
            s.payments[p].receipt.Some? && s.payments[q].receipt.Some?
            && Number(slug, year, s.payments[p].receipt.value) != Number(slug', year', s.payments[q].receipt.value)
  {
    RunKeepsInv(EMPTY, steps);
    var s := Run(EMPTY, true, steps);
    OnceEach(s.payments, s.counters, s.payments[p].tenant, s.payments[p].receipt.value);
    NumbersDiffer(slug, year, s.payments[p].receipt.value, slug', year', s.payments[q].receipt.value);
  }
}
