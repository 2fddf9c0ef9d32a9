/**
 * The strings behind every unique index: ledger idempotency keys and throttle counter keys.
 *
 * The other modules work with the structured form of a key (a datatype), which is
 * injective by construction. This module earns that simplification: the text the program
 * writes into the unique column names one structured key and no other.
 */
module Keys {
  // A UUID renders as hex digits and dashes. Only the absence of a colon matters.
  type Uuid = s: string | ':' !in s

  function Digit(d: nat): (c: char)
    requires d < 10
    ensures c != ':' && c != '-'
  {
    "0123456789"[d]
  }

  function Decimal(n: nat): (s: string)
    ensures |s| > 0 && ':' !in s && '-' !in s
    ensures n < 10 <==> |s| == 1
  {
    if n < 10 then [Digit(n)] else Decimal(n / 10) + [Digit(n % 10)]
  }

  function IntText(z: int): (s: string)
    ensures ':' !in s
  {
    if z < 0 then "-" + Decimal(-z) else Decimal(z)
  }

  lemma {:induction false} DecimalInjective(n: nat, m: nat)
    requires Decimal(n) == Decimal(m)
    ensures n == m
  {
    var s, t := Decimal(n), Decimal(m);
    if n >= 10 {
      assert s[|s| - 1] == Digit(n % 10) && t[|t| - 1] == Digit(m % 10);
      assert s[..|s| - 1] == Decimal(n / 10) && t[..|t| - 1] == Decimal(m / 10);
      DecimalInjective(n / 10, m / 10);
    }
  }

  lemma IntTextInjective(y: int, z: int)
    requires IntText(y) == IntText(z)
    ensures y == z
  {
    assert IntText(y)[0] == '-' <==> y < 0;
    assert IntText(z)[0] == '-' <==> z < 0;
    if y < 0 {
      assert IntText(y)[1..] == Decimal(-y) && IntText(z)[1..] == Decimal(-z);
      DecimalInjective(-y, -z);
    } else {
      DecimalInjective(y, z);
    }
  }

  // "{left}:{right}", the shape of every composite key: unambiguous because the right
  // field has no colon, whatever the left one holds.
  function Join(left: string, right: string): string {
    left + ":" + right
  }

  lemma JoinInjective(a: string, b: string, c: string, d: string)
    requires ':' !in b && ':' !in d
    requires Join(a, b) == Join(c, d)
    ensures a == c && b == d
  {
    var s := Join(a, b);
    assert forall i :: |a| < i < |s| ==> s[i] == b[i - |a| - 1];
    assert forall i :: |c| < i < |s| ==> s[i] == d[i - |c| - 1];
    assert s[|a|] == ':' && s[|c|] == ':';
    assert s[..|a|] == a && s[..|a|] == c;
    assert s[|a| + 1..] == b && s[|a| + 1..] == d;
  }

  /** What a ledger row or a receipt is unique by. */
  datatype Key =
    | Period(user: int, index: int)
    | PlanSong(plan: nat, song: nat)
    | Debit(order: Uuid, gen: nat)
    | Refund(order: Uuid, gen: nat)
    | Consume(order: Uuid, gen: nat)
    | Unenforced(order: Uuid, gen: nat)
    | AdminGrant(tail: string)
    | SingleSale(tail: string)
    | PlanSale(tail: string)

  function Prefix(k: Key): string {
    match k
    case Period(_, _) => "grant:period:"
    case PlanSong(_, _) => "grant:plan:"
    case Debit(_, _) => "debit:"
    case Refund(_, _) => "refund:"
    case Consume(_, _) => "consume:"
    case Unenforced(_, _) => "unenforced:"
    case AdminGrant(_) => "grant:admin:"
    case SingleSale(_) => "topup:"
    case PlanSale(_) => "plan:"
  }

  function Tail(k: Key): string {
    match k
    case Period(u, i) => Join(IntText(u), IntText(i))
    case PlanSong(p, n) => Join(Decimal(p), Decimal(n))
    case Debit(o, g) => Join(o, Decimal(g))
    case Refund(o, g) => Join(o, Decimal(g))
    case Consume(o, g) => Join(o, Decimal(g))
    case Unenforced(o, g) => Join(o, Decimal(g))
    case AdminGrant(t) => t
    case SingleSale(t) => t
    case PlanSale(t) => t
  }

  function KeyText(k: Key): string {
    Prefix(k) + Tail(k)
  }

  // The nine prefixes part ways within their first eight characters.
  lemma PrefixDecides(a: Key, b: Key)
    requires KeyText(a) == KeyText(b)
    ensures Prefix(a) == Prefix(b)
  {
    var p, q, s := Prefix(a), Prefix(b), KeyText(a);
    assert s[0] == p[0] == q[0];
    if p[0] == 'g' {
      assert s[6] == p[6] == q[6] && s[7] == p[7] == q[7];
    }
  }

  /** Two keys with the same text are the same key: families never collide, nor do members. */
  lemma KeyTextInjective(a: Key, b: Key)
    requires KeyText(a) == KeyText(b)
    ensures a == b
  {
    PrefixDecides(a, b);
    assert KeyText(a)[|Prefix(a)|..] == Tail(a);
    assert KeyText(b)[|Prefix(a)|..] == Tail(b);
    match a
    case Period(u, i) =>
      JoinInjective(IntText(u), IntText(i), IntText(b.user), IntText(b.index));
      IntTextInjective(u, b.user);
      IntTextInjective(i, b.index);
    case PlanSong(p, n) =>
      JoinInjective(Decimal(p), Decimal(n), Decimal(b.plan), Decimal(b.song));
      DecimalInjective(p, b.plan);
      DecimalInjective(n, b.song);
    case Debit(o, g) => OrderTail(o, g, b.order, b.gen);
    case Refund(o, g) => OrderTail(o, g, b.order, b.gen);
    case Consume(o, g) => OrderTail(o, g, b.order, b.gen);
    case Unenforced(o, g) => OrderTail(o, g, b.order, b.gen);
    case AdminGrant(_) =>
    case SingleSale(_) =>
    case PlanSale(_) =>
  }

  lemma OrderTail(o: Uuid, g: nat, p: Uuid, h: nat)
    requires Join(o, Decimal(g)) == Join(p, Decimal(h))
    ensures o == p && g == h
  {
    JoinInjective(o, Decimal(g), p, Decimal(h));
    DecimalInjective(g, h);
  }

  /** Throttle counters: one family each for updates, erasure requests and notices. */
  datatype CounterKey =
    | Updates(window: int, user: int)
    | Erasures(window: int, user: int)
    | Notices(purpose: string, window: int, user: int)

  function CounterText(k: CounterKey): string {
    match k
    case Updates(w, u) => Join(Join("bayram:bot:rl:upd", IntText(w)), IntText(u))
    case Erasures(w, u) => Join(Join("bayram:bot:rl:era", IntText(w)), IntText(u))
    case Notices(p, w, u) => Join(Join("bayram:bot:rl:say:" + p, IntText(w)), IntText(u))
  }

  function CounterHead(k: CounterKey): string {
    match k
    case Updates(_, _) => "bayram:bot:rl:upd"
    case Erasures(_, _) => "bayram:bot:rl:era"
    case Notices(p, _, _) => "bayram:bot:rl:say:" + p
  }

  /**
   * Update, erasure and notice counters never collide, for every purpose string, colons
   * included: the two numeric fields are peeled off from the right, and what is left
   * differs in its fifteenth character.
   */
  lemma CounterTextInjective(a: CounterKey, b: CounterKey)
    requires CounterText(a) == CounterText(b)
    ensures a == b
  {
    var (h, k) := (CounterHead(a), CounterHead(b));
    JoinInjective(Join(h, IntText(a.window)), IntText(a.user), Join(k, IntText(b.window)), IntText(b.user));
    JoinInjective(h, IntText(a.window), k, IntText(b.window));
    IntTextInjective(a.user, b.user);
    IntTextInjective(a.window, b.window);
    assert h[14] == k[14];
    if a.Notices? && b.Notices? {
      assert h[18..] == a.purpose && k[18..] == b.purpose;
    }
  }
}
