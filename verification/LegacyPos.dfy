/** The LEGACY_V1 adapter's message: won amounts become whole jeon through double
    arithmetic and Math.round. Doubles are reals here, and every operation is any
    function with the relative error IEEE 754 doubles guarantee. */
module LegacyPos {
  import opened Pricing
  import opened OrderStore

  /** Half a unit in the last place: 2^-53. */
  const UNIT_ROUNDOFF := 1.0 / 9_007_199_254_740_992.0

  /** Decimal-to-double conversion and double multiplication of some implementation. */
  datatype Doubles = Doubles(parse: real -> real, times: (real, real) -> real)

  predicate Near(approx: real, exact: real) {
    exact * (1.0 - UNIT_ROUNDOFF) <= approx <= exact * (1.0 + UNIT_ROUNDOFF)
  }

  /** Zero, or well inside the normal range of doubles: neither overflow nor underflow. */
  predicate Ordinary(x: real) {
    x == 0.0 || 0.000_001 <= x <= 1_000_000_000_000_000_000_000.0
  }

  /** Relative error at most 2^-53 where the exact result is ordinary. */
  ghost predicate Conforming(fp: Doubles) {
    (forall x :: Ordinary(x) ==> Near(fp.parse(x), x)) &&
    (forall x, y :: x >= 0.0 && y >= 0.0 && Ordinary(x * y) ==> Near(fp.times(x, y), x * y))
  }

  /** Math.round: the nearest integer, ties upward. */
  function MathRound(x: real): int {
    (x + 0.5).Floor
  }

  function Jeon(fp: Doubles, won: real): int {
    MathRound(fp.times(won, 100.0))
  }

  lemma RoundsTo(x: real, n: int)
    requires n as real - 0.5 <= x < n as real + 0.5
    ensures MathRound(x) == n
  {
  }

  /** Two roundings away from a bounded integer is still nearest to it. */
  lemma TwoRoundings(n: real, price: real, product: real)
    requires 0.0 <= n <= 1_000_000_000_000_000.0
    requires Near(price, n / 100.0) && Near(product, price * 100.0)
    ensures n - 0.5 < product < n + 0.5
  {
    var u := UNIT_ROUNDOFF;
    var scaled := price * 100.0;
    assert n * (1.0 - u) <= scaled <= n * (1.0 + u);
    assert n * u < 0.12;
    assert scaled * u < 0.13;
  }

  /** An amount of up to 10^15 jeon survives: parse the decimal, multiply by 100,
      round. NUMERIC(10,2) values stay far below that. */
  lemma ExactJeon(fp: Doubles, jeon: int)
    requires Conforming(fp) && 0 <= jeon <= 1_000_000_000_000_000
    ensures Jeon(fp, fp.parse(Won(jeon))) == jeon
  {
    var price := fp.parse(Won(jeon));
    WonIsOrdinary(jeon);
    assert Near(price, Won(jeon));
    assert price >= 0.0 && Ordinary(price * 100.0) by { NearOrdinary(price, jeon); }
    assert Near(fp.times(price, 100.0), price * 100.0);
    TwoRoundings(jeon as real, price, fp.times(price, 100.0));
    RoundsTo(fp.times(price, 100.0), jeon);
  }

  lemma WonIsOrdinary(jeon: int)
    requires 0 <= jeon <= 1_000_000_000_000_000
    ensures Ordinary(Won(jeon))
  {
    assert jeon >= 1 ==> Won(jeon) >= 0.01;
  }

  lemma NearOrdinary(price: real, jeon: int)
    requires 0 <= jeon <= 1_000_000_000_000_000 && Near(price, Won(jeon))
    ensures price >= 0.0 && Ordinary(price * 100.0)
  {
    var exact := Won(jeon);
    assert exact * (1.0 - UNIT_ROUNDOFF) <= price <= exact * (1.0 + UNIT_ROUNDOFF);
    if jeon >= 1 {
      assert exact >= 0.01;
    }
  }

  datatype Line = Line(menuCode: string, qty: int, price: int)
  datatype Message = Message(storeId: StoreId, orderDate: string, total: int, items: seq<Line>)

  /** buildXml; the message's fields instead of its text. */
  function BuildMessage(fp: Doubles, p: Payload, orderDate: string): Message {
    Message(
      p.storeId, orderDate,
      Jeon(fp, fp.parse(Won(p.calculated))),
      seq(|p.items|, i requires 0 <= i < |p.items| =>
        Line(p.items[i].menuId, p.items[i].quantity, Jeon(fp, fp.parse(Won(p.items[i].unitPrice))))))
  }

  function LinesTotal(lines: seq<Line>): int {
    if lines == [] then 0
    else LinesTotal(lines[..|lines| - 1]) + lines[|lines| - 1].price * lines[|lines| - 1].qty
  }

  lemma {:induction false} LinesMirrorItems(items: seq<Item>, lines: seq<Line>)
    requires |lines| == |items|
    requires forall i :: 0 <= i < |items| ==> lines[i].qty == items[i].quantity && lines[i].price == items[i].unitPrice
    ensures LinesTotal(lines) == OrderTotal(items)
  {
    if items != [] {
      LinesMirrorItems(items[..|items| - 1], lines[..|lines| - 1]);
    }
  }

  /** For every order the database has accepted, the POS sees exact prices and a TOTAL
      that is the sum of its own PRICE times QTY. */
  lemma MessageAddsUp(fp: Doubles, p: Payload, orderDate: string)
    requires Conforming(fp) && PayloadFits(p) && p.calculated == OrderTotal(p.items)
    ensures var m := BuildMessage(fp, p, orderDate);
            m.storeId == p.storeId && m.orderDate == orderDate &&
            m.total == p.calculated == LinesTotal(m.items) && |m.items| == |p.items| &&
            forall i :: 0 <= i < |p.items| ==>
              m.items[i] == Line(p.items[i].menuId, p.items[i].quantity, p.items[i].unitPrice)
  {
    var m := BuildMessage(fp, p, orderDate);
    ExactJeon(fp, p.calculated);
    forall i | 0 <= i < |p.items| ensures m.items[i].price == p.items[i].unitPrice {
      assert ItemFits(p.items[i]);
      ExactJeon(fp, p.items[i].unitPrice);
    }
    LinesMirrorItems(p.items, m.items);
  }
}
