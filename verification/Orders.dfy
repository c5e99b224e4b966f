/** Orders, fills and the JSON values Upstox sends, as the fill path sees them. */
module Orders {

  datatype Option<+T> = None | Some(value: T)

  // One-field wrappers keep the several kinds of identifier apart.
  datatype BrokerId = BrokerId(text: string)
  datatype Cid = Cid(text: string)
  datatype Tag = Tag(text: string)

  datatype Side = Buy | Sell

  datatype Status = Submitted | Open | Filled | Rejected | Cancelled

  predicate Terminal(s: Status) {
    s.Filled? || s.Rejected? || s.Cancelled?
  }

  /** A normalized order. `tag` stands for `order_tag(signal_id)`. */
  datatype Order = Order(cid: Cid, symbol: string, tag: Tag, side: Side, quantity: int)

  /** `f"{broker_id}-{filled}"`, kept as its parts; `Rendered` is the text. */
  datatype FillId = FillId(broker: BrokerId, filled: int)

  datatype Fill = Fill(id: FillId, cid: Cid, symbol: string, quantity: int, price: real, side: Side, fee: real)

  /** An order Upstox ended without filling it in full. */
  datatype EndedOrder = EndedOrder(cid: Cid, status: Status, broker: BrokerId, filled: int)

  /** A decoded JSON value; text carries what Python's `float()` reads it as. `Huge` is an integer
      too large for a float, on which `float()` raises OverflowError. */
  datatype Json = Null | Bool(b: bool) | Number(r: real) | Huge | Text(text: string, number: Option<real>) | Container

  /** `data["filled_quantity"]` as a whole number; None is a contract error. */
  function FilledQuantity(j: Json): Option<int> {
    match j
    case Number(r) => Whole(r)
    case Text(_, Some(r)) => Whole(r)
    case _ => None
  }

  function Whole(r: real): Option<int> {
    if r == r.Floor as real then Some(r.Floor) else None
  }

  datatype Price = Price(value: real) | BadPrice | PriceOverflow

  /** `data["average_price"]`: a bool is read as 0 or 1, and an oversized integer raises an
      OverflowError that nothing on the poll path catches. */
  function AveragePrice(j: Json): Price {
    match j
    case Number(r) => Positive(r)
    case Text(_, Some(r)) => Positive(r)
    case Bool(b) => Positive(if b then 1.0 else 0.0)
    case Huge => PriceOverflow
    case _ => BadPrice
  }

  function Positive(r: real): Price {
    if r > 0.0 then Price(r) else BadPrice
  }

  /** What the two readings accept: a whole number, or text that is one; and a positive number, text that is one, or
      true. */
  lemma JsonReads(j: Json, n: int, x: real)
    ensures FilledQuantity(j) == Some(n) <==> j == Number(n as real) || (j.Text? && j.number == Some(n as real))
    ensures AveragePrice(j) == Price(x) <==>
            x > 0.0 && (j == Number(x) || (j.Text? && j.number == Some(x)) || (j == Bool(true) && x == 1.0))
    ensures AveragePrice(j).PriceOverflow? <==> j.Huge?
  {
  }

  function Sum(s: seq<real>): real {
    if s == [] then 0.0 else Sum(s[..|s| - 1]) + s[|s| - 1]
  }

  // ---- what a list of fills amounts to for one order

  /** Value of `q` at `p` each. */
  function Value(q: int, p: real): real {
    q as real * p
  }

  function Qty(fills: seq<Fill>, c: Cid): int {
    if fills == [] then 0
    else
      var f := fills[|fills| - 1];
      Qty(fills[..|fills| - 1], c) + if f.cid == c then f.quantity else 0
  }

  function Notional(fills: seq<Fill>, c: Cid): real {
    if fills == [] then 0.0
    else
      var f := fills[|fills| - 1];
      Notional(fills[..|fills| - 1], c) + if f.cid == c then Value(f.quantity, f.price) else 0.0
  }

  function Fees(fills: seq<Fill>, c: Cid): real {
    if fills == [] then 0.0
    else
      var f := fills[|fills| - 1];
      Fees(fills[..|fills| - 1], c) + if f.cid == c then f.fee else 0.0
  }

  lemma SumsAppend(fills: seq<Fill>, f: Fill, c: Cid)
    ensures Qty(fills + [f], c) == Qty(fills, c) + if f.cid == c then f.quantity else 0
    ensures Notional(fills + [f], c) == Notional(fills, c) + if f.cid == c then Value(f.quantity, f.price) else 0.0
    ensures Fees(fills + [f], c) == Fees(fills, c) + if f.cid == c then f.fee else 0.0
  {
    assert (fills + [f])[..|fills|] == fills;
  }

  // ---- fill ids

  function Digit(n: nat): char
    requires n < 10
  {
    '0' + n as char
  }

  /** Python's `str(n)` for n >= 0. */
  function Decimal(n: nat): (s: string)
    ensures |s| > 0
    ensures forall i :: 0 <= i < |s| ==> '0' <= s[i] <= '9'
  {
    if n < 10 then [Digit(n)] else Decimal(n / 10) + [Digit(n % 10)]
  }

  /** Python's `str(n)`. */
  function Str(n: int): string {
    if n < 0 then "-" + Decimal(-n) else Decimal(n)
  }

  function Rendered(f: FillId): string {
    f.broker.text + ['-'] + Str(f.filled)
  }

  /** What a string of digits says, read from the left. */
  function Numeral(s: string): int {
    if s == "" then 0 else 10 * Numeral(s[..|s| - 1]) + (s[|s| - 1] as int - 48)
  }

  lemma {:induction false} DecimalReads(n: nat)
    ensures Numeral(Decimal(n)) == n
    ensures Decimal(n)[0] == '0' ==> n == 0
  {
    var s := Decimal(n);
    if n >= 10 {
      DecimalReads(n / 10);
      assert s[..|s| - 1] == Decimal(n / 10);
    } else {
      assert s[..|s| - 1] == "";
    }
  }

  /** A number's text is a minus sign if it is negative, and then its digits with no zero in front. */
  lemma StrReads(n: int)
    ensures n >= 0 ==> Numeral(Str(n)) == n && Str(n)[0] != '-' && (Str(n)[0] == '0' ==> n == 0)
    ensures n < 0 ==> Str(n)[0] == '-' && |Str(n)| > 1 && Str(n)[1] != '0' && Numeral(Str(n)[1..]) == -n
  {
    DecimalReads(if n < 0 then -n else n);
  }

  lemma {:induction false} DecimalInjective(m: nat, n: nat)
    requires Decimal(m) == Decimal(n)
    ensures m == n
  {
    var s, t := Decimal(m), Decimal(n);
    if m >= 10 && n >= 10 {
      assert s[..|s| - 1] == Decimal(m / 10) && t[..|t| - 1] == Decimal(n / 10);
      DecimalInjective(m / 10, n / 10);
      assert s[|s| - 1] == Digit(m % 10) && t[|t| - 1] == Digit(n % 10);
    } else if m < 10 && n < 10 {
      assert s[0] == Digit(m) && t[0] == Digit(n);
    }
  }

  lemma SplitAtLastDash(a: string, m: string, b: string, n: string)
    requires '-' !in m && '-' !in n
    requires a + ['-'] + m == b + ['-'] + n
    ensures a == b && m == n
  {
    var s := a + ['-'] + m;
    assert s[|s| - |m|..] == m && s[|s| - |n|..] == n;
    assert forall i :: |s| - |m| <= i < |s| ==> s[i] == m[i - (|s| - |m|)] != '-';
    assert forall i :: |s| - |n| <= i < |s| ==> s[i] == n[i - (|s| - |n|)] != '-';
    assert s[|s| - |m| - 1] == '-' && s[|s| - |n| - 1] == '-';
    assert a == s[..|s| - |m| - 1] && b == s[..|s| - |n| - 1];
  }

  /** A fill's id names one broker order at one cumulative quantity, whatever characters the broker
      id holds: the last '-' is always the separator. */
  lemma FillIdInjective(f: FillId, g: FillId)
    requires f.filled >= 0 && g.filled >= 0
    requires Rendered(f) == Rendered(g)
    ensures f == g
  {
    SplitAtLastDash(f.broker.text, Decimal(f.filled), g.broker.text, Decimal(g.filled));
    DecimalInjective(f.filled, g.filled);
  }
}
