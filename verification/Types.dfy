/** Value types shared by the trading engine, its durable rows and the back-test drivers
    (paper/types.py, exchange/orders.py). Money, prices and quantities are exact `real`s; times are
    integer milliseconds. */
module Types {

  datatype Option<+T> = None | Some(value: T)

  type PosReal = r: real | r > 0.0 witness 1.0

  /** The exchange accepts whole leverages from 1 up. */
  type Leverage = l: int | l >= 1 witness 1

  const MINUTE_MS := 60_000
  const HOUR_MS := 3_600_000
  const DAY_MS := 86_400_000

  /** The minute a time falls into. */
  function MinuteStart(ms: int): int {
    ms - ms % MINUTE_MS
  }

  /** The recorded and monitored data streams. */
  datatype Kind = KlineUpdate | KlineClose | MarkPrice

  datatype Mode = Paper | Live

  datatype Direction = Long | Short

  datatype Side = Buy | Sell

  datatype Intent = Entry | Exit

  /** The one-way order matrix: what is bought to open a long is sold to close it. */
  function SideFor(d: Direction, i: Intent): Side {
    if d.Long? == i.Entry? then Buy else Sell
  }

  function Sign(d: Direction): real {
    if d.Long? then 1.0 else -1.0
  }

  function Abs(x: real): real {
    if x < 0.0 then -x else x
  }

  function Min(x: real, y: real): real {
    if x <= y then x else y
  }

  function Max(x: real, y: real): real {
    if x >= y then x else y
  }

  datatype FillData = Fill(side: Side, qty: real, price: real, commission: real, reduceOnly: bool, refMark: real)

  /** Both senders report only fills of a positive quantity. */
  type Fill = f: FillData | f.qty > 0.0 witness FillData.Fill(Buy, 1.0, 1.0, 0.0, false, 1.0)

  function FillQty(fills: seq<Fill>): real {
    if fills == [] then 0.0 else fills[0].qty + FillQty(fills[1..])
  }

  function FillNotional(fills: seq<Fill>): real {
    if fills == [] then 0.0 else fills[0].qty * fills[0].price + FillNotional(fills[1..])
  }

  function FillCommission(fills: seq<Fill>): real {
    if fills == [] then 0.0 else fills[0].commission + FillCommission(fills[1..])
  }

  function Sum(xs: seq<real>): real {
    if xs == [] then 0.0 else xs[0] + Sum(xs[1..])
  }

  lemma {:induction false} SumAppend(xs: seq<real>, ys: seq<real>)
    ensures Sum(xs + ys) == Sum(xs) + Sum(ys)
  {
    if xs == [] {
      assert xs + ys == ys;
    } else {
      SumAppend(xs[1..], ys);
      assert (xs + ys)[1..] == xs[1..] + ys;
    }
  }
}
