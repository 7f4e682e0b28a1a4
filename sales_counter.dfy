/** The durable object that counts sold lifetime ("genesis") licenses, of which there are 21. */
module SalesCounter {
  const Supply: nat := 21

  datatype CounterResponse =
    | Stock(sold: nat, remaining: int)
    | ReserveOk
    | Confirmed(sold: nat)
    | SoldOut
    | NotFound

  function Status(r: CounterResponse): nat {
    match r
    case SoldOut => 410
    case NotFound => 404
    case _ => 200
  }

  /** `/confirm` on a stored count: sold out at 21, otherwise one more sale. */
  function ConfirmStep(sold: nat): (r: (nat, CounterResponse))
    ensures sold >= Supply ==> r == (sold, SoldOut)
    ensures sold < Supply ==> r.0 == sold + 1 && r.1 == Confirmed(sold + 1)
    ensures r.0 <= if sold < Supply then Supply else sold
  {
    if sold >= Supply then (sold, SoldOut) else (sold + 1, Confirmed(sold + 1))
  }

  /** The count after `n` confirmations in a row, and how many of them succeeded. */
  function ConfirmRun(sold: nat, n: nat): (nat, nat) {
    if n == 0 then (sold, 0)
    else
      var (s, ok) := ConfirmRun(sold, n - 1);
      var (s', r) := ConfirmStep(s);
      (s', if r.Confirmed? then ok + 1 else ok)
  }

  function Min(a: nat, b: nat): nat {
    if a <= b then a else b
  }

  /** However many confirmations arrive, no more than 21 licenses are ever counted as sold:
      from a count within the supply, `n` confirmations succeed exactly as long as stock lasts. */
  lemma {:induction false} ConfirmRunNeverOversells(sold: nat, n: nat)
    requires sold <= Supply
    ensures ConfirmRun(sold, n).0 == Min(sold + n, Supply)
    ensures ConfirmRun(sold, n).1 == Min(sold + n, Supply) - sold
  {
    if n > 0 {
      ConfirmRunNeverOversells(sold, n - 1);
    }
  }

  /** The counter's storage: `sold` stands for the `genesis_sold` key, absent meaning zero. */
  class Counter {
    var sold: nat

    constructor()
      ensures sold == 0
    {
      sold := 0;
    }

    /** The counter's request handler, by path. `/reserve` only reads the count. */
    method Fetch(path: string) returns (r: CounterResponse)
      modifies this
      ensures path == "/stock" ==> r == Stock(old(sold), Supply as int - old(sold)) && sold == old(sold)
      ensures path == "/reserve" ==> r == (if old(sold) >= Supply then SoldOut else ReserveOk) && sold == old(sold)
      ensures path == "/confirm" ==> (sold, r) == ConfirmStep(old(sold))
      ensures path !in {"/stock", "/reserve", "/confirm"} ==> r == NotFound && sold == old(sold)
    {
      if path == "/stock" {
        r := Stock(sold, Supply as int - sold);
      } else if path == "/reserve" {
        r := if sold >= Supply then SoldOut else ReserveOk;
      } else if path == "/confirm" {
        if sold >= Supply {
          r := SoldOut;
        } else {
          sold := sold + 1;
          r := Confirmed(sold);
        }
      } else {
        r := NotFound;
      }
    }
  }
}
