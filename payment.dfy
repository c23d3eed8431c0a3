/** The expense-distribution panel: the players' shares sorted largest first, a bar per
    player scaled to the largest share, and a paid flag per player that a tap toggles,
    from which the amount collected and the amount still missing are derived. */
module Payment {
  import opened Types
  import opened Sorting

  /** A row the panel is given: a player and their share. */
  datatype PlayerAmount = PlayerAmount(id: Id, name: string, amount: real)

  function AmountOf(p: PlayerAmount): real {
    p.amount
  }

  /** `paymentStatus[id]` read as a condition: a missing flag is unset. */
  predicate Flag(status: map<Id, bool>, id: Id) {
    id in status && status[id]
  }

  /** `{...prev, [id]: !prev[id]}`. */
  function Toggled(status: map<Id, bool>, id: Id): (r: map<Id, bool>)
    ensures r.Keys == status.Keys + {id}
    ensures Flag(r, id) == !Flag(status, id)
    ensures forall k :: k in status && k != id ==> r[k] == status[k]
  {
    status[id := !Flag(status, id)]
  }

  /** Toggling twice leaves the flag as it was (a missing flag comes back as `false`). */
  lemma ToggleTwice(status: map<Id, bool>, id: Id, k: Id)
    ensures Flag(Toggled(Toggled(status, id), id), k) == Flag(status, k)
  {
  }

  /** `[...playerAmounts].sort((a, b) => b.amount - a.amount)`: a sorted copy. */
  function SortedPlayers(rows: seq<PlayerAmount>): (r: seq<PlayerAmount>)
    ensures multiset(r) == multiset(rows)
    ensures SortedDesc(r, AmountOf)
  {
    SortDescSorted(rows, AmountOf);
    SortDesc(rows, AmountOf)
  }

  /** `Math.max(...amounts, 1)`. */
  function MaxAmount(rows: seq<PlayerAmount>): (m: real)
    ensures m >= 1.0
    ensures forall i :: 0 <= i < |rows| ==> rows[i].amount <= m
    ensures m == 1.0 || exists i :: 0 <= i < |rows| && rows[i].amount == m
  {
    if rows == [] then 1.0
    else
      var rest := MaxAmount(rows[1..]);
      assert forall i :: 1 <= i < |rows| ==> rows[i] == rows[1..][i - 1];
      if rows[0].amount > rest then rows[0].amount else rest
  }

  /** The bar of a row: its share as a percentage of the largest, but at least 5. */
  function BarWidth(rows: seq<PlayerAmount>, p: PlayerAmount): (w: real)
    ensures w >= 5.0
    ensures p in rows ==> w <= 100.0
  {
    var m := MaxAmount(rows);
    var pct := p.amount / m * 100.0;
    assert p in rows ==> pct <= 100.0 by {
      if p in rows {
        var i :| 0 <= i < |rows| && rows[i] == p;
        BelowMax(p.amount, m);
      }
    }
    if pct > 5.0 then pct else 5.0
  }

  lemma BelowMax(a: real, m: real)
    requires m >= 1.0 && a <= m
    ensures a / m * 100.0 <= 100.0
  {
    assert a / m <= 1.0;
  }

  /** `sortedPlayers.every(p => paymentStatus[p.id])`. */
  predicate AllPaid(status: map<Id, bool>, rows: seq<PlayerAmount>) {
    rows == [] || (Flag(status, rows[0].id) && AllPaid(status, rows[1..]))
  }

  /** What a flagged player contributes to the amount collected. */
  function PaidPart(status: map<Id, bool>, p: PlayerAmount): real {
    if Flag(status, p.id) then p.amount else 0.0
  }

  /** `sortedPlayers.reduce((sum, p) => sum + (paymentStatus[p.id] ? p.amount : 0), 0)`. */
  function TotalPaid(status: map<Id, bool>, rows: seq<PlayerAmount>): real {
    if rows == [] then 0.0 else PaidPart(status, rows[0]) + TotalPaid(status, rows[1..])
  }

  /** `totalAmount - totalPaid`. */
  function Remaining(totalAmount: real, status: map<Id, bool>, rows: seq<PlayerAmount>): real {
    totalAmount - TotalPaid(status, SortedPlayers(rows))
  }

  /** The note under the total: shown while some money is collected and some is missing. */
  predicate ShowShortfall(totalAmount: real, status: map<Id, bool>, rows: seq<PlayerAmount>) {
    Remaining(totalAmount, status, rows) > 0.0 && TotalPaid(status, SortedPlayers(rows)) > 0.0
  }

  /** Everyone is paid exactly when every row's flag is set; so an empty panel is all paid. */
  lemma {:induction false} AllPaidIff(status: map<Id, bool>, rows: seq<PlayerAmount>)
    ensures AllPaid(status, rows) <==> forall i :: 0 <= i < |rows| ==> Flag(status, rows[i].id)
  {
    if rows != [] {
      AllPaidIff(status, rows[1..]);
      assert forall i :: 1 <= i < |rows| ==> rows[i] == rows[1..][i - 1];
    }
  }

  /** Whether everyone is paid does not depend on the order the panel lists them in. */
  lemma AllPaidSorted(status: map<Id, bool>, rows: seq<PlayerAmount>)
    ensures AllPaid(status, SortedPlayers(rows)) <==> AllPaid(status, rows)
  {
    var sorted := SortedPlayers(rows);
    AllPaidIff(status, rows);
    AllPaidIff(status, sorted);
    forall i | 0 <= i < |sorted| ensures sorted[i] in rows {
      assert sorted[i] in multiset(sorted);
    }
    forall i | 0 <= i < |rows| ensures rows[i] in sorted {
      assert rows[i] in multiset(rows);
    }
  }

  lemma {:induction false} TotalPaidIsSum(status: map<Id, bool>, rows: seq<PlayerAmount>, f: PlayerAmount -> real)
    requires forall p :: f(p) == PaidPart(status, p)
    ensures TotalPaid(status, rows) == SumBy(rows, f)
  {
    if rows != [] {
      TotalPaidIsSum(status, rows[1..], f);
    }
  }

  /** The amount collected does not depend on the order either. */
  lemma TotalPaidSorted(status: map<Id, bool>, rows: seq<PlayerAmount>)
    ensures TotalPaid(status, SortedPlayers(rows)) == TotalPaid(status, rows)
  {
    var f := (p: PlayerAmount) => PaidPart(status, p);
    TotalPaidIsSum(status, rows, f);
    TotalPaidIsSum(status, SortedPlayers(rows), f);
    SumByPermutation(SortedPlayers(rows), rows, f);
  }

  /** Nothing is collected while no flag is set. */
  lemma {:induction false} NobodyPaid(status: map<Id, bool>, rows: seq<PlayerAmount>)
    requires forall i :: 0 <= i < |rows| ==> !Flag(status, rows[i].id)
    ensures TotalPaid(status, rows) == 0.0
  {
    if rows != [] {
      assert forall i :: 1 <= i < |rows| ==> rows[i] == rows[1..][i - 1];
      NobodyPaid(status, rows[1..]);
    }
  }

  /** The sum of the shares. */
  function ShareSum(rows: seq<PlayerAmount>): real {
    if rows == [] then 0.0 else rows[0].amount + ShareSum(rows[1..])
  }

  /** When everyone is paid, the whole of the shares is collected. */
  lemma {:induction false} EveryonePaid(status: map<Id, bool>, rows: seq<PlayerAmount>)
    requires AllPaid(status, rows)
    ensures TotalPaid(status, rows) == ShareSum(rows)
  {
    if rows != [] {
      EveryonePaid(status, rows[1..]);
    }
  }

  /** With non-negative shares, the amount collected lies between nothing and all of it. */
  lemma {:induction false} CollectedBounds(status: map<Id, bool>, rows: seq<PlayerAmount>)
    requires forall i :: 0 <= i < |rows| ==> rows[i].amount >= 0.0
    ensures 0.0 <= TotalPaid(status, rows) <= ShareSum(rows)
  {
    if rows != [] {
      assert forall i :: 1 <= i < |rows| ==> rows[i] == rows[1..][i - 1];
      CollectedBounds(status, rows[1..]);
    }
  }

  /** When the total is the sum of the shares (as the splitter guarantees when every
      expense is charged to someone), the shortfall note never shows once everyone is paid,
      and while it shows somebody is paid and somebody is not. */
  lemma ShortfallMeaning(totalAmount: real, status: map<Id, bool>, rows: seq<PlayerAmount>)
    requires totalAmount == ShareSum(rows)
    ensures AllPaid(status, rows) ==> !ShowShortfall(totalAmount, status, rows)
    ensures ShowShortfall(totalAmount, status, rows) ==>
      (exists i :: 0 <= i < |rows| && Flag(status, rows[i].id)) &&
      (exists i :: 0 <= i < |rows| && !Flag(status, rows[i].id))
  {
    TotalPaidSorted(status, rows);
    if AllPaid(status, rows) {
      EveryonePaid(status, rows);
    }
    if ShowShortfall(totalAmount, status, rows) {
      if forall i :: 0 <= i < |rows| ==> !Flag(status, rows[i].id) {
        NobodyPaid(status, rows);
      }
      AllPaidIff(status, rows);
      if AllPaid(status, rows) {
        EveryonePaid(status, rows);
      }
    }
  }

  /** Once the total is at least the sum of the non-negative shares, what remains to be
      collected is never negative. */
  lemma RemainingNonNegative(totalAmount: real, status: map<Id, bool>, rows: seq<PlayerAmount>)
    requires totalAmount >= ShareSum(rows)
    requires forall i :: 0 <= i < |rows| ==> rows[i].amount >= 0.0
    ensures 0.0 <= Remaining(totalAmount, status, rows) <= totalAmount
  {
    TotalPaidSorted(status, rows);
    CollectedBounds(status, rows);
  }

  /** When the total exceeds the sum of the shares (an expense divided only among players
      outside the panel's rows is charged to none of them), the shortfall note shows even
      with everyone paid. */
  lemma ShortfallWhileAllPaid(totalAmount: real, status: map<Id, bool>, rows: seq<PlayerAmount>)
    requires AllPaid(status, rows)
    requires 0.0 < ShareSum(rows) < totalAmount
    ensures ShowShortfall(totalAmount, status, rows)
  {
    TotalPaidSorted(status, rows);
    EveryonePaid(status, rows);
  }

  /** The panel's state: the paid flags. */
  class PaymentPanel {
    var paymentStatus: map<Id, bool>

    constructor ()
      ensures paymentStatus == map[]
    {
      paymentStatus := map[];
    }

    /** `togglePaymentStatus`: flips the flag of `id`, and only that one. */
    method TogglePaymentStatus(id: Id)
      modifies this
      ensures paymentStatus == Toggled(old(paymentStatus), id)
    {
      paymentStatus := paymentStatus[id := !(id in paymentStatus && paymentStatus[id])];
    }
  }
}
