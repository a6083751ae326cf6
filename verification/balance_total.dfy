/**
 The total money held across all accounts. Used to state how much a handler
 moves into or out of the tracked system.
 */
module BalanceTotal {
  import opened LedgerTypes

  /** Some account holder of a non-empty balance map; a fixed choice per map. */
  ghost function AnyHolder(m: map<UserId, int>): (u: UserId)
    requires m != map[]
    ensures u in m
  {
    var u :| u in m; u
  }

  /** Sum of every balance in `m`. */
  ghost function Total(m: map<UserId, int>): int
    decreases |m|
  {
    if m == map[] then 0
    else
      var u := AnyHolder(m);
      m[u] + Total(m - {u})
  }

  /** Any one account can be split off the total, whichever the definition picked first. */
  lemma {:induction false} TotalWithout(m: map<UserId, int>, u: UserId)
    requires u in m
    ensures Total(m) == m[u] + Total(m - {u})
    decreases |m|
  {
    var w := AnyHolder(m);
    if w != u {
      assert |m - {w}| == |m| - 1;
      TotalWithout(m - {w}, u);
      assert |m - {u}| == |m| - 1;
      TotalWithout(m - {u}, w);
      assert m - {w} - {u} == m - {u} - {w};
    }
  }

  /** Changing one existing balance changes the total by the same difference. */
  lemma TotalUpdate(m: map<UserId, int>, u: UserId, b: int)
    requires u in m
    ensures Total(m[u := b]) == Total(m) - m[u] + b
  {
    TotalWithout(m, u);
    TotalWithout(m[u := b], u);
    assert m[u := b] - {u} == m - {u};
  }
}
