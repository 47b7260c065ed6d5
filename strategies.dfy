/**
 * The order in which the id-resolution strategies are tried, and which
 * `case` bodies of the strategy `switch` run for each strategy: the cases
 * have no `break`, so entering at one case runs every case after it too.
 */
module Strategies {

  datatype Strategy = Radarr | Sonarr | Imdb

  /** The position of each strategy's `case` in the switch, and in the default order. */
  function Rank(s: Strategy): nat
  {
    match s
    case Radarr => 0
    case Sonarr => 1
    case Imdb => 2
  }

  /**
   * The `priority` input as a strategy order: the configured strategy first
   * ("radarr" for any other value), the other two in the default order.
   */
  function Priorities(priority: string): (r: seq<Strategy>)
    ensures |r| == 3 && multiset(r) == multiset{Radarr, Sonarr, Imdb}
    ensures r[0] == Sonarr <==> priority == "sonarr"
    ensures r[0] == Imdb <==> priority == "imdb"
    ensures r[0] == Radarr <==> priority != "sonarr" && priority != "imdb"
    ensures forall j, k :: 1 <= j < k < 3 ==> Rank(r[j]) < Rank(r[k])
  {
    if priority == "sonarr" then [Sonarr, Radarr, Imdb]
    else if priority == "radarr" then [Radarr, Sonarr, Imdb]
    else if priority == "imdb" then [Imdb, Radarr, Sonarr]
    else [Radarr, Sonarr, Imdb]
  }

  /** The `case` labels of the switch, in the order they are written. */
  const CaseOrder: seq<Strategy> := [Radarr, Sonarr, Imdb]

  /** The case bodies that run when the switch is entered with `s`. */
  function CasesFrom(s: Strategy): seq<Strategy>
  {
    match s
    case Radarr => [Radarr, Sonarr, Imdb]
    case Sonarr => [Sonarr, Imdb]
    case Imdb => [Imdb]
  }

  /**
   * Without `break`, entering the switch at a case runs the rest of the case
   * list: it starts with that case, ends with the `imdb` case, and runs
   * exactly the cases written at or after it.
   */
  lemma CasesFromIsSuffix(s: Strategy)
    ensures CasesFrom(s) == CaseOrder[Rank(s)..]
    ensures CasesFrom(s)[0] == s && CasesFrom(s)[|CasesFrom(s)| - 1] == Imdb
    ensures forall x :: x in CasesFrom(s) <==> Rank(s) <= Rank(x)
  {
  }

  /** The case bodies run, in order, over loop iterations for `strategies`. */
  function Executed(strategies: seq<Strategy>): seq<Strategy>
    decreases |strategies|
  {
    if strategies == [] then []
    else Executed(strategies[..|strategies| - 1]) + CasesFrom(strategies[|strategies| - 1])
  }

  lemma ExecutedPrefix(strategies: seq<Strategy>, i: nat)
    requires i < |strategies|
    ensures Executed(strategies[..i + 1]) == Executed(strategies[..i]) + CasesFrom(strategies[i])
  {
    assert strategies[..i + 1][..i] == strategies[..i];
  }
}
