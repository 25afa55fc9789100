/** Under after-turn steering, follow-ups reach the agent in the order they arrived. */
module Order {
  import opened Model
  import opened Journal
  import opened TurnLoop
  import opened Handing
  import opened Protocol
  import opened Lines
  import System
  import Capacity

  lemma StartInOrder()
    ensures OrderOk(START)
  {}

  lemma {:induction false} EveryStateOrder(cfg: Config, moves: seq<Move>, s: Sys)
    requires Reaches(cfg, moves, s) && cfg.steering.AfterTurn?
    ensures OrderOk(s)
    decreases |moves|
  {
    if moves == [] {
      StartInOrder();
    } else {
      var front := StateOf(cfg, moves[..|moves| - 1]);
      EveryStateOrder(cfg, moves[..|moves| - 1], front);
      Capacity.EveryStateCap(cfg, moves[..|moves| - 1], front);
      System.EveryMove(cfg, front, moves[|moves| - 1], s);
      MovedOrder(cfg, front, s);
    }
  }

  /** At `p` a follow-up of row `i` was put before the agent, and later, at `q`, one of row `k` of the same conversation. */
  predicate HandedBefore(s: Sys, p: int, q: int, i: int, k: int) {
    0 <= p < q < |s.handed| && RowAt(s.j, i, s.handed[p]) && RowAt(s.j, k, s.handed[q]) && SameConv(s.j, i, k)
  }

  /**
   Under after-turn steering the follow-ups of a conversation are put before the agent in the order they arrived,
   across the turns of a run, across continuations, and across restarts.
   */
  lemma HandedInArrivalOrder(cfg: Config, moves: seq<Move>, s: Sys, p: int, q: int, i: int, k: int)
    requires Reaches(cfg, moves, s) && cfg.steering.AfterTurn? && HandedBefore(s, p, q, i, k)
    ensures i < k
  {
    EveryStateOrder(cfg, moves, s);
    InOrderSo(s, p, q, i, k);
  }

  lemma InOrderSo(s: Sys, p: int, q: int, i: int, k: int)
    requires LinesOk(s) && HandedBefore(s, p, q, i, k)
    ensures i < k
  {
    HandedPrefix(s.j, s.handed, Line(s, 0));
    assert Precedes(s.j, s.handed[p], s.handed[q]);
  }
}
