/** Event logs, oldest entry deepest. Every prefix of a log is one of its
    sub-logs, so a property of "each entry and all that came before it" is a
    plain structural recursion. */
module Logs {

  datatype Option<+T> = None | Some(value: T)

  datatype Log<E> = Empty | Snoc(prev: Log<E>, last: E)

  /** What f takes from each entry, in order. */
  function Pick<E, T>(f: E -> seq<T>, log: Log<E>): seq<T> {
    match log
    case Empty => []
    case Snoc(prev, e) => Pick(f, prev) + f(e)
  }

  /** How many entries satisfy p. */
  function Count<E>(p: E -> bool, log: Log<E>): nat {
    match log
    case Empty => 0
    case Snoc(prev, e) => Count(p, prev) + if p(e) then 1 else 0
  }

  /** Every entry that satisfies p is stamped at least `gap` before `at`. */
  predicate Spaced<E>(time: E -> int, p: E -> bool, log: Log<E>, at: int, gap: int) {
    match log
    case Empty => true
    case Snoc(prev, e) => Spaced(time, p, prev, at, gap) && (p(e) ==> at - time(e) >= gap)
  }

  /** The entries, oldest first. */
  function Entries<E>(log: Log<E>): seq<E> {
    match log
    case Empty => []
    case Snoc(prev, e) => Entries(prev) + [e]
  }

  lemma {:induction false} SpacedExactly<E>(time: E -> int, p: E -> bool, log: Log<E>, at: int, gap: int)
    ensures Spaced(time, p, log, at, gap) <==> forall e | e in Entries(log) :: p(e) ==> at - time(e) >= gap
  {
    if log.Snoc? { SpacedExactly(time, p, log.prev, at, gap); }
  }

  function Anything<E>(): E -> bool { _ => true }

  lemma {:induction false} SpacedLater<E>(time: E -> int, p: E -> bool, log: Log<E>, at: int, gap: int, later: int)
    requires Spaced(time, p, log, at, gap) && at <= later
    ensures Spaced(time, p, log, later, gap)
  {
    if log.Snoc? { SpacedLater(time, p, log.prev, at, gap, later); }
  }

  /** A timer armed now for `gap` keeps that distance from all that happened. */
  lemma {:induction false} SpacedFrom<E>(time: E -> int, p: E -> bool, log: Log<E>, now: int, gap: int)
    requires Spaced(time, Anything(), log, now, 0)
    ensures Spaced(time, p, log, now + gap, gap)
  {
    if log.Snoc? { SpacedFrom(time, p, log.prev, now, gap); }
  }
}
