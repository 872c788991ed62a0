/**
 * The mail cursor: an index into the first min(Unread, 20) entries of the feed, moved
 * one step at a time by the Previous and Next thumbnail buttons.
 */
module Cursor {

  /** The feed never lists more than this many entries (_FeedMax). */
  const FeedMax: int := 20

  function Max(a: int, b: int): int {
    if a < b then b else a
  }

  /** min(Unread, 20): how many entries the cursor ranges over. */
  function PageSize(unread: int): (n: int)
    ensures n <= FeedMax && n <= unread
    ensures n == FeedMax || n == unread
  {
    if unread > FeedMax then FeedMax else unread
  }

  /** The Previous click: one step back, and nothing at all at the first entry. */
  function Prev(index: int): (i: int)
    ensures index - 1 <= i <= index
    ensures i == index <==> index <= 0
    ensures index >= 0 ==> i >= 0
  {
    if index > 0 then index - 1 else index
  }

  /**
   * The Next click: one step forward while the index is below min(Unread, 20). The
   * bound is inclusive of one slot past the last entry.
   */
  function Next(index: int, unread: int): (i: int)
    ensures index <= i <= index + 1
    ensures i == index + 1 <==> index < PageSize(unread)
    ensures index <= PageSize(unread) ==> i <= PageSize(unread)
  {
    if index < PageSize(unread) then index + 1 else index
  }

  /** The index range the notifier keeps: from 0 up to min(Unread, 20), and 0 when that is not positive. */
  ghost predicate InRange(index: int, unread: int) {
    0 <= index <= Max(0, PageSize(unread))
  }

  datatype Click = PrevClick | NextClick

  function Step(index: int, unread: int, click: Click): int {
    match click
    case PrevClick => Prev(index)
    case NextClick => Next(index, unread)
  }

  /** The index after a series of clicks with no download completing in between. */
  function Navigate(index: int, unread: int, clicks: seq<Click>): int
    decreases |clicks|
  {
    if clicks == [] then index else Navigate(Step(index, unread, clicks[0]), unread, clicks[1..])
  }

  /** No series of clicks takes the index below 0 or above min(Unread, 20). */
  lemma {:induction false} NavigateStaysInRange(index: int, unread: int, clicks: seq<Click>)
    requires InRange(index, unread)
    ensures InRange(Navigate(index, unread, clicks), unread)
    decreases |clicks|
  {
    if clicks != [] {
      NavigateStaysInRange(Step(index, unread, clicks[0]), unread, clicks[1..]);
    }
  }

  /**
   * Pressing Next n times from the first entry stops at min(n, min(Unread, 20)): the
   * cursor saturates one past the last entry, not on it.
   */
  lemma {:induction false} RepeatedNextSaturates(unread: int, n: nat)
    ensures Navigate(0, unread, seq(n, _ => NextClick)) == if n < Max(0, PageSize(unread)) then n else Max(0, PageSize(unread))
  {
    RepeatedNextFrom(0, unread, n);
  }

  lemma {:induction false} RepeatedNextFrom(index: int, unread: int, n: nat)
    requires 0 <= index <= Max(0, PageSize(unread))
    ensures var top := Max(0, PageSize(unread));
            Navigate(index, unread, seq(n, _ => NextClick)) == if index + n < top then index + n else top
    decreases n
  {
    var clicks := seq(n, _ => NextClick);
    if n > 0 {
      assert clicks[0] == NextClick;
      assert clicks[1..] == seq(n - 1, _ => NextClick);
      RepeatedNextFrom(Next(index, unread), unread, n - 1);
    }
  }

  /** Next then Previous comes back wherever Next moved; Previous then Next likewise. */
  lemma PrevNextInverse(index: int, unread: int)
    ensures 0 <= index < PageSize(unread) ==> Prev(Next(index, unread)) == index
    ensures 0 < index <= PageSize(unread) ==> Next(Prev(index), unread) == index
  {
  }
}
