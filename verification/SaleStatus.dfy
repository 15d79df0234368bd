/** The status state machine (server/src/services/sale-status.ts). */
module SaleStatus {
  import opened Ids

  /** Active on [startMs, endMs). */
  datatype Window = Window(startMs: int, endMs: int) {
    predicate Contains(now: int) {
      startMs <= now < endMs
    }
  }

  datatype Status = Upcoming | Active | Ended | SoldOut

  datatype Body = Body(status: Status, stock: int)

  /** Stock is read in every state, so an unreadable stock is a 503 (`None`) even
      outside the window. */
  function GetStatus(stock: Option<int>, now: int, window: Window): (r: Option<Body>)
    ensures r.Some? <==> stock.Some?
    ensures r.Some? && r.value.status.Active? ==> window.Contains(now) && r.value.stock > 0
  {
    if stock.None? then None
    else if now < window.startMs then Some(Body(Upcoming, stock.value))
    else if now >= window.endMs then Some(Body(Ended, stock.value))
    else Some(Body(if stock.value > 0 then Active else SoldOut, stock.value))
  }

  /** A readable stock is reported as it is, and each status says exactly where the
      clock stands in the window and whether something is left. */
  lemma {:induction false} StatusIsExact(stock: Option<int>, now: int, window: Window)
    ensures GetStatus(stock, now, window).None? <==> stock.None?
    ensures stock.Some? ==>
              var body := GetStatus(stock, now, window).value;
              && body.stock == stock.value
              && (body.status == Upcoming <==> now < window.startMs)
              && (body.status == Ended <==> window.startMs <= now && window.endMs <= now)
              && (body.status == Active <==> window.startMs <= now < window.endMs && stock.value > 0)
              && (body.status == SoldOut <==> window.startMs <= now < window.endMs && stock.value <= 0)
  {
  }

  /** The order a sale goes through its states in. */
  function Stage(status: Status): nat {
    match status
    case Upcoming => 0
    case Active => 1
    case SoldOut => 2
    case Ended => 3
  }

  /** Read at two clock values, a sale never goes back: not from open to upcoming
      nor from ended to anything, whatever the stock did, and from sold out to
      active only if units came back. */
  lemma {:induction false} StatusNeverGoesBack(
      before: int, now: int, after: int, later: int, window: Window)
    requires now <= later
    ensures var first := GetStatus(Some(before), now, window).value.status;
            var second := GetStatus(Some(after), later, window).value.status;
            && (first != Upcoming ==> second != Upcoming)
            && (first == Ended ==> second == Ended)
            && (before >= after ==> Stage(first) <= Stage(second))
            && (Stage(first) > Stage(second) ==> first == SoldOut && second == Active && after > 0 >= before)
  {
    StatusIsExact(Some(before), now, window);
    StatusIsExact(Some(after), later, window);
  }
}
