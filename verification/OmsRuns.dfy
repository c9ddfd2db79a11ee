/**
 Service calls as functions on the database value. A call is a sequence of separately committed
 transactions, so each takes the number of commits after which the process dies.
 */
module OmsRuns {
  import opened FeeTax
  import opened OmsModel
  import opened Wrappers

  /** The database a call leaves behind, and what the call returns or raises. */
  datatype Ran = Ran(db: Db, outcome: Result<Order, OmsError>)

  /** One last transaction of a call. */
  function Finish(db: Db, step: Result<(Db, Order), OmsError>): Ran {
    match step
    case Ok((after, order)) => Ran(after, Ok(order))
    case Err(problem) => Ran(db, Err(problem))
  }

  function Named(db: Db, o: Order, state: OrderState, reason: string, release: bool): Result<(Db, Order), OmsError> {
    Transition(db, o.id, NamedEvent(o, state, reason), o.version, None, release)
  }

  // ---- queue ----

  /** Gross, fee and tax of a command at its estimated price. */
  function Required(fees: FeeTaxPolicy, c: Command): Result<real, CostError> {
    var gross := c.estimatedPrice * (c.quantity as real);
    var (fee, tax) :- fees.Costs(c.side, gross);
    Ok(gross + fee as real + tax as real)
  }

  /** The risk rejection reason of a command, given what is already reserved. */
  ghost function RiskReason(db: Db, c: Command, required: real): Option<string> {
    if c.side == Buy && required > c.availableCash - ReservedCash(db) then Some("insufficient_cash")
    else if c.side == Sell && c.quantity as real > c.availablePosition as real - ReservedSell(db, c.instrument) then
      Some("insufficient_position")
    else None
  }

  /** The last commit of `queue`: submit event, outbox row and reservation together. */
  function Submit(db: Db, o: Order, c: Command, required: real): Result<(Db, Order), OmsError> {
    Transition(db, o.id, NextEvent(o, SubmitPending, SubmitTag, NoPayload, "paper_submit_queued", o.updatedAt),
               o.version,
               Some(Submission(if c.side == Buy then required else 0.0, c.quantity)), false)
  }

  /** `queue` from the risk decision on. */
  ghost function Decided(db: Db, o: Order, fees: FeeTaxPolicy, c: Command, commits: nat): Ran {
    match Required(fees, c)
    case Err(_) => Ran(db, Err(InvalidNotional))
    case Ok(required) =>
      if commits == 0 then Ran(db, Err(Crashed))
      else if RiskReason(db, c, required).Some? then
        Finish(db, Named(db, o, RiskRejected, RiskReason(db, c, required).value, false))
      else
        match Named(db, o, RiskApproved, "paper_risk_approved", false)
        case Err(problem) => Ran(db, Err(problem))
        case Ok((approved, o')) =>
          if commits == 1 then Ran(approved, Err(Crashed)) else Finish(approved, Submit(approved, o', c, required))
  }

  /** `queue`, dying after `commits` commits; four always suffice. */
  ghost function Queued(db: Db, fees: FeeTaxPolicy, c: Command, commits: nat): Ran {
    if ByKey(db, c.key).Some? then Ran(db, Ok(ByKey(db, c.key).value))
    else if c.quantity < 1 then Ran(db, Err(InvalidOrder))
    else if commits == 0 then Ran(db, Err(Crashed))
    else
      match Create(db, c.Id(), c.createdAt)
      case Err(problem) => Ran(db, Err(problem))
      case Ok((created, o)) =>
        if commits == 1 then Ran(created, Err(Crashed))
        else
          match Named(created, o, RiskPending, "risk_evaluation_started", false)
          case Err(problem) => Ran(created, Err(problem))
          case Ok((pending, o')) => Decided(pending, o', fees, c, commits - 2)
  }

  // ---- process_outbox ----

  /** The first fill of a result that is not recorded yet. */
  function FirstOpenFill(recorded: seq<FillRow>, fills: seq<PaperFill>): Result<Option<PaperFill>, OmsError> {
    if fills == [] then Ok(None)
    else
      var prior := FindFill(recorded, fills[0].identity);
      if prior.None? then Ok(Some(fills[0]))
      else if prior.value.fill.quantity != fills[0].quantity || prior.value.fill.price != fills[0].price
          then Err(FillConflict)
      else FirstOpenFill(recorded, fills[1..])
  }

  function JustDb(step: Result<(Db, Order), OmsError>): Result<Option<Db>, OmsError> {
    match step
    case Ok((db, _)) => Ok(Some(db))
    case Err(problem) => Err(problem)
  }

  /** The database with delivery attempts forgotten. */
  function Core(db: Db): (r: Db)
    ensures |r.outbox| == |db.outbox|
  {
    db.(outbox := seq(|db.outbox|, i requires 0 <= i < |db.outbox| => db.outbox[i].(attempts := 0)))
  }

  function Delivered(db: Db, row: OutboxRow, at: int): Db {
    Core(db.(outbox := MarkDelivered(db.outbox, row.key, at)))
  }

  /**
   The next commit that delivering the outbox would make, read off the database alone: nothing when the
   outbox is drained, an error when the delivery raises.
   */
  function NextCommit(db: Db, answer: OrderId -> BrokerResult): Result<Option<Db>, OmsError> {
    match FirstPending(db.outbox)
    case None => Ok(None)
    case Some(row) =>
      if row.order !in db.orders then Err(OrderNotFound)
      else
        var o, result := db.orders[row.order], answer(row.order);
        if o.state == SubmitPending then JustDb(Named(db, o, Submitted, "paper_request_delivered", false))
        else if result.rejected then
          if o.state == Submitted then JustDb(Named(db, o, Rejected, result.reason, true))
          else Ok(Some(Delivered(db, row, result.acknowledgedAt)))
        else if o.state == Submitted then JustDb(Named(db, o, Acknowledged, result.reason, false))
        else
          var open :- FirstOpenFill(db.fills, result.fills);
          if open.None? then Ok(Some(Delivered(db, row, result.acknowledgedAt)))
          else JustDb(TransitionFill(db, o.id, FillEvent(o, open.value), o.version, open.value))
  }

  /** At most `commits` further commits of outbox delivery. */
  ghost function Advance(db: Db, answer: OrderId -> BrokerResult, commits: nat): Db
    decreases commits
  {
    if commits == 0 then db
    else
      match NextCommit(db, answer)
      case Ok(Some(after)) => Advance(after, answer, commits - 1)
      case _ => db
  }

  // ---- The remaining commands ----

  function Single(db: Db, id: OrderId, state: OrderState, business: Business, reason: string, at: int,
                  release: bool): Ran {
    if id !in db.orders then Ran(db, Err(OrderNotFound))
    else
      var o := db.orders[id];
      Finish(db, Transition(db, id, NextEvent(o, state, business, NoPayload, reason, at), o.version, None, release))
  }

  function CancelRequested(db: Db, id: OrderId, at: int): Ran {
    Single(db, id, CancelPending, CancelTag, "cancel_requested", at, false)
  }

  function CancelApplied(db: Db, id: OrderId, status: string, at: int): Ran {
    var state := if status == "cancelled" then Cancelled else Unknown;
    Single(db, id, state, CancelResultTag(status), status, at, state == Cancelled)
  }

  function ReplaceRequested(db: Db, id: OrderId, at: int): Ran {
    Single(db, id, ReplacePending, ReplaceTag, "replace_requested", at, false)
  }

  function ReplaceApplied(db: Db, id: OrderId, status: string, at: int): Ran {
    Single(db, id, if status == "replaced" then Replaced else Unknown, ReplaceResultTag(status), status, at, false)
  }

  function Recovered(db: Db, id: OrderId, state: OrderState, reason: string, at: int): Ran {
    if id !in db.orders then Ran(db, Err(OrderNotFound))
    else if db.orders[id].state != Unknown then Ran(db, Err(NotUnknown))
    else Single(db, id, state, RecoveryTag(db.orders[id].sequence + 1), reason, at, false)
  }

  // ---- Runs ----

  /** One call of the service, or the part of it that ran before a crash. */
  datatype Call =
    | Queue(command: Command, commits: nat)
    | Deliver(answer: OrderId -> BrokerResult, commits: nat)
    | RequestCancel(id: OrderId, at: int)
    | ApplyCancel(id: OrderId, status: string, at: int)
    | RequestReplace(id: OrderId, at: int)
    | ApplyReplace(id: OrderId, status: string, at: int)
    | Recover(id: OrderId, state: OrderState, reason: string, at: int)

  ghost function After(db: Db, fees: FeeTaxPolicy, call: Call): Db {
    match call
    case Queue(command, commits) => Queued(db, fees, command, commits).db
    case Deliver(answer, commits) => Advance(db, answer, commits)
    case RequestCancel(id, at) => CancelRequested(db, id, at).db
    case ApplyCancel(id, status, at) => CancelApplied(db, id, status, at).db
    case RequestReplace(id, at) => ReplaceRequested(db, id, at).db
    case ApplyReplace(id, status, at) => ReplaceApplied(db, id, status, at).db
    case Recover(id, state, reason, at) => Recovered(db, id, state, reason, at).db
  }

  /** The database after any sequence of calls and crashes, starting empty. */
  ghost function Run(fees: FeeTaxPolicy, calls: seq<Call>): Db {
    if calls == [] then EMPTY_DB else After(Run(fees, calls[..|calls| - 1]), fees, calls[|calls| - 1])
  }
}
