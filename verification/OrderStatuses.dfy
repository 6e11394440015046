/** The order state machine shared by all channels. */
module OrderStatuses {

  datatype OrderStatus = Pending | Confirmed | Queued | Preparing | Ready | Served | OutForDelivery | Delivered
                       | Cancelled | Rejected

  function Transitions(s: OrderStatus): set<OrderStatus> {
    match s
    case Pending => {Confirmed, Cancelled, Rejected}
    case Confirmed => {Preparing, Cancelled}
    case Queued => {Preparing, Cancelled, Rejected}
    case Preparing => {Ready, Cancelled}
    case Ready => {Served, OutForDelivery, Delivered}
    case OutForDelivery => {Delivered}
    case _ => {}
  }

  datatype Verdict = NoOp | Move(target: OrderStatus) | Illegal

  function Validate(current: OrderStatus, target: OrderStatus): Verdict {
    if current == target then NoOp
    else if target !in Transitions(current) then Illegal
    else Move(target)
  }

  function After(current: OrderStatus, target: OrderStatus): OrderStatus {
    if Validate(current, target).Move? then target else current
  }

  /** The status after asking for each target in turn; illegal requests are refused. */
  function Path(s: OrderStatus, targets: seq<OrderStatus>): OrderStatus {
    if targets == [] then s else After(Path(s, targets[..|targets| - 1]), targets[|targets| - 1])
  }

  predicate Editable(s: OrderStatus) { s == Queued || s == Preparing }

  predicate Terminal(s: OrderStatus) { s in {Served, Delivered, Cancelled, Rejected} }

  /** Progress of an order; every legal move goes strictly up. */
  function Rank(s: OrderStatus): nat {
    match s
    case Pending => 0
    case Confirmed => 1
    case Queued => 1
    case Preparing => 2
    case Ready => 3
    case OutForDelivery => 4
    case _ => 5
  }

  predicate Past(s: OrderStatus) { Rank(s) >= 3 }

  /** Whatever is asked for: the rank never falls, a status whose rank did not rise is unchanged, so
      an order that left Queued and Preparing never returns to them. */
  lemma {:induction false} PathNeverReturns(s: OrderStatus, targets: seq<OrderStatus>)
    ensures Rank(Path(s, targets)) >= Rank(s)
    ensures Rank(Path(s, targets)) == Rank(s) ==> Path(s, targets) == s
    ensures Past(s) ==> !Editable(Path(s, targets))
    ensures Editable(s) ==> Editable(Path(s, targets)) || Past(Path(s, targets))
  {
    if targets != [] { PathNeverReturns(s, targets[..|targets| - 1]); }
  }

  /** The states without a way out are exactly the terminal ones. */
  lemma {:induction false} TerminalIffStuck(s: OrderStatus)
    ensures Terminal(s) <==> forall targets :: Path(s, targets) == s
  {
    if Terminal(s) {
      forall targets ensures Path(s, targets) == s { PathStaysTerminal(s, targets); }
    } else {
      var t := match s
        case Pending => Confirmed
        case Preparing => Ready
        case Ready => Served
        case OutForDelivery => Delivered
        case _ => Preparing;
      var targets := [t];
      assert targets[..0] == [];
      assert Path(s, targets) == After(s, t);
    }
  }

  lemma {:induction false} PathStaysTerminal(s: OrderStatus, targets: seq<OrderStatus>)
    requires Terminal(s)
    ensures Path(s, targets) == s
  {
    if targets != [] { PathStaysTerminal(s, targets[..|targets| - 1]); }
  }
}
