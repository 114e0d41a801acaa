/** The training job state machine. */
module StateMachine {
  import opened Contracts

  datatype Status = Queued | Running | Succeeded | Failed | Cancelled | Deleted

  /** `TRANSITION_TABLE` */
  predicate CanMove(current: Status, target: Status) {
    match current
    case Queued => target == Running || target == Failed || target == Cancelled
    case Running => target == Succeeded || target == Failed || target == Cancelled
    case Succeeded => target == Deleted
    case _ => false
  }

  /** `transition`: staying is always allowed, moving only along the table. */
  function Transition(current: Status, target: Status): (r: Result<Status>) {
    if current == target || CanMove(current, target) then Ok(target) else Err(InvalidTransition)
  }

  /** `cancel`: terminal states stay as they are. */
  function CancelTarget(current: Status): (s: Status)
    ensures Transition(current, s) == Ok(s)
  {
    if current == Queued || current == Running then Cancelled else current
  }

  predicate Active(s: Status) {
    s == Queued || s == Running
  }

  /** The later status can be reached from the earlier one by moves of the table. */
  predicate Forward(earlier: Status, later: Status) {
    || earlier == later
    || earlier == Queued
    || (earlier == Running && later != Queued)
    || (earlier == Succeeded && later == Deleted)
  }

  /** A path of moves from one status to another, the statuses in between included. */
  predicate Path(from: Status, via: seq<Status>, to: Status)
    decreases |via|
  {
    if via == [] then from == to else CanMove(from, via[0]) && Path(via[0], via[1..], to)
  }

  function Route(from: Status, to: Status): seq<Status>
    requires Forward(from, to)
  {
    if from == to then []
    else if CanMove(from, to) then [to]
    else if from == Running then [Succeeded, to]
    else if to == Succeeded then [Running, to]
    else [Running, Succeeded, to]
  }

  lemma RouteIsPath(from: Status, to: Status)
    requires Forward(from, to)
    ensures Path(from, Route(from, to), to)
  {
    var none: seq<Status> := [];
    assert Path(to, none, to);
    assert [to][1..] == none && [Succeeded, to][1..] == [to];
    assert [Running, to][1..] == [to] && [Running, Succeeded, to][1..] == [Succeeded, to];
    assert Path(Succeeded, [Deleted], Deleted) by {
      assert [Deleted][1..] == none;
    }
    assert Path(Running, [Succeeded], Succeeded) by {
      assert [Succeeded][1..] == none;
    }
  }

  lemma {:induction false} PathForward(from: Status, via: seq<Status>, to: Status)
    requires Path(from, via, to)
    ensures Forward(from, to)
    decreases |via|
  {
    if via != [] {
      PathForward(via[0], via[1..], to);
    }
  }

  /** `Forward` is just reachability in the transition table. */
  lemma ForwardIsReachable(from: Status, to: Status)
    ensures Forward(from, to) <==> exists via :: Path(from, via, to)
  {
    if Forward(from, to) {
      RouteIsPath(from, to);
      assert exists via :: Path(from, via, to);
    }
    forall via | Path(from, via, to)
      ensures Forward(from, to)
    {
      PathForward(from, via, to);
    }
  }

  lemma ForwardTransitive(a: Status, b: Status, c: Status)
    requires Forward(a, b) && Forward(b, c)
    ensures Forward(a, c)
  {
  }

  /** Never back: two statuses reachable from each other are the same. */
  lemma ForwardAntisymmetric(a: Status, b: Status)
    requires Forward(a, b) && Forward(b, a)
    ensures a == b
  {
  }
}
