/** The browser transport (ui/src/node.rs): one inbox carrying answers, failures, notifications and
    the socket's death, a queue of parked notifications, and a latch that remembers the death. */
module Queue {
  import opened Types

  type Note = nat

  datatype HostResponse = GetResponse(state: nat) | NotFound | SubscribeResponse | UpdateNotification(note: Note)
                        | OtherResponse(what: nat)

  datatype ClientError = ClientError(missingContract: bool, text: string)

  datatype Frame = Answer(result: Result<HostResponse, ClientError>) | Failed(why: string) | Closed(why: string)

  datatype Routed = Response(response: HostResponse) | Notification(note: Note) | Failure(why: string)
                  | Close(why: string) | ContractMissing

  function Route(frame: Frame): Routed {
    match frame
    case Closed(why) => Close(why)
    case Failed(why) => Failure(why)
    case Answer(Err(e)) => if e.missingContract then ContractMissing else Failure(e.text)
    case Answer(Ok(UpdateNotification(note))) => Notification(note)
    case Answer(Ok(other)) => Response(other)
  }

  /** What the transport's error handler is told. A connection error names the call site it comes
      from, if any. */
  datatype TransportError = ConnectionError(source: Option<string>) | ConnectionClosed | ChannelClosed | Unrecognised

  /** What the transport hands over: the node's own result, or an error of its own. */
  datatype Arrival =
    | FromNode(result: Result<HostResponse, ClientError>)
    | FromTransport(error: TransportError, why: string)

  predicate SocketIsGone(source: Option<string>) {
    source == Some("close") || source == Some("exec error")
  }

  predicate IsDeath(a: Arrival) {
    match a
    case FromTransport(ConnectionError(source), _) => SocketIsGone(source)
    case FromTransport(ConnectionClosed, _) => true
    case FromTransport(ChannelClosed, _) => true
    case _ => false
  }

  /** The frame an arrival puts on the inbox. */
  function FrameOf(a: Arrival): Frame {
    match a
    case FromNode(result) => Answer(result)
    case FromTransport(_, why) => if IsDeath(a) then Closed(why) else Failed(why)
  }

  /** The notifications among some frames, in order. */
  ghost function Notes(frames: seq<Frame>): seq<Note> {
    if frames == [] then [] else
      var last := Route(frames[|frames| - 1]);
      Notes(frames[..|frames| - 1]) + if last.Notification? then [last.note] else []
  }

  /** Frame by frame: only an update notification is one, and it says what it says. */
  lemma NotesAre(frames: seq<Frame>, f: Frame)
    ensures Notes(frames + [f]) == Notes(frames) + if IsNote(f) then [f.result.value.note] else []
    ensures Answers(frames + [f]) == Answers(frames) + if f.Closed? || IsNote(f) || IsAck(f) then 0 else 1
  {
    assert (frames + [f])[..|frames|] == frames;
  }

  /** What a waiting request takes for its answer. A subscribe acknowledgement comes on top of one. */
  predicate IsAnswer(routed: Routed) {
    match routed
    case Response(r) => !r.SubscribeResponse?
    case Failure(_) => true
    case ContractMissing => true
    case Notification(_) => false
    case Close(_) => false
  }

  /** What `Get` makes of the frame it ends on: a state, or absence for a contract the node does not know
      or did not find, and an error for everything else. */
  ghost function GetMeans(f: Frame): Result<Option<nat>, Trouble> {
    match f
    case Answer(Ok(GetResponse(state))) => Ok(Some(state))
    case Answer(Ok(NotFound)) => Ok(None)
    case Answer(Ok(other)) => Err(Unexpected(other))
    case Answer(Err(e)) => if e.missingContract then Ok(None) else Err(NodeError(e.text))
    case Failed(why) => Err(NodeError(why))
    case Closed(why) => Err(Disconnected(why))
  }

  /** What every other request makes of it: an unknown contract is an error too. */
  ghost function ResponseMeans(f: Frame): Result<HostResponse, Trouble> {
    match f
    case Answer(Ok(response)) => Ok(response)
    case Answer(Err(e)) => if e.missingContract then Err(NoSuchContract) else Err(NodeError(e.text))
    case Failed(why) => Err(NodeError(why))
    case Closed(why) => Err(Disconnected(why))
  }

  ghost predicate IsNote(f: Frame) {
    f.Answer? && f.result.Ok? && f.result.value.UpdateNotification?
  }

  ghost predicate IsAck(f: Frame) {
    f == Answer(Ok(SubscribeResponse))
  }

  /** What a waiting request reads past; only `Get` reads past acknowledgements. */
  ghost predicate Passed(f: Frame, acks: bool) {
    IsNote(f) || (acks && IsAck(f))
  }

  /** Since `before`, nothing but such frames was read. */
  ghost predicate OnlyPassed(before: seq<Frame>, consumed: seq<Frame>, acks: bool) {
    && |before| <= |consumed| && before == consumed[..|before|]
    && forall i | |before| <= i < |consumed| :: Passed(consumed[i], acks)
  }

  /** Since `before`, such frames were read and then the one that ends the wait. */
  ghost predicate StoppedAt(before: seq<Frame>, consumed: seq<Frame>, acks: bool, f: Frame) {
    && consumed != [] && f == consumed[|consumed| - 1] && !Passed(f, acks)
    && |before| < |consumed| && OnlyPassed(before, consumed[..|consumed| - 1], acks)
  }

  lemma OneMorePassed(before: seq<Frame>, consumed: seq<Frame>, acks: bool, f: Frame)
    requires OnlyPassed(before, consumed, acks)
    ensures if Passed(f, acks) then OnlyPassed(before, consumed + [f], acks)
            else StoppedAt(before, consumed + [f], acks, f)
  {
    assert (consumed + [f])[..|consumed|] == consumed;
  }

  /** Waiting on after an acknowledgement. */
  lemma PassedOn(a: seq<Frame>, b: seq<Frame>, c: seq<Frame>, f: Frame)
    requires OnlyPassed(a, b, true)
    ensures OnlyPassed(b, c, false) ==> OnlyPassed(a, c, true)
    ensures StoppedAt(b, c, false, f) ==> if IsAck(f) then OnlyPassed(a, c, true) else StoppedAt(a, c, true, f)
  {
  }

  /** How many answers are among some frames. */
  ghost function Answers(frames: seq<Frame>): nat {
    if frames == [] then 0 else
      Answers(frames[..|frames| - 1]) + if IsAnswer(Route(frames[|frames| - 1])) then 1 else 0
  }

  /** The reason given by the first close among some frames. */
  ghost function FirstClose(frames: seq<Frame>): Option<string> {
    if frames == [] then None else
      var n := |frames| - 1;
      if FirstClose(frames[..n]).Some? then FirstClose(frames[..n])
      else if frames[n].Closed? then Some(frames[n].why) else None
  }

  /** Only a close latches, and later ones never replace the first. */
  lemma {:induction false} FirstCloseIsFirst(frames: seq<Frame>, i: nat)
    requires i < |frames|
    ensures FirstClose(frames).None? <==> forall j | 0 <= j < |frames| :: !frames[j].Closed?
    ensures frames[i].Closed? && (forall j | 0 <= j < i :: !frames[j].Closed?) ==>
            FirstClose(frames) == Some(frames[i].why)
  {
    var n := |frames| - 1;
    if n > 0 {
      FirstCloseIsFirst(frames[..n], if i < n then i else 0);
    }
    assert forall j | 0 <= j < n :: frames[..n][j] == frames[j];
  }

  /** Frames as they come from arrivals. */
  ghost predicate CameFrom(frames: seq<Frame>, arrivals: seq<Arrival>) {
    |frames| <= |arrivals| && forall i | 0 <= i < |frames| :: frames[i] == FrameOf(arrivals[i])
  }

  /** The socket is gone: the stack says so, or a connection error comes from one of the two places that
      mean it. */
  ghost predicate Died(a: Arrival) {
    && a.FromTransport?
    && (a.error == ConnectionClosed || a.error == ChannelClosed
        || a.error == ConnectionError(Some("close")) || a.error == ConnectionError(Some("exec error")))
  }

  /** A result becomes an answer, a death a close, and any other error a failure. */
  lemma FrameOfMeans(a: Arrival)
    ensures FrameOf(a) == if a.FromNode? then Answer(a.result) else if Died(a) then Closed(a.why) else Failed(a.why)
  {
  }

  /** The frames read latch a close exactly when one of the arrivals behind them is the death of the
      socket, never for an error the socket survives, and the reason is the first death's. */
  lemma {:induction false} LatchesIffSocketDied(frames: seq<Frame>, arrivals: seq<Arrival>)
    requires CameFrom(frames, arrivals)
    ensures FirstClose(frames).Some? <==> exists i :: 0 <= i < |frames| && Died(arrivals[i])
    ensures forall i | 0 <= i < |frames| && Died(arrivals[i]) && (forall j | 0 <= j < i :: !Died(arrivals[j])) ::
              FirstClose(frames) == Some(arrivals[i].why)
  {
    forall i | 0 <= i < |frames| ensures Died(arrivals[i]) <==> frames[i].Closed? {
      assert frames[i] == FrameOf(arrivals[i]);
      FrameOfMeans(arrivals[i]);
    }
    forall i | 0 <= i < |frames| && Died(arrivals[i]) && (forall j | 0 <= j < i :: !Died(arrivals[j]))
      ensures FirstClose(frames) == Some(arrivals[i].why)
    {
      FrameOfMeans(arrivals[i]);
      FirstCloseIsFirst(frames, i);
    }
    if frames != [] {
      FirstCloseIsFirst(frames, 0);
    }
  }

  /** Nothing was ever read after a close. */
  ghost predicate StopsAtClose(frames: seq<Frame>) {
    forall i | 0 <= i < |frames| - 1 :: !frames[i].Closed?
  }

  datatype Waited = Got(note: Note) | Ended | Parked

  datatype Trouble = AlreadyClosed(why: string) | TimedOut | NodeError(why: string) | Disconnected(why: string)
                   | NoSuchContract | Unexpected(response: HostResponse)

  class BrowserClient {
    var inbox: seq<Frame>
    var pending: seq<Note>
    var closed: Option<string>
    ghost var consumed: seq<Frame>
    ghost var delivered: seq<Note>
    ghost var asked: nat
    ghost var lost: nat
    ghost var skipped: nat

    constructor ()
      ensures Valid() && Counted() && inbox == [] && consumed == [] && delivered == []
      ensures asked == lost == skipped == 0
    {
      inbox, pending, closed, consumed, delivered := [], [], None, [], [];
      asked, lost, skipped := 0, 0, 0;
    }

    /** Every request so far read one answer or was lost; every answer so far was read by a request or
        skipped by a wait for notifications. */
    ghost predicate Counted()
      reads this
    {
      asked + skipped == Answers(consumed) + lost
    }

    /** Conservation, and the latch says exactly what the consumed frames say. */
    ghost predicate Valid()
      reads this
    {
      && delivered + pending == Notes(consumed)
      && closed == FirstClose(consumed)
      && StopsAtClose(consumed)
    }

    /** Nothing was read and nothing latched. */
    ghost predicate Untouched(inbox': seq<Frame>, consumed': seq<Frame>, closed': Option<string>)
      reads this
    {
      inbox == inbox' && consumed == consumed' && closed == closed'
    }

    method Arrive(a: Arrival)
      requires Valid()
      modifies this`inbox
      ensures Valid() && inbox == old(inbox) + [FrameOf(a)] && closed == old(closed)
    {
      inbox := inbox + [FrameOf(a)];
    }

    /** Latch iff a genuine close; the first reason wins. */
    method Observe(routed: Routed)
      modifies this`closed
      ensures closed == if routed.Close? && old(closed).None? then Some(routed.why) else old(closed)
    {
      if routed.Close? && closed.None? {
        closed := Some(routed.why);
      }
    }

    /** Takes the frame at the head of the inbox. A notification still has to be parked or
        delivered by the caller. */
    method TakeFrame() returns (routed: Routed)
      requires inbox != [] && closed.None?
      requires closed == FirstClose(consumed) && StopsAtClose(consumed)
      modifies this`inbox, this`closed, this`consumed
      ensures routed == Route(old(inbox)[0]) && inbox == old(inbox)[1..]
      ensures consumed == old(consumed) + [old(inbox)[0]] && consumed + inbox == old(consumed + inbox)
      ensures closed == FirstClose(consumed) && StopsAtClose(consumed)
      ensures closed == if routed.Close? then Some(routed.why) else None
      ensures Notes(consumed) == Notes(old(consumed)) + if routed.Notification? then [routed.note] else []
      ensures Answers(consumed) == Answers(old(consumed)) + if IsAnswer(routed) then 1 else 0
    {
      var frame := inbox[0];
      routed := Route(frame);
      inbox := inbox[1..];
      OneMoreFrame(consumed, frame);
      HeadMoves(consumed, old(inbox));
      consumed := consumed + [frame];
      Observe(routed);
    }

    /** Reads until something a request must react to, parking notifications on the way. An empty
        inbox is a timeout; a latched close is refused without touching the inbox. */
    method NextRouted() returns (r: Result<Routed, Trouble>)
      requires Valid()
      modifies this`inbox, this`closed, this`consumed, this`pending
      ensures Valid() && consumed + inbox == old(consumed + inbox)
      ensures old(closed).Some? ==>
        r == Err(AlreadyClosed(old(closed).value)) && Untouched(old(inbox), old(consumed), old(closed))
      ensures r.Ok? ==> !r.value.Notification? && consumed != [] && r.value == Route(consumed[|consumed| - 1])
                        && |inbox| < |old(inbox)|
      ensures old(closed).None? && r.Err? ==> r.error == TimedOut && inbox == [] && closed.None?
      ensures r.Ok? ==> (r.value.Close? <==> closed.Some?)
      ensures r.Ok? && closed.Some? ==> r == Ok(Close(closed.value))
      ensures Answers(consumed) == old(Answers(consumed)) + if r.Ok? && IsAnswer(r.value) then 1 else 0
      ensures if r.Ok? then consumed != [] && StoppedAt(old(consumed), consumed, false, consumed[|consumed| - 1])
              else OnlyPassed(old(consumed), consumed, false)
    {
      if closed.Some? {
        return Err(AlreadyClosed(closed.value));
      }
      while inbox != []
        invariant Valid() && closed.None? && consumed + inbox == old(consumed + inbox)
        invariant OnlyPassed(old(consumed), consumed, false)
        invariant |inbox| <= |old(inbox)| && Answers(consumed) == old(Answers(consumed))
        decreases |inbox|
      {
        OneMorePassed(old(consumed), consumed, false, inbox[0]);
        var routed := TakeOrPark();
        if !routed.Notification? {
          return Ok(routed);
        }
      }
      return Err(TimedOut);
    }

    method TakeOrPark() returns (routed: Routed)
      requires Valid() && inbox != [] && closed.None?
      modifies this`inbox, this`closed, this`consumed, this`pending
      ensures Valid() && consumed + inbox == old(consumed + inbox) && |inbox| < |old(inbox)|
      ensures consumed == old(consumed) + [old(inbox)[0]] && routed == Route(consumed[|consumed| - 1])
      ensures closed == if routed.Close? then Some(routed.why) else None
      ensures Answers(consumed) == old(Answers(consumed)) + if IsAnswer(routed) then 1 else 0
    {
      routed := TakeFrame();
      if routed.Notification? {
        Park(routed.note);
      }
    }

    method Park(note: Note)
      requires Notes(consumed) == delivered + pending + [note]
      requires closed == FirstClose(consumed) && StopsAtClose(consumed)
      modifies this`pending
      ensures Valid()
    {
      ParkedLast(delivered, pending, [note]);
      pending := pending + [note];
    }

    /** The next answer, whoever it was meant for: answers carry no request's name. `answer` is its
        number, and it is this request's own exactly when as many requests were lost before as late
        answers were skipped. */
    method NextResponse() returns (r: Result<HostResponse, Trouble>, ghost answer: Option<nat>)
      requires Valid() && Counted()
      modifies this`inbox, this`closed, this`consumed, this`pending, this`asked, this`lost
      ensures Valid() && Counted() && consumed + inbox == old(consumed + inbox)
      ensures old(closed).Some? ==>
        r == Err(AlreadyClosed(old(closed).value)) && Untouched(old(inbox), old(consumed), old(closed))
      ensures r.Ok? ==> !r.value.UpdateNotification? && (answer.Some? <==> !r.value.SubscribeResponse?)
      ensures r == Err(TimedOut) ==> answer.None?
      ensures || (OnlyPassed(old(consumed), consumed, false) && r.Err? && (r.error.TimedOut? || r.error.AlreadyClosed?))
              || (exists f :: StoppedAt(old(consumed), consumed, false, f) && r == ResponseMeans(f))
      ensures asked == old(asked) + 1 && lost == old(lost) + if answer.Some? then 0 else 1
      ensures answer.Some? ==>
        answer.value == old(Answers(consumed)) && (answer.value == old(asked) <==> old(lost) == old(skipped))
    {
      var routed := NextRouted();
      answer := Ask(routed, old(Answers(consumed)));
      match routed
      case Err(t) => return Err(t), answer;
      case Ok(Response(resp)) => return Ok(resp), answer;
      case Ok(Failure(why)) => return Err(NodeError(why)), answer;
      case Ok(Close(why)) => return Err(Disconnected(why)), answer;
      case Ok(ContractMissing) => return Err(NoSuchContract), answer;
    }

    /** One more request has come to its end; `before` answers had been read. */
    ghost method Ask(routed: Result<Routed, Trouble>, before: nat) returns (answer: Option<nat>)
      modifies this`asked, this`lost
      ensures asked == old(asked) + 1 && lost == old(lost) + if answer.Some? then 0 else 1
      ensures answer == if routed.Ok? && IsAnswer(routed.value) then Some(before) else None
    {
      asked := asked + 1;
      if routed.Ok? && IsAnswer(routed.value) {
        answer := Some(before);
      } else {
        answer, lost := None, lost + 1;
      }
    }

    /** Alone in reading a missing contract as "not there yet"; skips subscribe acknowledgements. */
    method Get() returns (r: Result<Option<nat>, Trouble>, ghost answer: Option<nat>)
      requires Valid() && Counted()
      modifies this`inbox, this`closed, this`consumed, this`pending, this`asked, this`lost
      ensures Valid() && Counted() && consumed + inbox == old(consumed + inbox)
      ensures old(closed).Some? ==>
        r == Err(AlreadyClosed(old(closed).value)) && Untouched(old(inbox), old(consumed), old(closed))
      ensures r.Ok? ==> consumed != [] && answer.Some?
      ensures r.Ok? && r.value.Some? ==> Route(consumed[|consumed| - 1]) == Response(GetResponse(r.value.value))
      ensures r.Ok? && r.value.None? ==> Route(consumed[|consumed| - 1]) in {ContractMissing, Response(NotFound)}
      ensures r == Err(TimedOut) ==> answer.None?
      ensures || (OnlyPassed(old(consumed), consumed, true) && r.Err? && (r.error.TimedOut? || r.error.AlreadyClosed?))
              || (exists f :: StoppedAt(old(consumed), consumed, true, f) && r == GetMeans(f))
      ensures asked == old(asked) + 1 && lost == old(lost) + if answer.Some? then 0 else 1
      ensures answer.Some? ==>
        answer.value == old(Answers(consumed)) && (answer.value == old(asked) <==> old(lost) == old(skipped))
    {
      var routed := NextButAcks();
      answer := Ask(routed, old(Answers(consumed)));
      match routed
      case Err(t) => return Err(t), answer;
      case Ok(Response(GetResponse(state))) => return Ok(Some(state)), answer;
      case Ok(Response(NotFound)) => return Ok(None), answer;
      case Ok(Response(other)) => return Err(Unexpected(other)), answer;
      case Ok(ContractMissing) => return Ok(None), answer;
      case Ok(Failure(why)) => return Err(NodeError(why)), answer;
      case Ok(Close(why)) => return Err(Disconnected(why)), answer;
    }

    /** Its loop. */
    method NextButAcks() returns (r: Result<Routed, Trouble>)
      requires Valid()
      modifies this`inbox, this`closed, this`consumed, this`pending
      ensures Valid() && consumed + inbox == old(consumed + inbox)
      ensures old(closed).Some? ==>
        r == Err(AlreadyClosed(old(closed).value)) && Untouched(old(inbox), old(consumed), old(closed))
      ensures r.Ok? ==> !r.value.Notification? && r.value != Response(SubscribeResponse)
      ensures r.Ok? ==> consumed != [] && r.value == Route(consumed[|consumed| - 1])
      ensures Answers(consumed) == old(Answers(consumed)) + if r.Ok? && IsAnswer(r.value) then 1 else 0
      ensures if r.Ok? then consumed != [] && StoppedAt(old(consumed), consumed, true, consumed[|consumed| - 1])
              else (r.error.TimedOut? || r.error.AlreadyClosed?) && OnlyPassed(old(consumed), consumed, true)
    {
      while true
        invariant Valid() && consumed + inbox == old(consumed + inbox)
        invariant old(closed).Some? ==> Untouched(old(inbox), old(consumed), old(closed))
        invariant Answers(consumed) == old(Answers(consumed))
        invariant OnlyPassed(old(consumed), consumed, true)
        decreases |inbox|
      {
        ghost var before := consumed;
        r := NextRouted();
        if consumed != [] {
          PassedOn(old(consumed), before, consumed, consumed[|consumed| - 1]);
        } else {
          PassedOn(old(consumed), before, consumed, Failed(""));
        }
        if r != Ok(Response(SubscribeResponse)) {
          return;
        }
      }
    }

    /** Parked notifications first, then the latch, then the inbox without any timeout. */
    method NextUpdate() returns (u: Waited)
      requires Valid() && Counted()
      modifies this`inbox, this`pending, this`closed, this`consumed, this`delivered, this`skipped
      ensures Counted() && skipped - old(skipped) == Answers(consumed) - old(Answers(consumed))
      ensures Valid() && consumed + inbox == old(consumed + inbox)
      ensures skipped >= old(skipped) && asked == old(asked)
      ensures u.Got? ==> delivered == old(delivered) + [u.note]
      ensures old(pending) != [] ==> u == Got(old(pending)[0])
      ensures !u.Got? ==> delivered == old(delivered) && pending == [] == old(pending)
      ensures u.Ended? ==> closed.Some?
      ensures u.Parked? ==> closed.None? && inbox == []
      ensures old(closed).Some? || old(pending) != [] ==>
                !u.Parked? && Untouched(old(inbox), old(consumed), old(closed))
    {
      if pending != [] {
        u := Got(pending[0]);
        delivered := delivered + [pending[0]];
        pending := pending[1..];
        return;
      }
      if closed.Some? {
        return Ended;
      }
      while inbox != []
        invariant Valid() && closed.None? && pending == [] && delivered == old(delivered)
        invariant consumed + inbox == old(consumed + inbox)
        invariant Counted() && skipped >= old(skipped)
        invariant asked == old(asked) && lost == old(lost)
        decreases |inbox|
      {
        var routed := TakeOrDeliver();
        skipped := skipped + if IsAnswer(routed) then 1 else 0;
        if routed.Notification? {
          return Got(routed.note);
        }
        if routed.Close? {
          return Ended;
        }
      }
      return Parked;
    }

    method TakeOrDeliver() returns (routed: Routed)
      requires Valid() && inbox != [] && closed.None? && pending == []
      modifies this`inbox, this`closed, this`consumed, this`delivered
      ensures Valid() && consumed + inbox == old(consumed + inbox) && |inbox| < |old(inbox)|
      ensures delivered == old(delivered) + if routed.Notification? then [routed.note] else []
      ensures closed.Some? <==> routed.Close?
      ensures Answers(consumed) == old(Answers(consumed)) + if IsAnswer(routed) then 1 else 0
    {
      routed := TakeFrame();
      if routed.Notification? {
        delivered := delivered + [routed.note];
      }
    }
  }

  /** Reading one more frame after no close. */
  lemma OneMoreFrame(frames: seq<Frame>, frame: Frame)
    requires FirstClose(frames).None? && StopsAtClose(frames)
    ensures StopsAtClose(frames + [frame])
    ensures FirstClose(frames + [frame]) == if frame.Closed? then Some(frame.why) else None
    ensures Notes(frames + [frame]) ==
            Notes(frames) + if Route(frame).Notification? then [Route(frame).note] else []
    ensures Answers(frames + [frame]) == Answers(frames) + if IsAnswer(Route(frame)) then 1 else 0
  {
    assert (frames + [frame])[..|frames|] == frames;
    if frames != [] {
      FirstCloseIsFirst(frames, 0);
    }
  }

  lemma HeadMoves<T>(a: seq<T>, b: seq<T>)
    requires b != []
    ensures a + [b[0]] + b[1..] == a + b
  {
  }

  /** What a read adds to the notifications can be parked behind those already parked. */
  lemma ParkedLast<T>(a: seq<T>, b: seq<T>, c: seq<T>)
    ensures a + (b + c) == a + b + c
  {
  }

  datatype Op = Push(arrival: Arrival) | Request | Fetch | Update

  /** Any interleaving of arrivals, requests and waits: nothing that arrived is lost, repeated or
      reordered, and what the caller got is a prefix of the notifications read. A client that starts
      unused is latched exactly when it has read the death of its socket. `served` pairs the requests
      that read an answer with the answers' numbers: where none was lost and no answer skipped, before
      or during the run, each read its own. */
  method Converse(client: BrowserClient, ops: seq<Op>) returns (got: seq<Note>, ghost served: seq<(nat, nat)>)
    requires client.Valid() && client.Counted()
    modifies client
    ensures client.Valid() && client.Counted()
    ensures client.lost >= old(client.lost) && client.skipped >= old(client.skipped)
    ensures client.lost == client.skipped == 0 ==> OwnAnswers(served)
    ensures client.delivered == old(client.delivered) + got
    ensures client.consumed + client.inbox == old(client.consumed + client.inbox) + Frames(Pushed(ops))
    ensures old(client.closed).Some? ==> client.consumed == old(client.consumed)
    ensures old(client.consumed + client.inbox) == [] ==>
              CameFrom(client.consumed, Pushed(ops))
              && (client.closed.Some? <==> exists i :: 0 <= i < |client.consumed| && Died(Pushed(ops)[i]))
  {
    got, served := [], [];
    ghost var start := client.consumed + client.inbox;
    for i := 0 to |ops|
      invariant client.Valid() && client.Counted()
      invariant client.lost >= old(client.lost) && client.skipped >= old(client.skipped)
      invariant client.lost == client.skipped == 0 ==> OwnAnswers(served)
      invariant client.delivered == old(client.delivered) + got
      invariant client.consumed + client.inbox == start + Frames(Pushed(ops[..i]))
      invariant old(client.closed).Some? ==>
        client.closed == old(client.closed) && client.consumed == old(client.consumed)
    {
      PushedOneMore(ops, i);
      ghost var whole := client.consumed + client.inbox;
      ghost var number := client.asked;
      var notes, answer := Perform(client, ops[i]);
      got := got + notes;
      served := served + if answer.Some? then [(number, answer.value)] else [];
      assert client.consumed + client.inbox == whole + if ops[i].Push? then [FrameOf(ops[i].arrival)] else [];
    }
    assert ops[..|ops|] == ops;
    if start == [] {
      ReadFrom(client.consumed, client.inbox, Pushed(ops));
      LatchesIffSocketDied(client.consumed, Pushed(ops));
    }
  }

  /** Each request read the answer of its own number. */
  ghost predicate OwnAnswers(served: seq<(nat, nat)>) {
    forall i | 0 <= i < |served| :: served[i].0 == served[i].1
  }

  method Perform(client: BrowserClient, op: Op) returns (notes: seq<Note>, ghost answer: Option<nat>)
    requires client.Valid() && client.Counted()
    modifies client
    ensures client.Counted() && client.lost >= old(client.lost) && client.skipped >= old(client.skipped)
    ensures client.asked == old(client.asked) + if op.Request? || op.Fetch? then 1 else 0
    ensures op.Update? && old(client.pending) != [] ==> notes == [old(client.pending)[0]]
    ensures op.Update? && notes == [] ==> client.closed.Some? || client.inbox == []
    ensures answer.Some? ==> (answer.value == old(client.asked) <==> old(client.lost) == old(client.skipped))
    ensures client.Valid() && client.delivered == old(client.delivered) + notes
    ensures client.consumed + client.inbox ==
            old(client.consumed + client.inbox) + if op.Push? then [FrameOf(op.arrival)] else []
    ensures old(client.closed).Some? ==>
              client.closed == old(client.closed) && client.consumed == old(client.consumed)
  {
    notes, answer := [], None;
    match op {
      case Push(a) => client.Arrive(a);
      case Request =>
        var _, number := client.NextResponse();
        answer := number;
      case Fetch =>
        var _, number := client.Get();
        answer := number;
      case Update =>
        var u := client.NextUpdate();
        if u.Got? {
          notes := [u.note];
        }
    }
  }

  ghost function Pushed(ops: seq<Op>): seq<Arrival> {
    if ops == [] then [] else
      Pushed(ops[..|ops| - 1]) + if ops[|ops| - 1].Push? then [ops[|ops| - 1].arrival] else []
  }

  ghost function Frames(arrivals: seq<Arrival>): seq<Frame> {
    seq(|arrivals|, i requires 0 <= i < |arrivals| => FrameOf(arrivals[i]))
  }

  lemma PushedOneMore(ops: seq<Op>, i: nat)
    requires i < |ops|
    ensures Frames(Pushed(ops[..i + 1])) ==
            Frames(Pushed(ops[..i])) + if ops[i].Push? then [FrameOf(ops[i].arrival)] else []
  {
    assert ops[..i + 1][..i] == ops[..i];
  }

  lemma ReadFrom(consumed: seq<Frame>, inbox: seq<Frame>, arrivals: seq<Arrival>)
    requires consumed + inbox == Frames(arrivals)
    ensures CameFrom(consumed, arrivals)
  {
    forall i | 0 <= i < |consumed| ensures consumed[i] == FrameOf(arrivals[i]) {
      assert (consumed + inbox)[i] == consumed[i];
    }
  }
}
