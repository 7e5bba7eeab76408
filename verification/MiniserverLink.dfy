/** The Miniserver WebSocket: header/payload framing and the FIFO that correlates
    replies with commands. Decryption and JSON parsing are abstract. */
module MiniserverLink {
  import opened AlexaModel
  import opened EventTables

  const HEADER_MAGIC: Byte := 3
  const HEADER_BYTES := 8
  const ID_TEXT: Byte := 0
  const ID_KEEPALIVE: Byte := 6

  // ----- Framing --------------------------------------------------------------------

  datatype Frame = Frame(data: seq<Byte>, isBinary: bool)

  datatype Header = Header(identifier: Byte, payloadLength: nat)

  datatype Delivery = Payload(header: Header, data: seq<Byte>, isBinary: bool) | Keepalive

  /** `parseHeader`: the header to wait on, and whether it was a keepalive reply. */
  function ParseHeader(buf: seq<Byte>): (Option<Header>, seq<Delivery>)
    requires |buf| == HEADER_BYTES
  {
    var length := ReadLE(buf[4..]);
    if buf[0] != HEADER_MAGIC then (None, [])
    else if buf[2] % 2 == 1 then (None, [])
    else if buf[1] == ID_KEEPALIVE && length == 0 then (None, [Keepalive])
    else (Some(Header(buf[1], length)), [])
  }

  /** `handleMessage`: a frame after a header is its payload, whatever it looks like;
      otherwise only an 8-byte binary frame is looked at. */
  function HandleFrame(pending: Option<Header>, f: Frame): (Option<Header>, seq<Delivery>) {
    match pending
    case Some(h) => (None, [Payload(h, f.data, f.isBinary)])
    case None => if f.isBinary && |f.data| == HEADER_BYTES then ParseHeader(f.data) else (None, [])
  }

  function Feed(pending: Option<Header>, frames: seq<Frame>): (Option<Header>, seq<Delivery>)
    decreases |frames|
  {
    if frames == [] then (pending, [])
    else
      var (next, out) := HandleFrame(pending, frames[0]);
      var (last, more) := Feed(next, frames[1..]);
      (last, out + more)
  }

  /** What the Miniserver sends: a payload behind its exact header, an estimated
      header, or a keepalive reply. */
  datatype Item =
    | Pair(identifier: Byte, info: Byte, reserved: Byte, length: nat, data: seq<Byte>, isBinary: bool)
    | Estimate(identifier: Byte, info: Byte, reserved: Byte, length: nat)
    | KeepaliveReply(info: Byte, reserved: Byte)

  predicate WellSent(i: Item) {
    match i
    case Pair(id, info, _, length, _, _) =>
      info % 2 == 0 && length < Power(256, 4) && !(id == ID_KEEPALIVE && length == 0)
    case Estimate(_, info, _, length) => info % 2 == 1 && length < Power(256, 4)
    case KeepaliveReply(info, _) => info % 2 == 0
  }

  function HeaderFrame(identifier: Byte, info: Byte, reserved: Byte, length: nat): Frame {
    Frame([HEADER_MAGIC, identifier, info, reserved] + WriteLE(length, 4), true)
  }

  function FramesOf(i: Item): seq<Frame> {
    match i
    case Pair(id, info, reserved, length, data, isBinary) => [HeaderFrame(id, info, reserved, length), Frame(data, isBinary)]
    case Estimate(id, info, reserved, length) => [HeaderFrame(id, info, reserved, length)]
    case KeepaliveReply(info, reserved) => [HeaderFrame(ID_KEEPALIVE, info, reserved, 0)]
  }

  function Transmit(items: seq<Item>): seq<Frame> {
    if items == [] then [] else FramesOf(items[0]) + Transmit(items[1..])
  }

  /** What should come out: the payloads and the keepalives, in order. */
  function Intended(items: seq<Item>): seq<Delivery> {
    if items == [] then [] else Emits(items[0]) + Intended(items[1..])
  }

  function Emits(i: Item): seq<Delivery> {
    match i
    case Pair(id, _, _, length, data, isBinary) => [Payload(Header(id, length), data, isBinary)]
    case Estimate(_, _, _, _) => []
    case KeepaliveReply(_, _) => [Keepalive]
  }

  lemma HeaderReads(identifier: Byte, info: Byte, reserved: Byte, length: nat)
    requires length < Power(256, 4)
    ensures HandleFrame(None, HeaderFrame(identifier, info, reserved, length)) ==
      if info % 2 == 1 then (None, [])
      else if identifier == ID_KEEPALIVE && length == 0 then (None, [Keepalive])
      else (Some(Header(identifier, length)), [])
  {
    var buf := HeaderFrame(identifier, info, reserved, length).data;
    assert buf[4..] == WriteLE(length, 4);
    ReadInvertsWrite(length, 4);
  }

  lemma FeedOne(pending: Option<Header>, f: Frame, rest: seq<Frame>)
    ensures Feed(pending, [f] + rest) ==
      (Feed(HandleFrame(pending, f).0, rest).0, HandleFrame(pending, f).1 + Feed(HandleFrame(pending, f).0, rest).1)
  {
    assert ([f] + rest)[1..] == rest;
  }

  lemma FeedPair(i: Item, rest: seq<Frame>)
    requires i.Pair? && WellSent(i)
    ensures Feed(None, FramesOf(i) + rest) == (Feed(None, rest).0, Emits(i) + Feed(None, rest).1)
  {
    var h, f := HeaderFrame(i.identifier, i.info, i.reserved, i.length), Frame(i.data, i.isBinary);
    var pending := Some(Header(i.identifier, i.length));
    HeaderReads(i.identifier, i.info, i.reserved, i.length);
    assert FramesOf(i) + rest == [h] + ([f] + rest);
    FeedOne(None, h, [f] + rest);
    FeedOne(pending, f, rest);
    assert [] + Feed(pending, [f] + rest).1 == Feed(pending, [f] + rest).1;
  }

  lemma FeedItem(i: Item, rest: seq<Frame>)
    requires WellSent(i)
    ensures Feed(None, FramesOf(i) + rest) == (Feed(None, rest).0, Emits(i) + Feed(None, rest).1)
  {
    match i
    case Pair(_, _, _, _, _, _) => FeedPair(i, rest);
    case Estimate(id, info, reserved, length) =>
      HeaderReads(id, info, reserved, length);
      FeedOne(None, HeaderFrame(id, info, reserved, length), rest);
    case KeepaliveReply(info, reserved) =>
      assert 0 < Power(256, 4);
      HeaderReads(ID_KEEPALIVE, info, reserved, 0);
      FeedOne(None, HeaderFrame(ID_KEEPALIVE, info, reserved, 0), rest);
  }

  /** For every stream of header/payload pairs, estimated headers and keepalives, the
      delivered payloads are the sent ones in order, and no header is left over. */
  lemma {:induction false} DeliversInOrder(items: seq<Item>)
    requires forall k :: 0 <= k < |items| ==> WellSent(items[k])
    ensures Feed(None, Transmit(items)) == (None, Intended(items))
  {
    if items != [] {
      DeliversInOrder(items[1..]);
      assert WellSent(items[0]);
      FeedItem(items[0], Transmit(items[1..]));
    }
  }

  // ----- Commands and replies -----------------------------------------------------------

  type Command = nat

  /** A text frame as JSON.parse sees it: no JSON, no LL wrapper, or the LL response
      to the command sent as number `reply`. */
  datatype Parsed = NoJson | NoLL | LL(reply: nat)

  /** The frame taken as it is, and after an attempt at decryption. */
  datatype Text = Text(plain: Parsed, decrypted: Parsed)

  datatype Outcome = Resolved(reply: nat) | TimedOut | SendThrew | SocketClosed | Stopping

  datatype Entry = Entry(command: Command, decrypt: bool)

  /** `responseQueue`, the armed timers, and how each promise was settled. */
  datatype Link = Link(queue: seq<Entry>, timers: set<Command>, outcomes: map<Command, seq<Outcome>>)

  const UNUSED := Link([], {}, map[])

  function Without(queue: seq<Entry>, cmd: Command): seq<Entry> {
    if queue == [] then []
    else if queue[0].command == cmd then queue[1..]
    else [queue[0]] + Without(queue[1..], cmd)
  }

  function SettleAs(l: Link, queue: seq<Entry>, cmd: Command, o: Outcome): Link {
    Link(queue, l.timers - {cmd},
         l.outcomes[cmd := (if cmd in l.outcomes then l.outcomes[cmd] else []) + [o]])
  }

  function Enqueue(l: Link, cmd: Command, decrypt: bool): Link {
    Link(l.queue + [Entry(cmd, decrypt)], l.timers + {cmd}, l.outcomes[cmd := []])
  }

  /** `sendPlainCommand`: a send that throws takes its awaiter out again. */
  function OnSend(l: Link, cmd: Command, decrypt: bool, sent: bool): Link {
    var queued := Enqueue(l, cmd, decrypt);
    if sent then queued else SettleAs(queued, Without(queued.queue, cmd), cmd, SendThrew)
  }

  function OnTimer(l: Link, cmd: Command): Link {
    SettleAs(l, Without(l.queue, cmd), cmd, TimedOut)
  }

  /** The head of the queue decides whether the frame is decrypted first. */
  function Effective(queue: seq<Entry>, t: Text): Parsed {
    if queue != [] && queue[0].decrypt then t.decrypted else t.plain
  }

  /** `deliverTextResponse` */
  function OnText(l: Link, t: Text): Link {
    var p := Effective(l.queue, t);
    if !p.LL? || l.queue == [] then l
    else SettleAs(l, l.queue[1..], l.queue[0].command, Resolved(p.reply))
  }

  /** The loops of `stop` and `handleClose`. */
  function Drain(l: Link, o: Outcome): Link
    decreases |l.queue|
  {
    if l.queue == [] then l else Drain(SettleAs(l, l.queue[1..], l.queue[0].command, o), o)
  }

  function Commands(queue: seq<Entry>): (r: seq<Command>)
    ensures |r| == |queue|
    ensures forall i :: 0 <= i < |queue| ==> r[i] == queue[i].command
  {
    if queue == [] then [] else [queue[0].command] + Commands(queue[1..])
  }

  /** The queue holds exactly the unsettled commands, once each, with their timers
      armed; every other command was settled once. */
  ghost predicate LinkInv(l: Link) {
    && (forall i, j :: 0 <= i < j < |l.queue| ==> l.queue[i].command != l.queue[j].command)
    && (forall cmd :: cmd in l.timers <==> Queued(l.queue, cmd))
    && (forall cmd :: Queued(l.queue, cmd) ==> cmd in l.outcomes && l.outcomes[cmd] == [])
    && (forall cmd :: cmd in l.outcomes && !Queued(l.queue, cmd) ==> |l.outcomes[cmd]| == 1)
  }

  ghost predicate Queued(queue: seq<Entry>, cmd: Command) {
    exists i :: 0 <= i < |queue| && queue[i].command == cmd
  }

  lemma {:induction false} WithoutRemoves(queue: seq<Entry>, cmd: Command)
    requires forall i, j :: 0 <= i < j < |queue| ==> queue[i].command != queue[j].command
    ensures var r := Without(queue, cmd);
      && (forall i, j :: 0 <= i < j < |r| ==> r[i].command != r[j].command)
      && (forall c :: Queued(r, c) <==> Queued(queue, c) && c != cmd)
      && (Queued(queue, cmd) ==> |r| == |queue| - 1)
  {
    if queue != [] {
      QueuedCons(queue);
      if queue[0].command != cmd {
        WithoutRemoves(queue[1..], cmd);
        var r := Without(queue, cmd);
        assert r[1..] == Without(queue[1..], cmd);
        QueuedCons(r);
        forall i, j | 0 <= i < j < |r| ensures r[i].command != r[j].command {
          if i == 0 {
            assert r[1..][j - 1] == r[j] && Queued(r[1..], r[j].command);
            HeadLeaves(queue);
          } else {
            assert r[1..][i - 1] == r[i] && r[1..][j - 1] == r[j];
          }
        }
      } else {
        assert forall c :: Queued(queue[1..], c) ==> c != cmd;
      }
    }
  }

  lemma QueuedCons(queue: seq<Entry>)
    requires queue != []
    ensures forall c :: Queued(queue, c) <==> c == queue[0].command || Queued(queue[1..], c)
  {
    forall c ensures Queued(queue, c) <==> c == queue[0].command || Queued(queue[1..], c) {
      if Queued(queue[1..], c) {
        var i :| 0 <= i < |queue[1..]| && queue[1..][i].command == c;
        assert queue[i + 1].command == c;
      }
      if i :| 0 <= i < |queue| && queue[i].command == c {
        if i > 0 { assert queue[1..][i - 1].command == c; }
      }
    }
  }

  lemma QueuedSnoc(queue: seq<Entry>, e: Entry)
    ensures forall c :: Queued(queue + [e], c) <==> Queued(queue, c) || c == e.command
  {
    forall c ensures Queued(queue + [e], c) <==> Queued(queue, c) || c == e.command {
      assert (queue + [e])[|queue|] == e;
      if i :| 0 <= i < |queue| && queue[i].command == c { assert (queue + [e])[i].command == c; }
    }
  }

  /** Taking a queued command out and settling it. */
  lemma SettleKeeps(l: Link, queue: seq<Entry>, cmd: Command, o: Outcome)
    requires LinkInv(l) && Queued(l.queue, cmd)
    requires forall i, j :: 0 <= i < j < |queue| ==> queue[i].command != queue[j].command
    requires forall c :: Queued(queue, c) <==> Queued(l.queue, c) && c != cmd
    ensures LinkInv(SettleAs(l, queue, cmd, o))
  {
  }

  lemma HeadLeaves(queue: seq<Entry>)
    requires queue != [] && forall i, j :: 0 <= i < j < |queue| ==> queue[i].command != queue[j].command
    ensures forall c :: Queued(queue[1..], c) <==> Queued(queue, c) && c != queue[0].command
    ensures Queued(queue, queue[0].command)
  {
    QueuedCons(queue);
    forall c | Queued(queue[1..], c) ensures c != queue[0].command {
      var i :| 0 <= i < |queue[1..]| && queue[1..][i].command == c;
      assert queue[i + 1].command == c;
    }
  }

  lemma EnqueueKeeps(l: Link, cmd: Command, decrypt: bool)
    requires LinkInv(l) && cmd !in l.outcomes
    ensures LinkInv(Enqueue(l, cmd, decrypt)) && Queued(Enqueue(l, cmd, decrypt).queue, cmd)
  {
    QueuedSnoc(l.queue, Entry(cmd, decrypt));
    assert forall i :: 0 <= i < |l.queue| ==> Queued(l.queue, l.queue[i].command);
  }

  lemma SendKeeps(l: Link, cmd: Command, decrypt: bool, sent: bool)
    requires LinkInv(l) && cmd !in l.outcomes
    ensures LinkInv(OnSend(l, cmd, decrypt, sent))
  {
    EnqueueKeeps(l, cmd, decrypt);
    if !sent {
      var queued := Enqueue(l, cmd, decrypt);
      WithoutRemoves(queued.queue, cmd);
      SettleKeeps(queued, Without(queued.queue, cmd), cmd, SendThrew);
    }
  }

  lemma TimerKeeps(l: Link, cmd: Command)
    requires LinkInv(l) && cmd in l.timers
    ensures LinkInv(OnTimer(l, cmd))
  {
    WithoutRemoves(l.queue, cmd);
    SettleKeeps(l, Without(l.queue, cmd), cmd, TimedOut);
  }

  lemma TextKeeps(l: Link, t: Text)
    requires LinkInv(l)
    ensures LinkInv(OnText(l, t))
  {
    if l.queue != [] && Effective(l.queue, t).LL? {
      HeadLeaves(l.queue);
      SettleKeeps(l, l.queue[1..], l.queue[0].command, Resolved(Effective(l.queue, t).reply));
    }
  }

  /** A close or a stop settles everything that waits, with its reason, and nothing else. */
  lemma {:induction false} DrainSettlesAll(l: Link, o: Outcome)
    requires LinkInv(l)
    ensures LinkInv(Drain(l, o)) && Drain(l, o).queue == [] && Drain(l, o).timers == {}
    ensures forall c :: c in l.outcomes ==>
      c in Drain(l, o).outcomes && Drain(l, o).outcomes[c] == if Queued(l.queue, c) then [o] else l.outcomes[c]
    ensures forall c :: c in Drain(l, o).outcomes ==> c in l.outcomes
    decreases |l.queue|
  {
    if l.queue != [] {
      HeadLeaves(l.queue);
      var next := SettleAs(l, l.queue[1..], l.queue[0].command, o);
      SettleKeeps(l, l.queue[1..], l.queue[0].command, o);
      DrainSettlesAll(next, o);
    } else {
      assert forall c :: !Queued(l.queue, c);
    }
  }

  // ----- Sessions ------------------------------------------------------------------------

  /** The link together with the commands that went out on the current socket, in
      order, and how many of them the Miniserver has answered: it answers them in
      the order in which they were sent. */
  datatype Session = Session(link: Link, sent: seq<Command>, answered: nat)

  const OPENED := Session(UNUSED, [], 0)

  /** `Reply` is the answer to the oldest unanswered command, `Unsolicited` any other text. */
  datatype Event =
    | Send(command: Command, decrypt: bool, ok: bool)
    | Timer(command: Command)
    | Reply(text: Text)
    | Unsolicited(text: Text)
    | Close
    | Stop

  predicate Possible(s: Session, e: Event) {
    match e
    case Send(cmd, _, _) => cmd !in s.link.outcomes
    case Timer(cmd) => cmd in s.link.timers
    case Reply(t) => s.answered < |s.sent| && Numbered(t.plain, s.answered) && Numbered(t.decrypted, s.answered)
    case _ => true
  }

  predicate Numbered(p: Parsed, k: nat) {
    p.LL? ==> p.reply == k
  }

  function Step(s: Session, e: Event): Session {
    match e
    case Send(cmd, decrypt, ok) => Session(OnSend(s.link, cmd, decrypt, ok), if ok then s.sent + [cmd] else s.sent, s.answered)
    case Timer(cmd) => s.(link := OnTimer(s.link, cmd))
    case Reply(t) => s.(link := OnText(s.link, t), answered := s.answered + 1)
    case Unsolicited(t) => s.(link := OnText(s.link, t))
    case Close => Session(Drain(s.link, SocketClosed), s.sent, |s.sent|)
    case Stop => s.(link := Drain(s.link, Stopping))
  }

  predicate ValidRun(s: Session, es: seq<Event>)
    decreases |es|
  {
    es == [] || (Possible(s, es[0]) && ValidRun(Step(s, es[0]), es[1..]))
  }

  function Run(s: Session, es: seq<Event>): Session
    decreases |es|
  {
    if es == [] then s else Run(Step(s, es[0]), es[1..])
  }

  lemma StepKeepsLinkInv(s: Session, e: Event)
    requires LinkInv(s.link) && Possible(s, e)
    ensures LinkInv(Step(s, e).link)
  {
    match e
    case Send(cmd, decrypt, ok) => SendKeeps(s.link, cmd, decrypt, ok);
    case Timer(cmd) => TimerKeeps(s.link, cmd);
    case Reply(t) => TextKeeps(s.link, t);
    case Unsolicited(t) => TextKeeps(s.link, t);
    case Close => DrainSettlesAll(s.link, SocketClosed);
    case Stop => DrainSettlesAll(s.link, Stopping);
  }

  /** Every command settles exactly once: in every run the queue is exactly the set
      of unsettled commands, their timers are the armed ones, and nothing is settled
      twice. */
  lemma {:induction false} SettlesExactlyOnce(s: Session, es: seq<Event>)
    requires LinkInv(s.link) && ValidRun(s, es)
    ensures LinkInv(Run(s, es).link)
    decreases |es|
  {
    if es != [] {
      StepKeepsLinkInv(s, es[0]);
      SettlesExactlyOnce(Step(s, es[0]), es[1..]);
    }
  }

  /** The queue is exactly the sent commands that have not been answered. */
  ghost predicate InSync(s: Session) {
    s.answered <= |s.sent| && Commands(s.link.queue) == s.sent[s.answered..]
  }

  /** What keeps the queue and the Miniserver's order together. */
  predicate Harmless(s: Session, e: Event) {
    match e
    case Send(_, _, _) => true
    case Timer(_) => false
    case Reply(t) => Effective(s.link.queue, t).LL?
    case Unsolicited(t) => s.link.queue == [] || !Effective(s.link.queue, t).LL?
    case Close => true
    case Stop => s.link.queue == []
  }

  lemma {:induction false} CommandsAppend(a: seq<Entry>, b: seq<Entry>)
    ensures Commands(a + b) == Commands(a) + Commands(b)
  {
    if a == [] {
      assert a + b == b;
    } else {
      assert (a + b)[1..] == a[1..] + b;
      CommandsAppend(a[1..], b);
    }
  }

  lemma {:induction false} WithoutLast(queue: seq<Entry>, e: Entry)
    requires forall i :: 0 <= i < |queue| ==> queue[i].command != e.command
    ensures Without(queue + [e], e.command) == queue
  {
    if queue == [] {
      assert queue + [e] == [e];
    } else {
      assert (queue + [e])[1..] == queue[1..] + [e];
      WithoutLast(queue[1..], e);
    }
  }

  lemma SendStaysInSync(s: Session, cmd: Command, decrypt: bool, ok: bool)
    requires LinkInv(s.link) && InSync(s) && cmd !in s.link.outcomes
    ensures InSync(Step(s, Send(cmd, decrypt, ok)))
  {
    var e := Entry(cmd, decrypt);
    if ok {
      CommandsAppend(s.link.queue, [e]);
      assert (s.sent + [cmd])[s.answered..] == s.sent[s.answered..] + [cmd];
    } else {
      assert forall i :: 0 <= i < |s.link.queue| ==> Queued(s.link.queue, s.link.queue[i].command);
      WithoutLast(s.link.queue, e);
    }
  }

  /** One step leaves the two orders together exactly when it is harmless: a timeout,
      an answer that does not parse, an unsolicited response and a stop all break
      the correlation. */
  lemma StaysInSyncIff(s: Session, e: Event)
    requires LinkInv(s.link) && InSync(s) && Possible(s, e)
    ensures InSync(Step(s, e)) <==> Harmless(s, e)
  {
    match e
    case Send(cmd, decrypt, ok) => SendStaysInSync(s, cmd, decrypt, ok);
    case Timer(cmd) => WithoutRemoves(s.link.queue, cmd);
    case Reply(t) => PopInSync(s, t);
    case Unsolicited(t) => PopInSync(s, t);
    case Close => DrainSettlesAll(s.link, SocketClosed);
    case Stop => DrainSettlesAll(s.link, Stopping);
  }

  lemma PopInSync(s: Session, t: Text)
    requires InSync(s)
    ensures |OnText(s.link, t).queue| == |s.link.queue| - (if Effective(s.link.queue, t).LL? && s.link.queue != [] then 1 else 0)
    ensures s.answered < |s.sent| && Effective(s.link.queue, t).LL? ==>
      Commands(OnText(s.link, t).queue) == s.sent[s.answered + 1..]
  {
    if s.link.queue != [] {
      assert Commands(s.link.queue)[1..] == Commands(s.link.queue[1..]);
    }
  }

  /** What has become of the commands of a run, told from the wire alone: the k-th
      command waits until the k-th answer or the next close, whichever is first. */
  datatype Wire = Wire(fates: seq<seq<Outcome>>, answered: nat)

  const SILENT := Wire([], 0)

  function OnWire(w: Wire, e: Event): Wire {
    match e
    case Send(_, _, ok) => if ok then w.(fates := w.fates + [[]]) else w
    case Reply(_) =>
      if w.answered < |w.fates| then Wire(w.fates[w.answered := [Resolved(w.answered)]], w.answered + 1) else w
    case Close =>
      Wire(seq(|w.fates|, k requires 0 <= k < |w.fates| => if k < w.answered then w.fates[k] else [SocketClosed]), |w.fates|)
    case _ => w
  }

  function WireRun(w: Wire, es: seq<Event>): Wire
    decreases |es|
  {
    if es == [] then w else WireRun(OnWire(w, es[0]), es[1..])
  }

  /** Commands are sent once, and each was settled, or waits, as the wire tells. */
  ghost predicate Tells(w: Wire, s: Session) {
    && |w.fates| == |s.sent| && w.answered == s.answered
    && (forall j, k :: 0 <= j < k < |s.sent| ==> s.sent[j] != s.sent[k])
    && (forall k :: 0 <= k < |s.sent| ==> s.sent[k] in s.link.outcomes && s.link.outcomes[s.sent[k]] == w.fates[k])
    && (forall k :: s.answered <= k < |s.sent| ==> w.fates[k] == [])
  }

  predicate HarmlessRun(s: Session, es: seq<Event>)
    decreases |es|
  {
    es == [] || (Possible(s, es[0]) && Harmless(s, es[0]) && HarmlessRun(Step(s, es[0]), es[1..]))
  }

  /** In sync, the head of the queue is the command that is answered. */
  lemma AnswerSettlesItsCommand(s: Session, t: Text)
    requires InSync(s) && Possible(s, Reply(t)) && Effective(s.link.queue, t).LL?
    requires s.sent[s.answered] in s.link.outcomes && s.link.outcomes[s.sent[s.answered]] == []
    ensures Step(s, Reply(t)).link.outcomes == s.link.outcomes[s.sent[s.answered] := [Resolved(s.answered)]]
  {
    var cmd := s.sent[s.answered];
    assert Commands(s.link.queue)[0] == cmd;
    assert s.link.outcomes[cmd] + [Resolved(s.answered)] == [Resolved(s.answered)];
  }

  lemma TellsAnswer(w: Wire, s: Session, t: Text)
    requires InSync(s) && Tells(w, s) && Possible(s, Reply(t)) && Effective(s.link.queue, t).LL?
    ensures Tells(OnWire(w, Reply(t)), Step(s, Reply(t)))
  {
    assert s.link.outcomes[s.sent[s.answered]] == w.fates[s.answered] == [];
    AnswerSettlesItsCommand(s, t);
  }

  lemma TellsSend(w: Wire, s: Session, cmd: Command, decrypt: bool, ok: bool)
    requires Tells(w, s) && cmd !in s.link.outcomes
    ensures Tells(OnWire(w, Send(cmd, decrypt, ok)), Step(s, Send(cmd, decrypt, ok)))
  {
    forall k | 0 <= k < |s.sent| ensures s.sent[k] != cmd { assert s.sent[k] in s.link.outcomes; }
    var before, after := s.link.outcomes, Step(s, Send(cmd, decrypt, ok)).link.outcomes;
    assert cmd in after && after == before[cmd := after[cmd]];
    forall k | 0 <= k < |s.sent| ensures s.sent[k] in after && after[s.sent[k]] == w.fates[k] {
      assert s.sent[k] in before && s.sent[k] != cmd;
    }
  }

  lemma WaitingIsQueued(s: Session, k: nat)
    requires InSync(s) && k < |s.sent|
    ensures s.answered <= k ==> Queued(s.link.queue, s.sent[k])
  {
    if s.answered <= k { assert Commands(s.link.queue)[k - s.answered] == s.sent[k]; }
  }

  lemma AnsweredIsNotQueued(s: Session, k: nat)
    requires InSync(s) && k < s.answered
    requires forall i, j :: 0 <= i < j < |s.sent| ==> s.sent[i] != s.sent[j]
    ensures !Queued(s.link.queue, s.sent[k])
  {
    forall i | 0 <= i < |s.link.queue| ensures s.link.queue[i].command != s.sent[k] {
      assert Commands(s.link.queue)[i] == s.sent[s.answered + i];
    }
  }

  lemma CloseSettles(w: Wire, s: Session, k: nat)
    requires LinkInv(s.link) && InSync(s) && Tells(w, s) && k < |s.sent|
    ensures var outcomes := Drain(s.link, SocketClosed).outcomes;
      s.sent[k] in outcomes && outcomes[s.sent[k]] == if k < s.answered then w.fates[k] else [SocketClosed]
  {
    assert s.sent[k] in s.link.outcomes;
    DrainSettlesAll(s.link, SocketClosed);
    if k < s.answered { AnsweredIsNotQueued(s, k); } else { WaitingIsQueued(s, k); }
  }

  lemma TellsClose(w: Wire, s: Session)
    requires LinkInv(s.link) && InSync(s) && Tells(w, s)
    ensures Tells(OnWire(w, Close), Step(s, Close))
  {
    forall k | 0 <= k < |s.sent|
      ensures s.sent[k] in Step(s, Close).link.outcomes && Step(s, Close).link.outcomes[s.sent[k]] == OnWire(w, Close).fates[k]
    {
      CloseSettles(w, s, k);
    }
  }

  lemma TellsStep(w: Wire, s: Session, e: Event)
    requires LinkInv(s.link) && InSync(s) && Tells(w, s) && Possible(s, e) && Harmless(s, e)
    ensures Tells(OnWire(w, e), Step(s, e))
  {
    match e
    case Send(cmd, decrypt, ok) => TellsSend(w, s, cmd, decrypt, ok);
    case Reply(t) => TellsAnswer(w, s, t);
    case Unsolicited(_) =>
    case Close => TellsClose(w, s);
    case Stop =>
  }

  lemma {:induction false} TellsRun(w: Wire, s: Session, es: seq<Event>)
    requires LinkInv(s.link) && InSync(s) && Tells(w, s) && HarmlessRun(s, es)
    ensures InSync(Run(s, es)) && Tells(WireRun(w, es), Run(s, es))
    decreases |es|
  {
    if es != [] {
      StepKeepsLinkInv(s, es[0]);
      StaysInSyncIff(s, es[0]);
      TellsStep(w, s, es[0]);
      TellsRun(OnWire(w, es[0]), Step(s, es[0]), es[1..]);
    }
  }

  /** The k-th answer resolves, unless a close was there first. */
  ghost predicate AnsweredOrClosed(w: Wire, closed: bool) {
    w.answered <= |w.fates|
    && forall k :: 0 <= k < w.answered ==> w.fates[k] == [Resolved(k)] || (closed && w.fates[k] == [SocketClosed])
  }

  lemma {:induction false} WireTells(w: Wire, es: seq<Event>, closed: bool)
    requires AnsweredOrClosed(w, closed)
    ensures AnsweredOrClosed(WireRun(w, es), closed || Close in es)
    decreases |es|
  {
    if es != [] { WireTells(OnWire(w, es[0]), es[1..], closed || es[0] == Close); }
  }

  /** If no command times out, every answer parses and nothing unsolicited looks like
      a response, then in the whole run since the client was made every command is in
      the state the wire tells: waiting, or settled once, the k-th one by the k-th
      answer or by the close that came before it. Without a close the k-th answer has
      resolved the k-th command. */
  lemma FifoCorrelation(es: seq<Event>)
    requires HarmlessRun(OPENED, es)
    ensures var s, w := Run(OPENED, es), WireRun(SILENT, es);
      && InSync(s) && |w.fates| == |s.sent| && w.answered == s.answered <= |s.sent|
      && (forall k :: 0 <= k < |s.sent| ==> s.sent[k] in s.link.outcomes && s.link.outcomes[s.sent[k]] == w.fates[k])
      && (forall k :: s.answered <= k < |s.sent| ==> w.fates[k] == [])
      && (forall k :: 0 <= k < s.answered ==> w.fates[k] == [Resolved(k)] || (Close in es && w.fates[k] == [SocketClosed]))
  {
    TellsRun(SILENT, OPENED, es);
    WireTells(SILENT, es, false);
  }

  lemma RunOne(s: Session, e: Event, es: seq<Event>)
    requires Possible(s, e) && ValidRun(Step(s, e), es)
    ensures ValidRun(s, [e] + es) && Run(s, [e] + es) == Run(Step(s, e), es)
  {
    assert ([e] + es)[1..] == es;
  }

  /** A command that times out before its answer arrives: the late answer resolves
      the next command instead. */
  lemma LateAnswerShifts(t: Text)
    requires t == Text(LL(0), LL(0))
    ensures var es := [Send(10, false, true), Timer(10), Send(11, false, true), Reply(t)];
      ValidRun(OPENED, es)
      && var outcomes := Run(OPENED, es).link.outcomes;
         10 in outcomes && outcomes[10] == [TimedOut] && 11 in outcomes && outcomes[11] == [Resolved(0)]
  {
    var e0, e1, e2, e3 := Send(10, false, true), Timer(10), Send(11, false, true), Reply(t);
    var s1 := Step(OPENED, e0);
    assert s1.link.queue == [Entry(10, false)];
    var s2 := Step(s1, e1);
    assert s2.link.queue == [] && s2.link.outcomes[10] == [TimedOut] && 11 !in s2.link.outcomes;
    var s3 := Step(s2, e2);
    assert s3.link.queue == [Entry(11, false)] && s3.sent == [10, 11];
    RunOne(s3, e3, []);
    RunOne(s2, e2, [e3]);
    RunOne(s1, e1, [e2, e3]);
    RunOne(OPENED, e0, [e1, e2, e3]);
  }

  // ----- The client object ------------------------------------------------------------------

  /** What the outside sees of a delivery: text frames go to the command queue. */
  predicate IsText(d: Delivery) {
    d.Payload? && d.header.identifier == ID_TEXT
  }

  /** `findIndex`, with the length standing for "not found". */
  method FindEntry(queue: seq<Entry>, cmd: Command) returns (i: nat)
    ensures i <= |queue| && (i < |queue| ==> queue[i].command == cmd)
    ensures forall j :: 0 <= j < i ==> queue[j].command != cmd
  {
    i := 0;
    while i < |queue| && queue[i].command != cmd
      invariant i <= |queue| && forall j :: 0 <= j < i ==> queue[j].command != cmd
    {
      i := i + 1;
    }
  }

  lemma {:induction false} WithoutAt(queue: seq<Entry>, cmd: Command, i: nat)
    requires i <= |queue| && (i < |queue| ==> queue[i].command == cmd)
    requires forall j :: 0 <= j < i ==> queue[j].command != cmd
    ensures Without(queue, cmd) == if i < |queue| then queue[..i] + queue[i + 1..] else queue
  {
    if i > 0 {
      WithoutAt(queue[1..], cmd, i - 1);
      if i < |queue| {
        assert queue[..i] == [queue[0]] + queue[1..][..i - 1] && queue[1..][i..] == queue[i + 1..];
      }
    }
  }

  class MiniserverWsClient {
    const parse: seq<Byte> -> Text
    var stopped: bool
    var pendingHeader: Option<Header>
    var responseQueue: seq<Entry>
    var timers: set<Command>
    var outcomes: map<Command, seq<Outcome>>
    /** Emitted `binary-payload` and `keepalive` events. */
    var emitted: seq<Delivery>

    function Abs(): Link
      reads this
    {
      Link(responseQueue, timers, outcomes)
    }

    constructor (parse: seq<Byte> -> Text)
      ensures Abs() == UNUSED && pendingHeader == None && emitted == [] && !stopped && this.parse == parse
    {
      this.parse := parse;
      stopped, pendingHeader, responseQueue, timers, outcomes, emitted := false, None, [], {}, map[], [];
    }

    /** `handleMessage` with `parseHeader` and `deliverPayload`. */
    method HandleMessage(f: Frame)
      modifies `pendingHeader, `responseQueue, `timers, `outcomes, `emitted
      ensures pendingHeader == HandleFrame(old(pendingHeader), f).0
      ensures var out := HandleFrame(old(pendingHeader), f).1;
        if out != [] && IsText(out[0]) then Abs() == OnText(old(Abs()), parse(f.data)) && emitted == old(emitted)
        else Abs() == old(Abs()) && emitted == old(emitted) + out
    {
      if pendingHeader.None? {
        if f.isBinary && |f.data| == HEADER_BYTES { ReadHeader(f.data); }
        return;
      }
      var header := pendingHeader.value;
      pendingHeader := None;
      if header.identifier == ID_TEXT {
        DeliverTextResponse(parse(f.data));
        return;
      }
      emitted := emitted + [Payload(header, f.data, f.isBinary)];
    }

    /** `parseHeader` */
    method ReadHeader(buf: seq<Byte>)
      requires |buf| == HEADER_BYTES && pendingHeader == None
      modifies `pendingHeader, `emitted
      ensures pendingHeader == ParseHeader(buf).0 && emitted == old(emitted) + ParseHeader(buf).1
    {
      if buf[0] != HEADER_MAGIC { return; }
      var estimated := buf[2] % 2 == 1;
      var payloadLength := ReadLE(buf[4..]);
      if estimated { return; }
      if buf[1] == ID_KEEPALIVE && payloadLength == 0 {
        emitted := emitted + [Keepalive];
        return;
      }
      pendingHeader := Some(Header(buf[1], payloadLength));
    }

    /** `deliverTextResponse` */
    method DeliverTextResponse(text: Text)
      modifies `responseQueue, `timers, `outcomes
      ensures Abs() == OnText(old(Abs()), text)
    {
      var parsed := text.plain;
      if |responseQueue| > 0 && responseQueue[0].decrypt { parsed := text.decrypted; }
      if !parsed.LL? { return; }
      if |responseQueue| == 0 { return; }
      SettleHead(Resolved(parsed.reply));
    }

    /** `shift`, `clearTimeout`, then resolve or reject. */
    method SettleHead(o: Outcome)
      requires responseQueue != []
      modifies `responseQueue, `timers, `outcomes
      ensures Abs() == SettleAs(old(Abs()), old(responseQueue)[1..], old(responseQueue)[0].command, o)
    {
      var cmd := responseQueue[0].command;
      responseQueue := responseQueue[1..];
      timers := timers - {cmd};
      outcomes := outcomes[cmd := (if cmd in outcomes then outcomes[cmd] else []) + [o]];
    }

    /** Take one awaiter out of the middle. */
    method Splice(cmd: Command, o: Outcome)
      modifies `responseQueue, `timers, `outcomes
      ensures Abs() == SettleAs(old(Abs()), Without(old(responseQueue), cmd), cmd, o)
    {
      var i := FindEntry(responseQueue, cmd);
      WithoutAt(responseQueue, cmd, i);
      if i < |responseQueue| {
        responseQueue := responseQueue[..i] + responseQueue[i + 1..];
      }
      timers := timers - {cmd};
      outcomes := outcomes[cmd := (if cmd in outcomes then outcomes[cmd] else []) + [o]];
    }

    /** `sendPlainCommand`; `sent` is false when the socket throws. */
    method SendPlainCommand(cmd: Command, decrypt: bool, sent: bool)
      modifies `responseQueue, `timers, `outcomes
      ensures Abs() == OnSend(old(Abs()), cmd, decrypt, sent)
    {
      responseQueue := responseQueue + [Entry(cmd, decrypt)];
      timers := timers + {cmd};
      outcomes := outcomes[cmd := []];
      if !sent { Splice(cmd, SendThrew); }
    }

    /** The timeout callback of one command. */
    method CommandTimedOut(cmd: Command)
      modifies `responseQueue, `timers, `outcomes
      ensures Abs() == OnTimer(old(Abs()), cmd)
    {
      Splice(cmd, TimedOut);
    }

    /** The loops of `handleClose` and `stop`: reject from the front until empty. */
    method RejectAll(o: Outcome)
      modifies `responseQueue, `timers, `outcomes
      ensures Abs() == Drain(old(Abs()), o)
    {
      while responseQueue != []
        invariant Drain(Abs(), o) == Drain(old(Abs()), o)
        decreases |responseQueue|
      {
        SettleHead(o);
      }
    }

    /** `handleClose` */
    method HandleClose()
      modifies `responseQueue, `timers, `outcomes
      ensures Abs() == Drain(old(Abs()), SocketClosed)
    {
      RejectAll(SocketClosed);
    }

    /** `stop` */
    method StopClient()
      modifies `stopped, `responseQueue, `timers, `outcomes
      ensures stopped
      ensures Abs() == if old(stopped) then old(Abs()) else Drain(old(Abs()), Stopping)
    {
      if stopped { return; }
      stopped := true;
      RejectAll(Stopping);
    }
  }
}
