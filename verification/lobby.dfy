/** cmdJoin (telegram/commands.go) as a sequential state machine: the
    registry of channels a /join creates, the admission step the background
    goroutine performs, and the later joins that collect a quorum and start
    the game.

    Behaviour the file relies on but does not show, taken here as given:
    fam100.NewGame hands back a game in state Queued, game.Start() moves it to
    Started, and the timer helpers (startQuorumTimer, startQuorumNotifyTimer,
    cancelTimer and the notify cancel function) only start or stop the
    corresponding timer. */
module Lobby {
  import opened Optional
  import GameQueue

  type ChatId = string
  type PlayerId = string

  /** fam100's game states. */
  datatype GameState = Created | Queued | Started | Finished

  /** The order in which a game passes through its states. */
  function StateRank(s: GameState): nat {
    match s
    case Queued => 0
    case Created => 1
    case Started => 2
    case Finished => 3
  }

  /** A channel's timer handle: whether a cancel function is held, and how
      many times the timer was started, so that a restart is told apart from
      a timer left running. */
  datatype Timer = Timer(armed: bool, starts: nat) {
    function Arm(): Timer {
      Timer(true, starts + 1)
    }

    function Cancel(): Timer {
      Timer(false, starts)
    }
  }

  const Idle := Timer(false, 0)

  /** How far the admission goroutine has got for a channel: not run yet,
      blocked on a full queue, or finished, holding a slot or not. */
  datatype Admission = Pending | AwaitingSlot | Done(holdsSlot: bool)

  /** The channel record: the game's state, quorumPlayer, players, the two
      timers, and the admission goroutine's progress. */
  datatype Channel = Channel(
    state: GameState,
    quorum: set<PlayerId>,
    players: map<PlayerId, string>,
    quorumTimer: Timer,
    notifyTimer: Timer,
    admission: Admission)

  /** b.channels and the game queue. */
  datatype Bot = Bot(channels: map<ChatId, Channel>, queue: GameQueue.Queue)

  /** A /join message: the chat, the sender's id and full name. */
  datatype Join = Join(chat: ChatId, from: PlayerId, fullName: string)

  /** game.Start(). */
  function Start(ch: Channel): Channel {
    ch.(state := Started)
  }

  /** The game is Created and waits for a quorum: both timers (re)started. */
  function Open(ch: Channel, holdsSlot: bool): Channel {
    ch.(state := Created, quorumTimer := ch.quorumTimer.Arm(), notifyTimer := ch.notifyTimer.Arm(),
        admission := Done(holdsSlot))
  }

  /** A /join for a chat without a channel. When fam100.NewGame fails nothing
      is stored. Otherwise a channel with the sender as its only player is
      stored; it starts at once when that already makes a quorum, and is
      otherwise left to the admission goroutine. */
  function FirstJoin(bot: Bot, j: Join, minQuorum: nat, newGameOk: bool): (r: Bot)
    requires j.chat !in bot.channels
    ensures !newGameOk ==> r == bot
    ensures r.queue == bot.queue
    ensures newGameOk ==>
      && r.channels.Keys == bot.channels.Keys + {j.chat}
      && (forall c :: c in bot.channels ==> r.channels[c] == bot.channels[c])
      && r.channels[j.chat].quorum == {j.from}
      && r.channels[j.chat].players == map[j.from := j.fullName]
      && !r.channels[j.chat].quorumTimer.armed && !r.channels[j.chat].notifyTimer.armed
      && (r.channels[j.chat].state == Started <==> minQuorum == 1)
      && (r.channels[j.chat].state == Started ==> r.channels[j.chat].admission == Done(false))
      && (r.channels[j.chat].state != Started ==>
            r.channels[j.chat].state == Queued && r.channels[j.chat].admission == Pending)
  {
    if !newGameOk then bot
    else
      var ch := Channel(Queued, {j.from}, map[j.from := j.fullName], Idle, Idle, Pending);
      var stored := if |ch.quorum| == minQuorum then Start(ch).(admission := Done(false)) else ch;
      bot.(channels := bot.channels[j.chat := stored])
  }

  /** A /join for a chat that has a channel. Only a Queued or Created game
      takes the sender in (a sender already in the quorum included: the case
      meant to turn them away comes after these two). A Queued game only
      records the sender. A Created game stops its quorum timer, then starts
      when the quorum is reached, or else restarts the quorum timer and starts
      the notify timer when none is held. */
  function JoinChannel(ch: Channel, from: PlayerId, fullName: string, minQuorum: nat): (r: Channel)
    ensures ch.state != Queued && ch.state != Created ==> r == ch
    ensures ch.state == Queued || ch.state == Created ==>
      r.quorum == ch.quorum + {from} && r.players == ch.players[from := fullName]
    ensures r.admission == ch.admission
    ensures ch.state == Queued ==> r == ch.(quorum := ch.quorum + {from}, players := ch.players[from := fullName])
    ensures ch.state == Created ==> (r.state == Started <==> minQuorum <= |ch.quorum + {from}|)
    ensures ch.state == Created && r.state != Started ==>
      && r.state == Created
      && r.quorumTimer.armed && r.quorumTimer.starts == ch.quorumTimer.starts + 1
      && r.notifyTimer.armed
      && (ch.notifyTimer.armed ==> r.notifyTimer == ch.notifyTimer)
    ensures ch.state == Created && r.state == Started ==> !r.quorumTimer.armed && !r.notifyTimer.armed
  {
    if ch.state != Queued && ch.state != Created then ch
    else
      var added := ch.(quorum := ch.quorum + {from}, players := ch.players[from := fullName]);
      if ch.state == Queued then added
      else
        var stopped := added.(quorumTimer := added.quorumTimer.Cancel());
        if |stopped.quorum| >= minQuorum then
          var notify := if stopped.notifyTimer.armed then stopped.notifyTimer.Cancel() else stopped.notifyTimer;
          Start(stopped.(notifyTimer := notify))
        else
          var notify := if stopped.notifyTimer.armed then stopped.notifyTimer else stopped.notifyTimer.Arm();
          stopped.(quorumTimer := stopped.quorumTimer.Arm(), notifyTimer := notify)
  }

  /** cmdJoin: a disabled chat is ignored; otherwise the join creates the
      channel or is handed to it. The queue is never touched, and no other
      chat's channel changes. */
  function HandleJoin(bot: Bot, j: Join, minQuorum: nat, disabled: bool, newGameOk: bool): (r: Bot)
    ensures disabled ==> r == bot
    ensures r.queue == bot.queue
    ensures forall c :: c in bot.channels && c != j.chat ==> c in r.channels && r.channels[c] == bot.channels[c]
    ensures bot.channels.Keys <= r.channels.Keys <= bot.channels.Keys + {j.chat}
    ensures !disabled && j.chat in bot.channels ==>
      r.channels[j.chat] == JoinChannel(bot.channels[j.chat], j.from, j.fullName, minQuorum)
    ensures !disabled && j.chat !in bot.channels ==> r == FirstJoin(bot, j, minQuorum, newGameOk)
  {
    if disabled then bot
    else if j.chat !in bot.channels then FirstJoin(bot, j, minQuorum, newGameOk)
    else bot.(channels := bot.channels[j.chat := JoinChannel(bot.channels[j.chat], j.from, j.fullName, minQuorum)])
  }

  /** The admission goroutine up to its blocking send: a free slot admits the
      game; a full queue admits it anyway, without a slot, when the chat has
      queueing switched off, and otherwise leaves it waiting. An admitted game
      is Created with both timers started; the quorum is not looked at. */
  function Admit(bot: Bot, chat: ChatId, queueing: bool): (r: Bot)
    ensures chat !in bot.channels || !bot.channels[chat].admission.Pending? ==> r == bot
    ensures r.channels.Keys == bot.channels.Keys
    ensures forall c :: c in bot.channels && c != chat ==> r.channels[c] == bot.channels[c]
    ensures chat in bot.channels && bot.channels[chat].admission.Pending? ==>
      var ch := bot.channels[chat];
      && (bot.queue.used < bot.queue.capacity ==>
            r.queue.used == bot.queue.used + 1 && r.channels[chat] == Open(ch, true))
      && (bot.queue.used >= bot.queue.capacity && !queueing ==>
            r.queue == bot.queue && r.channels[chat] == Open(ch, false))
      && (bot.queue.used >= bot.queue.capacity && queueing ==>
            r.queue == bot.queue && r.channels[chat] == ch.(admission := AwaitingSlot))
    ensures r.queue.capacity == bot.queue.capacity
  {
    if chat !in bot.channels || !bot.channels[chat].admission.Pending? then bot
    else
      var ch := bot.channels[chat];
      match GameQueue.TryAcquire(bot.queue)
      case Some(q) => Bot(bot.channels[chat := Open(ch, true)], q)
      case None =>
        if !queueing then bot.(channels := bot.channels[chat := Open(ch, false)])
        else bot.(channels := bot.channels[chat := ch.(admission := AwaitingSlot)])
  }

  /** The goroutine's blocking send completes once a slot is free: the game
      takes the slot and is Created, then starts at once when the joins that
      came in meanwhile already make a quorum, and otherwise starts both
      timers. */
  function SlotObtained(bot: Bot, chat: ChatId, minQuorum: nat): (r: Bot)
    ensures r.channels.Keys == bot.channels.Keys
    ensures forall c :: c in bot.channels && c != chat ==> r.channels[c] == bot.channels[c]
    ensures r.queue.capacity == bot.queue.capacity
    ensures r != bot <==>
      chat in bot.channels && bot.channels[chat].admission.AwaitingSlot? && bot.queue.used < bot.queue.capacity
    ensures r != bot ==>
      && r.queue.used == bot.queue.used + 1
      && r.channels[chat].admission == Done(true)
      && (r.channels[chat].state == Started <==> minQuorum <= |bot.channels[chat].quorum|)
      && (r.channels[chat].state != Started ==> r.channels[chat] == Open(bot.channels[chat], true))
  {
    if chat !in bot.channels || !bot.channels[chat].admission.AwaitingSlot? then bot
    else
      match GameQueue.TryAcquire(bot.queue)
      case None => bot
      case Some(q) =>
        var ch := bot.channels[chat];
        var admitted := ch.(state := Created, admission := Done(true));
        var next := if |admitted.quorum| >= minQuorum then Start(admitted) else Open(ch, true);
        Bot(bot.channels[chat := next], q)
  }

  /** With a queue of capacity 0 (a nil gameQueue) a blocked send never
      completes. */
  lemma NilQueueNeverFreesSlot(bot: Bot, chat: ChatId, minQuorum: nat)
    requires bot.queue.Valid() && bot.queue.capacity == 0
    ensures SlotObtained(bot, chat, minQuorum) == bot
  {
  }

  /** A game elsewhere hands its slot back. */
  function ReleaseSlot(bot: Bot): (r: Bot)
    ensures r.channels == bot.channels
    ensures r.queue.capacity == bot.queue.capacity
    ensures r.queue.used == if bot.queue.used > 0 then bot.queue.used - 1 else bot.queue.used
  {
    match GameQueue.Release(bot.queue)
    case None => bot
    case Some(q) => bot.(queue := q)
  }

  /** What can happen to the registry: a /join (with the chat's disabled flag
      and whether fam100.NewGame succeeds), the admission goroutine running
      (with the chat's queueing setting), its blocked send completing, and a
      slot being handed back. */
  datatype Event =
    | JoinEvent(join: Join, disabled: bool, newGameOk: bool)
    | AdmitEvent(chat: ChatId, queueing: bool)
    | SlotEvent(chat: ChatId)
    | ReleaseEvent

  function Step(bot: Bot, e: Event, minQuorum: nat): Bot {
    match e
    case JoinEvent(j, disabled, ok) => HandleJoin(bot, j, minQuorum, disabled, ok)
    case AdmitEvent(chat, queueing) => Admit(bot, chat, queueing)
    case SlotEvent(chat) => SlotObtained(bot, chat, minQuorum)
    case ReleaseEvent => ReleaseSlot(bot)
  }

  function Run(bot: Bot, events: seq<Event>, minQuorum: nat): Bot
    decreases |events|
  {
    if |events| == 0 then bot else Run(Step(bot, events[0], minQuorum), events[1..], minQuorum)
  }

  /** What holds of every channel record: the quorum and the players agree, a
      game is Queued exactly while its admission is unfinished, a Queued game
      has no timer, a Created game has both, and a Started game has none and
      a quorum. The engine alone finishes games, so none is Finished here. */
  predicate ChannelInv(ch: Channel, minQuorum: nat) {
    && ch.quorum != {}
    && ch.quorum == ch.players.Keys
    && (ch.state == Queued <==> !ch.admission.Done?)
    && (ch.state == Queued ==> !ch.quorumTimer.armed && !ch.notifyTimer.armed)
    && (ch.state == Created ==> ch.quorumTimer.armed && ch.notifyTimer.armed)
    && (ch.state == Started ==> !ch.quorumTimer.armed && !ch.notifyTimer.armed && minQuorum <= |ch.quorum|)
    && ch.state != Finished
  }

  predicate Inv(bot: Bot, minQuorum: nat) {
    && bot.queue.Valid()
    && forall c :: c in bot.channels ==> ChannelInv(bot.channels[c], minQuorum)
  }

  lemma JoinChannelKeepsInv(ch: Channel, from: PlayerId, fullName: string, minQuorum: nat)
    requires ChannelInv(ch, minQuorum)
    ensures ChannelInv(JoinChannel(ch, from, fullName, minQuorum), minQuorum)
  {
  }

  lemma HandleJoinKeepsInv(bot: Bot, j: Join, minQuorum: nat, disabled: bool, newGameOk: bool)
    requires Inv(bot, minQuorum)
    ensures Inv(HandleJoin(bot, j, minQuorum, disabled, newGameOk), minQuorum)
  {
  }

  lemma AdmitKeepsInv(bot: Bot, chat: ChatId, queueing: bool, minQuorum: nat)
    requires Inv(bot, minQuorum)
    ensures Inv(Admit(bot, chat, queueing), minQuorum)
  {
  }

  lemma SlotObtainedKeepsInv(bot: Bot, chat: ChatId, minQuorum: nat)
    requires Inv(bot, minQuorum)
    ensures Inv(SlotObtained(bot, chat, minQuorum), minQuorum)
  {
  }

  lemma StepKeepsInv(bot: Bot, e: Event, minQuorum: nat)
    requires Inv(bot, minQuorum)
    ensures Inv(Step(bot, e, minQuorum), minQuorum)
  {
    match e
    case JoinEvent(j, disabled, ok) => HandleJoinKeepsInv(bot, j, minQuorum, disabled, ok);
    case AdmitEvent(chat, queueing) => AdmitKeepsInv(bot, chat, queueing, minQuorum);
    case SlotEvent(chat) => SlotObtainedKeepsInv(bot, chat, minQuorum);
    case ReleaseEvent =>
  }

  /** Every reachable registry keeps the invariant; in particular the games
      holding a slot never exceed the queue's capacity. */
  lemma {:induction false} RunKeepsInv(bot: Bot, events: seq<Event>, minQuorum: nat)
    requires Inv(bot, minQuorum)
    ensures Inv(Run(bot, events, minQuorum), minQuorum)
    ensures Run(bot, events, minQuorum).queue.used <= Run(bot, events, minQuorum).queue.capacity
    decreases |events|
  {
    if |events| > 0 {
      StepKeepsInv(bot, events[0], minQuorum);
      RunKeepsInv(Step(bot, events[0], minQuorum), events[1..], minQuorum);
    }
  }

  /** Nothing is taken from a channel: its quorum and roster only grow and
      its game only moves forward. */
  predicate ChannelGrew(a: Channel, b: Channel) {
    && a.quorum <= b.quorum
    && a.players.Keys <= b.players.Keys
    && StateRank(a.state) <= StateRank(b.state)
  }

  /** Nothing is ever taken away: channels stay registered and only grow, and
      the capacity stays. */
  predicate Grew(a: Bot, b: Bot) {
    && a.channels.Keys <= b.channels.Keys
    && a.queue.capacity == b.queue.capacity
    && forall c :: c in a.channels ==> ChannelGrew(a.channels[c], b.channels[c])
  }

  lemma JoinChannelGrows(ch: Channel, from: PlayerId, fullName: string, minQuorum: nat)
    ensures ChannelGrew(ch, JoinChannel(ch, from, fullName, minQuorum))
  {
  }

  lemma StepGrows(bot: Bot, e: Event, minQuorum: nat)
    requires Inv(bot, minQuorum)
    ensures Grew(bot, Step(bot, e, minQuorum))
  {
  }

  lemma GrewTrans(a: Bot, b: Bot, c: Bot)
    requires Grew(a, b) && Grew(b, c)
    ensures Grew(a, c)
  {
  }

  lemma {:induction false} RunGrows(bot: Bot, events: seq<Event>, minQuorum: nat)
    requires Inv(bot, minQuorum)
    ensures Grew(bot, Run(bot, events, minQuorum))
    decreases |events|
  {
    if |events| > 0 {
      var next := Step(bot, events[0], minQuorum);
      StepGrows(bot, events[0], minQuorum);
      StepKeepsInv(bot, events[0], minQuorum);
      RunGrows(next, events[1..], minQuorum);
      GrewTrans(bot, next, Run(next, events[1..], minQuorum));
    }
  }

  /** A sender already in the quorum of a Created game that is still short of
      its quorum gets through: the quorum keeps its size but the quorum timer
      is restarted, so its countdown begins again. */
  lemma DuplicateJoinRestartsQuorumTimer(ch: Channel, from: PlayerId, fullName: string, minQuorum: nat)
    requires ch.state == Created
    requires from in ch.quorum
    requires |ch.quorum| < minQuorum
    ensures var r := JoinChannel(ch, from, fullName, minQuorum);
      && |r.quorum| == |ch.quorum|
      && r.state == Created
      && r.quorumTimer.starts == ch.quorumTimer.starts + 1
  {
    assert ch.quorum + {from} == ch.quorum;
  }

  /** While a Created game waits, its notify timer is started once: later joins
      that leave it waiting do not restart it. */
  lemma NotifyStartedOncePerWait(ch: Channel, from: PlayerId, fullName: string, minQuorum: nat)
    requires ChannelInv(ch, minQuorum)
    requires ch.state == Created
    requires JoinChannel(ch, from, fullName, minQuorum).state == Created
    ensures JoinChannel(ch, from, fullName, minQuorum).notifyTimer == ch.notifyTimer
  {
  }

  /** Only the goroutine's blocked path looks at the quorum: a game admitted
      straight away stays Created even when its quorum was reached while it
      was Queued, and waits for another join or its timer. */
  lemma FastAdmissionIgnoresQuorum(bot: Bot, chat: ChatId, queueing: bool, minQuorum: nat)
    requires chat in bot.channels && bot.channels[chat].admission == Pending
    requires minQuorum <= |bot.channels[chat].quorum|
    requires bot.queue.used < bot.queue.capacity
    ensures Admit(bot, chat, queueing).channels[chat].state == Created
  {
  }

  /** A sequence of joiners, one /join each, applied to one channel. */
  function JoinAll(ch: Channel, joiners: seq<(PlayerId, string)>, minQuorum: nat): Channel
    decreases |joiners|
  {
    if |joiners| == 0 then ch
    else JoinAll(JoinChannel(ch, joiners[0].0, joiners[0].1, minQuorum), joiners[1..], minQuorum)
  }

  function Ids(joiners: seq<(PlayerId, string)>): set<PlayerId> {
    set k | 0 <= k < |joiners| :: joiners[k].0
  }

  /** Once a game waits for its quorum, a non-empty run of joins starts it
      exactly when the players already in and the joiners together reach the
      quorum size; otherwise it is still waiting with both timers running. */
  lemma {:induction false} JoinsStartIffQuorum(ch: Channel, joiners: seq<(PlayerId, string)>, minQuorum: nat)
    requires ChannelInv(ch, minQuorum)
    requires ch.state == Created
    requires |joiners| > 0
    ensures var r := JoinAll(ch, joiners, minQuorum);
      && (r.state == Started <==> minQuorum <= |ch.quorum + Ids(joiners)|)
      && (r.state != Started ==> r.state == Created && r.quorum == ch.quorum + Ids(joiners))
    decreases |joiners|
  {
    var first := JoinChannel(ch, joiners[0].0, joiners[0].1, minQuorum);
    var rest := joiners[1..];
    assert Ids(joiners) == {joiners[0].0} + Ids(rest) by {
      forall p | p in Ids(joiners) ensures p in {joiners[0].0} + Ids(rest) {
        var k :| 0 <= k < |joiners| && joiners[k].0 == p;
        if k > 0 {
          assert rest[k - 1].0 == p;
        }
      }
      forall p | p in Ids(rest) ensures p in Ids(joiners) {
        var k :| 0 <= k < |rest| && rest[k].0 == p;
        assert joiners[k + 1].0 == p;
      }
    }
    JoinChannelKeepsInv(ch, joiners[0].0, joiners[0].1, minQuorum);
    if |rest| == 0 {
      assert JoinAll(first, rest, minQuorum) == first;
      assert Ids(rest) == {};
    } else if first.state == Started {
      StartedStays(first, rest, minQuorum);
      SizeGrows(ch.quorum + {joiners[0].0}, ch.quorum + Ids(joiners));
    } else {
      JoinsStartIffQuorum(first, rest, minQuorum);
      assert first.quorum + Ids(rest) == ch.quorum + Ids(joiners);
    }
  }

  /** A Started game ignores every later join. */
  lemma {:induction false} StartedStays(ch: Channel, joiners: seq<(PlayerId, string)>, minQuorum: nat)
    requires ch.state == Started
    ensures JoinAll(ch, joiners, minQuorum) == ch
    decreases |joiners|
  {
    if |joiners| > 0 {
      StartedStays(ch, joiners[1..], minQuorum);
    }
  }

  lemma SizeGrows(a: set<PlayerId>, b: set<PlayerId>)
    requires a <= b
    ensures |a| <= |b|
  {
    assert b == a + (b - a);
  }

  /** Running two batches of events is running them one after the other. */
  lemma {:induction false} RunAppend(bot: Bot, a: seq<Event>, b: seq<Event>, minQuorum: nat)
    ensures Run(bot, a + b, minQuorum) == Run(Run(bot, a, minQuorum), b, minQuorum)
    decreases |a|
  {
    if |a| == 0 {
      assert a + b == b;
    } else {
      assert (a + b)[0] == a[0];
      assert (a + b)[1..] == a[1..] + b;
      RunAppend(Step(bot, a[0], minQuorum), a[1..], b, minQuorum);
    }
  }

  lemma RunPair(bot: Bot, e1: Event, e2: Event, minQuorum: nat)
    ensures Run(bot, [e1, e2], minQuorum) == Step(Step(bot, e1, minQuorum), e2, minQuorum)
  {
    var b1 := Step(bot, e1, minQuorum);
    assert [e1, e2][1..] == [e2];
    assert Run(bot, [e1, e2], minQuorum) == Run(b1, [e2], minQuorum);
    assert [e2][1..] == [];
    assert Run(b1, [e2], minQuorum) == Run(Step(b1, e2, minQuorum), [], minQuorum);
  }

  /** Quorum 3, one slot, nothing else running: three players join, the
      goroutine finds the slot free right after the first join, and the game
      starts without ever waiting in the queue. */
  lemma ScenarioQuorumThenStart(x: ChatId, p1: PlayerId, p2: PlayerId, p3: PlayerId)
    requires p1 != p2 && p2 != p3 && p1 != p3
    ensures var r := Run(Bot(map[], GameQueue.Queue(1, 0)),
                         [JoinEvent(Join(x, p1, "one"), false, true), AdmitEvent(x, true),
                          JoinEvent(Join(x, p2, "two"), false, true), JoinEvent(Join(x, p3, "three"), false, true)], 3);
      && x in r.channels
      && r.channels[x].state == Started
      && r.channels[x].admission == Done(true)
      && r.queue.used == 1
  {
    var bot := Bot(map[], GameQueue.Queue(1, 0));
    var e1, e2 := JoinEvent(Join(x, p1, "one"), false, true), AdmitEvent(x, true);
    var e3, e4 := JoinEvent(Join(x, p2, "two"), false, true), JoinEvent(Join(x, p3, "three"), false, true);
    assert [e1, e2, e3, e4] == [e1, e2] + [e3, e4];
    RunAppend(bot, [e1, e2], [e3, e4], 3);
    RunPair(bot, e1, e2, 3);
    var b1 := Step(bot, e1, 3);
    assert b1.channels[x].state == Queued && b1.channels[x].admission == Pending;
    var b2 := Step(b1, e2, 3);
    assert b2.channels[x].state == Created && b2.channels[x].admission == Done(true);
    assert b2.channels[x].quorum == {p1};
    RunPair(b2, e3, e4, 3);
    var b3 := Step(b2, e3, 3);
    assert b3.channels[x].quorum == {p1, p2};
    assert |{p1, p2}| == 2;
    assert b3.channels[x].state == Created;
    var b4 := Step(b3, e4, 3);
    assert b4.channels[x].quorum == {p1, p2, p3};
    assert |{p1, p2, p3}| == 3;
  }

  /** One slot, held by a running game in chat x; a join in chat y with
      queueing on leaves y waiting, and once x's slot is handed back y takes
      it and leaves the queue. */
  lemma ScenarioWaitForSlot(x: ChatId, y: ChatId, running: Channel, p: PlayerId)
    requires x != y
    ensures var waiting := Run(Bot(map[x := running], GameQueue.Queue(1, 1)),
                               [JoinEvent(Join(y, p, "p"), false, true), AdmitEvent(y, true)], 2);
      var after := Run(waiting, [ReleaseEvent, SlotEvent(y)], 2);
      && y in waiting.channels && y in after.channels
      && waiting.channels[y].admission == AwaitingSlot
      && waiting.channels[y].state == Queued
      && after.channels[y].admission == Done(true)
      && after.channels[y].state == Created
      && after.queue.used == 1
  {
    var bot := Bot(map[x := running], GameQueue.Queue(1, 1));
    var e1, e2 := JoinEvent(Join(y, p, "p"), false, true), AdmitEvent(y, true);
    RunPair(bot, e1, e2, 2);
    var b1 := Step(bot, e1, 2);
    assert b1.channels[y].state == Queued && b1.channels[y].admission == Pending;
    var b2 := Step(b1, e2, 2);
    RunPair(b2, ReleaseEvent, SlotEvent(y), 2);
    var b3 := Step(b2, ReleaseEvent, 2);
    assert b3.queue.used == 0;
    assert |b3.channels[y].quorum| == 1;
  }

  /** Queueing switched off and no slot left: the join is admitted at once,
      waiting for its quorum without holding a slot. */
  lemma ScenarioQueueingOff(z: ChatId, p: PlayerId, q: GameQueue.Queue)
    requires q.used == q.capacity
    ensures var r := Run(Bot(map[], q), [JoinEvent(Join(z, p, "p"), false, true), AdmitEvent(z, false)], 2);
      && z in r.channels
      && r.channels[z].state == Created
      && r.channels[z].admission == Done(false)
      && r.queue == q
  {
    RunPair(Bot(map[], q), JoinEvent(Join(z, p, "p"), false, true), AdmitEvent(z, false), 2);
  }
}
