/** The bot of src/bot/WhatsAppBot.ts: routing of inbound messages, command
    dispatch, the per-sender message queue and its flush, the reply policy
    for generated text, the stale-queue sweep, outbound sends and the
    connection status.

    The WhatsApp client, the clock and the completion endpoint are inputs:
    each handler receives the current time `now` and the endpoint oracle
    `api`. What the bot does to the outside world (replies, sends, calls to
    the endpoint, emitted events) is appended to the ghost `log`. Timers are
    handles drawn from a counter; `liveTimers` holds the armed ones. */
module Bot {
  import opened Wrappers
  import opened Text
  import opened Types
  import Utils
  import Commands
  import Gpt

  /** Debounce window of the timer branch, in milliseconds. */
  const MessageWaitTime: nat := 3000
  /** A buffer this long is flushed at once. */
  const MaxQueueSize: nat := 5
  /** Age after which the sweep drops a sender's entry, in milliseconds. */
  const MaxAge: int := 10 * 60 * 1000
  /** The separator of a flushed buffer: a blank line. */
  const Paragraph: string := "\n\n"
  const StatusBroadcast: string := "status@broadcast"
  const ReconnectDelay: nat := 5000

  const NotConfiguredReply: string :=
    "🤖 IA no configurada. Usa comandos como !ping o !help para interactuar conmigo."
  const CommandErrorReply: string := "❌ Error al ejecutar el comando. Intenta de nuevo más tarde."

  const EmptyMessageError: string := "Message cannot be empty"
  const InvalidRecipientError: string := "Invalid recipient format"
  const NotConnectedError: string := "WhatsApp client not connected"

  const UnknownCommandHead: string := "❌ Comando desconocido: "
  const UnknownCommandMiddle: string := ". Usa "
  const UnknownCommandTail: string := " para ver los comandos disponibles."

  /** The reply to a command keyword that has no handler. */
  function UnknownCommandReply(command: string, prefix: string): string {
    UnknownCommandHead + command + UnknownCommandMiddle + prefix + "help" + UnknownCommandTail
  }

  /** The unknown-command reply names the command and tells the user to
      type the configured prefix followed by `help`. */
  lemma UnknownCommandReplyMentions(command: string, prefix: string)
    ensures Contains(UnknownCommandReply(command, prefix), command)
    ensures Contains(UnknownCommandReply(command, prefix), prefix + "help")
  {
    var r := UnknownCommandReply(command, prefix);
    var i := |UnknownCommandHead|;
    var j := i + |command| + |UnknownCommandMiddle|;
    assert r == UnknownCommandHead + (command + (UnknownCommandMiddle + ((prefix + "help") + UnknownCommandTail)));
    assert r[i..i + |command|] == command;
    assert OccursAt(r, command, i);
    assert r[j..j + |prefix| + 4] == prefix + "help";
    assert OccursAt(r, prefix + "help", j);
  }

  /** An inbound message as the WhatsApp client delivers it. `to` may be
      absent, `timestamp` is in seconds and `kind` is the message `type`. */
  datatype Message = Message(
    id: string, from: string, to: Option<string>, body: string,
    timestamp: int, fromMe: bool, kind: string)

  /** The record `handleMessage` and `handleCommand` build from a message. */
  function ToMessageData(m: Message): (d: MessageData)
    ensures d.from == m.from && d.body == m.body && d.isFromMe == m.fromMe
    ensures d.timestamp == 1000 * m.timestamp
  {
    MessageData(m.id, m.from, if m.to.Some? then m.to.value else "", m.body,
                m.timestamp * 1000, m.fromMe, m.kind)
  }

  /** One sender's entry in the message queue. */
  datatype UserQueue = UserQueue(messages: seq<string>, lastMessageTime: int, timeout: Option<nat>)

  /** What the bot does to the outside world. */
  datatype Effect =
    | Reply(to: string, text: string)                // message.reply(text) to a message from `to`
    | Send(to: string, text: string)                 // client.sendMessage(to, text)
    | ApiCall(request: Gpt.ChatRequest)              // a request to the completion endpoint
    | EmitMessage(data: MessageData)                 // emit('message', data)
    | EmitMessageSent(to: string, body: string)      // emit('messageSent', ...)
    | EmitQr(qr: string)
    | EmitReady
    | EmitAuthenticated
    | EmitDisconnected(reason: string)
    | ScheduleReconnect(delay: nat)                  // setTimeout(initialize, delay)

  /** The texts of the replies among `effects`, in order. */
  function Replies(effects: seq<Effect>): seq<string> {
    if effects == [] then []
    else (if effects[0].Reply? then [effects[0].text] else []) + Replies(effects[1..])
  }

  /** The requests sent to the completion endpoint among `effects`, in order. */
  function ApiCalls(effects: seq<Effect>): seq<Gpt.ChatRequest> {
    if effects == [] then []
    else (if effects[0].ApiCall? then [effects[0].request] else []) + ApiCalls(effects[1..])
  }

  lemma {:induction false} ObserveAppend(a: seq<Effect>, b: seq<Effect>)
    ensures Replies(a + b) == Replies(a) + Replies(b)
    ensures ApiCalls(a + b) == ApiCalls(a) + ApiCalls(b)
  {
    if a == [] {
      assert a + b == b;
    } else {
      assert (a + b)[1..] == a[1..] + b;
      ObserveAppend(a[1..], b);
    }
  }

  /** A reply to `to` with `text`, followed by the `messageSent` event. */
  function Answer(to: string, text: string): seq<Effect> {
    [Reply(to, text), EmitMessageSent(to, text)]
  }

  /** The endpoint call of one run of `generateResponse`, if it made one. */
  function Calls(g: Gpt.Generation): seq<Effect> {
    if g.sent.Some? then [ApiCall(g.sent.value)] else []
  }

  /** The guard of `handleAIResponse` on a generated reply: it is sent only
      when it is non-empty and starts with neither `Error:` nor `Lo siento`. */
  predicate ShouldReply(response: string) {
    response != "" && !StartsWith(response, "Error:") && !StartsWith(response, "Lo siento")
  }

  /** What `handleAIResponse(message, customPrompt)` does. An empty
      `customPrompt` is falsy, so the message's own body is used instead. */
  function AIResponseEffects(gpt: NvidiaConfig, message: Message, customPrompt: string,
                             api: Gpt.ChatRequest -> Gpt.ApiReply): seq<Effect>
  {
    if !Gpt.IsConfigured(gpt) then
      if customPrompt == "" || !Contains(customPrompt, Paragraph) then
        [Reply(message.from, NotConfiguredReply)]
      else []
    else
      var prompt := if customPrompt != "" then customPrompt else message.body;
      var g := Gpt.GenerateResponse(gpt, prompt, None, api);
      Calls(g) + (if g.result.Ok? && ShouldReply(g.result.value) then Answer(message.from, g.result.value) else [])
  }

  /** The reply policy of `handleAIResponse` without a configured service:
      the endpoint is never called, and the canned reply goes out, once,
      exactly when the prompt holds no blank line; nothing else is sent. */
  lemma AIResponseUnconfigured(gpt: NvidiaConfig, message: Message, customPrompt: string,
                               api: Gpt.ChatRequest -> Gpt.ApiReply)
    requires !Gpt.IsConfigured(gpt)
    ensures var effects := AIResponseEffects(gpt, message, customPrompt, api);
      && ApiCalls(effects) == []
      && (Replies(effects) == [NotConfiguredReply] <==> !Contains(customPrompt, Paragraph))
      && (Replies(effects) == [] || Replies(effects) == [NotConfiguredReply])
  {
    assert !Contains("", Paragraph);
    var effects := AIResponseEffects(gpt, message, customPrompt, api);
    if effects != [] {
      assert effects == [Reply(message.from, NotConfiguredReply)];
      assert effects[1..] == [];
    }
  }

  /** The reply policy of `handleAIResponse` with a configured service: the
      endpoint is called once, with the custom prompt or else the message
      body; the generated text is sent back, once, exactly when generation
      succeeded and ShouldReply accepts it; nothing else is sent, so a
      generation error sends nothing and no reply is empty. */
  lemma AIResponseConfigured(gpt: NvidiaConfig, message: Message, customPrompt: string,
                             api: Gpt.ChatRequest -> Gpt.ApiReply)
    requires Gpt.IsConfigured(gpt)
    ensures var effects := AIResponseEffects(gpt, message, customPrompt, api);
      var prompt := if customPrompt != "" then customPrompt else message.body;
      var g := Gpt.GenerateResponse(gpt, prompt, None, api);
      && ApiCalls(effects) == [Gpt.BuildRequest(gpt, prompt, None)]
      && (Replies(effects) != [] <==> g.result.Ok? && ShouldReply(g.result.value))
      && (Replies(effects) != [] ==> Replies(effects) == [g.result.value] && g.result.value != "")
      && (g.result.Err? ==> Replies(effects) == [])
  {
    var prompt := if customPrompt != "" then customPrompt else message.body;
    var g := Gpt.GenerateResponse(gpt, prompt, None, api);
    var tail := if g.result.Ok? && ShouldReply(g.result.value) then Answer(message.from, g.result.value) else [];
    ObserveAppend(Calls(g), tail);
    assert Calls(g) == [ApiCall(g.sent.value)];
    assert Calls(g)[1..] == [];
    AnswerObserved(message.from, if g.result.Ok? then g.result.value else "");
  }

  lemma AnswerObserved(to: string, text: string)
    ensures Replies(Answer(to, text)) == [text] && ApiCalls(Answer(to, text)) == []
  {
    var a := Answer(to, text);
    var b := [EmitMessageSent(to, text)];
    assert a[1..] == b && b[1..] == [];
    assert Replies(b) == [] && ApiCalls(b) == [];
    assert Replies(a) == [text] + Replies(b);
    assert ApiCalls(a) == ApiCalls(b);
  }

  /** A single freeform message whose text contains a blank line gets no
      reply at all from an unconfigured bot: the blank-line test meant to
      recognise combined bursts also catches such single messages. */
  lemma BlankLineMessageUnanswered(gpt: NvidiaConfig, message: Message, api: Gpt.ChatRequest -> Gpt.ApiReply)
    requires !Gpt.IsConfigured(gpt) && Contains(message.body, Paragraph)
    ensures AIResponseEffects(gpt, message, message.body, api) == []
  {
  }

  /** What `handleCommand(message, command, args)` does with the registry
      `commands` and the configured `prefix`. */
  function CommandEffects(commands: map<string, CommandHandler>, prefix: string, gpt: NvidiaConfig,
                          message: Message, command: string, args: seq<string>,
                          api: Gpt.ChatRequest -> Gpt.ApiReply): seq<Effect>
  {
    if command !in commands then [Reply(message.from, UnknownCommandReply(command, prefix))]
    else if command == "ai" then
      var g := Gpt.GenerateResponse(gpt, Join(args, " "), None, api);
      Calls(g) + (if g.result.Ok? then Answer(message.from, g.result.value)
                  else [Reply(message.from, CommandErrorReply)])
    else Answer(message.from, commands[command].execute(ToMessageData(message), args))
  }

  /** Command dispatch over the built-in registry sends exactly one reply.
      An unknown keyword gets the unknown-command reply and runs nothing.
      `ai` bypasses `aiCommand.execute`: it generates from the arguments
      joined by spaces and replies with the generated text or, when
      generation throws, with the fixed error reply. Any other keyword
      replies with its handler's result and calls no endpoint. */
  lemma {:induction false} CommandDispatch(prefix: string, gpt: NvidiaConfig, message: Message,
                                           command: string, args: seq<string>,
                                           api: Gpt.ChatRequest -> Gpt.ApiReply)
    ensures var effects := CommandEffects(Commands.Registry(), prefix, gpt, message, command, args, api);
      var g := Gpt.GenerateResponse(gpt, Join(args, " "), None, api);
      && |Replies(effects)| == 1
      && (command !in Commands.Registry() ==>
            effects == [Reply(message.from, UnknownCommandReply(command, prefix))])
      && (command == "ai" ==>
            Replies(effects) == [if g.result.Ok? then g.result.value else CommandErrorReply])
      && (command == "ai" && Gpt.IsConfigured(gpt) ==>
            ApiCalls(effects) == [Gpt.BuildRequest(gpt, Join(args, " "), None)])
      && (command != "ai" ==> ApiCalls(effects) == [])
      && (command in Commands.Registry() && command != "ai" ==>
            Replies(effects) == [Commands.Registry()[command].execute(ToMessageData(message), args)])
  {
    Commands.RegistryKeepsEveryHandler();
    var effects := CommandEffects(Commands.Registry(), prefix, gpt, message, command, args, api);
    if command !in Commands.Registry() {
      assert effects[1..] == [];
    } else if command == "ai" {
      var g := Gpt.GenerateResponse(gpt, Join(args, " "), None, api);
      var tail := if g.result.Ok? then Answer(message.from, g.result.value)
                  else [Reply(message.from, CommandErrorReply)];
      ObserveAppend(Calls(g), tail);
      if g.sent.Some? {
        assert Calls(g)[1..] == [];
      }
      if g.result.Ok? {
        AnswerObserved(message.from, g.result.value);
      } else {
        assert tail[1..] == [];
      }
    } else {
      AnswerObserved(message.from, Commands.Registry()[command].execute(ToMessageData(message), args));
    }
  }

  /** Every entry of the queue is empty and has no timer. */
  ghost predicate IdleQueue(queue: map<string, UserQueue>) {
    forall u :: u in queue ==> queue[u].messages == [] && queue[u].timeout == None
  }

  function Handles(timeout: Option<nat>): set<nat> {
    if timeout.Some? then {timeout.value} else {}
  }

  /** The outcome of `addToMessageQueue` on the queue: the new queue, the
      next timer handle, the timer it cancels, the timer it arms and the
      prompt it flushes. */
  datatype Enqueued = Enqueued(
    queue: map<string, UserQueue>, nextHandle: nat,
    cleared: Option<nat>, armed: Option<nat>, prompt: Option<string>)

  /** `addToMessageQueue` of `body` from `userId` at `now`: push onto the
      sender's buffer (created if missing), cancel its timer, and flush when
      the buffer holds one message or at least MaxQueueSize of them;
      otherwise arm a new timer. */
  function Enqueue(queue: map<string, UserQueue>, nextHandle: nat, userId: string,
                   body: string, now: int): Enqueued
  {
    var q := if userId in queue then queue[userId] else UserQueue([], now, None);
    var pushed := q.messages + [body];
    if |pushed| >= MaxQueueSize || |pushed| == 1 then
      Enqueued(queue[userId := UserQueue([], now, None)], nextHandle, q.timeout, None,
               Some(Join(pushed, Paragraph)))
    else
      Enqueued(queue[userId := UserQueue(pushed, now, Some(nextHandle))], nextHandle + 1,
               q.timeout, Some(nextHandle), None)
  }

  /** The enqueue rule: a timer is armed exactly when the buffer holds
      between two and four messages after the push; otherwise the whole
      buffer is flushed in arrival order, the new message last, and the
      sender's buffer is emptied without a timer. An armed timer takes the
      next handle and is recorded with the grown buffer. The sender's old
      timer, if any, is the one cancelled. Every other sender's entry is
      left alone. */
  lemma EnqueueRule(queue: map<string, UserQueue>, nextHandle: nat, userId: string, body: string, now: int)
    ensures var e := Enqueue(queue, nextHandle, userId, body, now);
      var old_ := if userId in queue then queue[userId].messages else [];
      && (e.armed.Some? <==> 1 <= |old_| <= 3)
      && (e.prompt.Some? <==> e.armed.None?)
      && (e.prompt.Some? && old_ != [] ==> e.prompt.value == Join(old_, Paragraph) + Paragraph + body)
      && (e.prompt.Some? && old_ == [] ==> e.prompt.value == body)
      && userId in e.queue && e.queue[userId].lastMessageTime == now
      && (forall u :: u in queue && u != userId ==> u in e.queue && e.queue[u] == queue[u])
      && e.queue.Keys == queue.Keys + {userId}
      && e.cleared == (if userId in queue then queue[userId].timeout else None)
      && (e.prompt.Some? ==> e.queue[userId] == UserQueue([], now, None) && e.nextHandle == nextHandle)
      && (e.armed.Some? ==>
            && e.armed == Some(nextHandle) && e.nextHandle == nextHandle + 1
            && e.queue[userId] == UserQueue(old_ + [body], now, Some(nextHandle)))
  {
    var old_ := if userId in queue then queue[userId].messages else [];
    JoinSnoc(old_, body, Paragraph);
  }

  /** The queue invariant. From a queue whose every buffer is empty and has
      no timer, enqueueing flushes at once: the prompt is the new message
      alone, no timer is armed or cancelled, and the queue stays idle. So a
      buffer never holds two messages and the timer branch is never taken. */
  lemma EnqueueFromIdle(queue: map<string, UserQueue>, nextHandle: nat, userId: string, body: string, now: int)
    requires IdleQueue(queue)
    ensures var e := Enqueue(queue, nextHandle, userId, body, now);
      && e.prompt == Some(body) && e.armed == None && e.cleared == None
      && e.nextHandle == nextHandle
      && e.queue == queue[userId := UserQueue([], now, None)]
      && IdleQueue(e.queue)
  {
    JoinSnoc([], body, Paragraph);
  }

  /** Two freeform messages in a row from one sender are never combined:
      each is flushed as its own prompt, whatever the time between them. */
  lemma NoBurstIsCombined(queue: map<string, UserQueue>, h: nat, userId: string,
                          first: string, second: string, t1: int, t2: int)
    requires IdleQueue(queue)
    ensures var e1 := Enqueue(queue, h, userId, first, t1);
      var e2 := Enqueue(e1.queue, e1.nextHandle, userId, second, t2);
      e1.prompt == Some(first) && e2.prompt == Some(second) && e2.armed == None
  {
    EnqueueFromIdle(queue, h, userId, first, t1);
    var e1 := Enqueue(queue, h, userId, first, t1);
    EnqueueFromIdle(e1.queue, e1.nextHandle, userId, second, t2);
  }

  /** An entry the sweep drops: older than MaxAge, strictly. */
  predicate Stale(q: UserQueue, now: int) {
    now - q.lastMessageTime > MaxAge
  }

  /** The queue after the sweep at `now`. */
  function Swept(queue: map<string, UserQueue>, now: int): (r: map<string, UserQueue>)
    ensures forall u :: u in r <==> u in queue && !Stale(queue[u], now)
    ensures forall u :: u in r ==> r[u] == queue[u]
  {
    map u | u in queue && !Stale(queue[u], now) :: queue[u]
  }

  /** The timers of the entries the sweep drops. */
  ghost function StaleTimers(queue: map<string, UserQueue>, now: int): set<nat> {
    set u | u in queue && Stale(queue[u], now) && queue[u].timeout.Some? :: queue[u].timeout.value
  }

  /** The timers of all entries. */
  ghost function AllTimers(queue: map<string, UserQueue>): set<nat> {
    set u | u in queue && queue[u].timeout.Some? :: queue[u].timeout.value
  }

  /** The sweep keeps an idle queue idle. */
  lemma {:induction false} SweptIdle(queue: map<string, UserQueue>, now: int)
    requires IdleQueue(queue)
    ensures IdleQueue(Swept(queue, now)) && StaleTimers(queue, now) == {}
  {
    assert forall u :: u in queue ==> queue[u].timeout == None;
  }

  /** The connection events the bot reacts to. */
  datatype LifecycleEvent =
    | QrReceived(qr: string)
    | ClientReady
    | ClientAuthenticated
    | ClientDisconnected(reason: string)
    | InitializeStarted
    | InitializeFailed
    | Destroyed

  /** The status after an event. */
  function StatusAfter(s: BotStatus, e: LifecycleEvent): BotStatus {
    match e
    case QrReceived(qr) => s.(qrCode := Some(qr), sessionStatus := Qr)
    case ClientReady => s.(isConnected := true, sessionStatus := Ready, qrCode := None)
    case ClientAuthenticated => s.(sessionStatus := Authenticated)
    case ClientDisconnected(_) => s.(isConnected := false, sessionStatus := Disconnected)
    case InitializeStarted => s.(sessionStatus := Loading)
    case InitializeFailed => s.(sessionStatus := Disconnected)
    case Destroyed => s.(isConnected := false, sessionStatus := Disconnected)
  }

  const InitialStatus: BotStatus := BotStatus(false, None, Loading)

  /** In status `ready` the client is connected and no QR code is kept; in
      status `qr` a code is kept. */
  predicate StatusConsistent(s: BotStatus) {
    && (s.sessionStatus == Ready ==> s.isConnected && s.qrCode == None)
    && (s.sessionStatus == Qr ==> s.qrCode.Some?)
  }

  /** Every event keeps the status consistent, and the initial status is. */
  lemma StatusConsistentKept(s: BotStatus, e: LifecycleEvent)
    requires StatusConsistent(s)
    ensures StatusConsistent(StatusAfter(s, e)) && StatusConsistent(InitialStatus)
  {
  }

  /** The checks of `sendMessage`, in their order: a blank message, then a
      recipient that is empty or has no `@`, then a disconnected client. */
  function SendError(status: BotStatus, to: string, message: string): (r: Option<string>)
    ensures r.None? <==> !Blank(message) && Contains(to, "@") && status.isConnected
    ensures Blank(message) ==> r == Some(EmptyMessageError)
    ensures !Blank(message) && !Contains(to, "@") ==> r == Some(InvalidRecipientError)
    ensures !Blank(message) && Contains(to, "@") && !status.isConnected ==> r == Some(NotConnectedError)
  {
    if message == "" || Trim(message) == "" then Some(EmptyMessageError)
    else if to == "" || !Contains(to, "@") then Some(InvalidRecipientError)
    else if !status.isConnected then Some(NotConnectedError)
    else None
  }

  /** A valid send is accepted right after `ready` and refused right after
      `disconnected`, whatever came before. */
  lemma SendFollowsConnection(s: BotStatus, to: string, message: string, reason: string)
    requires !Blank(message) && Contains(to, "@")
    ensures SendError(StatusAfter(s, ClientReady), to, message) == None
    ensures SendError(StatusAfter(s, ClientDisconnected(reason)), to, message) == Some(NotConnectedError)
    ensures SendError(InitialStatus, to, message) == Some(NotConnectedError)
  {
  }

  class WhatsAppBot {
    const config: BotConfig
    const gpt: NvidiaConfig
    /** The registry `setupCommands` fills. */
    const commands: map<string, CommandHandler>
    var status: BotStatus
    var messageQueue: map<string, UserQueue>
    /** The handle the next `setTimeout` returns. */
    var nextHandle: nat
    /** Armed timers not yet cancelled. */
    ghost var liveTimers: set<nat>
    ghost var log: seq<Effect>

    /** Every buffer is empty and no timer is armed. */
    ghost predicate Idle()
      reads this
    {
      IdleQueue(messageQueue) && liveTimers == {}
    }

    constructor (config: BotConfig, gpt: NvidiaConfig)
      ensures this.config == config && this.gpt == gpt
      ensures commands == Commands.Registry()
      ensures status == InitialStatus && messageQueue == map[] && nextHandle == 0
      ensures log == [] && Idle()
    {
      this.config := config;
      this.gpt := gpt;
      commands := Commands.Registry();
      status := InitialStatus;
      messageQueue := map[];
      nextHandle := 0;
      liveTimers := {};
      log := [];
    }

    /** The `qr` event. */
    method OnQr(qr: string)
      modifies this`status, this`log
      ensures status == StatusAfter(old(status), QrReceived(qr))
      ensures log == old(log) + [EmitQr(qr)]
    {
      status := status.(qrCode := Some(qr), sessionStatus := Qr);
      log := log + [EmitQr(qr)];
    }

    /** The `ready` event. */
    method OnReady()
      modifies this`status, this`log
      ensures status == StatusAfter(old(status), ClientReady)
      ensures log == old(log) + [EmitReady]
    {
      status := status.(isConnected := true, sessionStatus := Ready, qrCode := None);
      log := log + [EmitReady];
    }

    /** The `authenticated` event. */
    method OnAuthenticated()
      modifies this`status, this`log
      ensures status == StatusAfter(old(status), ClientAuthenticated)
      ensures log == old(log) + [EmitAuthenticated]
    {
      status := status.(sessionStatus := Authenticated);
      log := log + [EmitAuthenticated];
    }

    /** The `disconnected` event; with auto-reconnect it schedules
      `initialize` after ReconnectDelay. */
    method OnDisconnected(reason: string)
      modifies this`status, this`log
      ensures status == StatusAfter(old(status), ClientDisconnected(reason))
      ensures log == old(log) + [EmitDisconnected(reason)]
                    + (if config.autoReconnect then [ScheduleReconnect(ReconnectDelay)] else [])
    {
      status := status.(isConnected := false, sessionStatus := Disconnected);
      log := log + [EmitDisconnected(reason)];
      if config.autoReconnect {
        log := log + [ScheduleReconnect(ReconnectDelay)];
      }
    }

    /** `initialize`: the status goes to `loading`; when the client fails to
      start it goes to `disconnected` and the error is passed on. */
    method Initialize(clientStarted: bool) returns (error: bool)
      modifies this`status
      ensures error == !clientStarted
      ensures status == if clientStarted then StatusAfter(old(status), InitializeStarted)
                        else StatusAfter(StatusAfter(old(status), InitializeStarted), InitializeFailed)
    {
      status := status.(sessionStatus := Loading);
      error := !clientStarted;
      if error {
        status := status.(sessionStatus := Disconnected);
      }
    }

    /** `getStatus`: a copy of the status. */
    method GetStatus() returns (s: BotStatus)
      ensures s == status
    {
      s := status;
    }

    /** `handleAIResponse(message, customPrompt)`. */
    method HandleAIResponse(message: Message, customPrompt: string, api: Gpt.ChatRequest -> Gpt.ApiReply)
      modifies this`log
      ensures log == old(log) + AIResponseEffects(gpt, message, customPrompt, api)
    {
      if !Gpt.IsConfigured(gpt) {
        if customPrompt == "" || !Contains(customPrompt, Paragraph) {
          log := log + [Reply(message.from, NotConfiguredReply)];
        }
        return;
      }
      var prompt := if customPrompt != "" then customPrompt else message.body;
      var g := Gpt.GenerateResponse(gpt, prompt, None, api);
      log := log + Calls(g);
      if g.result.Ok? {
        var response := g.result.value;
        if response != "" && !StartsWith(response, "Error:") && !StartsWith(response, "Lo siento") {
          log := log + Answer(message.from, response);
        }
      }
    }

    /** `processMessageQueue(message, userId)`, also the body of the queue
      timer's callback. A missing or empty entry is left alone. Otherwise
      the timer is cancelled, the buffer is joined with blank lines and
      emptied, and only then is the joined text handed to the reply step;
      the entry itself stays. */
    method ProcessMessageQueue(message: Message, userId: string, api: Gpt.ChatRequest -> Gpt.ApiReply)
      modifies this`messageQueue, this`liveTimers, this`log
      ensures userId !in old(messageQueue) || old(messageQueue)[userId].messages == [] ==>
        messageQueue == old(messageQueue) && liveTimers == old(liveTimers) && log == old(log)
      ensures userId in old(messageQueue) && old(messageQueue)[userId].messages != [] ==>
        (var q := old(messageQueue)[userId];
         && messageQueue == old(messageQueue)[userId := q.(messages := [], timeout := None)]
         && liveTimers == old(liveTimers) - Handles(q.timeout)
         && log == old(log) + AIResponseEffects(gpt, message, Join(q.messages, Paragraph), api))
    {
      if userId !in messageQueue || messageQueue[userId].messages == [] {
        return;
      }
      var userQueue := messageQueue[userId];
      if userQueue.timeout.Some? {
        liveTimers := liveTimers - {userQueue.timeout.value};
        userQueue := userQueue.(timeout := None);
        messageQueue := messageQueue[userId := userQueue];
      }
      var combined := Join(userQueue.messages, Paragraph);
      userQueue := userQueue.(messages := []);
      messageQueue := messageQueue[userId := userQueue];
      HandleAIResponse(message, combined, api);
    }

    /** The first half of `addToMessageQueue`: the sender's entry (created
      when missing) gets the message pushed and its time set, and its timer
      is cancelled. The entry is returned. */
    method PushMessage(userId: string, body: string, now: int) returns (userQueue: UserQueue)
      modifies this`messageQueue, this`liveTimers
      ensures var q := if userId in old(messageQueue) then old(messageQueue)[userId] else UserQueue([], now, None);
        && userQueue == q.(messages := q.messages + [body], lastMessageTime := now)
        && messageQueue == old(messageQueue)[userId := userQueue]
        && liveTimers == old(liveTimers) - Handles(q.timeout)
    {
      if userId !in messageQueue {
        messageQueue := messageQueue[userId := UserQueue([], now, None)];
      }
      userQueue := messageQueue[userId];
      userQueue := userQueue.(messages := userQueue.messages + [body], lastMessageTime := now);
      messageQueue := messageQueue[userId := userQueue];
      if userQueue.timeout.Some? {
        liveTimers := liveTimers - {userQueue.timeout.value};
      }
    }

    /** `addToMessageQueue(message)` at time `now`, as Enqueue describes. */
    method AddToMessageQueue(message: Message, now: int, api: Gpt.ChatRequest -> Gpt.ApiReply)
      modifies this`messageQueue, this`nextHandle, this`liveTimers, this`log
      ensures var e := Enqueue(old(messageQueue), old(nextHandle), message.from, message.body, now);
        && messageQueue == e.queue && nextHandle == e.nextHandle
        && liveTimers == old(liveTimers) - Handles(e.cleared) + Handles(e.armed)
        && log == old(log) + (if e.prompt.Some? then AIResponseEffects(gpt, message, e.prompt.value, api) else [])
      ensures old(Idle()) ==>
        && Idle() && nextHandle == old(nextHandle)
        && messageQueue == old(messageQueue)[message.from := UserQueue([], now, None)]
        && log == old(log) + AIResponseEffects(gpt, message, message.body, api)
    {
      ghost var e := Enqueue(messageQueue, nextHandle, message.from, message.body, now);
      ghost var wasIdle := Idle();
      if wasIdle {
        EnqueueFromIdle(messageQueue, nextHandle, message.from, message.body, now);
      }
      var userId := message.from;
      var userQueue := PushMessage(userId, message.body, now);
      if |userQueue.messages| >= MaxQueueSize || |userQueue.messages| == 1 {
        ProcessMessageQueue(message, userId, api);
      } else {
        var handle := nextHandle;
        nextHandle := nextHandle + 1;
        liveTimers := liveTimers + {handle};
        messageQueue := messageQueue[userId := userQueue.(timeout := Some(handle))];
      }
    }

    /** `handleCommand(message, command, args)`. */
    method HandleCommand(message: Message, command: string, args: seq<string>,
                         api: Gpt.ChatRequest -> Gpt.ApiReply)
      modifies this`log
      ensures log == old(log) + CommandEffects(commands, config.prefix, gpt, message, command, args, api)
    {
      if command !in commands {
        log := log + [Reply(message.from, UnknownCommandReply(command, config.prefix))];
        return;
      }
      var handler := commands[command];
      var response: string;
      if command == "ai" {
        var prompt := Join(args, " ");
        var g := Gpt.GenerateResponse(gpt, prompt, None, api);
        log := log + Calls(g);
        if g.result.Err? {
          log := log + [Reply(message.from, CommandErrorReply)];
          return;
        }
        response := g.result.value;
      } else {
        response := handler.execute(ToMessageData(message), args);
      }
      log := log + Answer(message.from, response);
    }

    /** A message `handleMessage` ignores: the bot's own, or a status
      broadcast. */
    static predicate Dropped(message: Message) {
      message.fromMe || message.from == StatusBroadcast
    }

    /** `handleMessage(message)` at time `now`. A dropped message changes
      nothing. Any other is reported with a `message` event and then goes
      to command dispatch exactly when it parses as a command, and to the
      queue otherwise. From an idle bot a freeform message is answered on
      its own, at once, and the bot stays idle. */
    method HandleMessage(message: Message, now: int, api: Gpt.ChatRequest -> Gpt.ApiReply)
      modifies this`messageQueue, this`nextHandle, this`liveTimers, this`log
      ensures Dropped(message) ==>
        messageQueue == old(messageQueue) && nextHandle == old(nextHandle)
        && liveTimers == old(liveTimers) && log == old(log)
      ensures !Dropped(message) ==> |log| > |old(log)| && log[|old(log)|] == EmitMessage(ToMessageData(message))
      ensures var p := Utils.ParseCommand(message.body, config.prefix);
        !Dropped(message) && p.Some? ==>
        && messageQueue == old(messageQueue) && nextHandle == old(nextHandle) && liveTimers == old(liveTimers)
        && log == old(log) + [EmitMessage(ToMessageData(message))]
                  + CommandEffects(commands, config.prefix, gpt, message, p.value.command, p.value.args, api)
      ensures var e := Enqueue(old(messageQueue), old(nextHandle), message.from, message.body, now);
        !Dropped(message) && Utils.ParseCommand(message.body, config.prefix).None? ==>
        && messageQueue == e.queue && nextHandle == e.nextHandle
        && liveTimers == old(liveTimers) - Handles(e.cleared) + Handles(e.armed)
        && log == old(log) + [EmitMessage(ToMessageData(message))]
                  + (if e.prompt.Some? then AIResponseEffects(gpt, message, e.prompt.value, api) else [])
      ensures old(Idle()) ==> Idle() && nextHandle == old(nextHandle)
      ensures old(Idle()) && !Dropped(message) && Utils.ParseCommand(message.body, config.prefix).None? ==>
        && messageQueue == old(messageQueue)[message.from := UserQueue([], now, None)]
        && log == old(log) + [EmitMessage(ToMessageData(message))] + AIResponseEffects(gpt, message, message.body, api)
    {
      if message.fromMe || message.from == StatusBroadcast {
        return;
      }
      log := log + [EmitMessage(ToMessageData(message))];
      var commandData := Utils.ParseCommand(message.body, config.prefix);
      Dispatch(message, commandData, now, api);
    }

    /** The branch of `handleMessage` after the `message` event: a parsed
      command goes to HandleCommand, anything else to the queue. */
    method Dispatch(message: Message, commandData: Option<Utils.ParsedCommand>, now: int,
                    api: Gpt.ChatRequest -> Gpt.ApiReply)
      modifies this`messageQueue, this`nextHandle, this`liveTimers, this`log
      ensures commandData.Some? ==>
        && messageQueue == old(messageQueue) && nextHandle == old(nextHandle) && liveTimers == old(liveTimers)
        && log == old(log) + CommandEffects(commands, config.prefix, gpt, message,
                                            commandData.value.command, commandData.value.args, api)
      ensures var e := Enqueue(old(messageQueue), old(nextHandle), message.from, message.body, now);
        commandData.None? ==>
        && messageQueue == e.queue && nextHandle == e.nextHandle
        && liveTimers == old(liveTimers) - Handles(e.cleared) + Handles(e.armed)
        && log == old(log) + (if e.prompt.Some? then AIResponseEffects(gpt, message, e.prompt.value, api) else [])
      ensures old(Idle()) ==> Idle() && nextHandle == old(nextHandle)
      ensures old(Idle()) && commandData.None? ==>
        && messageQueue == old(messageQueue)[message.from := UserQueue([], now, None)]
        && log == old(log) + AIResponseEffects(gpt, message, message.body, api)
    {
      if commandData.Some? {
        HandleCommand(message, commandData.value.command, commandData.value.args, api);
      } else {
        AddToMessageQueue(message, now, api);
      }
    }

    /** The body of the periodic sweep at time `now`: every stale entry has
      its timer cancelled and is deleted; the others are untouched. */
    method SweepQueues(now: int)
      modifies this`messageQueue, this`liveTimers
      ensures messageQueue == Swept(old(messageQueue), now)
      ensures liveTimers == old(liveTimers) - StaleTimers(old(messageQueue), now)
      ensures old(Idle()) ==> Idle()
    {
      ghost var queue0 := messageQueue;
      ghost var timers0 := liveTimers;
      var keys := messageQueue.Keys;
      ghost var visited: set<string> := {};
      while keys != {}
        invariant keys !! visited && keys + visited == queue0.Keys
        invariant messageQueue == map u | u in queue0 && (u in keys || !Stale(queue0[u], now)) :: queue0[u]
        invariant liveTimers == timers0 - (set u | u in visited && Stale(queue0[u], now) && queue0[u].timeout.Some? :: queue0[u].timeout.value)
        decreases keys
      {
        var userId :| userId in keys;
        var queue := messageQueue[userId];
        if now - queue.lastMessageTime > MaxAge {
          if queue.timeout.Some? {
            liveTimers := liveTimers - {queue.timeout.value};
          }
          messageQueue := messageQueue - {userId};
        }
        keys := keys - {userId};
        visited := visited + {userId};
      }
      assert visited == queue0.Keys;
      if IdleQueue(queue0) && timers0 == {} {
        SweptIdle(queue0, now);
      }
    }

    /** `destroy`: every timer cancelled and the queue emptied; when the
      client then shuts down, the status becomes disconnected (a failure of
      the client is caught and leaves the status as it was). */
    method Destroy(clientDestroyed: bool)
      modifies this`messageQueue, this`liveTimers, this`status
      ensures messageQueue == map[]
      ensures liveTimers == old(liveTimers) - AllTimers(old(messageQueue))
      ensures status == if clientDestroyed then StatusAfter(old(status), Destroyed) else old(status)
    {
      ghost var timers0 := liveTimers;
      ghost var queue0 := messageQueue;
      var keys := messageQueue.Keys;
      ghost var visited: set<string> := {};
      while keys != {}
        invariant keys !! visited && keys + visited == queue0.Keys
        invariant messageQueue == queue0 && status == old(status)
        invariant liveTimers == timers0 - (set u | u in visited && queue0[u].timeout.Some? :: queue0[u].timeout.value)
        decreases keys
      {
        var userId :| userId in keys;
        var queue := messageQueue[userId];
        if queue.timeout.Some? {
          liveTimers := liveTimers - {queue.timeout.value};
        }
        keys := keys - {userId};
        visited := visited + {userId};
      }
      messageQueue := map[];
      if clientDestroyed {
        status := status.(isConnected := false, sessionStatus := Disconnected);
      }
    }

    /** `sendMessage(to, message)`: the checks of SendError, in order; on
      success the trimmed text goes to the transport and `messageSent`
      reports the untrimmed one. */
    method SendMessage(to: string, message: string) returns (error: Option<string>)
      modifies this`log
      ensures error == SendError(status, to, message)
      ensures error.Some? ==> log == old(log)
      ensures error.None? ==> log == old(log) + [Send(to, Trim(message)), EmitMessageSent(to, message)]
    {
      if message == "" || Trim(message) == "" {
        return Some(EmptyMessageError);
      }
      if to == "" || !Contains(to, "@") {
        return Some(InvalidRecipientError);
      }
      if !status.isConnected {
        return Some(NotConnectedError);
      }
      log := log + [Send(to, Trim(message)), EmitMessageSent(to, message)];
      error := None;
    }
  }
}
