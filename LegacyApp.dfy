/** The state of index.js and the handlers that change it: the reply
    generator with its conversation memory, the inbound message handler
    with the chat history and the answered-message log, and the profile and
    blacklist menu actions.

    The Gemini model is the oracle `gemini`, applied to the prompt a request
    is built from (`None` when the call or the reading of its text throws). Clock readings, the contact's display name
    and the user's menu choices are parameters. Replies and model calls go
    to the ghost `log`. Files, the terminal and the client's typing
    indicator are not modelled. */
module LegacyApp {
  import opened Wrappers
  import opened Text
  import opened Legacy

  /** The reply of `generateAIResponse` when anything in it throws. */
  const FailureReply: string := "nel, algo salió mal xd"
  /** The reply of the message handler when it throws. */
  const HandlerErrorReply: string := "Lo siento, ocurrió un error al procesar tu mensaje."
  const GroupSuffix: string := "@g.us"

  /** An inbound message: sender, text, whether it is the account's own,
      and its `type`. */
  datatype Inbound = Inbound(from: string, body: string, fromMe: bool, kind: string)

  /** An entry of `chatHistory`. */
  datatype HistoryEntry = HistoryEntry(body: string, fromMe: bool, timestamp: string, kind: string)

  /** An entry of `messages`, the log of answered messages. */
  datatype LogEntry = LogEntry(
    id: int, from: string, fromName: string, message: string,
    response: string, timestamp: string, profileUsed: string)

  datatype Effect =
    | GeminiCall(prompt: Prompt)       // generateContent(BuildGeminiRequest(prompt))
    | Replied(to: string, text: string)    // message.reply(text)

  /** A chat's entry in a per-chat map, or the empty list. */
  function EntriesOf<T>(m: map<string, seq<T>>, chat: string): seq<T> {
    if chat in m then m[chat] else []
  }

  /** What `generateAIResponse(message, from)` returns, the memory it leaves
      and the prompt of the request it sends, if any (the request itself is
      BuildGeminiRequest of it). */
  datatype Outcome = Outcome(reply: string, memory: map<string, seq<Turn>>, request: Option<Prompt>)

  /** `generateAIResponse(message, from)` once the persona is resolved
      (ResolvePersona). */
  function Respond(persona: Option<Profile>, memory: map<string, seq<Turn>>,
                   message: string, from: string, gemini: Prompt -> Option<string>): Outcome
  {
    if persona.None? then Outcome(FailureReply, memory, None)
    else
      var past := EntriesOf(memory, from);
      var request := Prompt(persona.value, past, message);
      var answer := gemini(request);
      if answer.None? then Outcome(FailureReply, memory[from := past], Some(request))
      else
        var reply := Truncate(answer.value);
        Outcome(reply, memory[from := Remember(past, message, reply)], Some(request))
  }

  /** Without a persona, `generateAIResponse` fails before touching
      anything: no request, no memory change, the fallback reply. */
  lemma RespondWithoutPersona(memory: map<string, seq<Turn>>, message: string, from: string,
                              gemini: Prompt -> Option<string>)
    ensures Respond(None, memory, message, from, gemini) == Outcome(FailureReply, memory, None)
  {
  }

  /** With a persona, one request is sent, built from the persona and the
      chat's memory; the chat gets a memory entry and no other chat's
      memory is touched. */
  lemma RespondRequest(p: Profile, memory: map<string, seq<Turn>>, message: string, from: string,
                       gemini: Prompt -> Option<string>)
    ensures var o := Respond(Some(p), memory, message, from, gemini);
      && o.request == Some(Prompt(p, EntriesOf(memory, from), message))
      && o.memory.Keys == memory.Keys + {from}
      && (forall c :: c in memory && c != from ==> o.memory[c] == memory[c])
  {
  }

  /** A failed model call returns the fallback text and leaves the chat's
      memory unappended (though created when it was missing). */
  lemma RespondFailed(p: Profile, memory: map<string, seq<Turn>>, message: string, from: string,
                      gemini: Prompt -> Option<string>)
    requires gemini(Prompt(p, EntriesOf(memory, from), message)).None?
    ensures var o := Respond(Some(p), memory, message, from, gemini);
      o.reply == FailureReply && o.memory == memory[from := EntriesOf(memory, from)]
  {
  }

  /** A successful model call returns the truncated answer, at most
      MaxReplyLength long, and remembers the message and that reply. */
  lemma RespondAnswered(p: Profile, memory: map<string, seq<Turn>>, message: string, from: string,
                        gemini: Prompt -> Option<string>)
    requires gemini(Prompt(p, EntriesOf(memory, from), message)).Some?
    ensures var o := Respond(Some(p), memory, message, from, gemini);
      var text := gemini(Prompt(p, EntriesOf(memory, from), message)).value;
      && o.reply == Truncate(text) && |o.reply| <= MaxReplyLength
      && o.memory == memory[from := Remember(EntriesOf(memory, from), message, o.reply)]
  {
    TruncateBounds(gemini(Prompt(p, EntriesOf(memory, from), message)).value);
  }

  /** A message the handler answers: not from a group, not the account's
      own, and of type `chat`. */
  predicate Answers(m: Inbound) {
    !Contains(m.from, GroupSuffix) && !m.fromMe && m.kind == "chat"
  }

  /** `pushname || from`. */
  function FromName(pushname: Option<string>, from: string): string {
    if pushname.Some? && pushname.value != "" then pushname.value else from
  }

  /** Every chat's history holds at most HistoryCap entries, every chat's
      memory at most MemoryCap and the message log at most MessagesCap. */
  ghost predicate BoundedState(history: map<string, seq<HistoryEntry>>, memory: map<string, seq<Turn>>,
                               log: seq<LogEntry>)
  {
    && |log| <= MessagesCap
    && (forall c :: c in history ==> |history[c]| <= HistoryCap)
    && (forall c :: c in memory ==> |memory[c]| <= MemoryCap)
  }

  /** The reply generator keeps every chat's memory within MemoryCap. */
  lemma RespondKeepsMemoryBounded(persona: Option<Profile>, memory: map<string, seq<Turn>>,
                                  message: string, from: string, gemini: Prompt -> Option<string>)
    requires forall c :: c in memory ==> |memory[c]| <= MemoryCap
    ensures var o := Respond(persona, memory, message, from, gemini);
      forall c :: c in o.memory ==> |o.memory[c]| <= MemoryCap
  {
    if persona.Some? {
      var past := EntriesOf(memory, from);
      var answer := gemini(Prompt(persona.value, past, message));
      var o := Respond(persona, memory, message, from, gemini);
      if answer.None? {
        assert o.memory == memory[from := past];
      } else {
        var reply := Truncate(answer.value);
        RememberShape(past, message, reply);
        assert o.memory == memory[from := Remember(past, message, reply)];
      }
    }
  }

  /** Every active profile has the id of the active profile, exactly one
      profile is active, and ids are unique. */
  ghost predicate Consistent(ps: seq<Profile>, active: Option<Profile>) {
    && UniqueIds(ps)
    && ActiveCount(ps) == 1
    && active.Some?
    && (forall k :: 0 <= k < |ps| && ps[k].active ==> ps[k].id == active.value.id)
  }

  class LegacyBot {
    var profiles: seq<Profile>
    var activeProfile: Option<Profile>
    var blacklist: seq<string>
    var chatHistory: map<string, seq<HistoryEntry>>
    var chatMemory: map<string, seq<Turn>>
    var messages: seq<LogEntry>
    ghost var log: seq<Effect>

    ghost predicate Bounded()
      reads this
    {
      BoundedState(chatHistory, chatMemory, messages)
    }

    ghost predicate ProfilesConsistent()
      reads this
    {
      Consistent(profiles, activeProfile)
    }

    /** The globals before `loadData`. */
    constructor ()
      ensures profiles == [] && activeProfile == None && blacklist == []
      ensures chatHistory == map[] && chatMemory == map[] && messages == [] && log == []
      ensures Bounded()
    {
      profiles := [];
      activeProfile := None;
      blacklist := [];
      chatHistory := map[];
      chatMemory := map[];
      messages := [];
      log := [];
    }

    /** The profile part of `loadData`: the stored profiles, or the default
      profile when none are stored; then the active profile is the first
      active one, else the first one. */
    method LoadProfiles(stored: Option<seq<Profile>>)
      modifies this`profiles, this`activeProfile
      ensures profiles == if stored.Some? then stored.value else [DefaultProfile]
      ensures activeProfile == SelectActive(profiles)
      ensures UniqueIds(profiles) && ActiveCount(profiles) == 1 ==> ProfilesConsistent()
      ensures stored.None? ==> ProfilesConsistent()
    {
      if stored.Some? {
        profiles := stored.value;
      } else {
        profiles := [DefaultProfile];
      }
      activeProfile := SelectActive(profiles);
      if UniqueIds(profiles) && ActiveCount(profiles) == 1 {
        ActiveCountZero(profiles);
        var f := FirstActive(profiles);
        forall k | 0 <= k < |profiles| && profiles[k].active
          ensures profiles[k].id == activeProfile.value.id
        {
          UniqueActive(profiles, k, f);
        }
      }
      assert ActiveCount([DefaultProfile]) == 1 + ActiveCount([DefaultProfile][1..]);
    }

    /** `generateAIResponse(message, fromNumber)`. */
    method GenerateAIResponse(message: string, fromNumber: string, gemini: Prompt -> Option<string>)
      returns (reply: string)
      modifies this`chatMemory, this`log
      ensures var o := Respond(ResolvePersona(profiles, activeProfile, fromNumber), old(chatMemory), message, fromNumber, gemini);
        && reply == o.reply && chatMemory == o.memory
        && log == old(log) + (if o.request.Some? then [GeminiCall(o.request.value)] else [])
    {
      var persona := ResolvePersona(profiles, activeProfile, fromNumber);
      if persona.None? {
        return FailureReply;
      }
      var profile := persona.value;
      ghost var memory0 := chatMemory;
      if fromNumber !in chatMemory {
        chatMemory := chatMemory[fromNumber := []];
      }
      ghost var past := chatMemory[fromNumber];
      assert past == EntriesOf(memory0, fromNumber);
      var request := Prompt(profile, chatMemory[fromNumber], message);
      log := log + [GeminiCall(request)];
      var answer := gemini(request);
      if answer.None? {
        return FailureReply;
      }
      var aiResponse := Truncate(answer.value);
      StoreExchange(fromNumber, message, aiResponse);
      reply := aiResponse;
    }

    /** The memory step of `generateAIResponse`: the message and the reply
      are pushed onto the chat's memory, which then keeps its newest
      MemoryCap entries; the other chats are untouched. */
    method StoreExchange(fromNumber: string, message: string, aiResponse: string)
      requires fromNumber in chatMemory
      modifies this`chatMemory
      ensures chatMemory == old(chatMemory)[fromNumber := Remember(old(chatMemory)[fromNumber], message, aiResponse)]
    {
      var turns := chatMemory[fromNumber];
      turns := turns + [Turn(UserRole, message)];
      turns := turns + [Turn(ModelRole, aiResponse)];
      if |turns| > MemoryCap {
        turns := turns[|turns| - MemoryCap..];
      }
      assert turns == Remember(old(chatMemory)[fromNumber], message, aiResponse);
      chatMemory := chatMemory[fromNumber := turns];
    }

    /** The `message` handler. A blacklisted sender changes nothing. Any
      other message is appended to its chat's history, which keeps the
      newest HistoryCap entries. Only a message the handler answers goes
      on: the reply is generated, and then, when there is an active
      profile, the exchange is put at the front of the message log (which
      keeps the newest MessagesCap entries) and the reply is sent; without
      one, reading its name throws and the error reply is sent instead. */
    method OnMessage(m: Inbound, timestamp: string, id: int, pushname: Option<string>,
                     gemini: Prompt -> Option<string>)
      modifies this`chatHistory, this`chatMemory, this`messages, this`log
      ensures m.from in blacklist ==>
        chatHistory == old(chatHistory) && chatMemory == old(chatMemory)
        && messages == old(messages) && log == old(log)
      ensures m.from !in blacklist ==>
        chatHistory == old(chatHistory)[m.from :=
          Last(EntriesOf(old(chatHistory), m.from) + [HistoryEntry(m.body, m.fromMe, timestamp, m.kind)], HistoryCap)]
      ensures m.from !in blacklist && !Answers(m) ==>
        chatMemory == old(chatMemory) && messages == old(messages) && log == old(log)
      ensures var o := Respond(ResolvePersona(profiles, activeProfile, m.from), old(chatMemory), m.body, m.from, gemini);
        m.from !in blacklist && Answers(m) ==>
        && chatMemory == o.memory
        && (activeProfile.None? ==>
              && messages == old(messages)
              && log == old(log) + (if o.request.Some? then [GeminiCall(o.request.value)] else [])
                        + [Replied(m.from, HandlerErrorReply)])
        && (activeProfile.Some? ==>
              && messages == First([LogEntry(id, m.from, FromName(pushname, m.from), m.body, o.reply,
                                             timestamp, activeProfile.value.name)] + old(messages), MessagesCap)
              && log == old(log) + (if o.request.Some? then [GeminiCall(o.request.value)] else [])
                        + [Replied(m.from, o.reply)])
      ensures old(Bounded()) ==> Bounded()
    {
      var chatKey := m.from;
      if chatKey in blacklist {
        return;
      }
      RecordHistory(m, timestamp);
      if Contains(m.from, GroupSuffix) || m.fromMe || m.kind != "chat" {
        return;
      }
      AnswerMessage(m, timestamp, id, pushname, gemini);
    }

    /** The part of the `message` handler that answers: the reply is
      generated; with an active profile the exchange goes to the front of
      the message log and the reply is sent, and without one the error
      reply is sent. The memory and log bounds are kept. */
    method AnswerMessage(m: Inbound, timestamp: string, id: int, pushname: Option<string>,
                         gemini: Prompt -> Option<string>)
      modifies this`chatMemory, this`messages, this`log
      ensures var o := Respond(ResolvePersona(profiles, activeProfile, m.from), old(chatMemory), m.body, m.from, gemini);
        && chatMemory == o.memory
        && (activeProfile.None? ==>
              && messages == old(messages)
              && log == old(log) + (if o.request.Some? then [GeminiCall(o.request.value)] else [])
                        + [Replied(m.from, HandlerErrorReply)])
        && (activeProfile.Some? ==>
              && messages == First([LogEntry(id, m.from, FromName(pushname, m.from), m.body, o.reply,
                                             timestamp, activeProfile.value.name)] + old(messages), MessagesCap)
              && log == old(log) + (if o.request.Some? then [GeminiCall(o.request.value)] else [])
                        + [Replied(m.from, o.reply)])
      ensures (forall c :: c in old(chatMemory) ==> |old(chatMemory)[c]| <= MemoryCap) ==>
        forall c :: c in chatMemory ==> |chatMemory[c]| <= MemoryCap
      ensures |old(messages)| <= MessagesCap ==> |messages| <= MessagesCap
    {
      ghost var memory0 := chatMemory;
      var aiResponse := GenerateAIResponse(m.body, m.from, gemini);
      if forall c :: c in memory0 ==> |memory0[c]| <= MemoryCap {
        RespondKeepsMemoryBounded(ResolvePersona(profiles, activeProfile, m.from), memory0, m.body, m.from, gemini);
      }
      if activeProfile.None? {
        log := log + [Replied(m.from, HandlerErrorReply)];
        return;
      }
      var messageData := LogEntry(id, m.from, FromName(pushname, m.from), m.body, aiResponse,
                                  timestamp, activeProfile.value.name);
      RecordExchange(messageData);
      log := log + [Replied(m.from, aiResponse)];
    }

    /** The history step of the `message` handler: the message is appended
      to its chat's history (created when missing), which then keeps its
      newest HistoryCap entries; the other chats are untouched. */
    method RecordHistory(m: Inbound, timestamp: string)
      modifies this`chatHistory
      ensures chatHistory == old(chatHistory)[m.from :=
        Last(EntriesOf(old(chatHistory), m.from) + [HistoryEntry(m.body, m.fromMe, timestamp, m.kind)], HistoryCap)]
    {
      var chatKey := m.from;
      if chatKey !in chatHistory {
        chatHistory := chatHistory[chatKey := []];
      }
      var entries := chatHistory[chatKey];
      ghost var past := entries;
      assert past == EntriesOf(old(chatHistory), chatKey);
      entries := entries + [HistoryEntry(m.body, m.fromMe, timestamp, m.kind)];
      if |entries| > HistoryCap {
        entries := entries[|entries| - HistoryCap..];
      }
      assert entries == Last(past + [HistoryEntry(m.body, m.fromMe, timestamp, m.kind)], HistoryCap);
      chatHistory := chatHistory[chatKey := entries];
    }

    /** The log step of the `message` handler: the entry goes to the front
      of the message log, which then keeps its newest MessagesCap entries. */
    method RecordExchange(entry: LogEntry)
      modifies this`messages
      ensures messages == First([entry] + old(messages), MessagesCap)
    {
      messages := [entry] + messages;
      if |messages| > MessagesCap {
        messages := messages[..MessagesCap];
      }
    }

    /** `forEach(p => p.active = false)`. */
    method DeactivateAll()
      modifies this`profiles
      ensures profiles == Deactivated(old(profiles))
    {
      ghost var ps := profiles;
      var i := 0;
      while i < |profiles|
        invariant 0 <= i <= |profiles| == |ps|
        invariant forall k :: 0 <= k < i ==> profiles[k] == ps[k].(active := false)
        invariant forall k :: i <= k < |profiles| ==> profiles[k] == ps[k]
      {
        profiles := profiles[i := profiles[i].(active := false)];
        i := i + 1;
      }
    }

    /** `createProfile` with the user's answers and `id` the creation time.
      An empty instruction stays empty; the style starts empty. */
    method CreateProfile(id: int, name: string, phone: string, tone: string,
                         systemInstruction: string, makeActive: bool)
      modifies this`profiles, this`activeProfile
      ensures var p := Profile(id, name, phone, tone, makeActive, systemInstruction, None, "");
        && profiles == (if makeActive then Deactivated(old(profiles)) else old(profiles)) + [p]
        && activeProfile == (if makeActive then Some(p) else old(activeProfile))
      ensures makeActive ==> ActiveCount(profiles) == 1 && profiles[|profiles| - 1].active
      ensures old(ProfilesConsistent()) && (forall k :: 0 <= k < |old(profiles)| ==> old(profiles)[k].id != id)
        ==> ProfilesConsistent()
    {
      ghost var ps := profiles;
      var newProfile := Profile(id, name, phone, tone, makeActive, systemInstruction, None, "");
      if makeActive {
        DeactivateAll();
        activeProfile := Some(newProfile);
      }
      ghost var before := profiles;
      profiles := profiles + [newProfile];
      ActiveCountAppend(before, [newProfile]);
      assert ActiveCount([newProfile]) == (if makeActive then 1 else 0) + ActiveCount([newProfile][1..]);
      if makeActive {
        ActiveCountZero(before);
      }
    }

    /** `activateProfile` with the profile at menu position `selected`: every
      flag cleared, then the first profile with the chosen id made active. */
    method ActivateProfile(selected: nat)
      requires profiles != [] ==> selected < |profiles|
      modifies this`profiles, this`activeProfile
      ensures old(profiles) == [] ==> profiles == old(profiles) && activeProfile == old(activeProfile)
      ensures old(profiles) != [] ==>
        var i := FindId(old(profiles), old(profiles)[selected].id);
        && profiles == Deactivated(old(profiles))[i := old(profiles)[i].(active := true)]
        && activeProfile == Some(profiles[i])
        && ActiveCount(profiles) == 1
      ensures old(profiles) != [] && UniqueIds(old(profiles)) ==>
        ProfilesConsistent() && activeProfile.value.id == old(profiles)[selected].id
    {
      if profiles == [] {
        return;
      }
      ghost var ps := profiles;
      var profileId := profiles[selected].id;
      DeactivateAll();
      var i := FindId(profiles, profileId);
      assert FindId(profiles, profileId) == FindId(ps, profileId) by {
        SameIdsSameFind(profiles, ps, profileId);
      }
      profiles := profiles[i := profiles[i].(active := true)];
      activeProfile := Some(profiles[i]);
      ActivateLeavesOneActive(ps, i);
    }

    /** `deleteProfile` with the profile at menu position `selected` and the
      user's confirmation: the first profile with the chosen id is removed;
      when it had the active profile's id and profiles remain, the new
      first profile becomes the active one. */
    method DeleteProfile(selected: nat, confirm: bool)
      requires profiles != [] ==> selected < |profiles|
      modifies this`profiles, this`activeProfile
      ensures old(profiles) == [] || !confirm ==> profiles == old(profiles) && activeProfile == old(activeProfile)
      ensures old(profiles) != [] && confirm ==>
        var id := old(profiles)[selected].id;
        var i := FindId(old(profiles), id);
        var rest := old(profiles)[..i] + old(profiles)[i + 1..];
        if old(activeProfile).Some? && old(activeProfile).value.id == id && rest != [] then
          profiles == rest[0 := rest[0].(active := true)] && activeProfile == Some(profiles[0])
        else
          profiles == rest && activeProfile == old(activeProfile)
      ensures old(ProfilesConsistent()) && |old(profiles)| > 1 && confirm ==> ProfilesConsistent()
    {
      if profiles == [] || !confirm {
        return;
      }
      ghost var ps := profiles;
      ghost var consistent := ProfilesConsistent();
      var profileId := profiles[selected].id;
      var profileIndex := FindId(profiles, profileId);
      profiles := profiles[..profileIndex] + profiles[profileIndex + 1..];
      var takeOver := activeProfile.Some? && activeProfile.value.id == profileId && |profiles| > 0;
      if takeOver {
        profiles := profiles[0 := profiles[0].(active := true)];
        activeProfile := Some(profiles[0]);
      }
      if consistent && |ps| > 1 {
        DeleteStaysConsistent(ps, old(activeProfile), profileIndex);
      }
    }

    /** `addToBlacklist`: the number in its stored form is appended unless
      already listed. */
    method AddToBlacklist(chatNumber: string) returns (added: bool)
      modifies this`blacklist
      ensures added <==> FormatContact(chatNumber) !in old(blacklist)
      ensures blacklist == if added then old(blacklist) + [FormatContact(chatNumber)] else old(blacklist)
      ensures old(NoDuplicates(blacklist)) ==> NoDuplicates(blacklist)
    {
      var formattedNumber := FormatContact(chatNumber);
      if formattedNumber in blacklist {
        return false;
      }
      blacklist := blacklist + [formattedNumber];
      added := true;
    }

    /** `removeFromBlacklist` with the entry at menu position `selected` and
      the user's confirmation: every occurrence of it is dropped. */
    method RemoveFromBlacklist(selected: nat, confirm: bool)
      requires blacklist != [] ==> selected < |blacklist|
      modifies this`blacklist
      ensures blacklist == if old(blacklist) != [] && confirm then Without(old(blacklist), old(blacklist)[selected])
                           else old(blacklist)
      ensures old(NoDuplicates(blacklist)) ==> NoDuplicates(blacklist)
    {
      if blacklist == [] || !confirm {
        return;
      }
      ghost var bl := blacklist;
      var chatNumber := blacklist[selected];
      blacklist := Without(blacklist, chatNumber);
      if NoDuplicates(bl) {
        WithoutNoDuplicates(bl, chatNumber);
      }
    }
  }

  /** Two lists with the same ids at every index give the same `findIndex`. */
  lemma {:induction false} SameIdsSameFind(a: seq<Profile>, b: seq<Profile>, id: int)
    requires |a| == |b| && forall k :: 0 <= k < |a| ==> a[k].id == b[k].id
    ensures FindId(a, id) == FindId(b, id)
  {
    if a != [] {
      SameIdsSameFind(a[1..], b[1..], id);
    }
  }

  /** Deleting one profile keeps the ids unique. */
  lemma DeleteKeepsUniqueIds(ps: seq<Profile>, i: nat)
    requires UniqueIds(ps) && i < |ps|
    ensures UniqueIds(ps[..i] + ps[i + 1..])
  {
    var rest := ps[..i] + ps[i + 1..];
    forall a, b | 0 <= a < b < |rest|
      ensures rest[a].id != rest[b].id
    {
      var a' := if a < i then a else a + 1;
      var b' := if b < i then b else b + 1;
      assert rest[a] == ps[a'] && rest[b] == ps[b'] && a' < b';
    }
  }

  /** Deleting from a consistent list of at least two profiles keeps it
      consistent. */
  lemma DeleteStaysConsistent(ps: seq<Profile>, active: Option<Profile>, i: nat)
    requires Consistent(ps, active) && |ps| > 1 && i < |ps|
    ensures var rest := ps[..i] + ps[i + 1..];
      if active.value.id == ps[i].id then Consistent(rest[0 := rest[0].(active := true)], Some(rest[0].(active := true)))
      else Consistent(rest, active)
  {
    var rest := ps[..i] + ps[i + 1..];
    assert forall k :: 0 <= k < |rest| ==> rest[k] == if k < i then ps[k] else ps[k + 1];
    DeleteKeepsUniqueIds(ps, i);
    DeleteKeepsOneActive(ps, i);
    if active.value.id == ps[i].id {
      ActiveCountZero(ps);
      var f := FirstActive(ps);
      assert ps[f].id == active.value.id;
      assert f == i;
      var r := rest[0 := rest[0].(active := true)];
      ActiveCountZero(rest);
      assert forall k :: 0 <= k < |r| ==> r[k].id == rest[k].id;
      assert UniqueIds(r);
      assert forall k :: 0 <= k < |r| && r[k].active ==> k == 0;
    } else {
      if ps[i].active {
        assert false;
      }
    }
  }
}
