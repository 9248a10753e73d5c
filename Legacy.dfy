/** The in-memory logic of the single-file bot index.js: profiles, the
    persona and tone of a reply, the request sent to the Gemini model, the
    truncation of its answer, the per-chat conversation memory, and the
    blacklist format. The state these act on is in LegacyApp. */
module Legacy {
  import opened Wrappers
  import opened Text

  /** A persona. `customStyle` stands for `customStyle || ''`, so a
      missing style is the empty string. */
  datatype Profile = Profile(
    id: int, name: string, phone: string, tone: string, active: bool,
    systemInstruction: string, learnFromChat: Option<string>, customStyle: string)

  const DefaultInstruction: string :=
    "Eres David, un joven mexicano real de 20 años. Hablas de manera muy natural y casual como cualquier chavo de tu edad. Usas expresiones mexicanas como \"xd\", \"ps\", \"we\", \"bro\", \"tons\", \"sha\", \"nel\", \"ajam\", \"nmms\", \"alv\", \"oc\", \"ntp\", \"smn\". Respondes de forma corta y directa, a veces con una sola palabra o expresión. Eres relajado, amigable pero no demasiado efusivo. Si alguien pregunta por David, dices que no se encuentra por el momento. Nunca revelas que eres una IA."
  const DefaultStyle: string :=
    "Habla como un joven mexicano real, usa modismos del español mexicano, respuestas cortas y naturales, expresiones como \"xd\", \"ps\", \"we\", \"bro\", \"tons\", \"nel\", \"ajam\", etc. Sé casual y relajado."

  /** The profile `loadData` creates when no profile file exists. */
  const DefaultProfile: Profile :=
    Profile(1, "David", "+1234567890", "casual", true, DefaultInstruction, None, DefaultStyle)

  // ---------------------------------------------------------------------
  // Profiles

  /** Index of the first profile satisfying `active`, or |ps| (`find`). */
  function FirstActive(ps: seq<Profile>): (i: nat)
    ensures i <= |ps|
    ensures i < |ps| ==> ps[i].active
    ensures forall k :: 0 <= k < i ==> !ps[k].active
  {
    if ps == [] then 0 else if ps[0].active then 0 else 1 + FirstActive(ps[1..])
  }

  /** Index of the first profile whose phone is `phone`, or |ps|. */
  function FindPhone(ps: seq<Profile>, phone: string): (i: nat)
    ensures i <= |ps|
    ensures i < |ps| ==> ps[i].phone == phone
    ensures forall k :: 0 <= k < i ==> ps[k].phone != phone
  {
    if ps == [] then 0 else if ps[0].phone == phone then 0 else 1 + FindPhone(ps[1..], phone)
  }

  /** Index of the first profile whose id is `id`, or |ps| (`findIndex`, with
      -1 written as |ps|). */
  function FindId(ps: seq<Profile>, id: int): (i: nat)
    ensures i <= |ps|
    ensures i < |ps| ==> ps[i].id == id
    ensures forall k :: 0 <= k < i ==> ps[k].id != id
  {
    if ps == [] then 0 else if ps[0].id == id then 0 else 1 + FindId(ps[1..], id)
  }

  /** The active profile `loadData` picks: the first active one, else the
      first one; none only when there are no profiles. The first active
      profile is the one picked, not merely some active one. */
  function SelectActive(ps: seq<Profile>): (r: Option<Profile>)
    ensures r.None? <==> ps == []
    ensures r.Some? ==> r.value in ps
    ensures (exists k :: 0 <= k < |ps| && ps[k].active) ==> r.Some? && r.value.active
    ensures FirstActive(ps) < |ps| ==> r == Some(ps[FirstActive(ps)])
    ensures (forall k :: 0 <= k < |ps| ==> !ps[k].active) && ps != [] ==> r == Some(ps[0])
  {
    var i := FirstActive(ps);
    if i < |ps| then Some(ps[i]) else if ps != [] then Some(ps[0]) else None
  }

  /** The number of active profiles. */
  function ActiveCount(ps: seq<Profile>): nat {
    if ps == [] then 0 else (if ps[0].active then 1 else 0) + ActiveCount(ps[1..])
  }

  lemma {:induction false} ActiveCountAppend(a: seq<Profile>, b: seq<Profile>)
    ensures ActiveCount(a + b) == ActiveCount(a) + ActiveCount(b)
  {
    if a == [] {
      assert a + b == b;
    } else {
      assert (a + b)[1..] == a[1..] + b;
      ActiveCountAppend(a[1..], b);
    }
  }

  /** ActiveCount counts the indices whose profile is active. */
  lemma {:induction false} ActiveCountZero(ps: seq<Profile>)
    ensures ActiveCount(ps) == 0 <==> forall k :: 0 <= k < |ps| ==> !ps[k].active
  {
    if ps != [] {
      ActiveCountZero(ps[1..]);
      assert forall k :: 1 <= k < |ps| ==> ps[k] == ps[1..][k - 1];
    }
  }

  /** With exactly one active profile, any two active indices are equal. */
  lemma {:induction false} UniqueActive(ps: seq<Profile>, a: nat, b: nat)
    requires ActiveCount(ps) == 1 && a < |ps| && b < |ps| && ps[a].active && ps[b].active
    ensures a == b
  {
    if ps[0].active {
      ActiveCountZero(ps[1..]);
    } else {
      assert a != 0 && b != 0;
      UniqueActive(ps[1..], a - 1, b - 1);
    }
  }

  /** Setting one flag in a list with no active profile leaves exactly that
      one active. */
  lemma {:induction false} ActivateOne(ps: seq<Profile>, i: nat)
    requires i < |ps| && ActiveCount(ps) == 0
    ensures ActiveCount(ps[i := ps[i].(active := true)]) == 1
  {
    var r := ps[i := ps[i].(active := true)];
    assert r == ps[..i] + [r[i]] + ps[i + 1..];
    assert ps == ps[..i] + [ps[i]] + ps[i + 1..];
    ActiveCountAppend(ps[..i] + [r[i]], ps[i + 1..]);
    ActiveCountAppend(ps[..i], [r[i]]);
    ActiveCountAppend(ps[..i] + [ps[i]], ps[i + 1..]);
    ActiveCountAppend(ps[..i], [ps[i]]);
    assert ActiveCount([r[i]]) == 1 + ActiveCount([r[i]][1..]);
  }

  /** `forEach(p => p.active = false)`, as a value. */
  function Deactivated(ps: seq<Profile>): (r: seq<Profile>)
    ensures |r| == |ps| && forall k :: 0 <= k < |ps| ==> r[k] == ps[k].(active := false)
  {
    if ps == [] then [] else [ps[0].(active := false)] + Deactivated(ps[1..])
  }

  /** Clearing every flag and then setting the flag of profile `i` leaves
      exactly one active profile, profile `i`, and changes nothing else. */
  lemma ActivateLeavesOneActive(ps: seq<Profile>, i: nat)
    requires i < |ps|
    ensures var r := Deactivated(ps)[i := ps[i].(active := true)];
      && ActiveCount(r) == 1 && r[i].active
      && (forall k :: 0 <= k < |r| && k != i ==> !r[k].active)
      && (forall k :: 0 <= k < |r| ==> r[k].(active := false) == ps[k].(active := false))
  {
    var d := Deactivated(ps);
    ActiveCountZero(d);
    assert d[i].(active := true) == ps[i].(active := true);
    ActivateOne(d, i);
  }

  /** Removing profile `i` from a list with exactly one active profile: when
      `i` was the active one none is left, and setting the flag of the new
      first profile restores exactly one; otherwise one is still active. */
  lemma DeleteKeepsOneActive(ps: seq<Profile>, i: nat)
    requires i < |ps| && |ps| > 1 && ActiveCount(ps) == 1
    ensures var rest := ps[..i] + ps[i + 1..];
      && (ps[i].active ==> ActiveCount(rest) == 0 && ActiveCount(rest[0 := rest[0].(active := true)]) == 1)
      && (!ps[i].active ==> ActiveCount(rest) == 1)
  {
    var rest := ps[..i] + ps[i + 1..];
    assert ps == ps[..i] + ([ps[i]] + ps[i + 1..]);
    ActiveCountAppend(ps[..i], [ps[i]] + ps[i + 1..]);
    ActiveCountAppend([ps[i]], ps[i + 1..]);
    ActiveCountAppend(ps[..i], ps[i + 1..]);
    assert ActiveCount([ps[i]]) == (if ps[i].active then 1 else 0) + ActiveCount([ps[i]][1..]);
    if ps[i].active {
      ActivateOne(rest, 0);
    }
  }

  /** No two profiles share an id. */
  predicate UniqueIds(ps: seq<Profile>) {
    forall i, j :: 0 <= i < j < |ps| ==> ps[i].id != ps[j].id
  }

  /** With unique ids, the profile chosen from the menu is the one `find`
      and `findIndex` return for its id. */
  lemma FindIdOfUnique(ps: seq<Profile>, selected: nat)
    requires UniqueIds(ps) && selected < |ps|
    ensures FindId(ps, ps[selected].id) == selected
  {
  }

  // ---------------------------------------------------------------------
  // Persona and tone

  /** The persona of `generateAIResponse` for a message from `from`: the
      profile whose phone is the sender, else the active profile, else the
      first active profile, else the first profile. */
  function ResolvePersona(ps: seq<Profile>, active: Option<Profile>, from: string): Option<Profile> {
    var i := FindPhone(ps, from);
    if i < |ps| then Some(ps[i])
    else if active.Some? then active
    else SelectActive(ps)
  }

  /** A persona is found unless there are no profiles and no active one; it
      is a stored profile or the active one; when a profile has the
      sender's phone, the first such profile is the persona; otherwise the
      active profile is, and without one the profile `loadData` would pick. */
  lemma PersonaChoice(ps: seq<Profile>, active: Option<Profile>, from: string)
    ensures var r := ResolvePersona(ps, active, from);
      && (r.None? <==> ps == [] && active.None?)
      && (r.Some? ==> r.value in ps || active == Some(r.value))
      && ((exists k :: 0 <= k < |ps| && ps[k].phone == from) ==>
            r == Some(ps[FindPhone(ps, from)]) && r.value.phone == from)
      && ((forall k :: 0 <= k < |ps| ==> ps[k].phone != from) && active.Some? ==> r == active)
      && ((forall k :: 0 <= k < |ps| ==> ps[k].phone != from) && active.None? ==> r == SelectActive(ps))
  {
  }

  const AmigableTone: string := "Responde de manera amigable, casual y cercana."
  const CasualTone: string :=
    "Responde de manera muy casual, relajada y natural como un joven mexicano. Usa expresiones cortas y modismos. Mantén las respuestas breves (máximo 2-3 líneas)."
  const ProfesionalTone: string := "Responde de manera profesional, formal y técnica."
  const DivertidoTone: string := "Responde de manera divertida, con humor y emojis apropiados."
  const SerioTone: string := "Responde de manera seria, directa y concisa."
  const DefaultTone: string := "Responde de manera útil y natural."

  /** The directive for a profile's tone. */
  function TonePrompt(tone: string): string {
    if tone == "amigable" then AmigableTone
    else if tone == "casual" then CasualTone
    else if tone == "profesional" then ProfesionalTone
    else if tone == "divertido" then DivertidoTone
    else if tone == "serio" then SerioTone
    else DefaultTone
  }

  /** The five known tones get five different directives, and every other
      tone gets the default one, which none of the five gets. */
  lemma ToneSwitch(tone: string)
    ensures TonePrompt(tone) == DefaultTone <==>
      tone !in ["amigable", "casual", "profesional", "divertido", "serio"]
    ensures TonePrompt(tone) in [AmigableTone, CasualTone, ProfesionalTone, DivertidoTone, SerioTone, DefaultTone]
    ensures forall t :: t in ["amigable", "casual", "profesional", "divertido", "serio"] && t != tone ==>
      TonePrompt(t) != TonePrompt(tone)
  {
    assert |AmigableTone| != |DefaultTone| && |CasualTone| != |DefaultTone|;
    assert |ProfesionalTone| != |DefaultTone| && |DivertidoTone| != |DefaultTone|;
    assert |SerioTone| != |DefaultTone| && |AmigableTone| != |CasualTone|;
    assert |AmigableTone| != |ProfesionalTone| && |AmigableTone| != |DivertidoTone|;
    assert |AmigableTone| != |SerioTone| && |CasualTone| != |ProfesionalTone|;
    assert |CasualTone| != |DivertidoTone| && |CasualTone| != |SerioTone|;
    assert |ProfesionalTone| != |DivertidoTone| && |ProfesionalTone| != |SerioTone|;
    assert |DivertidoTone| != |SerioTone|;
  }

  /** The fixed rules appended to every instruction turn. */
  const ImportantBlock: string :=
    "IMPORTANTE:\n"
    + "        - Mantén las respuestas EXTREMADAMENTE cortas (máximo 1-2 palabras o una línea corta)\n"
    + "        - Usa expresiones mexicanas naturales como \"xd\", \"ps\", \"we\", \"bro\", \"tons\", \"nel\", \"ajam\", \"nmms\", \"alv\", \"oc\", \"ntp\", \"smn\", \"sha\", \"tranca\"\n"
    + "        - Si te saludan con \"hola\" responde \"ola\" o \"que tal\" o \"que pasho\"\n"
    + "        - Si te preguntan cómo estás, responde cosas como \"aquí andamos\", \"todo bien\", \"ps ahí\", \"tranca\"\n"
    + "        - Para despedidas usa \"nos vemos\", \"bye\", \"sha\"\n"
    + "        - Para confirmaciones usa \"ajam\", \"si\", \"oc\", \"zi\"\n"
    + "        - Para negaciones usa \"nel\", \"nop\", \"no\"\n"
    + "        - Responde de manera muy casual y relajada\n"
    + "        - A veces responde solo con \"xd\" si algo es gracioso"

  /** The text of the first turn of every request: the persona's
      instruction, the tone directive and the custom style, separated by
      single spaces, then the fixed rules. */
  function Instruction(p: Profile): string {
    p.systemInstruction + " " + TonePrompt(p.tone) + " " + p.customStyle + " " + ImportantBlock
  }

  /** The instruction starts with the persona's own instruction, carries
      the tone directive right after it and ends with the fixed rules. */
  lemma InstructionCarriesPersona(p: Profile)
    ensures StartsWith(Instruction(p), p.systemInstruction)
    ensures OccursAt(Instruction(p), TonePrompt(p.tone), |p.systemInstruction| + 1)
    ensures Contains(Instruction(p), TonePrompt(p.tone))
    ensures |Instruction(p)| >= |ImportantBlock|
      && Instruction(p)[|Instruction(p)| - |ImportantBlock|..] == ImportantBlock
  {
    SpacedParts(p.systemInstruction, TonePrompt(p.tone), p.customStyle, ImportantBlock);
  }

  lemma SpacedParts(a: string, t: string, m: string, b: string)
    ensures var s := a + " " + t + " " + m + " " + b;
      && StartsWith(s, a) && OccursAt(s, t, |a| + 1) && Contains(s, t)
      && |s| >= |b| && s[|s| - |b|..] == b
  {
    var s := a + " " + t + " " + m + " " + b;
    assert s == a + ((" " + t) + (" " + m + " " + b));
    assert s[..|a|] == a;
    assert s[|a| + 1..|a| + 1 + |t|] == t;
    assert OccursAt(s, t, |a| + 1);
  }

  // ---------------------------------------------------------------------
  // Conversation memory and the request

  datatype Role = UserRole | ModelRole

  /** One entry of `contents`; its `parts` hold a single text. */
  datatype Turn = Turn(role: Role, text: string)

  const MemoryWindow: nat := 10
  const MemoryCap: nat := 40
  const HistoryCap: nat := 100
  const MessagesCap: nat := 100

  /** `s.slice(-n)` for n > 0: the last n elements, or all of them. */
  function Last<T>(s: seq<T>, n: nat): (r: seq<T>)
    ensures |r| <= n && |r| <= |s|
    ensures forall i :: 0 <= i < |r| ==> r[i] == s[|s| - |r| + i]
    ensures |s| <= n ==> r == s
    ensures |s| >= n ==> |r| == n
  {
    if |s| <= n then s else s[|s| - n..]
  }

  /** `s.slice(0, n)`: the first n elements, or all of them. */
  function First<T>(s: seq<T>, n: nat): (r: seq<T>)
    ensures |r| <= n && |r| <= |s|
    ensures forall i :: 0 <= i < |r| ==> r[i] == s[i]
    ensures |s| <= n ==> r == s
    ensures |s| >= n ==> |r| == n
  {
    if |s| <= n then s else s[..n]
  }

  /** The turns of a Gemini request: the instruction, at most the last
      MemoryWindow remembered turns in order, then the new message. */
  function Contents(instruction: string, memory: seq<Turn>, message: string): seq<Turn> {
    [Turn(UserRole, instruction)] + Last(memory, MemoryWindow) + [Turn(UserRole, message)]
  }

  lemma ContentsShape(instruction: string, memory: seq<Turn>, message: string)
    ensures var c := Contents(instruction, memory, message);
      && 2 <= |c| <= MemoryWindow + 2
      && c[0] == Turn(UserRole, instruction) && c[|c| - 1] == Turn(UserRole, message)
      && c[1..|c| - 1] == memory[|memory| - (|c| - 2)..]
      && (|memory| <= MemoryWindow ==> c[1..|c| - 1] == memory)
  {
    var c := Contents(instruction, memory, message);
    assert c[1..|c| - 1] == Last(memory, MemoryWindow);
  }

  /** `chatMemory[from]` after a successful reply: the message and the reply
      appended, then cut to the last MemoryCap entries. */
  function Remember(memory: seq<Turn>, message: string, reply: string): seq<Turn> {
    Last(memory + [Turn(UserRole, message), Turn(ModelRole, reply)], MemoryCap)
  }

  /** The memory ends with the message and then the reply, never exceeds
      MemoryCap, and loses only its oldest entries. */
  lemma RememberShape(memory: seq<Turn>, message: string, reply: string)
    ensures var r := Remember(memory, message, reply);
      var full := memory + [Turn(UserRole, message), Turn(ModelRole, reply)];
      && 2 <= |r| <= MemoryCap
      && r[|r| - 2] == Turn(UserRole, message) && r[|r| - 1] == Turn(ModelRole, reply)
      && r == full[|full| - |r|..]
      && (|memory| + 2 <= MemoryCap ==> r == full)
  {
  }

  /** The request after a reply shows the model that exchange: just before
      the new message, the previous message and then the previous reply. */
  lemma NextRequestRecallsLastExchange(instruction: string, memory: seq<Turn>,
                                       message: string, reply: string, next: string)
    ensures var c := Contents(instruction, Remember(memory, message, reply), next);
      |c| >= 4 && c[|c| - 3] == Turn(UserRole, message) && c[|c| - 2] == Turn(ModelRole, reply)
  {
    var r := Remember(memory, message, reply);
    RememberShape(memory, message, reply);
    var w := Last(r, MemoryWindow);
    assert |w| >= 2;
    assert w[|w| - 2] == r[|r| - 2] && w[|w| - 1] == r[|r| - 1];
    var c := [Turn(UserRole, instruction)] + w + [Turn(UserRole, next)];
    assert c == Contents(instruction, r, next);
    assert c[|c| - 3] == w[|w| - 2] && c[|c| - 2] == w[|w| - 1];
  }

  const GeminiModel: string := "gemini-1.5-flash"
  const MaxOutputTokens: nat := 50

  /** The arguments of `getGenerativeModel` and `generateContent`. The
      response MIME type (`text/plain`) and the temperature (1.0) are fixed. */
  datatype GeminiRequest = GeminiRequest(
    model: string, systemInstruction: string, maxOutputTokens: nat, contents: seq<Turn>)

  /** What a request is made from: the persona, the chat's memory and the
      new message. */
  datatype Prompt = Prompt(persona: Profile, memory: seq<Turn>, message: string)

  /** The request sent for a prompt. */
  function BuildGeminiRequest(pr: Prompt): GeminiRequest {
    GeminiRequest(GeminiModel, pr.persona.systemInstruction, MaxOutputTokens,
                  Contents(Instruction(pr.persona), pr.memory, pr.message))
  }

  /** The request goes to the fixed model with the fixed token limit and
      the persona's own instruction as system instruction; its first turn
      carries the persona's instruction and tone directive, then come at
      most MemoryWindow remembered turns and last the new message. */
  lemma RequestShape(pr: Prompt)
    ensures var r := BuildGeminiRequest(pr);
      && r.model == GeminiModel && r.maxOutputTokens == MaxOutputTokens
      && r.systemInstruction == pr.persona.systemInstruction
      && 2 <= |r.contents| <= MemoryWindow + 2
      && r.contents[0].role == UserRole
      && StartsWith(r.contents[0].text, pr.persona.systemInstruction)
      && Contains(r.contents[0].text, TonePrompt(pr.persona.tone))
      && r.contents[|r.contents| - 1] == Turn(UserRole, pr.message)
  {
    ContentsShape(Instruction(pr.persona), pr.memory, pr.message);
    InstructionCarriesPersona(pr.persona);
  }

  const MaxReplyLength: nat := 80
  const MinCut: int := 20

  /** The answer as sent: trimmed; when longer than MaxReplyLength, its
      first MaxReplyLength characters trimmed again and, when that text has
      a space past index MinCut, cut at its last space. */
  function Truncate(text: string): string {
    var t := Trim(text);
    if |t| > MaxReplyLength then
      var c := Trim(t[..MaxReplyLength]);
      var lastSpace := LastIndexOf(c, ' ');
      if lastSpace > MinCut then c[..lastSpace] else c
    else t
  }

  /** A prefix of a trimmed string is trimmed by trimming its end only, so
      the result is again a prefix. */
  lemma TrimOfPrefix(t: string, n: nat)
    requires Trimmed(t) && 0 < n <= |t|
    ensures |Trim(t[..n])| <= n && Trim(t[..n]) == t[..|Trim(t[..n])|]
  {
    var s := t[..n];
    var a := TrimStart(s);
    assert a == s;
    var r := TrimEnd(a);
    assert Trim(s) == r;
  }

  /** The truncation bound: the reply is at most MaxReplyLength long and a
      prefix of the trimmed answer. A trimmed answer that fits is kept
      whole. When it does not fit, the reply is the trimmed first
      MaxReplyLength characters, or a prefix of them longer than MinCut
      that stops just before a space and leaves no space after it. */
  lemma TruncateBounds(text: string)
    ensures var t := Trim(text); var r := Truncate(text);
      && |r| <= MaxReplyLength
      && |r| <= |t| && r == t[..|r|]
      && (|t| <= MaxReplyLength ==> r == t)
      && (|t| > MaxReplyLength ==>
            var c := Trim(t[..MaxReplyLength]);
            || r == c
            || (|r| > MinCut && |r| < |c| && c[..|r|] == r && c[|r|] == ' '
                && forall k :: |r| < k < |c| ==> c[k] != ' '))
  {
    var t := Trim(text);
    if |t| > MaxReplyLength {
      TrimOfPrefix(t, MaxReplyLength);
      var c := Trim(t[..MaxReplyLength]);
      assert c == t[..|c|];
    }
  }

  // ---------------------------------------------------------------------
  // Blacklist

  const ContactSuffix: string := "@c.us"

  /** The number as stored in the blacklist: with `@c.us` appended unless it
      already contains it. */
  function FormatContact(chatNumber: string): string {
    if Contains(chatNumber, ContactSuffix) then chatNumber else chatNumber + ContactSuffix
  }

  /** The stored form contains `@c.us`, extends the input, and formatting it
      again changes nothing. */
  lemma FormatContactShape(chatNumber: string)
    ensures Contains(FormatContact(chatNumber), ContactSuffix)
    ensures StartsWith(FormatContact(chatNumber), chatNumber)
    ensures Contains(chatNumber, ContactSuffix) <==> FormatContact(chatNumber) == chatNumber
    ensures FormatContact(FormatContact(chatNumber)) == FormatContact(chatNumber)
  {
    var f := chatNumber + ContactSuffix;
    assert f[|chatNumber|..|chatNumber| + |ContactSuffix|] == ContactSuffix;
    assert OccursAt(f, ContactSuffix, |chatNumber|);
    assert f[..|chatNumber|] == chatNumber;
  }

  /** `filter(c => c !== x)`. */
  function Without(s: seq<string>, x: string): (r: seq<string>)
    ensures forall y :: y in r <==> y in s && y != x
    ensures |r| <= |s|
  {
    if s == [] then [] else (if s[0] == x then [] else [s[0]]) + Without(s[1..], x)
  }

  /** Filtering keeps the others in their order: it distributes over
      concatenation, and a list without `x` is left as it is. */
  lemma {:induction false} WithoutKeepsOrder(a: seq<string>, b: seq<string>, x: string)
    ensures Without(a + b, x) == Without(a, x) + Without(b, x)
    ensures x !in a ==> Without(a, x) == a
  {
    if a == [] {
      assert a + b == b;
    } else {
      assert (a + b)[1..] == a[1..] + b;
      WithoutKeepsOrder(a[1..], b, x);
      assert a == [a[0]] + a[1..];
    }
  }

  /** No entry appears twice. */
  predicate NoDuplicates(s: seq<string>) {
    forall i, j :: 0 <= i < j < |s| ==> s[i] != s[j]
  }

  /** Removing an entry keeps a list free of duplicates. */
  lemma {:induction false} WithoutNoDuplicates(s: seq<string>, x: string)
    requires NoDuplicates(s)
    ensures NoDuplicates(Without(s, x))
  {
    if s != [] {
      WithoutNoDuplicates(s[1..], x);
      var t := Without(s[1..], x);
      assert s[0] !in s[1..];
      assert s[0] !in t;
    }
  }
}
